/**
 * `src/components/CIDDisplay.jsx`: how an upload result is classified and
 * described, the links built for its CID and transaction, and the CID
 * version label.
 */
module CidDisplay {
  import opened Wrappers
  import opened Text

  /**
   * The fields of `uploadData` the classification reads. An absent
   * transaction hash or error is the empty string; `confirmed` is whether
   * `uploadData.blockchain?.confirmed` is truthy.
   */
  datatype UploadData = UploadData(
    cid: string, confirmed: bool, transactionHash: string, blockchainError: string, blockchainRetryable: bool)

  datatype BlockchainStatus = Success | Pending | Failure | NoRegistration

  /** `getBlockchainStatus`: confirmed, then a transaction hash, then an error. */
  function GetBlockchainStatus(d: UploadData): (s: BlockchainStatus)
    ensures s == Success <==> d.confirmed
    ensures s == Pending <==> !d.confirmed && d.transactionHash != []
    ensures s == Failure <==> !d.confirmed && d.transactionHash == [] && d.blockchainError != []
    ensures s == NoRegistration <==> !d.confirmed && d.transactionHash == [] && d.blockchainError == []
  {
    if d.confirmed then Success
    else if d.transactionHash != [] then Pending
    else if d.blockchainError != [] then Failure
    else NoRegistration
  }

  /** A hash pending on chain is reported as pending even when an error is also present. */
  lemma HashOutranksError(d: UploadData)
    requires !d.confirmed && d.transactionHash != [] && d.blockchainError != []
    ensures GetBlockchainStatus(d) == Pending
  {}

  const SuccessMessage: string := "Document proof registered " + "on Filecoin blockchain!"
  const PendingMessage: string := "Blockchain registration in progress..."
  const FailurePrefix: string := "Blockchain registration failed: "
  const NoRegistrationMessage: string := "File uploaded to IPFS only " + "(wallet not connected)"

  /** `getBlockchainMessage`. */
  function BlockchainMessage(d: UploadData): (m: string)
    ensures GetBlockchainStatus(d) == Failure ==> m == FailurePrefix + d.blockchainError
  {
    match GetBlockchainStatus(d)
    case Success => SuccessMessage
    case Pending => PendingMessage
    case Failure => FailurePrefix + d.blockchainError
    case NoRegistration => NoRegistrationMessage
  }

  /** The message tells the four statuses apart, and a failure message carries the error text intact. */
  lemma MessageDeterminesStatus(d: UploadData, e: UploadData)
    ensures BlockchainMessage(d) == BlockchainMessage(e) ==> GetBlockchainStatus(d) == GetBlockchainStatus(e)
    ensures GetBlockchainStatus(d) == Failure ==> BlockchainMessage(d)[|FailurePrefix|..] == d.blockchainError
  {
    var m, n := BlockchainMessage(d), BlockchainMessage(e);
    if m == n {
      // The texts differ in their first character, or else in their 25th.
      assert m[0] == n[0] && m[24] == n[24];
      MessageMarks(d);
      MessageMarks(e);
    }
  }

  /** The first and the 25th character of each message. */
  lemma MessageMarks(d: UploadData)
    ensures |BlockchainMessage(d)| > 24
    ensures var m := BlockchainMessage(d);
      match GetBlockchainStatus(d)
      case Success => m[0] == 'D'
      case Pending => m[0] == 'B' && m[24] == 'i'
      case Failure => m[0] == 'B' && m[24] == 'f'
      case NoRegistration => m[0] == 'F'
  {}

  /** `getStatusIcon` of the upload result. */
  function StatusIcon(s: BlockchainStatus): (r: string)
    ensures |r| >= 1
  {
    match s
    case Success => "\U{1F6E1}\U{FE0F}"
    case Pending => "\U{23F3}"
    case Failure => "\U{26A0}\U{FE0F}"
    case NoRegistration => "\U{2601}\U{FE0F}"
  }

  /** Each status has its own icon. */
  lemma StatusIconsDistinct(s: BlockchainStatus, t: BlockchainStatus)
    ensures StatusIcon(s) == StatusIcon(t) ==> s == t
  {}

  /** The retry button: an error status, a retryable error and a handler. */
  predicate OffersRetry(d: UploadData, hasRetryHandler: bool)
    // Retry is never offered while a transaction is pending or after confirmation, nor without an error to show.
    ensures OffersRetry(d, hasRetryHandler) ==>
      && !d.confirmed && d.transactionHash == [] && d.blockchainError != []
      && BlockchainMessage(d) == FailurePrefix + d.blockchainError
  {
    GetBlockchainStatus(d) == Failure && d.blockchainRetryable && hasRetryHandler
  }

  const IpfsGatewayPrefix: string := "https://ipfs.io/ipfs/"
  const DefaultPinataGateway: string := "gateway.pinata.cloud"
  const ExplorerPrefix: string := "https://calibration.filfox.info/en/message/"

  /** `getIPFSGatewayUrl`. */
  function GatewayUrl(cid: string): (url: string)
    ensures IpfsGatewayPrefix <= url && url[|IpfsGatewayPrefix|..] == cid
  {
    IpfsGatewayPrefix + cid
  }

  /** `getPinataGatewayUrl`, given the configured gateway; an unset or empty setting selects the default. */
  function PinataGatewayUrl(configured: Option<string>, cid: string): (url: string)
    ensures var host := if configured.Some? && configured.value != [] then configured.value else DefaultPinataGateway;
      url == "https://" + host + "/ipfs/" + cid
  {
    var gateway := if configured.Some? && configured.value != [] then configured.value else DefaultPinataGateway;
    "https://" + gateway + "/ipfs/" + cid
  }

  /** `getExplorerUrl`. */
  function ExplorerUrl(txHash: string): (url: string)
    ensures ExplorerPrefix <= url && url[|ExplorerPrefix|..] == txHash
  {
    ExplorerPrefix + txHash
  }

  /** Different CIDs and hashes give different links. */
  lemma LinksAreInjective(a: string, b: string, configured: Option<string>)
    ensures GatewayUrl(a) == GatewayUrl(b) ==> a == b
    ensures ExplorerUrl(a) == ExplorerUrl(b) ==> a == b
    ensures PinataGatewayUrl(configured, a) == PinataGatewayUrl(configured, b) ==> a == b
  {
    var ua, ub := PinataGatewayUrl(configured, a), PinataGatewayUrl(configured, b);
    if ua == ub {
      var host := if configured.Some? && configured.value != [] then configured.value else DefaultPinataGateway;
      var n := |"https://" + host + "/ipfs/"|;
      assert ua[n..] == a && ub[n..] == b;
    }
  }

  const V0Label: string := "v0 (Base58)"
  const V1Label: string := "v1 (Base32)"

  /** The CID version line of the technical details; `original` is absent when no CID was given. */
  function CidVersionLabel(original: Option<string>): (r: string)
    ensures r == V0Label <==> original.Some? && StartsWith(original.value, "Qm")
    ensures r == V0Label || r == V1Label
  {
    if original.Some? && StartsWith(original.value, "Qm") then V0Label else V1Label
  }
}
