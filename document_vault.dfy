/**
 * `src/components/DocumentVault.jsx`: building the connected user's document
 * list from the contract, marking a document verified, finding the
 * registration transaction of a document, and the truncation helpers. Contract
 * reads, log queries and the clock are inputs.
 */
module DocumentVault {
  import opened Wrappers
  import opened Text
  import opened Errors
  import opened Ordering

  /** `getDocumentMetadata`'s answer: owner, tag, timestamp in seconds, existence. */
  datatype Metadata = Metadata(owner: string, tag: string, timestampSeconds: nat, registered: bool)

  /**
   * A document of the list. `error` marks a fallback record built after a
   * failed metadata read; `registered` (the source's `exists`) is false where the source leaves it undefined.
   */
  datatype Document = Document(
    cid: string, owner: string, tag: string, timestamp: int,
    registered: bool, isVerified: bool, error: bool)

  function DocTimestamp(d: Document): int { d.timestamp }

  /** An address is usable (`address` is truthy). */
  predicate IsPresent(address: Option<string>) {
    address.Some? && address.value != []
  }

  /** The CIDs `fetchUserDocuments` collects from the first `n` indices: failed reads and empty CIDs are skipped. */
  function KeptCids(getDocument: nat -> Result<string, JsError>, n: nat): (r: seq<string>)
    ensures |r| <= n
    ensures forall c :: c in r ==> c != [] && exists i :: 0 <= i < n && getDocument(i) == Ok(c)
  {
    if n == 0 then []
    else
      var earlier := KeptCids(getDocument, n - 1);
      match getDocument(n - 1)
      case Ok(cid) => if cid != [] then earlier + [cid] else earlier
      case Err(_) => earlier
  }

  /** A CID that some index yields is kept. */
  lemma {:induction false} KeptCidsComplete(getDocument: nat -> Result<string, JsError>, n: nat, i: nat)
    requires i < n && getDocument(i).Ok? && getDocument(i).value != []
    ensures getDocument(i).value in KeptCids(getDocument, n)
  {
    if i < n - 1 {
      KeptCidsComplete(getDocument, n - 1, i);
    }
  }

  /**
   * The record built for one CID from its metadata and verification reads,
   * or the fallback record when either read throws.
   */
  function BuildDocument(cid: string, answers: Result<(Metadata, bool), JsError>, address: string, now: int): (d: Document)
    ensures d.cid == cid
    ensures d.error <==> answers.Err?
    ensures answers.Ok? ==>
      && d.owner == answers.value.0.owner && d.tag == answers.value.0.tag
      && d.timestamp == answers.value.0.timestampSeconds * 1000
      && d.registered == answers.value.0.registered && d.isVerified == answers.value.1
    ensures answers.Err? ==> d == Document(cid, address, "Unknown", now, false, false, true)
  {
    match answers
    case Ok((meta, verified)) =>
      Document(cid, meta.owner, meta.tag, meta.timestampSeconds * 1000, meta.registered, verified, false)
    case Err(_) => Document(cid, address, "Unknown", now, false, false, true)
  }

  function BuildAll(cids: seq<string>, readMetadata: string -> Result<(Metadata, bool), JsError>, address: string, now: int): (r: seq<Document>)
    ensures |r| == |cids|
    ensures forall i :: 0 <= i < |cids| ==> r[i] == BuildDocument(cids[i], readMetadata(cids[i]), address, now)
  {
    seq(|cids|, i requires 0 <= i < |cids| => BuildDocument(cids[i], readMetadata(cids[i]), address, now))
  }

  /**
   * `fetchUserDocuments`, given the connection, the address, the document
   * count the contract reported (`None` when not loaded), the `getDocument`
   * answer for each index, the metadata and verification answers for each
   * CID, and the clock. Returns the list and the number of `getDocument`
   * reads made.
   */
  method FetchUserDocuments(
    isConnected: bool, address: Option<string>, documentCount: Option<nat>,
    getDocument: nat -> Result<string, JsError>,
    readMetadata: string -> Result<(Metadata, bool), JsError>, now: int)
    returns (documents: seq<Document>, documentReads: nat)
    // Without a wallet, or with no documents, the list is empty and nothing is read.
    ensures !isConnected || !IsPresent(address) || documentCount.None? || documentCount == Some(0) ==>
      documents == [] && documentReads == 0
    ensures isConnected && IsPresent(address) && documentCount.Some? ==>
      && documentReads == documentCount.value
      && multiset(documents) == multiset(BuildAll(KeptCids(getDocument, documentCount.value), readMetadata, address.value, now))
    // Newest first.
    ensures NewestFirst(documents, DocTimestamp)
  {
    if !isConnected || !IsPresent(address) {
      return [], 0;
    }
    if documentCount.None? || documentCount.value == 0 {
      return [], 0;
    }
    var cids := CollectCids(getDocument, documentCount.value);
    var built := BuildAll(cids, readMetadata, address.value, now);
    documents := SortNewestFirst(built, DocTimestamp);
    documentReads := documentCount.value;
  }

  /** The index loop of `fetchUserDocuments`: read each index and keep the non-empty CIDs. */
  method CollectCids(getDocument: nat -> Result<string, JsError>, count: nat) returns (cids: seq<string>)
    ensures cids == KeptCids(getDocument, count)
  {
    cids := [];
    var i := 0;
    while i < count
      invariant 0 <= i <= count
      invariant cids == KeptCids(getDocument, i)
    {
      var read := getDocument(i);
      if read.Ok? && read.value != [] {
        cids := cids + [read.value];
      }
      i := i + 1;
    }
  }

  /** Every fetched document comes from an index whose read succeeded with a non-empty CID. */
  lemma FetchedCidsComeFromReads(
    getDocument: nat -> Result<string, JsError>, count: nat,
    readMetadata: string -> Result<(Metadata, bool), JsError>, address: string, now: int, d: Document)
    requires d in multiset(BuildAll(KeptCids(getDocument, count), readMetadata, address, now))
    ensures d.cid != [] && exists i :: 0 <= i < count && getDocument(i) == Ok(d.cid)
  {}

  /**
   * `handleVerificationComplete`'s update of the list: the documents with the
   * verified CID become verified; nothing else changes.
   */
  function MarkVerified(documents: seq<Document>, cid: string): (r: seq<Document>)
    ensures |r| == |documents|
    ensures forall i :: 0 <= i < |r| ==>
      && r[i].isVerified == (documents[i].isVerified || documents[i].cid == cid)
      && r[i].(isVerified := documents[i].isVerified) == documents[i]
  {
    seq(|documents|, i requires 0 <= i < |documents| =>
      if documents[i].cid == cid then documents[i].(isVerified := true) else documents[i])
  }

  /** Marking the same CID twice is the same as marking it once. */
  lemma MarkVerifiedIdempotent(documents: seq<Document>, cid: string)
    ensures MarkVerified(MarkVerified(documents, cid), cid) == MarkVerified(documents, cid)
  {}

  /** Marking keeps the list newest first. */
  lemma MarkVerifiedKeepsOrder(documents: seq<Document>, cid: string)
    requires NewestFirst(documents, DocTimestamp)
    ensures NewestFirst(MarkVerified(documents, cid), DocTimestamp)
  {}

  /** A transaction record kept under `proofvault_transactions`. */
  datatype StoredTx = StoredTx(cid: string, transactionHash: string, status: string, timestamp: int, tag: string, address: string)

  /** The decoded arguments of a `DocumentRegistered` log. */
  datatype RegisteredArgs = RegisteredArgs(user: string, cid: string, tag: string, timestamp: nat)

  /** A log as `getLogs` returns it; `args` is `None` when decoding it throws. */
  datatype Log = Log(args: Option<RegisteredArgs>, transactionHash: string, blockNumber: Option<nat>)

  /** What `fetchTransactionDetails` reports. */
  datatype TxDetails =
    | FromStore(record: StoredTx)
    | WalletNotConnected
    | EventsUnavailable
    | FromLog(log: Log, args: RegisteredArgs)
    | NotFoundOnChain

  /** The index of the first stored record for the CID, as `storedRecords.find` scans. */
  function FirstStoredIndex(stored: seq<StoredTx>, cid: string): (r: Option<nat>)
    ensures r.Some? ==> r.value < |stored| && stored[r.value].cid == cid
    ensures r.Some? ==> forall j :: 0 <= j < r.value ==> stored[j].cid != cid
    ensures r.None? <==> forall rec :: rec in stored ==> rec.cid != cid
  {
    if stored == [] then None
    else if stored[0].cid == cid then Some(0)
    else
      match FirstStoredIndex(stored[1..], cid)
      case None => None
      case Some(k) => Some(k + 1)
  }

  /** `storedRecords.find(r => r.cid === cid)`. */
  function FindStored(stored: seq<StoredTx>, cid: string): (r: Option<StoredTx>)
    ensures r.Some? ==> r.value.cid == cid && r.value in stored
    ensures r.None? <==> forall rec :: rec in stored ==> rec.cid != cid
  {
    match FirstStoredIndex(stored, cid)
    case None => None
    case Some(k) => Some(stored[k])
  }

  /** A log is the user's registration of the CID: same user, ignoring case, and the same CID. */
  predicate LogMatches(log: Log, address: string, cid: string) {
    log.args.Some? && ToLower(log.args.value.user) == ToLower(address) && log.args.value.cid == cid
  }

  /** Matching ignores the case of the connected address, and needs a decoded log. */
  lemma LogMatchIgnoresCase(log: Log, address: string, cid: string)
    ensures LogMatches(log, address, cid) == LogMatches(log, ToLower(address), cid)
    ensures log.args.None? ==> !LogMatches(log, address, cid)
    ensures LogMatches(log, address, cid) ==> log.args.value.cid == cid
  {
    ToLowerIdempotent(address);
  }

  /** The block the narrowed query starts from: the last 10000 blocks, or block 0. */
  function FallbackFromBlock(latest: nat): (r: nat)
    ensures r <= latest
    ensures latest > 10000 ==> latest - r == 10000
    ensures latest <= 10000 ==> r == 0
  {
    if latest > 10000 then latest - 10000 else 0
  }

  /**
   * The logs the search ends up with: the answer of the query over all
   * blocks, or else that of the query from `FallbackFromBlock` of the latest
   * block; an error when both fail or the latest block cannot be read.
   */
  function SearchedLogs(
    primary: Result<seq<Log>, JsError>, latestBlock: Result<nat, JsError>,
    fallback: nat -> Result<seq<Log>, JsError>): (r: Result<seq<Log>, JsError>)
    ensures primary.Ok? ==> r == primary
    ensures primary.Err? && latestBlock.Err? ==> r.Err?
    ensures primary.Err? && latestBlock.Ok? ==> r == fallback(FallbackFromBlock(latestBlock.value))
  {
    if primary.Ok? then primary
    else match latestBlock
      case Err(e) => Err(e)
      case Ok(latest) => fallback(FallbackFromBlock(latest))
  }

  /**
   * `fetchTransactionDetails`, given the stored transaction records, whether
   * a client and an address are available, what the `getLogs` query over all
   * blocks returns or throws, what `getBlockNumber` returns or throws, and
   * what the narrowed `getLogs` query returns or throws for a starting block.
   * Returns the details and the starting blocks of the log queries made.
   */
  method FetchTransactionDetails(
    cid: string, stored: seq<StoredTx>, clientAvailable: bool, address: Option<string>,
    primary: Result<seq<Log>, JsError>, latestBlock: Result<nat, JsError>,
    fallback: nat -> Result<seq<Log>, JsError>)
    returns (details: TxDetails, queriedFrom: seq<nat>)
    // A stored record wins, and the first one found is used.
    ensures FindStored(stored, cid).Some? ==> details == FromStore(FindStored(stored, cid).value) && queriedFrom == []
    ensures FindStored(stored, cid).None? && (!clientAvailable || !IsPresent(address)) ==>
      details == WalletNotConnected && queriedFrom == []
    // Otherwise all blocks are searched first, then the last 10000 blocks once the latest block is known.
    ensures FindStored(stored, cid).None? && clientAvailable && IsPresent(address) ==>
      queriedFrom == if primary.Ok? || latestBlock.Err? then [0] else [0, FallbackFromBlock(latestBlock.value)]
    ensures details == EventsUnavailable <==>
      FindStored(stored, cid).None? && clientAvailable && IsPresent(address)
      && SearchedLogs(primary, latestBlock, fallback).Err?
    // The first matching log of the searched logs is reported; no match means not found.
    ensures details.FromLog? ==>
      var logs := SearchedLogs(primary, latestBlock, fallback).value;
      && SearchedLogs(primary, latestBlock, fallback).Ok?
      && IsPresent(address) && LogMatches(details.log, address.value, cid)
      && details.args == details.log.args.value
      && exists k :: 0 <= k < |logs| && logs[k] == details.log
                     && forall j :: 0 <= j < k ==> !LogMatches(logs[j], address.value, cid)
    ensures details == NotFoundOnChain ==>
      && SearchedLogs(primary, latestBlock, fallback).Ok? && IsPresent(address)
      && forall log :: log in SearchedLogs(primary, latestBlock, fallback).value ==> !LogMatches(log, address.value, cid)
    ensures (FindStored(stored, cid).None? && clientAvailable && IsPresent(address)
             && SearchedLogs(primary, latestBlock, fallback).Ok?) ==> details.FromLog? || details == NotFoundOnChain
  {
    var record := FindStored(stored, cid);
    if record.Some? {
      return FromStore(record.value), [];
    }
    if !clientAvailable || !IsPresent(address) {
      return WalletNotConnected, [];
    }
    var user := address.value;
    queriedFrom := [0];
    var result := primary;
    if result.Err? {
      if latestBlock.Err? {
        return EventsUnavailable, queriedFrom;
      }
      var from := FallbackFromBlock(latestBlock.value);
      queriedFrom := queriedFrom + [from];
      result := fallback(from);
      if result.Err? {
        return EventsUnavailable, queriedFrom;
      }
    }
    var logs := result.value;
    var i := 0;
    while i < |logs|
      invariant 0 <= i <= |logs|
      invariant forall j :: 0 <= j < i ==> !LogMatches(logs[j], user, cid)
    {
      var log := logs[i];
      if log.args.Some? {
        var args := log.args.value;
        if ToLower(args.user) == ToLower(user) && args.cid == cid {
          return FromLog(log, args), queriedFrom;
        }
      }
      i := i + 1;
    }
    details := NotFoundOnChain;
  }

  /** `truncateCID` of the vault: 12 leading and 12 trailing characters. */
  function TruncateCid(cid: string): (r: string)
    ensures |cid| <= 24 ==> r == cid
    ensures |cid| > 24 ==> |r| == 27 && r[..12] == cid[..12] && r[12..15] == "..." && r[15..] == cid[|cid| - 12..]
  {
    Elide(cid, 12, 12)
  }

  /** The default lengths of `truncateAddress`, used for the owner column. */
  const AddressStart: nat := 6
  const AddressEnd: nat := 4

  /**
   * `truncateAddress(address, start, end)`: an absent or short value is returned
   * as it is; a longer one keeps `start` leading and `end` trailing characters.
   * The vault calls it with the defaults for owners and with 10 and 8 for
   * transaction hashes.
   */
  function TruncateAddress(address: Option<string>, start: nat, end: nat): (r: Option<string>)
    ensures address.None? ==> r == None
    ensures address.Some? && |address.value| <= start + end ==> r == address
    ensures address.Some? && |address.value| > start + end && end > 0 ==>
      && r.Some? && |r.value| == start + 3 + end
      && r.value[..start] == address.value[..start] && r.value[start..start + 3] == "..."
      && r.value[start + 3..] == address.value[|address.value| - end..]
  {
    match address
    case None => None
    case Some(a) => Some(Elide(a, start, end))
  }
}
