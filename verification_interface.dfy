/**
 * `src/components/VerificationInterface.jsx`: checking a document by CID
 * alone or by comparing an uploaded file's SHA-256 digest with the digest
 * inside a CID, and reading its on-chain state. CID parsing, the digest
 * computation and the contract calls are inputs.
 */
module VerificationInterface {
  import opened Wrappers
  import opened Text
  import opened Errors

  newtype byte = x: int | 0 <= x < 256

  /** `areUint8ArraysEqual`: equal lengths and the same byte at every index. */
  method AreUint8ArraysEqual(a: array<byte>, b: array<byte>) returns (r: bool)
    ensures r <==> a[..] == b[..]
  {
    if a.Length != b.Length {
      return false;
    }
    var i := 0;
    while i < a.Length
      invariant 0 <= i <= a.Length
      invariant a[..i] == b[..i]
    {
      if a[i] != b[i] {
        assert a[..][i] != b[..][i];
        return false;
      }
      assert a[..i + 1] == a[..i] + [a[i]] && b[..i + 1] == b[..i] + [b[i]];
      i := i + 1;
    }
    assert a[..] == a[..i] && b[..] == b[..i];
    return true;
  }

  /** The fields of `contract.documents(cid)` the component uses. */
  datatype DocumentEntry = DocumentEntry(registered: bool, owner: string, timestamp: int)

  /** What `checkOnChainVerification` returns: the contract's answers, or an error text with `isVerified` false. */
  datatype OnChainResult =
    | OnChain(isVerified: bool, registered: bool, owner: string, timestamp: int)
    | OnChainError(message: string)
  {
    /** `onChain.exists && onChain.isVerified`; an error result has no `exists`. */
    predicate Confirmed() {
      OnChain? && registered && isVerified
    }
  }

  /** The contract calls made, in order. */
  datatype ContractRead = DocumentsRead(cid: string) | IsVerifiedRead(cid: string)

  const NoContractMessage: string := "Smart contract not available"

  /**
   * `checkOnChainVerification`, given whether a contract is available and
   * what its `documents` and `isVerified` calls return or throw. Returns the
   * result and the reads made.
   */
  function CheckOnChainVerification(
    cid: string, contractAvailable: bool,
    documents: string -> Result<DocumentEntry, JsError>, verified: string -> Result<bool, JsError>)
    : (r: (OnChainResult, seq<ContractRead>))
    ensures !contractAvailable ==> r == (OnChainError(NoContractMessage), [])
    ensures contractAvailable ==> r.1 == if documents(cid).Ok? then [DocumentsRead(cid), IsVerifiedRead(cid)] else [DocumentsRead(cid)]
    // Any failure reports the error and never a verified document.
    ensures r.0.OnChainError? <==> !contractAvailable || documents(cid).Err? || verified(cid).Err?
    ensures r.0.OnChainError? && contractAvailable ==>
      r.0.message == if documents(cid).Err? then documents(cid).error.message else verified(cid).error.message
    ensures r.0.OnChain? ==>
      r.0 == OnChain(verified(cid).value, documents(cid).value.registered, documents(cid).value.owner, documents(cid).value.timestamp)
  {
    if !contractAvailable then (OnChainError(NoContractMessage), [])
    else
      match documents(cid)
      case Err(e) => (OnChainError(e.message), [DocumentsRead(cid)])
      case Ok(entry) =>
        var calls := [DocumentsRead(cid), IsVerifiedRead(cid)];
        match verified(cid)
        case Err(e) => (OnChainError(e.message), calls)
        case Ok(v) => (OnChain(v, entry.registered, entry.owner, entry.timestamp), calls)
  }

  /** The uploaded file's name and size. */
  datatype FileInfo = FileInfo(name: string, size: nat)

  /** The `verificationResult` state; the ISO timestamp is not modelled. */
  datatype VerificationResult =
    | CidOnly(cid: string, onChain: OnChainResult)
    | FileHash(cid: string, fileName: string, fileSize: nat, hashMatch: bool, onChain: OnChainResult)

  const EnterCidMessage: string := "Please enter a CID"
  const InvalidCidMessage: string := "Invalid CID format"
  const UploadFileMessage: string := "Please upload a file to verify"
  const CompareCidMessage: string := "Please enter the CID to compare against"
  const FailurePrefix: string := "Verification failed: "

  /** The guards of `verifyByCID`, in order: an empty trimmed input, then a malformed CID. */
  function CidGuard(cidInput: string, isValidCid: string -> bool): (r: Option<string>)
    ensures IsBlank(cidInput) ==> r == Some(EnterCidMessage)
    ensures !IsBlank(cidInput) && !isValidCid(Trim(cidInput)) ==> r == Some(InvalidCidMessage)
    ensures r.None? <==> !IsBlank(cidInput) && isValidCid(Trim(cidInput))
  {
    var trimmed := Trim(cidInput);
    if trimmed == [] then Some(EnterCidMessage)
    else if !isValidCid(trimmed) then Some(InvalidCidMessage)
    else None
  }

  /** The guards of `verifyByFile`, in order: no file, then an empty trimmed CID, then a malformed CID. */
  function FileGuard(hasFile: bool, cidInput: string, isValidCid: string -> bool): (r: Option<string>)
    ensures !hasFile ==> r == Some(UploadFileMessage)
    ensures hasFile && IsBlank(cidInput) ==> r == Some(CompareCidMessage)
    ensures hasFile && !IsBlank(cidInput) && !isValidCid(Trim(cidInput)) ==> r == Some(InvalidCidMessage)
    ensures r.None? <==> hasFile && !IsBlank(cidInput) && isValidCid(Trim(cidInput))
  {
    if !hasFile then Some(UploadFileMessage)
    else
      var trimmed := Trim(cidInput);
      if trimmed == [] then Some(CompareCidMessage)
      else if !isValidCid(trimmed) then Some(InvalidCidMessage)
      else None
  }

  /**
   * The state a verification handler leaves: the result and error shown,
   * whether it set `loading` on the way, and the contract calls it made.
   */
  datatype Outcome = Outcome(result: Option<VerificationResult>, error: string, startedLoading: bool, calls: seq<ContractRead>)

  /** What `verifyByCID` leaves, starting from the shown result. */
  function CidVerification(
    cidInput: string, shown: Option<VerificationResult>, isValidCid: string -> bool,
    contractAvailable: bool, documents: string -> Result<DocumentEntry, JsError>, verified: string -> Result<bool, JsError>)
    : (r: Outcome)
    // A failed guard only sets the error: the previous result stays and loading never starts.
    ensures CidGuard(cidInput, isValidCid).Some? ==>
      r == Outcome(shown, CidGuard(cidInput, isValidCid).value, false, [])
    ensures CidGuard(cidInput, isValidCid).None? ==>
      var check := CheckOnChainVerification(Trim(cidInput), contractAvailable, documents, verified);
      r == Outcome(Some(CidOnly(Trim(cidInput), check.0)), "", true, check.1)
  {
    match CidGuard(cidInput, isValidCid)
    case Some(message) => Outcome(shown, message, false, [])
    case None =>
      var trimmed := Trim(cidInput);
      var check := CheckOnChainVerification(trimmed, contractAvailable, documents, verified);
      Outcome(Some(CidOnly(trimmed, check.0)), "", true, check.1)
  }

  /**
   * What `verifyByFile` leaves, given the file's digest (or the error reading
   * it) and the digest each CID carries.
   */
  function FileVerification(
    file: Option<FileInfo>, cidInput: string, shown: Option<VerificationResult>,
    isValidCid: string -> bool, fileHash: Result<seq<byte>, JsError>, cidDigest: string -> seq<byte>,
    contractAvailable: bool, documents: string -> Result<DocumentEntry, JsError>, verified: string -> Result<bool, JsError>)
    : (r: Outcome)
    ensures FileGuard(file.Some?, cidInput, isValidCid).Some? ==>
      r == Outcome(shown, FileGuard(file.Some?, cidInput, isValidCid).value, false, [])
    // Reading the file fails: the result is cleared and no contract read is made.
    ensures FileGuard(file.Some?, cidInput, isValidCid).None? && fileHash.Err? ==>
      r == Outcome(None, FailurePrefix + fileHash.error.message, true, [])
    ensures FileGuard(file.Some?, cidInput, isValidCid).None? && fileHash.Ok? ==>
      var check := CheckOnChainVerification(Trim(cidInput), contractAvailable, documents, verified);
      r == Outcome(Some(FileHash(Trim(cidInput), file.value.name, file.value.size,
                                 fileHash.value == cidDigest(Trim(cidInput)), check.0)), "", true, check.1)
  {
    match FileGuard(file.Some?, cidInput, isValidCid)
    case Some(message) => Outcome(shown, message, false, [])
    case None =>
      var trimmed := Trim(cidInput);
      match fileHash
      case Err(e) => Outcome(None, FailurePrefix + e.message, true, [])
      case Ok(digest) =>
        var check := CheckOnChainVerification(trimmed, contractAvailable, documents, verified);
        Outcome(Some(FileHash(trimmed, file.value.name, file.value.size, digest == cidDigest(trimmed), check.0)), "", true, check.1)
  }

  /** The overall status summary. */
  datatype Verdict = FullyVerified | RegisteredAndVerified | Incomplete

  function OverallVerdict(result: VerificationResult): (v: Verdict)
    ensures v == FullyVerified <==> result.FileHash? && result.hashMatch && result.onChain.Confirmed()
    ensures v == RegisteredAndVerified <==> result.CidOnly? && result.onChain.Confirmed()
  {
    match result
    case FileHash(_, _, _, hashMatch, onChain) => if hashMatch && onChain.Confirmed() then FullyVerified else Incomplete
    case CidOnly(_, onChain) => if onChain.Confirmed() then RegisteredAndVerified else Incomplete
  }

  /**
   * A file is reported fully verified only when its digest is the one the
   * CID carries and the contract has the CID registered and verified.
   */
  lemma FullyVerifiedMeansMatchAndConfirmed(
    file: Option<FileInfo>, cidInput: string, shown: Option<VerificationResult>,
    isValidCid: string -> bool, fileHash: Result<seq<byte>, JsError>, cidDigest: string -> seq<byte>,
    contractAvailable: bool, documents: string -> Result<DocumentEntry, JsError>, verified: string -> Result<bool, JsError>)
    requires FileGuard(file.Some?, cidInput, isValidCid).None?
    ensures var r := FileVerification(file, cidInput, shown, isValidCid, fileHash, cidDigest, contractAvailable, documents, verified);
      r.result.Some? && OverallVerdict(r.result.value) == FullyVerified <==>
        && fileHash.Ok? && fileHash.value == cidDigest(Trim(cidInput))
        && contractAvailable
        && documents(Trim(cidInput)).Ok? && documents(Trim(cidInput)).value.registered
        && verified(Trim(cidInput)) == Ok(true)
  {}

  /** Without a contract no verification can succeed, whatever the input. */
  lemma NoContractNeverVerifies(
    method_: string, file: Option<FileInfo>, cidInput: string, shown: Option<VerificationResult>,
    isValidCid: string -> bool, fileHash: Result<seq<byte>, JsError>, cidDigest: string -> seq<byte>,
    documents: string -> Result<DocumentEntry, JsError>, verified: string -> Result<bool, JsError>)
    ensures var r := HandleVerifyOutcome(method_, file, cidInput, shown, isValidCid, fileHash, cidDigest, false, documents, verified);
      r.calls == [] && (r.result.Some? && r.result != shown ==> OverallVerdict(r.result.value) == Incomplete)
  {}

  /** `handleVerify`: method `cid` runs the CID check, any other method the file check. */
  function HandleVerifyOutcome(
    verificationMethod: string, file: Option<FileInfo>, cidInput: string, shown: Option<VerificationResult>,
    isValidCid: string -> bool, fileHash: Result<seq<byte>, JsError>, cidDigest: string -> seq<byte>,
    contractAvailable: bool, documents: string -> Result<DocumentEntry, JsError>, verified: string -> Result<bool, JsError>)
    : (r: Outcome)
    ensures verificationMethod == "cid" ==>
      r == CidVerification(cidInput, shown, isValidCid, contractAvailable, documents, verified)
    ensures verificationMethod != "cid" ==>
      r == FileVerification(file, cidInput, shown, isValidCid, fileHash, cidDigest, contractAvailable, documents, verified)
  {
    if verificationMethod == "cid" then CidVerification(cidInput, shown, isValidCid, contractAvailable, documents, verified)
    else FileVerification(file, cidInput, shown, isValidCid, fileHash, cidDigest, contractAvailable, documents, verified)
  }

  /** The component's state. */
  class InterfaceState {
    var verificationMethod: string
    var cidInput: string
    var fileToVerify: Option<FileInfo>
    var verificationResult: Option<VerificationResult>
    var loading: bool
    var error: string

    /** The initial state: the CID method, nothing entered, nothing shown. */
    constructor()
      ensures verificationMethod == "cid" && cidInput == [] && fileToVerify == None
      ensures verificationResult == None && !loading && error == []
    {
      verificationMethod := "cid";
      cidInput := [];
      fileToVerify := None;
      verificationResult := None;
      loading := false;
      error := [];
    }

    /** `verifyByCID`; returns whether loading was started and the contract reads made. */
    method VerifyByCid(
      isValidCid: string -> bool, contractAvailable: bool,
      documents: string -> Result<DocumentEntry, JsError>, verified: string -> Result<bool, JsError>)
      returns (startedLoading: bool, calls: seq<ContractRead>)
      modifies this`verificationResult, this`error, this`loading
      ensures Outcome(verificationResult, error, startedLoading, calls) ==
        CidVerification(cidInput, old(verificationResult), isValidCid, contractAvailable, documents, verified)
      // Past the guards `loading` is set and the `finally` clears it; a refused request leaves it alone.
      ensures startedLoading ==> !loading
      ensures !startedLoading ==> loading == old(loading)
    {
      var guard := CidGuard(cidInput, isValidCid);
      if guard.Some? {
        error := guard.value;
        return false, [];
      }
      var trimmed := Trim(cidInput);
      loading := true;
      verificationResult := None;
      error := [];
      var check := CheckOnChainVerification(trimmed, contractAvailable, documents, verified);
      verificationResult := Some(CidOnly(trimmed, check.0));
      calls := check.1;
      startedLoading := true;
      loading := false;
    }

    /** `verifyByFile`; the digests are compared byte by byte. */
    method VerifyByFile(
      isValidCid: string -> bool, fileHash: Result<seq<byte>, JsError>, cidDigest: string -> seq<byte>,
      contractAvailable: bool, documents: string -> Result<DocumentEntry, JsError>, verified: string -> Result<bool, JsError>)
      returns (startedLoading: bool, calls: seq<ContractRead>)
      modifies this`verificationResult, this`error, this`loading
      ensures Outcome(verificationResult, error, startedLoading, calls) ==
        FileVerification(fileToVerify, cidInput, old(verificationResult), isValidCid, fileHash, cidDigest,
                         contractAvailable, documents, verified)
      // Past the guards `loading` is set and the `finally` clears it; a refused request leaves it alone.
      ensures startedLoading ==> !loading
      ensures !startedLoading ==> loading == old(loading)
    {
      var guard := FileGuard(fileToVerify.Some?, cidInput, isValidCid);
      if guard.Some? {
        error := guard.value;
        return false, [];
      }
      var trimmed := Trim(cidInput);
      loading := true;
      verificationResult := None;
      error := [];
      startedLoading := true;
      calls := [];
      if fileHash.Err? {
        error := FailurePrefix + fileHash.error.message;
      } else {
        var digest := fileHash.value;
        var expected := cidDigest(trimmed);
        var a := new byte[|digest|](i requires 0 <= i < |digest| => digest[i]);
        var b := new byte[|expected|](i requires 0 <= i < |expected| => expected[i]);
        assert a[..] == digest && b[..] == expected;
        var hashesMatch := AreUint8ArraysEqual(a, b);
        var check := CheckOnChainVerification(trimmed, contractAvailable, documents, verified);
        verificationResult := Some(FileHash(trimmed, fileToVerify.value.name, fileToVerify.value.size, hashesMatch, check.0));
        calls := check.1;
      }
      loading := false;
    }

    /** `handleVerify`. */
    method HandleVerify(
      isValidCid: string -> bool, fileHash: Result<seq<byte>, JsError>, cidDigest: string -> seq<byte>,
      contractAvailable: bool, documents: string -> Result<DocumentEntry, JsError>, verified: string -> Result<bool, JsError>)
      returns (startedLoading: bool, calls: seq<ContractRead>)
      modifies this`verificationResult, this`error, this`loading
      ensures Outcome(verificationResult, error, startedLoading, calls) ==
        HandleVerifyOutcome(verificationMethod, fileToVerify, cidInput, old(verificationResult), isValidCid,
                            fileHash, cidDigest, contractAvailable, documents, verified)
      // Past the guards `loading` is set and the `finally` clears it; a refused request leaves it alone.
      ensures startedLoading ==> !loading
      ensures !startedLoading ==> loading == old(loading)
    {
      if verificationMethod == "cid" {
        startedLoading, calls := VerifyByCid(isValidCid, contractAvailable, documents, verified);
      } else {
        startedLoading, calls := VerifyByFile(isValidCid, fileHash, cidDigest, contractAvailable, documents, verified);
      }
    }
  }
}
