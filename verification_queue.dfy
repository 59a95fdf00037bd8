/**
 * `src/components/VerificationQueue.jsx`: the current user's stored
 * verification records split into a pending and a completed list, each
 * newest first, and the display helpers for one record.
 */
module VerificationQueue {
  import opened Wrappers
  import opened Text
  import opened Ordering
  import opened VerificationRequest

  /** `v.verifierAddress?.toLowerCase() === address?.toLowerCase()`: two absent addresses compare equal. */
  predicate SameVerifier(recorded: Option<string>, current: Option<string>) {
    match (recorded, current)
    case (None, None) => true
    case (Some(a), Some(b)) => ToLower(a) == ToLower(b)
    case _ => false
  }

  /**
   * Ownership is symmetric and blind to case, and an address-less record
   * belongs only to an address-less reader.
   */
  lemma SameVerifierIgnoresCase(recorded: Option<string>, current: Option<string>)
    ensures SameVerifier(recorded, current) == SameVerifier(current, recorded)
    ensures recorded.Some? ==> SameVerifier(recorded, Some(ToLower(recorded.value)))
    ensures recorded.None? ==> (SameVerifier(recorded, current) <==> current.None?)
  {
    if recorded.Some? {
      ToLowerIdempotent(recorded.value);
    }
  }

  predicate IsPendingStatus(status: string) {
    status == "submitted" || status == "pending"
  }

  predicate IsCompletedStatus(status: string) {
    status == "confirmed" || status == "failed"
  }

  function RecordTimestamp(v: VerificationRecord): int { v.timestamp }

  /** The records of the current user whose status satisfies `wanted`, in stored order. */
  function Select(stored: seq<VerificationRecord>, address: Option<string>, wanted: string -> bool): (r: seq<VerificationRecord>)
    ensures |r| <= |stored|
    ensures forall v :: v in r ==> v in stored && SameVerifier(v.verifierAddress, address) && wanted(v.status)
  {
    if stored == [] then []
    else
      var rest := Select(stored[1..], address, wanted);
      if SameVerifier(stored[0].verifierAddress, address) && wanted(stored[0].status) then [stored[0]] + rest
      else rest
  }

  /** `Select` keeps every copy of each wanted record and nothing else. */
  lemma {:induction false} SelectCount(stored: seq<VerificationRecord>, address: Option<string>, wanted: string -> bool, v: VerificationRecord)
    ensures multiset(Select(stored, address, wanted))[v] ==
      (if SameVerifier(v.verifierAddress, address) && wanted(v.status) then multiset(stored)[v] else 0)
  {
    if stored != [] {
      SelectCount(stored[1..], address, wanted, v);
      assert stored == [stored[0]] + stored[1..];
    }
  }

  /** The two lists `loadVerificationHistory` shows. */
  datatype History = History(pending: seq<VerificationRecord>, completed: seq<VerificationRecord>)

  /** `loadVerificationHistory`: filter by owner, split by status, sort each list newest first. */
  function LoadVerificationHistory(stored: seq<VerificationRecord>, address: Option<string>): (h: History)
    ensures NewestFirst(h.pending, RecordTimestamp) && NewestFirst(h.completed, RecordTimestamp)
    ensures multiset(h.pending) == multiset(Select(stored, address, IsPendingStatus))
    ensures multiset(h.completed) == multiset(Select(stored, address, IsCompletedStatus))
  {
    History(
      SortNewestFirst(Select(stored, address, IsPendingStatus), RecordTimestamp),
      SortNewestFirst(Select(stored, address, IsCompletedStatus), RecordTimestamp))
  }

  /**
   * Each record of the current user with a known status is in exactly one
   * list, as many times as it is stored; records of other users and records
   * with other statuses are in neither.
   */
  lemma HistoryPartitionsOwnRecords(stored: seq<VerificationRecord>, address: Option<string>, v: VerificationRecord)
    ensures var h := LoadVerificationHistory(stored, address);
      && (v in h.pending ==> v !in h.completed)
      && (v in h.pending || v in h.completed <==>
            v in stored && SameVerifier(v.verifierAddress, address)
            && (IsPendingStatus(v.status) || IsCompletedStatus(v.status)))
      && multiset(h.pending)[v] + multiset(h.completed)[v] ==
           if SameVerifier(v.verifierAddress, address) && (IsPendingStatus(v.status) || IsCompletedStatus(v.status))
           then multiset(stored)[v] else 0
  {
    var h := LoadVerificationHistory(stored, address);
    SelectCount(stored, address, IsPendingStatus, v);
    SelectCount(stored, address, IsCompletedStatus, v);
    assert v in stored <==> multiset(stored)[v] > 0;
  }

  /** `truncateCID` of the queue: 8 leading and 8 trailing characters; an empty CID stays empty. */
  function TruncateCid(cid: string): (r: string)
    ensures |cid| <= 16 ==> r == cid
    ensures |cid| > 16 ==> |r| == 19 && r[..8] == cid[..8] && r[8..11] == "..." && r[11..] == cid[|cid| - 8..]
  {
    Elide(cid, 8, 8)
  }

  /** `truncateHash`: 6 leading and 6 trailing characters; an empty hash stays empty. */
  function TruncateHash(hash: string): (r: string)
    ensures |hash| <= 12 ==> r == hash
    ensures |hash| > 12 ==> |r| == 15 && r[..6] == hash[..6] && r[6..9] == "..." && r[9..] == hash[|hash| - 6..]
  {
    Elide(hash, 6, 6)
  }

  predicate IsKnownStatus(status: string) {
    IsPendingStatus(status) || IsCompletedStatus(status)
  }

  /** `getStatusIcon`. */
  function StatusIcon(status: string): (r: string)
    ensures !IsKnownStatus(status) ==> r == "\U{2753}"
  {
    match status
    case "pending" => "\U{23F3}"
    case "submitted" => "\U{1F4E4}"
    case "confirmed" => "\U{2705}"
    case "failed" => "\U{274C}"
    case _ => "\U{2753}"
  }

  /** `getStatusClass`. */
  function StatusClass(status: string): (r: string)
    ensures IsKnownStatus(status) ==> r == "status-" + status
    ensures !IsKnownStatus(status) ==> r == "status-unknown"
  {
    match status
    case "pending" => "status-pending"
    case "submitted" => "status-submitted"
    case "confirmed" => "status-confirmed"
    case "failed" => "status-failed"
    case _ => "status-unknown"
  }

  /** The icon and the class tell the four known statuses apart, and none of them looks like an unknown status. */
  lemma StatusDisplayDistinguishes(a: string, b: string)
    requires IsKnownStatus(a)
    ensures StatusIcon(a) != StatusIcon("unknown") && StatusClass(a) != StatusClass("unknown")
    ensures IsKnownStatus(b) && StatusIcon(a) == StatusIcon(b) ==> a == b
    ensures StatusClass(a) == StatusClass(b) ==> a == b
  {}

  /** "Continue Verification" is shown for a `pending` record when a selection handler is given. */
  predicate OffersContinue(v: VerificationRecord, hasSelectHandler: bool)
    // Only a pending record that is not also completed, and only with a handler to call.
    ensures OffersContinue(v, hasSelectHandler) ==>
      hasSelectHandler && IsPendingStatus(v.status) && !IsCompletedStatus(v.status) && v.status != "submitted"
  {
    v.status == "pending" && hasSelectHandler
  }

  /** Continuing is offered only in the pending list, never for a completed or submitted record. */
  lemma ContinueOnlyForPending(stored: seq<VerificationRecord>, address: Option<string>, v: VerificationRecord, hasSelectHandler: bool)
    requires OffersContinue(v, hasSelectHandler) && v in stored && SameVerifier(v.verifierAddress, address)
    ensures v in LoadVerificationHistory(stored, address).pending
    ensures v !in LoadVerificationHistory(stored, address).completed
  {
    HistoryPartitionsOwnRecords(stored, address, v);
  }
}
