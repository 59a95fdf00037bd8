/**
 * `src/components/VerificationRequest.jsx`: the form that submits a
 * verification of a document and follows its transaction. The component's
 * state variables are the fields of `RequestForm`; the list stored under
 * `proofvault_verifications` and the records passed to the completion
 * callback are fields too. The service calls `selfVerifyDocument` /
 * `verifyDocument` and `waitForTransaction` are inputs.
 */
module VerificationRequest {
  import opened Wrappers
  import opened Text
  import opened Errors

  /** The `status` state variable. */
  datatype RequestStatus = Idle | Submitting | Submitted | Confirmed | Failed

  /** A stored verification record; `status` is free text because stored lists are read back as they are. */
  datatype VerificationRecord = VerificationRecord(
    cid: string,
    verifierName: string,
    verifierAddress: Option<string>,
    transactionHash: string,
    verificationType: string,
    timestamp: int,
    status: string)

  /** The calls the handler makes on the blockchain service. */
  datatype ServiceCall =
    | SelfVerifyDocument(cid: string, verifierName: string)
    | VerifyDocument(cid: string, verifierName: string)
    | WaitForTransaction(transactionHash: string, confirmations: nat)

  const NotConnectedMessage: string := "Please connect your wallet to proceed with verification"
  const NoNameMessage: string := "Please enter a verifier name"
  const NoCidMessage: string := "No document CID provided"
  const ConfirmationFailedMessage: string := "Transaction submitted but confirmation failed. Please check the transaction hash."
  const DefaultFailureMessage: string := "Verification failed. Please try again."

  /**
   * One status change of the handler is allowed. A confirmed run can still
   * fail: the confirmation branch sets `confirmed` before it stores the
   * record and calls back, and a throw there sets `failed`.
   */
  predicate Step(from: RequestStatus, to: RequestStatus) {
    (from == Submitting && (to == Submitted || to == Failed))
    || (from == Submitted && (to == Confirmed || to == Failed))
    || (from == Confirmed && to == Failed)
  }

  /** The statuses one submission passes through: it starts submitting, steps, and ends confirmed or failed. */
  predicate ValidRun(trace: seq<RequestStatus>) {
    && |trace| >= 1
    && trace[0] == Submitting
    && (forall i :: 0 < i < |trace| ==> Step(trace[i - 1], trace[i]))
    && (trace[|trace| - 1] == Confirmed || trace[|trace| - 1] == Failed)
  }

  /** A run never reaches `Confirmed` except straight from `Submitted`. */
  lemma ConfirmedOnlyAfterSubmitted(trace: seq<RequestStatus>, i: nat)
    requires ValidRun(trace) && i < |trace| && trace[i] == Confirmed
    ensures i >= 1 && trace[i - 1] == Submitted
  {}

  /** The four runs the handler can make. */
  lemma RunsAreValid()
    ensures ValidRun([Submitting, Failed])
    ensures ValidRun([Submitting, Submitted, Failed])
    ensures ValidRun([Submitting, Submitted, Confirmed])
    ensures ValidRun([Submitting, Submitted, Confirmed, Failed])
  {}

  lemma StepAt(trace: seq<RequestStatus>, i: nat)
    requires ValidRun(trace) && 0 < i < |trace|
    ensures Step(trace[i - 1], trace[i])
  {}

  /**
   * A run is at most four statuses long; one that ends confirmed is exactly
   * submitting, submitted, confirmed, and the only four-status run is that
   * one followed by a failure.
   */
  lemma {:induction false} RunShape(trace: seq<RequestStatus>)
    requires ValidRun(trace)
    ensures |trace| <= 4
    ensures trace[|trace| - 1] == Confirmed ==> trace == [Submitting, Submitted, Confirmed]
    ensures |trace| == 4 ==> trace == [Submitting, Submitted, Confirmed, Failed]
    ensures trace == [Submitting, Failed] || trace == [Submitting, Submitted, Failed]
         || trace == [Submitting, Submitted, Confirmed] || trace == [Submitting, Submitted, Confirmed, Failed]
  {
    if |trace| > 1 {
      assert Step(trace[0], trace[1]);
      if |trace| > 2 {
        assert Step(trace[1], trace[2]);
        assert trace[1] == Submitted;
        if |trace| > 3 {
          StepAt(trace, 3);
          assert trace[2] == Confirmed && trace[3] == Failed;
          if |trace| > 4 {
            StepAt(trace, 4);
            assert false;
          }
        }
      }
    }
  }

  /**
   * What throws, if anything, once the transaction is confirmed: reading or
   * writing the stored list (a malformed stored value, a full or blocked
   * storage), or the completion callback after the record was stored.
   */
  datatype AfterConfirm = NoFault | StorageFault | CallbackFault

  /**
   * The guards of `handleVerification`, in their order: the error each one
   * reports, or `None` when all pass.
   */
  function GuardError(isConnected: bool, verifierName: string, cid: string): (r: Option<string>)
    ensures !isConnected ==> r == Some(NotConnectedMessage)
    ensures isConnected && IsBlank(verifierName) ==> r == Some(NoNameMessage)
    ensures isConnected && !IsBlank(verifierName) && cid == [] ==> r == Some(NoCidMessage)
    ensures r.None? <==> isConnected && Trim(verifierName) != [] && cid != []
  {
    if !isConnected then Some(NotConnectedMessage)
    else if IsBlank(verifierName) then Some(NoNameMessage)
    else if cid == [] then Some(NoCidMessage)
    else None
  }

  class RequestForm {
    var verifierName: string
    var verificationType: string
    var loading: bool
    var error: string
    var transactionHash: string
    var status: RequestStatus
    /** The list stored under `proofvault_verifications`. */
    var stored: seq<VerificationRecord>
    /** The records handed to `onVerificationComplete`, in order. */
    var notified: seq<VerificationRecord>

    /** The initial state of the component, over an existing stored list. */
    constructor (stored: seq<VerificationRecord>)
      ensures verifierName == "" && verificationType == "self" && !loading
      ensures error == "" && transactionHash == "" && status == Idle
      ensures this.stored == stored && notified == []
    {
      verifierName, verificationType := "", "self";
      loading, error, transactionHash, status := false, "", "", Idle;
      this.stored, notified := stored, [];
    }

    /** The effect run when the `cid` prop changes. */
    method OnCidChange()
      modifies this
      ensures verifierName == "" && error == "" && transactionHash == "" && status == Idle
      ensures loading == old(loading) && verificationType == old(verificationType)
      ensures stored == old(stored) && notified == old(notified)
    {
      verifierName, error, transactionHash, status := "", "", "", Idle;
    }

    /** The submit button is enabled: not loading, a name to send, and not yet confirmed. */
    predicate SubmitEnabled()
      reads this
      ensures SubmitEnabled() <==> !loading && Trim(verifierName) != [] && status != Confirmed
    {
      !(loading || IsBlank(verifierName) || status == Confirmed)
    }

    /**
     * `handleVerification`, given whether the wallet is connected, its
     * address, what the service's verify call returns (a transaction hash)
     * or throws, whether `waitForTransaction` resolves, what throws after
     * confirmation, the clock and whether a completion callback was passed.
     * Returns the service calls made and the statuses set, in order.
     */
    method HandleVerification(
      cid: string, isConnected: bool, address: Option<string>,
      submit: Result<string, JsError>, confirmed: bool, fault: AfterConfirm, now: int, hasCallback: bool)
      returns (calls: seq<ServiceCall>, trace: seq<RequestStatus>)
      modifies this
      ensures verifierName == old(verifierName) && verificationType == old(verificationType)
      // The guards come first, in order; a failed one sets its error and makes no call.
      ensures GuardError(isConnected, old(verifierName), cid).Some? ==>
        && error == GuardError(isConnected, old(verifierName), cid).value
        && calls == [] && trace == []
        && loading == old(loading) && status == old(status) && transactionHash == old(transactionHash)
        && stored == old(stored) && notified == old(notified)
      ensures GuardError(isConnected, old(verifierName), cid).None? ==>
        SubmissionEffect(cid, address, submit, confirmed, fault, now, hasCallback, old(stored), old(notified),
                         old(transactionHash), calls, trace)
    {
      var guard := GuardError(isConnected, verifierName, cid);
      if guard.Some? {
        error := guard.value;
        return [], [];
      }
      calls, trace := Submit(cid, address, submit, confirmed, fault, now, hasCallback);
    }

    /**
     * What a submission past the guards leaves behind: one run of the status
     * machine, `loading` cleared, the service called with the trimmed name,
     * and one record stored exactly when the transaction is confirmed and the
     * storage does not throw; a throw after confirmation ends the run failed.
     */
    ghost predicate SubmissionEffect(
      cid: string, address: Option<string>, submit: Result<string, JsError>, confirmed: bool,
      fault: AfterConfirm, now: int,
      hasCallback: bool, storedBefore: seq<VerificationRecord>, notifiedBefore: seq<VerificationRecord>,
      hashBefore: string, calls: seq<ServiceCall>, trace: seq<RequestStatus>)
      reads this
    {
      var name := Trim(verifierName);
      && ValidRun(trace) && status == trace[|trace| - 1] && !loading
      && |calls| >= 1
      && calls[0] == (if verificationType == "self" then SelfVerifyDocument(cid, name) else VerifyDocument(cid, name))
      && match submit
         case Err(e) =>
           && trace == [Submitting, Failed] && |calls| == 1
           && error == (if e.message != [] then e.message else DefaultFailureMessage)
           && stored == storedBefore && notified == notifiedBefore && transactionHash == hashBefore
         case Ok(hash) =>
           && transactionHash == hash
           && calls == [calls[0], WaitForTransaction(hash, 1)]
           && ConfirmationEffect(VerificationRecord(cid, name, address, hash, verificationType, now, "confirmed"),
                                 confirmed, fault, hasCallback, storedBefore, notifiedBefore, trace)
    }

    /**
     * What the wait for the submitted transaction leaves behind: without a
     * confirmation the confirmation error; with one, the record stored and
     * handed to the callback unless the storage throws, and the confirmation
     * error after `confirmed` when something throws.
     */
    ghost predicate ConfirmationEffect(
      record: VerificationRecord, confirmed: bool, fault: AfterConfirm, hasCallback: bool,
      storedBefore: seq<VerificationRecord>, notifiedBefore: seq<VerificationRecord>, trace: seq<RequestStatus>)
      reads this`error, this`status, this`stored, this`notified
    {
      if !confirmed then
        && trace == [Submitting, Submitted, Failed] && status == Failed && error == ConfirmationFailedMessage
        && stored == storedBefore && notified == notifiedBefore
      else if fault == StorageFault then
        && trace == [Submitting, Submitted, Confirmed, Failed] && status == Failed && error == ConfirmationFailedMessage
        && stored == storedBefore && notified == notifiedBefore
      else
        && stored == storedBefore + [record]
        && notified == notifiedBefore + (if hasCallback then [record] else [])
        && if fault == CallbackFault && hasCallback then
             trace == [Submitting, Submitted, Confirmed, Failed] && status == Failed && error == ConfirmationFailedMessage
           else
             trace == [Submitting, Submitted, Confirmed] && status == Confirmed && error == ""
    }

    /** The part of `handleVerification` after its guards. */
    method Submit(
      cid: string, address: Option<string>,
      submit: Result<string, JsError>, confirmed: bool, fault: AfterConfirm, now: int, hasCallback: bool)
      returns (calls: seq<ServiceCall>, trace: seq<RequestStatus>)
      modifies this
      ensures verifierName == old(verifierName) && verificationType == old(verificationType)
      ensures SubmissionEffect(cid, address, submit, confirmed, fault, now, hasCallback, old(stored), old(notified),
                               old(transactionHash), calls, trace)
    {
      loading := true;
      error := "";
      status := Submitting;
      var name := Trim(verifierName);
      var first := if verificationType == "self" then SelfVerifyDocument(cid, name) else VerifyDocument(cid, name);
      if submit.Err? {
        calls, trace := SubmitFailed(cid, address, submit, confirmed, fault, now, hasCallback, first);
      } else {
        calls, trace := FollowTransaction(cid, address, submit, confirmed, fault, now, hasCallback, first);
      }
    }

    /** The outer `catch` and `finally`: the verify call threw. */
    method SubmitFailed(
      cid: string, address: Option<string>,
      submit: Result<string, JsError>, confirmed: bool, fault: AfterConfirm, now: int, hasCallback: bool,
      first: ServiceCall)
      returns (calls: seq<ServiceCall>, trace: seq<RequestStatus>)
      requires submit.Err?
      requires first == (if verificationType == "self" then SelfVerifyDocument(cid, Trim(verifierName))
                         else VerifyDocument(cid, Trim(verifierName)))
      modifies this`error, this`status, this`loading
      ensures SubmissionEffect(cid, address, submit, confirmed, fault, now, hasCallback, old(stored), old(notified),
                               old(transactionHash), calls, trace)
    {
      error := if submit.error.message != [] then submit.error.message else DefaultFailureMessage;
      status := Failed;
      calls, trace := [first], [Submitting, Failed];
      assert ValidRun(trace) by { assert Step(trace[0], trace[1]); }
      loading := false;
    }

    /** The rest of the outer `try`, then the `finally`: the verify call returned a transaction hash. */
    method FollowTransaction(
      cid: string, address: Option<string>,
      submit: Result<string, JsError>, confirmed: bool, fault: AfterConfirm, now: int, hasCallback: bool,
      first: ServiceCall)
      returns (calls: seq<ServiceCall>, trace: seq<RequestStatus>)
      requires submit.Ok? && error == ""
      requires first == (if verificationType == "self" then SelfVerifyDocument(cid, Trim(verifierName))
                         else VerifyDocument(cid, Trim(verifierName)))
      modifies this`error, this`status, this`loading, this`transactionHash, this`stored, this`notified
      ensures SubmissionEffect(cid, address, submit, confirmed, fault, now, hasCallback, old(stored), old(notified),
                               old(transactionHash), calls, trace)
    {
      var hash := submit.value;
      transactionHash := hash;
      status := Submitted;
      calls := [first, WaitForTransaction(hash, 1)];
      var record := VerificationRecord(cid, Trim(verifierName), address, hash, verificationType, now, "confirmed");
      trace := AwaitConfirmation(record, confirmed, fault, hasCallback);
      RunsAreValid();
      loading := false;
    }

    /**
     * The inner `try` of `handleVerification`, entered with status
     * `submitted` and an empty error: wait for the transaction, then set
     * `confirmed`, append the record to the stored list and call back. A
     * failed wait, or a throw on the way, sets the confirmation error and
     * `failed`. Returns the statuses of the whole run.
     */
    method AwaitConfirmation(record: VerificationRecord, confirmed: bool, fault: AfterConfirm, hasCallback: bool)
      returns (trace: seq<RequestStatus>)
      requires error == ""
      modifies this`status, this`error, this`stored, this`notified
      ensures ConfirmationEffect(record, confirmed, fault, hasCallback, old(stored), old(notified), trace)
    {
      if !confirmed {
        error, status := ConfirmationFailedMessage, Failed;
        return [Submitting, Submitted, Failed];
      }
      status := Confirmed;
      trace := [Submitting, Submitted, Confirmed];
      var threw := false;
      if fault == StorageFault {
        threw := true;
      } else {
        stored := stored + [record];
        if hasCallback {
          notified := notified + [record];
          threw := fault == CallbackFault;
        }
      }
      if threw {
        error, status := ConfirmationFailedMessage, Failed;
        trace := trace + [Failed];
      }
    }
  }

  /** An enabled form passes the name guard, so with a wallet and a CID it submits. */
  lemma EnabledFormPassesGuards(form: RequestForm, cid: string)
    requires form.SubmitEnabled() && cid != []
    ensures GuardError(true, form.verifierName, cid).None?
  {}

  /**
   * After a submission the button is enabled again exactly when the run did
   * not end confirmed (and a name is still entered); a confirmed form never
   * submits twice.
   */
  lemma SubmissionReenablesUnlessConfirmed(
    form: RequestForm, cid: string, address: Option<string>, submit: Result<string, JsError>, confirmed: bool,
    fault: AfterConfirm, now: int, hasCallback: bool, storedBefore: seq<VerificationRecord>,
    notifiedBefore: seq<VerificationRecord>, hashBefore: string, calls: seq<ServiceCall>, trace: seq<RequestStatus>)
    requires form.SubmissionEffect(cid, address, submit, confirmed, fault, now, hasCallback,
                                   storedBefore, notifiedBefore, hashBefore, calls, trace)
    requires Trim(form.verifierName) != []
    ensures form.SubmitEnabled() <==> trace != [Submitting, Submitted, Confirmed]
  {}

  /**
   * The stored list grows by one confirmed record, carrying the submitted
   * hash, exactly when the run reached `confirmed` and the storage did not
   * throw; otherwise it is left as it was.
   */
  lemma StoredOnlyWhenConfirmed(
    form: RequestForm, cid: string, address: Option<string>, submit: Result<string, JsError>, confirmed: bool,
    fault: AfterConfirm, now: int, hasCallback: bool, storedBefore: seq<VerificationRecord>,
    notifiedBefore: seq<VerificationRecord>, hashBefore: string, calls: seq<ServiceCall>, trace: seq<RequestStatus>)
    requires form.SubmissionEffect(cid, address, submit, confirmed, fault, now, hasCallback,
                                   storedBefore, notifiedBefore, hashBefore, calls, trace)
    ensures form.stored != storedBefore <==> Confirmed in trace && fault != StorageFault
    ensures form.stored != storedBefore ==>
      && |form.stored| == |storedBefore| + 1 && form.stored[..|storedBefore|] == storedBefore
      && form.stored[|storedBefore|].status == "confirmed"
      && form.stored[|storedBefore|].transactionHash == form.transactionHash
      && form.stored[|storedBefore|].cid == cid
    ensures form.status == Confirmed ==> form.stored != storedBefore
  {
    if submit.Err? || !confirmed {
      assert Confirmed !in trace;
    } else if fault == StorageFault {
      assert form.stored == storedBefore;
    } else {
      var record := form.stored[|storedBefore|];
      assert form.stored == storedBefore + [record];
      assert Confirmed in trace by { assert trace[2] == Confirmed; }
    }
  }

  /**
   * The verify call as shipped: the service object defines neither
   * `selfVerifyDocument` nor `verifyDocument`, so calling either throws a
   * `TypeError` before any transaction is sent.
   */
  function ShippedVerifyCall(verificationType: string): (r: Result<string, JsError>)
    ensures r.Err? && r.error.name == "TypeError" && r.error.message != []
  {
    var member := if verificationType == "self" then "selfVerifyDocument" else "verifyDocument";
    Err(JsError("TypeError", "blockchainService." + member + " is not a function", NoCode, "", None))
  }

  /** With the shipped service no submission is ever confirmed or stored: every run ends failed with the `TypeError`'s text. */
  lemma ShippedSubmissionNeverConfirms(
    form: RequestForm, cid: string, address: Option<string>, confirmed: bool, fault: AfterConfirm, now: int,
    hasCallback: bool, storedBefore: seq<VerificationRecord>, notifiedBefore: seq<VerificationRecord>,
    hashBefore: string, calls: seq<ServiceCall>, trace: seq<RequestStatus>)
    requires form.SubmissionEffect(cid, address, ShippedVerifyCall(form.verificationType), confirmed, fault, now, hasCallback,
                                   storedBefore, notifiedBefore, hashBefore, calls, trace)
    ensures trace == [Submitting, Failed] && form.status == Failed
    ensures form.stored == storedBefore && form.notified == notifiedBefore && form.transactionHash == hashBefore
    ensures form.error == ShippedVerifyCall(form.verificationType).error.message
  {}
}
