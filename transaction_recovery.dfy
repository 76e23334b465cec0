/**
 * The transaction recovery form: the operator types a ledger id, the input keeps only
 * its digits, and Recover asks the server to re-initiate that ledger entry, reporting
 * the outcome in a success or a failure modal.
 */
module TransactionRecovery {
  import opened Wrappers
  import opened Seqs
  import opened Text
  import opened Http

  /** `value.replace(/\D/g, "")`: the ASCII digits of the input, in order. */
  function DigitsOnly(s: string): (r: string)
    ensures AllDigits(r) && |r| <= |s|
  {
    Filter(s, IsAsciiDigit)
  }

  /**
   * The filter keeps every digit as often as it occurs, drops every other character,
   * and keeps the digits' order.
   */
  lemma DigitsOnlySpec(s: string)
    ensures forall c :: multiset(DigitsOnly(s))[c] == if IsAsciiDigit(c) then multiset(s)[c] else 0
    ensures IsSubsequence(DigitsOnly(s), s)
  {
    forall c ensures multiset(DigitsOnly(s))[c] == if IsAsciiDigit(c) then multiset(s)[c] else 0 {
      FilterCount(s, IsAsciiDigit, c);
    }
    FilterIsSubsequence(s, IsAsciiDigit);
  }

  /** Filtering an already filtered value changes nothing, and all-digit input passes through. */
  lemma DigitsOnlyIdempotent(s: string)
    ensures DigitsOnly(DigitsOnly(s)) == DigitsOnly(s)
    ensures AllDigits(s) ==> DigitsOnly(s) == s
  {
    FilterIdempotent(s, IsAsciiDigit);
    if AllDigits(s) {
      FilterAllKept(s, IsAsciiDigit);
    }
  }

  /** A ledger id typed through the filter is blank after trimming only when it is empty. */
  lemma DigitsBlankIffEmpty(s: string)
    requires AllDigits(s)
    ensures Trim(s) == "" <==> s == ""
  {
    TrimEmptyIff(s);
    if s != [] {
      assert !IsJsWhitespace(s[0]);
    }
  }

  /** The part of the answer's `payLoad` the form reads. */
  datatype RecoverPayload = RecoverPayload(debitRevertLedgerId: string, statusCode: Option<string>)

  const EmptyLedgerId := "Ledger ID cannot be empty."
  const RecoverFallback := "Failed to recover the transaction."
  const UnexpectedError := "An unexpected error occurred. Please try again."

  function SuccessText(revertLedgerId: string): string {
    "Successfully recovered the amount with the Revert Ledger ID: " + revertLedgerId
  }

  /** The server said no: its status code if it sent one, else its message, else the fallback. */
  function RefusalMessage(body: Body<RecoverPayload>): (m: string)
    ensures m != ""
    ensures body.payload.Some? && Truthy(body.payload.value.statusCode) ==> m == body.payload.value.statusCode.value
    ensures !(body.payload.Some? && Truthy(body.payload.value.statusCode)) && Truthy(body.message) ==> m == body.message.value
    ensures !(body.payload.Some? && Truthy(body.payload.value.statusCode)) && !Truthy(body.message) ==> m == RecoverFallback
  {
    if body.payload.Some? && Truthy(body.payload.value.statusCode) then body.payload.value.statusCode.value
    else OrElse(body.message, RecoverFallback)
  }

  predicate Recovered(reply: Reply<RecoverPayload>) {
    reply.Received? && reply.ok && reply.body.isSuccess && reply.body.payload.Some?
  }

  /** The message of a failed recovery; never empty. */
  function FailureMessage(reply: Reply<RecoverPayload>): (m: string)
    requires !Recovered(reply)
    ensures m != ""
    ensures reply.Received? && !reply.ok ==> m == "HTTP error! Status: " + NatToString(reply.status)
    ensures reply.Received? && reply.ok ==> m == RefusalMessage(reply.body)
    ensures reply.Rejected? ==> m == OrElse(Some(reply.reason), UnexpectedError)
  {
    match reply
    case Rejected(reason) => OrElse(Some(reason), UnexpectedError)
    case Received(ok, status, _, body) =>
      if !ok then "HTTP error! Status: " + NatToString(status) else RefusalMessage(body)
  }

  class RecoveryForm {
    var ledgerID: string
    var isSubmitting: bool
    var isSuccessModalOpen: bool
    var successMessage: string
    var isFailureModalOpen: bool
    var errorMessage: string

    constructor()
      ensures ledgerID == "" && !isSubmitting && !isSuccessModalOpen && successMessage == ""
      ensures !isFailureModalOpen && errorMessage == ""
    {
      ledgerID, isSubmitting := "", false;
      isSuccessModalOpen, successMessage, isFailureModalOpen, errorMessage := false, "", false, "";
    }

    /** `handleNumericInputChange` */
    method InputChange(value: string)
      modifies this
      ensures ledgerID == DigitsOnly(value)
      ensures isSubmitting == old(isSubmitting) && errorMessage == old(errorMessage) && successMessage == old(successMessage)
      ensures isSuccessModalOpen == old(isSuccessModalOpen) && isFailureModalOpen == old(isFailureModalOpen)
    {
      ledgerID := DigitsOnly(value);
    }

    /**
     * `handleRecoverTransaction` up to the `await`: a blank id is refused at once with no
     * request and `isSubmitting` untouched; otherwise the request for the id goes out
     * (`request`), with the form submitting and both messages cleared. Nothing checks
     * `isSubmitting` first: only the button is disabled while a request is out, and the
     * form's own submit (Enter in the input) starts another one.
     */
    method BeginRecover() returns (request: Option<string>)
      modifies this
      ensures request.Some? <==> Trim(old(ledgerID)) != ""
      ensures request.None? ==>
                && errorMessage == EmptyLedgerId && isFailureModalOpen && isSubmitting == old(isSubmitting)
                && successMessage == old(successMessage) && isSuccessModalOpen == old(isSuccessModalOpen)
      ensures request.Some? ==>
                && request.value == ledgerID && isSubmitting && successMessage == "" && errorMessage == ""
                && isFailureModalOpen == old(isFailureModalOpen) && isSuccessModalOpen == old(isSuccessModalOpen)
      ensures ledgerID == old(ledgerID)
    {
      if Trim(ledgerID) == "" {
        errorMessage := EmptyLedgerId;
        isFailureModalOpen := true;
        return None;
      }
      isSubmitting := true;
      successMessage := "";
      errorMessage := "";
      return Some(ledgerID);
    }

    /**
     * The answer arrives: a recovery opens the success modal with the revert ledger id and
     * clears the input; anything else opens the failure modal and keeps the input. The
     * form stops submitting either way, even while an overlapping request is still out.
     */
    method CompleteRecover(reply: Reply<RecoverPayload>)
      modifies this
      ensures !isSubmitting
      ensures Recovered(reply) ==>
                && isSuccessModalOpen && successMessage == SuccessText(reply.body.payload.value.debitRevertLedgerId)
                && ledgerID == "" && isFailureModalOpen == old(isFailureModalOpen) && errorMessage == old(errorMessage)
      ensures !Recovered(reply) ==>
                && isFailureModalOpen && errorMessage == FailureMessage(reply) && ledgerID == old(ledgerID)
                && isSuccessModalOpen == old(isSuccessModalOpen) && successMessage == old(successMessage)
    {
      if Recovered(reply) {
        successMessage := SuccessText(reply.body.payload.value.debitRevertLedgerId);
        isSuccessModalOpen := true;
        ledgerID := "";
      } else {
        errorMessage := FailureMessage(reply);
        isFailureModalOpen := true;
      }
      isSubmitting := false;
    }

    method ToggleSuccessModal()
      modifies this
      ensures isSuccessModalOpen == !old(isSuccessModalOpen)
      ensures ledgerID == old(ledgerID) && isSubmitting == old(isSubmitting) && isFailureModalOpen == old(isFailureModalOpen)
      ensures successMessage == old(successMessage) && errorMessage == old(errorMessage)
    {
      isSuccessModalOpen := !isSuccessModalOpen;
    }

    method ToggleFailureModal()
      modifies this
      ensures isFailureModalOpen == !old(isFailureModalOpen)
      ensures ledgerID == old(ledgerID) && isSubmitting == old(isSubmitting) && isSuccessModalOpen == old(isSuccessModalOpen)
      ensures successMessage == old(successMessage) && errorMessage == old(errorMessage)
    {
      isFailureModalOpen := !isFailureModalOpen;
    }
  }
}
