/** The double-click guard around an asynchronous operation
    (`src/hooks/useDoubleClickPrevention.ts`). A call runs the operation
    unless one is still loading or the previous accepted call was less than
    `debounceMs` ago; a safety timer ends the loading state after
    `maxLoadingMs`. The clock is an input, the operation's outcome is an
    input to `Settle`, and the safety timer firing is the explicit operation
    `TimeOut`. */
module DoubleClick {
  import opened Wrappers

  const DefaultDebounceMs: nat := 1000
  const DefaultMaxLoadingMs: nat := 5000
  const TimedOutMessage := "Operation timed out. Please try again."
  const GenericMessage := "An error occurred"

  /** How the awaited operation ended: a value, or a thrown error with a
      message when the error is an `Error` instance. */
  datatype Outcome<R> = Succeeded(value: R) | Raised(message: Option<string>)

  /** The guard's test: nothing loading and the debounce interval over. */
  predicate Admits(isLoading: bool, lastExecution: int, debounceMs: nat, now: int)
  {
    !isLoading && now - lastExecution >= debounceMs
  }

  /** The error text a failure leaves. */
  function FailureMessage(message: Option<string>): (m: string)
    ensures message.Some? ==> m == message.value
    ensures message.None? ==> m == GenericMessage
  {
    message.GetOr(GenericMessage)
  }

  class Guard {
    const debounceMs: nat
    const maxLoadingMs: nat
    var isLoading: bool
    var error: Option<string>
    var lastExecution: int
    /** `timeoutRef` holds a safety timer that has neither fired nor been
        cleared. */
    var timerPending: bool

    /** The options default to 1000 and 5000 ms. */
    constructor (debounce: Option<nat>, maxLoading: Option<nat>)
      ensures debounceMs == debounce.GetOr(DefaultDebounceMs) && maxLoadingMs == maxLoading.GetOr(DefaultMaxLoadingMs)
      ensures !isLoading && error == None && lastExecution == 0 && !timerPending
    {
      debounceMs := debounce.GetOr(DefaultDebounceMs);
      maxLoadingMs := maxLoading.GetOr(DefaultMaxLoadingMs);
      isLoading := false;
      error := None;
      lastExecution := 0;
      timerPending := false;
    }

    /** `execute` up to the awaited operation. A refused call changes
        nothing and the operation does not run; an accepted one records the
        time, starts loading, clears the error and arms the safety timer. */
    method Execute(now: int) returns (accepted: bool)
      modifies this
      ensures accepted <==> Admits(old(isLoading), old(lastExecution), debounceMs, now)
      ensures !accepted ==>
        isLoading == old(isLoading) && error == old(error) &&
        lastExecution == old(lastExecution) && timerPending == old(timerPending)
      ensures accepted ==> isLoading && error == None && lastExecution == now && timerPending
    {
      accepted := Admits(isLoading, lastExecution, debounceMs, now);
      if accepted {
        lastExecution := now;
        isLoading := true;
        error := None;
        timerPending := true;
      }
    }

    /** The awaited operation has settled. The timer is cleared and loading
        ends; a value is passed back, an error is stored and thrown again
        (`rethrown`). */
    method Settle<R>(outcome: Outcome<R>) returns (result: Option<R>, rethrown: bool)
      modifies this
      ensures !isLoading && !timerPending && lastExecution == old(lastExecution)
      ensures outcome.Succeeded? ==> result == Some(outcome.value) && !rethrown && error == old(error)
      ensures outcome.Raised? ==> result == None && rethrown && error == Some(FailureMessage(outcome.message))
    {
      timerPending := false;
      isLoading := false;
      if outcome.Succeeded? {
        result, rethrown := Some(outcome.value), false;
      } else {
        error := Some(FailureMessage(outcome.message));
        result, rethrown := None, true;
      }
    }

    /** The safety timer fires `maxLoadingMs` after an accepted call whose
        operation has not settled: loading ends with the timeout error. A
        cleared timer does nothing. */
    method TimeOut()
      modifies this
      ensures old(timerPending) ==> !isLoading && error == Some(TimedOutMessage) && !timerPending
      ensures !old(timerPending) ==> isLoading == old(isLoading) && error == old(error) && !timerPending
      ensures lastExecution == old(lastExecution)
    {
      if timerPending {
        isLoading := false;
        error := Some(TimedOutMessage);
        timerPending := false;
      }
    }

    /** `reset`: loading and error cleared, the timer cancelled; the time of
        the last call is kept, so the debounce still applies. */
    method Reset()
      modifies this
      ensures !isLoading && error == None && !timerPending && lastExecution == old(lastExecution)
    {
      isLoading := false;
      error := None;
      timerPending := false;
    }
  }

  /** After an accepted call at `t`, every call before `t + debounceMs` is
      refused, whatever happened in between; once the interval is over and
      nothing is loading, a call is accepted again. */
  lemma DebounceWindow(debounceMs: nat, t: int, later: int, isLoading: bool)
    ensures later < t + debounceMs ==> !Admits(isLoading, t, debounceMs, later)
    ensures later >= t + debounceMs && !isLoading ==> Admits(isLoading, t, debounceMs, later)
  {
  }

  /** Two clicks at the same time never both run the operation: the first
      leaves the guard loading. */
  lemma SecondClickRefused(debounceMs: nat, last: int, now: int)
    ensures !Admits(true, last, debounceMs, now)
  {
  }
}
