/** The retry policy the dashboard tiles share. Each tile's `fetch(attempt)`
    refuses to run past attempt 3, and otherwise sets the loading flag and
    asks the server. On success it stores the data and resets the retry
    count. On failure it either schedules `fetch(attempt + 1)` after a
    back-off delay or gives up with an error message.
    - The standard policy (`OpenOverdueTile`, `UpcomingTasksList`,
      `RecentActivityFeed`, `WellnessPromptTile`, and `MITStatusTile` outside
      tests) retries after attempts 0, 1 and 2, waiting 2^a seconds.
    - `MITStatusTile` in a test environment never retries.
    - `ProductivityScoreBar` retries after every failure, waiting
      min(1000 * 2^a, 10000) milliseconds. Only the call at attempt 4 stops
      the chain, with the "after multiple attempts" error.
    Timers are not modelled: a scheduled retry is returned as its delay. */
module Retry {
  import opened Wrappers

  /** The last attempt that still asks the server. */
  const LastAttempt: nat := 3

  datatype Policy = Standard | NoRetry | Capped

  function Pow2(n: nat): (r: nat)
    ensures r >= 1
  {
    if n == 0 then 1 else 2 * Pow2(n - 1)
  }

  lemma {:induction false} Pow2Grows(a: nat, b: nat)
    requires a <= b
    ensures Pow2(a) <= Pow2(b)
    decreases b
  {
    if a < b {
      Pow2Grows(a, b - 1);
    }
  }

  /** `Math.pow(2, attempt) * 1000`. */
  function BackoffMs(a: nat): nat
  {
    Pow2(a) * 1000
  }

  /** `Math.min(1000 * Math.pow(2, attempt), 10000)`. */
  function CappedBackoffMs(a: nat): nat
  {
    if 1000 * Pow2(a) < 10000 then 1000 * Pow2(a) else 10000
  }

  /** The standard delays are one, two and four seconds. The capped ones
      double from one second and stay at ten seconds from attempt 4 on. */
  lemma BackoffSchedule(a: nat)
    ensures BackoffMs(0) == 1000 && BackoffMs(1) == 2000 && BackoffMs(2) == 4000
    ensures CappedBackoffMs(0) == 1000 && CappedBackoffMs(1) == 2000
    ensures CappedBackoffMs(2) == 4000 && CappedBackoffMs(3) == 8000
    ensures a >= 4 ==> CappedBackoffMs(a) == 10000
    ensures CappedBackoffMs(a) <= 10000 && CappedBackoffMs(a) <= BackoffMs(a)
  {
    assert Pow2(4) == 16;
    if a >= 4 {
      Pow2Grows(4, a);
    }
  }

  /** The delay a failed request at `attempt` waits before the next call,
      or `None` when the tile gives up instead. */
  function RetryDelay(p: Policy, attempt: nat): (r: Option<nat>)
    requires attempt <= LastAttempt
    ensures r.Some? <==> (p == Standard && attempt < LastAttempt) || p == Capped
    ensures r.Some? && p == Standard ==> r.value == BackoffMs(attempt)
    ensures r.Some? && p == Capped ==> r.value == CappedBackoffMs(attempt)
  {
    match p
    case Standard => if attempt < LastAttempt then Some(BackoffMs(attempt)) else None
    case NoRetry => None
    case Capped => Some(CappedBackoffMs(attempt))
  }

  /** The server's answer to one request: the data, or a failure carrying
      the thrown error's message when it was an `Error`. */
  datatype Answer<D> = Loaded(value: D) | Failed(message: Option<string>)

  /** The tile's record computed from what the server sent. */
  function MapAnswer<A, B>(a: Answer<A>, f: A -> B): (r: Answer<B>)
    ensures r.Loaded? <==> a.Loaded?
    ensures a.Loaded? ==> r.value == f(a.value)
    ensures a.Failed? ==> r.message == a.message
  {
    match a
    case Loaded(v) => Loaded(f(v))
    case Failed(m) => Failed(m)
  }

  /** The answer to request `i`; requests past the given ones fail. */
  function AnswerAt<D>(answers: seq<Answer<D>>, i: nat): Answer<D>
  {
    if i < |answers| then answers[i] else Failed(None)
  }

  /** The first of the first n requests that succeeds, or n if none does. */
  function FirstLoaded<D>(answers: seq<Answer<D>>, n: nat): (k: nat)
    ensures k <= n
    ensures k < n ==> AnswerAt(answers, k).Loaded?
    ensures forall i :: 0 <= i < k ==> AnswerAt(answers, i).Failed?
  {
    if n == 0 then 0
    else
      var k := FirstLoaded(answers, n - 1);
      if k < n - 1 then k
      else if AnswerAt(answers, n - 1).Loaded? then n - 1
      else n
  }

  /** How many requests a policy makes at most. */
  function MaxRequests(p: Policy): (n: nat)
    ensures n >= 1
  {
    if p == NoRetry then 1 else LastAttempt + 1
  }

  /** The delay before call i + 1 of a chain. */
  function DelayBefore(p: Policy, i: nat): nat
  {
    if p == Capped then CappedBackoffMs(i) else BackoffMs(i)
  }

  /** The message shown when a request fails and the tile gives up. */
  function FailureText<D>(a: Answer<D>, fallback: string): string
  {
    if a.Failed? && a.message.Some? then a.message.value else fallback
  }

  /** The loading state of one tile. `data` is the tile's own record. */
  class Loader<D> {
    const policy: Policy
    /** "Failed to load … after multiple attempts". */
    const tooManyMessage: string
    /** The message used when the thrown value is not an `Error`. */
    const fallbackMessage: string
    var data: D
    var isLoading: bool
    var error: Option<string>
    var retryCount: nat

    constructor (p: Policy, tooMany: string, fallback: string, initial: D)
      ensures policy == p && tooManyMessage == tooMany && fallbackMessage == fallback
      ensures data == initial && isLoading && error == None && retryCount == 0
    {
      policy := p;
      tooManyMessage := tooMany;
      fallbackMessage := fallback;
      data := initial;
      isLoading := true;
      error := None;
      retryCount := 0;
    }

    /** One call `fetch(attempt)` with the server's answer. It returns the
        delay of the retry it schedules, if any. */
    method Fetch(attempt: nat, answer: Answer<D>) returns (retry: Option<nat>)
      modifies this
      ensures attempt > LastAttempt ==>
        retry == None && data == old(data) && !isLoading && error == Some(tooManyMessage) &&
        retryCount == old(retryCount)
      ensures attempt <= LastAttempt && answer.Loaded? ==>
        retry == None && data == answer.value && !isLoading && error == None && retryCount == 0
      ensures attempt <= LastAttempt && answer.Failed? ==>
        retry == RetryDelay(policy, attempt) && data == old(data)
      ensures attempt <= LastAttempt && answer.Failed? && retry.Some? ==>
        isLoading && error == None && retryCount == attempt + 1
      ensures attempt <= LastAttempt && answer.Failed? && retry.None? ==>
        !isLoading && error == Some(FailureText(answer, fallbackMessage)) && retryCount == 0
    {
      if attempt > LastAttempt {
        isLoading := false;
        error := Some(tooManyMessage);
        return None;
      }
      isLoading := true;
      error := None;
      if answer.Loaded? {
        data := answer.value;
        isLoading := false;
        error := None;
        retryCount := 0;
        return None;
      }
      retry := RetryDelay(policy, attempt);
      if retry.Some? {
        retryCount := attempt + 1;
      } else {
        isLoading := false;
        error := Some(FailureText(answer, fallbackMessage));
        retryCount := 0;
      }
    }

    /** The state a completed chain leaves, for the answers of its requests:
        the first successful request, if one of the allowed ones succeeds,
        decides the data. Otherwise the last failure (or, for the capped
        policy, the refused call at attempt 4) decides the error. */
    ghost predicate Settled(answers: seq<Answer<D>>, prior: D, requests: nat, delays: seq<nat>)
      reads this
    {
      var n := MaxRequests(policy);
      var k := FirstLoaded(answers, n);
      !isLoading &&
      (forall i :: 0 <= i < |delays| ==> delays[i] == DelayBefore(policy, i)) &&
      (k < n ==>
        requests == k + 1 && |delays| == k && AnswerAt(answers, k).Loaded? &&
        data == AnswerAt(answers, k).value && error == None && retryCount == 0) &&
      (k == n && policy != Capped ==>
        requests == n && |delays| == n - 1 && data == prior &&
        error == Some(FailureText(AnswerAt(answers, n - 1), fallbackMessage)) && retryCount == 0) &&
      (k == n && policy == Capped ==>
        requests == n && |delays| == n && data == prior &&
        error == Some(tooManyMessage) && retryCount == n)
    }

    /** The whole chain started by `fetch(0)`, each scheduled retry run in
        turn. It returns the number of server requests and the delays
        waited. */
    method Load(answers: seq<Answer<D>>) returns (requests: nat, delays: seq<nat>)
      modifies this
      ensures Settled(answers, old(data), requests, delays)
    {
      var prior := data;
      var n := MaxRequests(policy);
      var attempt: nat := 0;
      requests := 1;
      delays := [];
      var retry := Fetch(0, AnswerAt(answers, 0));
      while retry.Some?
        invariant attempt <= LastAttempt + 1
        invariant retry.Some? ==> attempt <= LastAttempt && attempt + 1 < n + (if policy == Capped then 1 else 0)
        invariant retry.Some? ==> forall i :: 0 <= i <= attempt ==> AnswerAt(answers, i).Failed?
        invariant retry.Some? ==>
          isLoading && error == None && data == prior && retryCount == attempt + 1 &&
          requests == attempt + 1 && |delays| == attempt && retry.value == DelayBefore(policy, attempt)
        invariant forall i :: 0 <= i < |delays| ==> delays[i] == DelayBefore(policy, i)
        invariant retry.None? ==> Settled(answers, prior, requests, delays)
        decreases LastAttempt + 1 - attempt
      {
        delays := delays + [retry.value];
        attempt := attempt + 1;
        if attempt <= LastAttempt {
          requests := requests + 1;
        }
        retry := Fetch(attempt, AnswerAt(answers, attempt));
      }
    }

    /** `handleRetry`: the count starts again from zero and the chain
        restarts at attempt 0. */
    method HandleRetry(answers: seq<Answer<D>>) returns (requests: nat, delays: seq<nat>)
      modifies this
      ensures Settled(answers, old(data), requests, delays)
    {
      retryCount := 0;
      requests, delays := Load(answers);
    }
  }
}
