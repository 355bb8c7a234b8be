/**
 * `fetch_sites`: up to five requests for the organisation's site list. A
 * throttled request (HTTP 429) sleeps for its Retry-After value, or the
 * current backoff when the header is absent, then doubles the backoff; every
 * failed request is followed by a sleep of the current backoff.
 */
module Directory {
  import opened Wrappers
  import opened Records

  const MaxRetries: nat := 5
  const InitialBackoff: nat := 1
  const StatusTooManyRequests := 429

  /**
   * The outcome of one request: the decoded site list, an HTTP error status
   * (with the Retry-After header, if any), or any other request failure.
   */
  datatype Attempt =
    | Fetched(sites: seq<Site>)
    | HttpError(status: int, retryAfter: Option<nat>)
    | RequestFailed

  predicate IsThrottle(a: Attempt) {
    a.HttpError? && a.status == StatusTooManyRequests
  }

  function Pow2(k: nat): nat {
    if k == 0 then 1 else 2 * Pow2(k - 1)
  }

  /** The number of throttled attempts in `attempts`. */
  function Throttles(attempts: seq<Attempt>): nat
    decreases |attempts|
  {
    if attempts == [] then 0
    else Throttles(attempts[..|attempts| - 1]) + (if IsThrottle(attempts[|attempts| - 1]) then 1 else 0)
  }

  /** The backoff once `attempts` have failed: it doubles on each throttle only. */
  function Backoff(attempts: seq<Attempt>): nat {
    InitialBackoff * Pow2(Throttles(attempts))
  }

  /** The sleeps after a failed attempt made with the given backoff. */
  function SleepsAfter(a: Attempt, backoff: nat): seq<nat> {
    if IsThrottle(a) then [a.retryAfter.GetOr(backoff), 2 * backoff] else [backoff]
  }

  /** The sleeps taken over a run of failed attempts, in order. */
  function Schedule(failed: seq<Attempt>): seq<nat>
    decreases |failed|
  {
    if failed == [] then []
    else
      var before := failed[..|failed| - 1];
      Schedule(before) + SleepsAfter(failed[|failed| - 1], Backoff(before))
  }

  /**
   * The loop. `script[i]` is the outcome of request `i`; `attempts` is the
   * number of requests made. The first successful request returns its site
   * list and no later outcome is consulted; after five failures the result is
   * the empty list. `sleeps` lists the sleeps taken, in order.
   */
  method FetchSites(script: seq<Attempt>) returns (sites: seq<Site>, sleeps: seq<nat>, attempts: nat)
    requires |script| >= MaxRetries
    ensures 1 <= attempts <= MaxRetries
    ensures forall i :: 0 <= i < attempts - 1 ==> !script[i].Fetched?
    ensures script[attempts - 1].Fetched? ==>
      sites == script[attempts - 1].sites && sleeps == Schedule(script[..attempts - 1])
    ensures !script[attempts - 1].Fetched? ==>
      attempts == MaxRetries && sites == [] && sleeps == Schedule(script[..MaxRetries])
  {
    var backoff := InitialBackoff;
    sleeps := [];
    for attempt := 0 to MaxRetries
      invariant forall i :: 0 <= i < attempt ==> !script[i].Fetched?
      invariant backoff == Backoff(script[..attempt])
      invariant sleeps == Schedule(script[..attempt])
    {
      var outcome := script[attempt];
      assert script[..attempt + 1][..attempt] == script[..attempt];
      match outcome {
        case Fetched(s) =>
          return s, sleeps, attempt + 1;
        case HttpError(status, retryAfter) =>
          if status == StatusTooManyRequests {
            sleeps := sleeps + [retryAfter.GetOr(backoff)];
            backoff := backoff * 2;
          }
        case RequestFailed =>
      }
      sleeps := sleeps + [backoff];
    }
    sites, attempts := [], MaxRetries;
  }

  /** A sleep follows every failed attempt, and a throttled one is followed by two. */
  lemma {:induction false} ScheduleLength(failed: seq<Attempt>)
    ensures |Schedule(failed)| == |failed| + Throttles(failed)
    decreases |failed|
  {
    if failed != [] {
      ScheduleLength(failed[..|failed| - 1]);
    }
  }

  /**
   * The sleeps after attempt `k` follow those of the attempts before it: a
   * 429 sleeps its Retry-After (or the backoff, 2 to the number of earlier
   * throttles) and then the doubled backoff; any other failure sleeps the
   * backoff unchanged.
   */
  lemma {:induction false} ScheduleStep(failed: seq<Attempt>, k: nat)
    requires k < |failed|
    ensures Schedule(failed[..k]) + SleepsAfter(failed[k], Pow2(Throttles(failed[..k]))) <= Schedule(failed)
    decreases |failed|
  {
    var before := failed[..|failed| - 1];
    if k == |failed| - 1 {
      assert failed[..k] == before;
    } else {
      assert before[..k] == failed[..k];
      ScheduleStep(before, k);
    }
  }

  /** Without a throttle the backoff never grows: every failure is followed by a 1-second sleep. */
  lemma {:induction false} UnthrottledSchedule(failed: seq<Attempt>)
    requires forall i :: 0 <= i < |failed| ==> !IsThrottle(failed[i])
    ensures Throttles(failed) == 0
    ensures Schedule(failed) == seq(|failed|, i => InitialBackoff)
    decreases |failed|
  {
    if failed != [] {
      UnthrottledSchedule(failed[..|failed| - 1]);
    }
  }

  /** A 429 with Retry-After 3 first sleeps 3 seconds, not the backoff, then the doubled backoff 2. */
  lemma RetryAfterHonoured()
    ensures Schedule([HttpError(429, Some(3))]) == [3, 2]
  {
  }
}
