/** The `RateLimiter` of `stockworks/engine/utils.py`.

    Time is an integer number of ticks supplied by the caller instead of
    `datetime.now()`; the float interval `1.0 / calls_per_second` is a positive
    number of ticks, and `asyncio.sleep` is replaced by the instant at which the
    sleep ends. */
module RateLimiting {

  /** A positive number of ticks. */
  type Positive = n: int | n > 0 witness 1

  /** The instant at which `acquire`, called at `now`, records its completion
      when the previous recorded call was at `last`: it sleeps only if less than
      one interval has elapsed, and then exactly until `last + interval`. */
  function CompletionTime(last: int, interval: Positive, now: int): (t: int)
    ensures t >= now && t >= last + interval
    ensures t == now || t == last + interval
    ensures now - last >= interval ==> t == now
    ensures now - last < interval ==> t == last + interval
  {
    if now - last < interval then last + interval else now
  }

  /** Consecutive instants of `times` are at least `interval` apart. */
  ghost predicate Spaced(times: seq<int>, interval: int) {
    forall i :: 0 < i < |times| ==> times[i - 1] + interval <= times[i]
  }

  /** The values `last_call_time` takes: the construction instant `created`,
      then the completion instant of each acquisition requested at the
      instants `requests`, in order. */
  function Recorded(created: int, interval: Positive, requests: seq<int>): (h: seq<int>)
    ensures |h| == |requests| + 1 && h[0] == created
    decreases |requests|
  {
    if requests == [] then [created]
    else
      var before := Recorded(created, interval, requests[..|requests| - 1]);
      before + [CompletionTime(before[|before| - 1], interval, requests[|requests| - 1])]
  }

  /** Every recorded completion is at or after the instant it was requested. */
  lemma {:induction false} RecordedNotBeforeRequest(created: int, interval: Positive, requests: seq<int>, i: int)
    requires 0 <= i < |requests|
    ensures Recorded(created, interval, requests)[i + 1] >= requests[i]
    decreases |requests|
  {
    var n := |requests|;
    var before := Recorded(created, interval, requests[..n - 1]);
    if i < n - 1 {
      RecordedNotBeforeRequest(created, interval, requests[..n - 1], i);
      assert Recorded(created, interval, requests)[i + 1] == before[i + 1];
    }
  }

  /** The spacing invariant: over any sequence of acquisitions, consecutive
      recorded instants (the construction instant included) differ by at
      least one interval. */
  lemma {:induction false} RecordedSpaced(created: int, interval: Positive, requests: seq<int>)
    ensures Spaced(Recorded(created, interval, requests), interval)
    decreases |requests|
  {
    if requests != [] {
      var n := |requests|;
      var before := Recorded(created, interval, requests[..n - 1]);
      RecordedSpaced(created, interval, requests[..n - 1]);
      var h := Recorded(created, interval, requests);
      assert h == before + [CompletionTime(before[|before| - 1], interval, requests[n - 1])];
      forall i | 0 < i < |h| ensures h[i - 1] + interval <= h[i] {
        if i < |h| - 1 {
          assert h[i - 1] == before[i - 1] && h[i] == before[i];
        }
      }
    }
  }

  /** Spacing accumulates: instants `k` recordings apart differ by at least
      `k` intervals; in particular `last_call_time` never decreases. */
  lemma {:induction false} SpacedGap(times: seq<int>, interval: int, i: int, j: int)
    requires Spaced(times, interval)
    requires 0 <= i <= j < |times|
    ensures times[j] - times[i] >= (j - i) * interval
    decreases j - i
  {
    if i < j {
      SpacedGap(times, interval, i, j - 1);
      assert times[j - 1] + interval <= times[j];
    }
  }

  /** Recorded instants never decrease, whatever the request instants. */
  lemma RecordedMonotone(created: int, interval: Positive, requests: seq<int>, i: int, j: int)
    requires 0 <= i <= j <= |requests|
    ensures Recorded(created, interval, requests)[i] <= Recorded(created, interval, requests)[j]
  {
    RecordedSpaced(created, interval, requests);
    SpacedGap(Recorded(created, interval, requests), interval, i, j);
  }

  /** A rate limiter owned by one caller. `requests` lists the instants at
      which `acquire` was called, so that `Valid` can tie `lastCallTime` to
      the whole history of recorded instants. */
  class RateLimiter {
    const interval: Positive
    var lastCallTime: int
    ghost const created: int
    ghost var requests: seq<int>

    /** The values `lastCallTime` has taken, oldest first. */
    ghost function History(): (h: seq<int>)
      reads this
      ensures |h| == |requests| + 1
    {
      Recorded(created, interval, requests)
    }

    ghost predicate Valid()
      reads this
    {
      lastCallTime == History()[|History()| - 1]
    }

    /** `RateLimiter(calls_per_second)` at instant `now`: the last call is
        taken to be the construction instant. */
    constructor (interval: Positive, now: int)
      ensures Valid()
      ensures this.interval == interval && lastCallTime == now
      ensures created == now && requests == []
    {
      this.interval := interval;
      lastCallTime := now;
      created := now;
      requests := [];
    }

    /** `acquire()` called at `now`: waits until one interval after the last
        recorded call if needed, records the completion instant and returns
        it. It has no failure path. */
    method Acquire(now: int) returns (completed: int)
      requires Valid()
      modifies this`lastCallTime, this`requests
      ensures Valid()
      ensures completed == CompletionTime(old(lastCallTime), interval, now)
      ensures completed >= now && completed >= old(lastCallTime) + interval
      ensures lastCallTime == completed
      ensures requests == old(requests) + [now]
      ensures Spaced(History(), interval)
    {
      completed := if now - lastCallTime < interval then lastCallTime + interval else now;
      lastCallTime := completed;
      requests := requests + [now];
      assert requests[..|requests| - 1] == old(requests);
      RecordedSpaced(created, interval, requests);
    }
  }

  /** Two calls per second with millisecond ticks. A limiter constructed
      long before its first use lets the first acquisition through at once and
      delays the second by a full interval; one constructed at the instant of
      its first acquisition already makes that first one wait. */
  lemma TwoCallsPerSecondScenario()
    ensures Recorded(-1000, 500, [0, 0]) == [-1000, 0, 500]
    ensures Recorded(0, 500, [0]) == [0, 500]
  {
  }
}
