/** The slot-reserving rate limiter and the retry loop of the RPC client. */
module RateLimiter {
  import opened Numbers

  /** The start time of call n when calls arrive at the given moments and the first free slot is
      `first`: each caller takes the later of its arrival and the next free slot. */
  function Start(interval: real, first: real, arrivals: seq<real>, n: nat): real
    requires n < |arrivals|
  {
    MaxReal(arrivals[n], if n == 0 then first else Start(interval, first, arrivals, n - 1) + interval)
  }

  class Limiter {
    const interval: real
    var nextAt: real

    constructor (requestsPerSecond: real)
      ensures interval == (if requestsPerSecond > 0.0 then 1.0 / requestsPerSecond else 0.0)
      ensures nextAt == 0.0
    {
      interval := if requestsPerSecond > 0.0 then 1.0 / requestsPerSecond else 0.0;
      nextAt := 0.0;
    }

    /** Reserves a slot under the lock and returns how long to sleep. */
    method Wait(now: real) returns (sleep: real)
      modifies this
      ensures interval <= 0.0 ==> sleep == 0.0 && nextAt == old(nextAt)
      ensures interval > 0.0 ==>
        && sleep >= 0.0
        && now + sleep == MaxReal(now, old(nextAt))
        && nextAt == now + sleep + interval
    {
      if interval <= 0.0 {
        return 0.0;
      }
      var delay := nextAt - now;
      nextAt := MaxReal(now, nextAt) + interval;
      sleep := if delay > 0.0 then delay else 0.0;
    }

    /** A whole sequence of calls gets exactly the start times of `Start`. */
    method Serve(arrivals: seq<real>) returns (starts: seq<real>)
      requires interval > 0.0
      modifies this
      ensures |starts| == |arrivals|
      ensures forall n :: 0 <= n < |arrivals| ==> starts[n] == Start(interval, old(nextAt), arrivals, n)
    {
      hide MaxReal;
      starts := [];
      var n := 0;
      while n < |arrivals|
        invariant 0 <= n <= |arrivals| && |starts| == n
        invariant forall i :: 0 <= i < n ==> starts[i] == Start(interval, old(nextAt), arrivals, i)
        invariant nextAt == (if n == 0 then old(nextAt) else starts[n - 1] + interval)
      {
        var sleep := Wait(arrivals[n]);
        assert n > 0 ==> starts[n - 1] == Start(interval, old(nextAt), arrivals, n - 1);
        assert arrivals[n] + sleep == Start(interval, old(nextAt), arrivals, n);
        starts := starts + [arrivals[n] + sleep];
        n := n + 1;
      }
    }
  }

  /** The length of k intervals. */
  function Span(interval: real, k: nat): real {
    if k == 0 then 0.0 else Span(interval, k - 1) + interval
  }

  lemma {:induction false} SpanIsProduct(interval: real, k: nat)
    ensures Span(interval, k) == k as real * interval
  {
    if k > 0 {
      SpanIsProduct(interval, k - 1);
      assert k as real == (k - 1) as real + 1.0;
      Distribute((k - 1) as real, interval);
    }
  }

  lemma Distribute(k: real, x: real)
    ensures (k + 1.0) * x == k * x + x
  {
  }

  /** What a caller at position j forces on position n: its own arrival and one interval per step. */
  function Forced(interval: real, arrivals: seq<real>, j: nat, n: nat): real
    requires j <= n < |arrivals|
  {
    arrivals[j] + Span(interval, n - j)
  }

  /** The exact max-plus closed form: every earlier arrival is a lower bound, the first free slot is
      one, and one of these bounds is attained.  Arrivals may come in any order. */
  lemma {:induction false} ClosedForm(interval: real, first: real, arrivals: seq<real>, n: nat)
    requires n < |arrivals|
    ensures forall j: nat :: j <= n ==> Start(interval, first, arrivals, n) >= Forced(interval, arrivals, j, n)
    ensures Start(interval, first, arrivals, n) >= first + Span(interval, n)
    ensures Attained(interval, first, arrivals, n)
  {
    if n == 0 {
      assert Forced(interval, arrivals, 0, 0) == arrivals[0];
    } else {
      ClosedForm(interval, first, arrivals, n - 1);
      var before, now := Start(interval, first, arrivals, n - 1), Start(interval, first, arrivals, n);
      forall j: nat | j <= n ensures now >= Forced(interval, arrivals, j, n) {
        assert j < n ==> before >= Forced(interval, arrivals, j, n - 1);
      }
      if now == arrivals[n] {
        assert now == Forced(interval, arrivals, n, n);
      } else if before != first + Span(interval, n - 1) {
        var j: nat :| j <= n - 1 && before == Forced(interval, arrivals, j, n - 1);
        assert now == Forced(interval, arrivals, j, n);
      }
    }
  }

  /** The start of call n equals one of its lower bounds. */
  ghost predicate Attained(interval: real, first: real, arrivals: seq<real>, n: nat)
    requires n < |arrivals|
  {
    || Start(interval, first, arrivals, n) == first + Span(interval, n)
    || exists j: nat :: j <= n && Start(interval, first, arrivals, n) == Forced(interval, arrivals, j, n)
  }

  /** Granted slots are at least one interval apart, hence k of them span k intervals. */
  lemma {:induction false} Spacing(interval: real, first: real, arrivals: seq<real>, i: nat, k: nat)
    requires interval >= 0.0 && i + k < |arrivals|
    ensures Start(interval, first, arrivals, i + k) >= Start(interval, first, arrivals, i) + Span(interval, k)
  {
    if k > 0 {
      Spacing(interval, first, arrivals, i, k - 1);
    }
  }

  /** No schedule that respects arrivals, order and spacing starts any call earlier. */
  lemma {:induction false} EarliestSchedule(
    interval: real, first: real, arrivals: seq<real>, other: seq<real>, n: nat)
    requires |other| == |arrivals| && n < |arrivals|
    requires other[0] >= first
    requires forall i :: 0 <= i < |other| ==> other[i] >= arrivals[i]
    requires forall i :: 0 < i < |other| ==> other[i] >= other[i - 1] + interval
    ensures Start(interval, first, arrivals, n) <= other[n]
  {
    if n > 0 {
      EarliestSchedule(interval, first, arrivals, other, n - 1);
    }
  }

  /** How many of the first n calls start in [from, from + width). */
  function StartsIn(interval: real, first: real, arrivals: seq<real>, n: nat, from: real, width: real): nat
    requires n <= |arrivals|
  {
    if n == 0 then 0
    else
      var s := Start(interval, first, arrivals, n - 1);
      StartsIn(interval, first, arrivals, n - 1, from, width) + (if from <= s < from + width then 1 else 0)
  }

  /** The calls themselves, rather than their number. */
  lemma {:induction false} StartsInCounts(
    interval: real, first: real, arrivals: seq<real>, n: nat, from: real, width: real) returns (calls: set<nat>)
    requires n <= |arrivals|
    ensures forall k: nat :: k in calls <==> k < n && from <= Start(interval, first, arrivals, k) < from + width
    ensures StartsIn(interval, first, arrivals, n, from, width) == |calls|
  {
    calls := {};
    if n > 0 {
      calls := StartsInCounts(interval, first, arrivals, n - 1, from, width);
      if from <= Start(interval, first, arrivals, n - 1) < from + width { calls := calls + {n - 1}; }
    }
  }

  /** The starts counted in a window reach at least that many intervals, less one, into it. */
  lemma {:induction false} CountNeedsRoom(
    interval: real, first: real, arrivals: seq<real>, n: nat, from: real, width: real)
    requires interval > 0.0 && 0 < n <= |arrivals|
    ensures var c := StartsIn(interval, first, arrivals, n, from, width);
      c > 0 ==> Span(interval, c - 1) <= Start(interval, first, arrivals, n - 1) - from && Span(interval, c - 1) < width
  {
    if n > 1 {
      CountNeedsRoom(interval, first, arrivals, n - 1, from, width);
      assert Start(interval, first, arrivals, n - 1) >= Start(interval, first, arrivals, n - 2) + interval;
    } else {
      assert StartsIn(interval, first, arrivals, 0, from, width) == 0;
    }
  }

  /** Any window of a given width holds at most ceil(width / interval) starts. */
  lemma WindowHoldsAtMost(interval: real, first: real, arrivals: seq<real>, from: real, width: real)
    requires interval > 0.0 && width >= 0.0
    ensures StartsIn(interval, first, arrivals, |arrivals|, from, width) <= Ceiling(width / interval)
  {
    var c := StartsIn(interval, first, arrivals, |arrivals|, from, width);
    if c == 0 {
      QuotientAbove(0, width, interval);
    } else {
      CountNeedsRoom(interval, first, arrivals, |arrivals|, from, width);
      SpanIsProduct(interval, c - 1);
      QuotientAbove(c - 1, width, interval);
    }
  }

  lemma QuotientAbove(k: nat, width: real, interval: real)
    requires interval > 0.0 && k as real * interval <= width
    ensures k <= Ceiling(width / interval)
    ensures k as real * interval < width ==> k + 1 <= Ceiling(width / interval)
  {
    var q := width / interval;
    assert q * interval == width;
    Cancel(k as real, q, interval);
  }

  lemma Cancel(x: real, y: real, t: real)
    requires t > 0.0
    ensures x * t < y * t ==> x < y
    ensures x * t <= y * t ==> x <= y
  {
  }

  // --- the retry loop -----------------------------------------------------

  /** How one HTTP attempt ends; `retryAfter` is the server's numeric hint. */
  datatype Answer =
    | NetworkError
    | Retryable(hinted: bool, retryAfter: real)
    | HttpError
    | RpcFailure(transient: bool)
    | Result

  datatype Ending = Returned | Raised

  predicate AsksAgain(a: Answer) {
    a.NetworkError? || a.Retryable? || (a.RpcFailure? && a.transient)
  }

  function Pow2(k: nat): int { if k == 0 then 1 else 2 * Pow2(k - 1) }

  /** The k-th back-off: half a second doubled k times, at most fifteen seconds. */
  function Backoff(k: nat): real {
    if 0.5 * Pow2(k) as real <= 15.0 then 0.5 * Pow2(k) as real else 15.0
  }

  function SleepAfter(a: Answer, k: nat): real {
    if a.Retryable? && a.hinted then a.retryAfter else Backoff(k)
  }

  lemma BackoffStep(k: nat)
    ensures Backoff(k + 1) == (if 2.0 * Backoff(k) <= 15.0 then 2.0 * Backoff(k) else 15.0)
  {
  }

  /** The sleeps in numbers: a numeric hint of the server is followed; without one the k-th sleep lasts
      0.5, 1, 2, 4 or 8 seconds, and from the sixth on 15.  A call that is not asked again ends at once: a
      result, an HTTP error that is not retryable, or a permanent RPC failure. */
  lemma {:induction false} SleepMeans(a: Answer, k: nat)
    ensures a.Retryable? && a.hinted ==> SleepAfter(a, k) == a.retryAfter
    ensures !(a.Retryable? && a.hinted) ==>
      SleepAfter(a, k) == if k < 5 then [0.5, 1.0, 2.0, 4.0, 8.0][k] else 15.0
    ensures !AsksAgain(a) <==> a in {Answer.Result, HttpError, RpcFailure(false)}
  {
    PowersOfTwo(k);
  }

  lemma {:induction false} PowersOfTwo(k: nat)
    ensures if k < 5 then Pow2(k) == [1, 2, 4, 8, 16][k] else Pow2(k) >= 32
  {
    if k > 0 { PowersOfTwo(k - 1); }
  }

  /** The retry loop: every attempt is preceded by one budget acquire, a retryable answer sleeps and
      asks again, anything else ends the call, and the last attempt's failure is raised. */
  method Call(maxRetries: nat, answers: seq<Answer>)
    returns (ending: Ending, attempts: nat, acquires: nat, sleeps: seq<real>)
    requires |answers| > maxRetries
    ensures acquires == attempts
    ensures 1 <= attempts <= maxRetries + 1
    ensures forall i :: 0 <= i < attempts - 1 ==> AsksAgain(answers[i])
    ensures attempts <= maxRetries ==> !AsksAgain(answers[attempts - 1])
    ensures ending.Returned? <==> answers[attempts - 1].Result?
    ensures |sleeps| == attempts - 1
    ensures forall i :: 0 <= i < |sleeps| ==> sleeps[i] == SleepAfter(answers[i], i)
  {
    attempts, acquires, sleeps := 0, 0, [];
    var backoff := 0.5;
    while true
      invariant 0 <= attempts <= maxRetries
      invariant acquires == attempts && |sleeps| == attempts
      invariant backoff == Backoff(attempts)
      invariant forall i :: 0 <= i < attempts ==> AsksAgain(answers[i])
      invariant forall i :: 0 <= i < |sleeps| ==> sleeps[i] == SleepAfter(answers[i], i)
      decreases maxRetries - attempts
    {
      acquires := acquires + 1;
      var a := answers[attempts];
      if a.Result? {
        return Returned, attempts + 1, acquires, sleeps;
      }
      if !AsksAgain(a) || attempts >= maxRetries {
        return Raised, attempts + 1, acquires, sleeps;
      }
      var delay := if a.Retryable? && a.hinted then a.retryAfter else backoff;
      sleeps := sleeps + [delay];
      BackoffStep(attempts);
      backoff := if 2.0 * backoff <= 15.0 then 2.0 * backoff else 15.0;
      attempts := attempts + 1;
    }
  }
}
