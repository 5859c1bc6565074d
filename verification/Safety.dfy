/** The safety rails: emergency stop, failure streak, per-day realised result and cooldowns. */
module Safety {
  import opened Lamports
  import opened Sizing

  type Mint = string

  // --- the copy-position book ---------------------------------------------

  datatype PositionStatus = Open | Closed(day: int)

  /** One row of the copy-position table; amounts in lamports. */
  datatype CopyPosition = CopyPosition(
    token: Mint, leader: int, spent: int, sold: int, realizedPnl: int, status: PositionStatus)

  type Book = seq<CopyPosition>

  function OpenCount(book: Book): nat {
    if book == [] then 0
    else OpenCount(book[..|book| - 1]) + (if book[|book| - 1].status.Open? then 1 else 0)
  }

  /** Spent minus sold over the open positions. */
  function AtRisk(book: Book): int {
    if book == [] then 0
    else
      var last := book[|book| - 1];
      AtRisk(book[..|book| - 1]) + (if last.status.Open? then last.spent - last.sold else 0)
  }

  function Exposure(book: Book): int {
    if AtRisk(book) > 0 then AtRisk(book) else 0
  }

  /** The table index allows one open position per token; this finds it. */
  function OpenIndex(book: Book, token: Mint): (r: int)
    ensures -1 <= r < |book|
    ensures r >= 0 ==> book[r].status.Open? && book[r].token == token
    ensures r < 0 ==> forall i :: 0 <= i < |book| && book[i].status.Open? ==> book[i].token != token
  {
    if book == [] then -1
    else if book[|book| - 1].status.Open? && book[|book| - 1].token == token then |book| - 1
    else OpenIndex(book[..|book| - 1], token)
  }

  // --- the Redis state of the rails ---------------------------------------

  /** `daily` maps a UTC day to the lamports realised on it. */
  datatype Rails = Rails(stopped: bool, streak: int, daily: map<int, int>, cooling: set<Mint>)

  function RealizedOn(r: Rails, day: int): int {
    if day in r.daily then r.daily[day] else 0
  }

  function WithResult(s: Settings, r: Rails, success: bool): Rails {
    if success then r.(streak := 0)
    else r.(streak := r.streak + 1, stopped := r.stopped || r.streak + 1 >= s.maxConsecutiveFailures)
  }

  predicate LossLimitHit(s: Settings, total: int) {
    total as real <= -s.dailyLossLimit
  }

  function WithRealized(s: Settings, r: Rails, day: int, pnl: int): Rails {
    var total := RealizedOn(r, day) + pnl;
    r.(daily := r.daily[day := total], stopped := r.stopped || LossLimitHit(s, total))
  }

  // --- sequences of results ------------------------------------------------

  function AfterResults(s: Settings, r: Rails, results: seq<bool>): Rails {
    if results == [] then r else WithResult(s, AfterResults(s, r, results[..|results| - 1]), results[|results| - 1])
  }

  /** The last n results are failures, and the one before them, if there is one, is not. */
  ghost predicate FailuresSince(results: seq<bool>, n: nat) {
    && n <= |results|
    && (forall i :: |results| - n <= i < |results| ==> !results[i])
    && (n < |results| ==> results[|results| - n - 1])
  }

  /** Over any results the streak is the number of failures since the last success (on top of the streak
      before, when there was none), and the stop trips exactly when it reaches the limit at a failure;
      counters and cooldowns stay. */
  lemma {:induction false} StreakCounts(s: Settings, r: Rails, results: seq<bool>)
    ensures var e := AfterResults(s, r, results);
      && (exists n: nat :: FailuresSince(results, n) && e.streak == if n == |results| then r.streak + n else n)
      && (e.stopped <==> r.stopped || exists k :: TripsAt(s, r, results, k))
      && e.daily == r.daily && e.cooling == r.cooling
  {
    StreakIsTail(s, r, results);
    StopsAtLimit(s, r, results);
  }

  lemma {:induction false} StreakIsTail(s: Settings, r: Rails, results: seq<bool>)
    ensures var e := AfterResults(s, r, results);
      exists n: nat :: FailuresSince(results, n) && e.streak == if n == |results| then r.streak + n else n
  {
    if results == [] {
      assert FailuresSince(results, 0);
    } else {
      var front, last := results[..|results| - 1], results[|results| - 1];
      StreakIsTail(s, r, front);
      var n: nat :| FailuresSince(front, n)
        && AfterResults(s, r, front).streak == if n == |front| then r.streak + n else n;
      assert FailuresSince(results, if last then 0 else n + 1);
    }
  }

  lemma {:induction false} StopsAtLimit(s: Settings, r: Rails, results: seq<bool>)
    ensures var e := AfterResults(s, r, results);
      && (e.stopped <==> r.stopped || exists k :: TripsAt(s, r, results, k))
      && e.daily == r.daily && e.cooling == r.cooling
  {
    if results != [] {
      var front, last := results[..|results| - 1], results[|results| - 1];
      StopsAtLimit(s, r, front);
      assert results[..|front| + 1] == results;
      if k :| TripsAt(s, r, front, k) {
        assert results[..k + 1] == front[..k + 1];
        assert TripsAt(s, r, results, k);
      }
      if k :| TripsAt(s, r, results, k) && k < |front| {
        assert results[..k + 1] == front[..k + 1];
        assert TripsAt(s, r, front, k);
      }
      if !last && AfterResults(s, r, results).streak >= s.maxConsecutiveFailures { assert TripsAt(s, r, results, |front|); }
    }
  }

  /** Result number k is a failure and brings the streak to the limit. */
  ghost predicate TripsAt(s: Settings, r: Rails, results: seq<bool>, k: int) {
    0 <= k < |results| && !results[k] && AfterResults(s, r, results[..k + 1]).streak >= s.maxConsecutiveFailures
  }

  /** A realised result, booked on a day. */
  datatype Booking = Booking(day: int, pnl: int)

  function AfterBookings(s: Settings, r: Rails, bookings: seq<Booking>): Rails {
    if bookings == [] then r
    else
      var last := bookings[|bookings| - 1];
      WithRealized(s, AfterBookings(s, r, bookings[..|bookings| - 1]), last.day, last.pnl)
  }

  function BookedOn(bookings: seq<Booking>, day: int): int {
    if bookings == [] then 0
    else
      var last := bookings[|bookings| - 1];
      BookedOn(bookings[..|bookings| - 1], day) + (if last.day == day then last.pnl else 0)
  }

  function StartOf(r: Rails, day: int): int { if day in r.daily then r.daily[day] else 0 }

  /** Booking number k brings its day to a loss of at least the limit. */
  predicate LosesAt(s: Settings, r: Rails, bookings: seq<Booking>, k: int) {
    && 0 <= k < |bookings|
    && var day := bookings[k].day;
       (StartOf(r, day) + BookedOn(bookings[..k + 1], day)) as real + s.dailyLossLimit <= 0.0
  }

  /** Over any bookings each day's counter is the sum of what was booked on it, and the stop trips exactly
      when some booking brings its day to a loss of at least the limit; streak and cooldowns stay. */
  lemma {:induction false} CountersAddUp(s: Settings, r: Rails, bookings: seq<Booking>)
    ensures var e := AfterBookings(s, r, bookings);
      && (forall day :: RealizedOn(e, day) == StartOf(r, day) + BookedOn(bookings, day))
      && (e.stopped <==> r.stopped || exists k :: LosesAt(s, r, bookings, k))
      && e.streak == r.streak && e.cooling == r.cooling
  {
    if bookings != [] {
      var front, last := bookings[..|bookings| - 1], bookings[|bookings| - 1];
      CountersAddUp(s, r, front);
      var d, e := AfterBookings(s, r, front), AfterBookings(s, r, bookings);
      assert RealizedOn(d, last.day) == StartOf(r, last.day) + BookedOn(front, last.day);
      forall day ensures RealizedOn(e, day) == StartOf(r, day) + BookedOn(bookings, day) {
        assert RealizedOn(d, day) == StartOf(r, day) + BookedOn(front, day);
      }
      assert bookings[..|front| + 1] == bookings;
      if k :| LosesAt(s, r, front, k) {
        assert bookings[..k + 1] == front[..k + 1];
        assert LosesAt(s, r, bookings, k);
      }
      if k :| LosesAt(s, r, bookings, k) && k < |front| {
        assert bookings[..k + 1] == front[..k + 1];
        assert LosesAt(s, r, front, k);
      }
      if LossLimitHit(s, RealizedOn(e, last.day)) { assert LosesAt(s, r, bookings, |front|); }
    }
  }

  /** No rail blocks a buy.  `redisReads` counts the Redis reads that succeed: the gate makes four, and
      fails closed when one of them raises. */
  predicate GateClear(s: Settings, r: Rails, book: Book, day: int, token: Mint, redisReads: nat) {
    && redisReads >= 4
    && !r.stopped
    && token !in r.cooling
    && r.streak < s.maxConsecutiveFailures
    && !LossLimitHit(s, RealizedOn(r, day))
    && OpenCount(book) < s.maxOpenPositions
    && (Exposure(book) as real) < s.maxExposure
  }

  datatype BlockReason =
    | EmergencyStopActive | CooldownActive | FailureStreak | DailyLossLimit | StateUnreadable
    | MaxOpenPositions | MaxExposure

  /** The guard: its fields are the Redis keys. */
  class SafetyGuard {
    const settings: Settings
    var stopped: bool
    var streak: int
    var daily: map<int, int>
    var cooling: set<Mint>

    ghost function State(): Rails
      reads this
    {
      Rails(stopped, streak, daily, cooling)
    }

    constructor (settings: Settings)
      ensures this.settings == settings
      ensures State() == Rails(false, 0, map[], {})
    {
      this.settings := settings;
      stopped, streak, daily, cooling := false, 0, map[], {};
    }

    /** Collects every blocking rail.  A read that raises ends the Redis part with one
        "unreadable" entry; the two table rails are always evaluated. */
    method GateReasons(book: Book, day: int, token: Mint, redisReads: nat) returns (blocked: seq<BlockReason>)
      ensures blocked == [] <==> GateClear(settings, State(), book, day, token, redisReads)
      ensures StateUnreadable in blocked <==> redisReads < 4
      ensures EmergencyStopActive in blocked <==> stopped && redisReads >= 1
      ensures CooldownActive in blocked <==> token in cooling && redisReads >= 2
      ensures FailureStreak in blocked <==> streak >= settings.maxConsecutiveFailures && redisReads >= 3
      ensures DailyLossLimit in blocked
        <==> redisReads >= 4 && (if day in daily then daily[day] else 0) as real + settings.dailyLossLimit <= 0.0
      ensures MaxOpenPositions in blocked <==> OpenCount(book) >= settings.maxOpenPositions
      ensures MaxExposure in blocked <==> Exposure(book) as real >= settings.maxExposure
    {
      hide AtRisk, OpenCount, Exposure;
      blocked := [];
      if redisReads >= 1 && stopped {
        blocked := blocked + [EmergencyStopActive];
      }
      if redisReads >= 2 && token in cooling {
        blocked := blocked + [CooldownActive];
      }
      if redisReads >= 3 && streak >= settings.maxConsecutiveFailures {
        blocked := blocked + [FailureStreak];
      }
      if redisReads >= 4 {
        var today := if day in daily then daily[day] else 0;
        if today as real <= -settings.dailyLossLimit {
          blocked := blocked + [DailyLossLimit];
        }
      } else {
        blocked := blocked + [StateUnreadable];
      }
      if OpenCount(book) >= settings.maxOpenPositions {
        blocked := blocked + [MaxOpenPositions];
      }
      if Exposure(book) as real >= settings.maxExposure {
        blocked := blocked + [MaxExposure];
      }
    }

    method TripEmergencyStop()
      modifies this
      ensures State() == old(State()).(stopped := true)
    {
      stopped := true;
    }

    method ClearEmergencyStop()
      modifies this
      ensures State() == old(State()).(stopped := false, streak := 0)
    {
      stopped := false;
      streak := 0;
    }

    method RecordExecutionResult(success: bool)
      modifies this
      ensures State() == WithResult(settings, old(State()), success)
    {
      if success {
        streak := 0;
        return;
      }
      streak := streak + 1;
      if streak >= settings.maxConsecutiveFailures {
        TripEmergencyStop();
      }
    }

    method RecordRealizedPnl(pnl: int, day: int)
      modifies this
      ensures State() == WithRealized(settings, old(State()), day, pnl)
    {
      var total := (if day in daily then daily[day] else 0) + pnl;
      daily := daily[day := total];
      if total as real <= -settings.dailyLossLimit {
        TripEmergencyStop();
      }
    }

    method StartCooldown(token: Mint)
      modifies this
      ensures State() == old(State()).(cooling := old(State()).cooling + {token})
    {
      cooling := cooling + {token};
    }
  }
}
