/** The shared daily RPC budget: many processes, one atomic counter per lane and UTC day. */
module RpcBudget {
  import opened Numbers

  datatype Lane = Main | Priority

  /** The Redis key of one day's counter. */
  datatype Key = Key(lane: Lane, day: int)

  /** A process between acquires, sleeping between two polls, or holding a credit for one request. */
  datatype Process = Ready | Waiting(lane: Lane) | Credited(key: Key)

  datatype Limits = Limits(main: int, priority: int)

  function LimitOf(l: Limits, lane: Lane): int {
    if lane.Main? then l.main else l.priority
  }

  /** `bypassed` counts the credits handed out without regard to the limit: while Redis was
      unreachable, or to an exempt caller over the limit. */
  datatype State = State(
    counters: map<Key, nat>, granted: map<Key, nat>, bypassed: map<Key, nat>, requests: map<Key, nat>,
    processes: seq<Process>)

  function At(m: map<Key, nat>, key: Key): nat { if key in m then m[key] else 0 }

  function Plus(m: map<Key, nat>, key: Key): map<Key, nat> { m[key := At(m, key) + 1] }

  function Initial(n: nat): State {
    State(map[], map[], map[], map[], seq(n, _ => Ready))
  }

  datatype Step =
    | Acquire(p: nat, lane: Lane, day: int, exempt: bool, redisUp: bool)
    | Poll(p: nat, day: int, redisUp: bool)
    | Send(p: nat)
    | Die(p: nat)

  function Credit(d: State, p: nat, key: Key, bypass: bool): State
    requires p < |d.processes|
  {
    d.(granted := Plus(d.granted, key),
       bypassed := if bypass then Plus(d.bypassed, key) else d.bypassed,
       processes := d.processes[p := Credited(key)])
  }

  /** One increment and the verdict on it. */
  function Turn(l: Limits, d: State, p: nat, key: Key, exempt: bool, redisUp: bool): State
    requires p < |d.processes|
  {
    if !redisUp then Credit(d, p, key, true)
    else
      var counted := d.(counters := Plus(d.counters, key));
      var used := At(counted.counters, key);
      if used <= LimitOf(l, key.lane) then Credit(counted, p, key, false)
      else if exempt then Credit(counted, p, key, true)
      else counted.(processes := d.processes[p := Waiting(key.lane)])
  }

  function Next(l: Limits, d: State, step: Step): State {
    match step
    case Acquire(p, lane, day, exempt, redisUp) =>
      if p < |d.processes| && d.processes[p].Ready? && LimitOf(l, lane) > 0
      then Turn(l, d, p, Key(lane, day), exempt, redisUp) else d
    case Poll(p, day, redisUp) =>
      if p < |d.processes| && d.processes[p].Waiting?
      then Turn(l, d, p, Key(d.processes[p].lane, day), false, redisUp) else d
    case Send(p) =>
      if p < |d.processes| && d.processes[p].Credited?
      then d.(requests := Plus(d.requests, d.processes[p].key), processes := d.processes[p := Ready]) else d
    case Die(p) =>
      if p < |d.processes| then d.(processes := d.processes[p := Ready]) else d
  }

  function RunFrom(l: Limits, d: State, steps: seq<Step>): State {
    if steps == [] then d
    else Next(l, RunFrom(l, d, steps[..|steps| - 1]), steps[|steps| - 1])
  }

  function Holding(ps: seq<Process>, key: Key): nat {
    if ps == [] then 0
    else Holding(ps[..|ps| - 1], key) + (if ps[|ps| - 1] == Credited(key) then 1 else 0)
  }

  lemma {:induction false} HoldingUpdate(ps: seq<Process>, p: nat, x: Process, key: Key)
    requires p < |ps|
    ensures Holding(ps[p := x], key) + (if ps[p] == Credited(key) then 1 else 0)
         == Holding(ps, key) + (if x == Credited(key) then 1 else 0)
  {
    var n := |ps| - 1;
    if p == n {
      assert ps[p := x][..n] == ps[..n];
    } else {
      HoldingUpdate(ps[..n], p, x, key);
      assert ps[p := x][..n] == ps[..n][p := x];
    }
  }

  lemma {:induction false} NobodyHolds(n: nat, key: Key)
    ensures Holding(seq(n, _ => Ready), key) == 0
  {
    if n > 0 {
      NobodyHolds(n - 1, key);
      assert seq<Process>(n, _ => Ready)[..n - 1] == seq(n - 1, _ => Ready);
    }
  }

  /** Per key: credits are exactly the increments within the limit plus the bypasses, and every request
      has used up one credit. */
  ghost predicate KeyOk(l: Limits, d: State, key: Key) {
    && (LimitOf(l, key.lane) > 0 ==>
          At(d.granted, key) == Min(LimitOf(l, key.lane), At(d.counters, key)) + At(d.bypassed, key))
    && (LimitOf(l, key.lane) <= 0 ==> Holding(d.processes, key) == 0 && At(d.requests, key) == 0)
    && At(d.requests, key) + Holding(d.processes, key) <= At(d.granted, key)
  }

  ghost predicate Inv(l: Limits, d: State) {
    && (forall key :: KeyOk(l, d, key))
    && WaitersOk(l, d)
  }

  lemma CreditKeepsKey(l: Limits, d: State, p: nat, key: Key, bypass: bool, counted: State, k: Key)
    requires p < |d.processes| && !d.processes[p].Credited? && LimitOf(l, key.lane) > 0
    requires KeyOk(l, d, k)
    requires counted == d.(counters := if bypass then counted.counters else Plus(d.counters, key))
    requires bypass && counted.counters != d.counters ==>
      counted.counters == Plus(d.counters, key) && At(d.counters, key) >= LimitOf(l, key.lane)
    requires !bypass ==> At(d.counters, key) < LimitOf(l, key.lane)
    ensures KeyOk(l, Credit(counted, p, key, bypass), k)
  {
    HoldingUpdate(d.processes, p, Credited(key), k);
  }

  lemma TurnKeepsKey(l: Limits, d: State, p: nat, key: Key, exempt: bool, redisUp: bool, k: Key)
    requires Inv(l, d) && p < |d.processes| && !d.processes[p].Credited? && LimitOf(l, key.lane) > 0
    ensures KeyOk(l, Turn(l, d, p, key, exempt, redisUp), k)
  {
    assert KeyOk(l, d, k);
    var counted := d.(counters := Plus(d.counters, key));
    if !redisUp {
      CreditKeepsKey(l, d, p, key, true, d, k);
    } else if At(counted.counters, key) <= LimitOf(l, key.lane) {
      CreditKeepsKey(l, d, p, key, false, counted, k);
    } else if exempt {
      CreditKeepsKey(l, d, p, key, true, counted, k);
    } else {
      HoldingUpdate(d.processes, p, Waiting(key.lane), k);
    }
  }

  lemma NextKeepsKey(l: Limits, d: State, step: Step, k: Key)
    requires Inv(l, d)
    ensures KeyOk(l, Next(l, d, step), k)
  {
    assert KeyOk(l, d, k);
    if Next(l, d, step) != d {
      match step
      case Acquire(p, lane, day, exempt, redisUp) => TurnKeepsKey(l, d, p, Key(lane, day), exempt, redisUp, k);
      case Poll(p, day, redisUp) => TurnKeepsKey(l, d, p, Key(d.processes[p].lane, day), false, redisUp, k);
      case Send(p) => HoldingUpdate(d.processes, p, Ready, k);
      case Die(p) => HoldingUpdate(d.processes, p, Ready, k);
    }
  }

  /** Only processes of a limited lane ever wait. */
  ghost predicate WaitersOk(l: Limits, d: State) {
    forall p :: 0 <= p < |d.processes| && d.processes[p].Waiting? ==> LimitOf(l, d.processes[p].lane) > 0
  }

  lemma NextKeepsWaiters(l: Limits, d: State, step: Step)
    requires WaitersOk(l, d)
    ensures WaitersOk(l, Next(l, d, step))
  {
    hide At, Plus;
  }

  lemma NextKeepsInv(l: Limits, d: State, step: Step)
    requires Inv(l, d)
    ensures Inv(l, Next(l, d, step))
  {
    NextKeepsWaiters(l, d, step);
    forall k ensures KeyOk(l, Next(l, d, step), k) {
      NextKeepsKey(l, d, step, k);
    }
    hide Next, KeyOk;
  }

  lemma {:induction false} ReachableInv(l: Limits, n: nat, steps: seq<Step>)
    ensures Inv(l, RunFrom(l, Initial(n), steps))
  {
    if steps == [] {
      forall key ensures KeyOk(l, Initial(n), key) {
        NobodyHolds(n, key);
      }
    } else {
      ReachableInv(l, n, steps[..|steps| - 1]);
      NextKeepsInv(l, RunFrom(l, Initial(n), steps[..|steps| - 1]), steps[|steps| - 1]);
    }
  }

  /** Exactly the first `limit` increments of a day's counter are granted, whichever processes made
      them and whether they were first tries or polls. */
  lemma {:induction false} GrantsAreExact(l: Limits, n: nat, steps: seq<Step>, key: Key)
    requires LimitOf(l, key.lane) > 0
    ensures var d := RunFrom(l, Initial(n), steps);
      && At(d.granted, key) == Min(LimitOf(l, key.lane), At(d.counters, key)) + At(d.bypassed, key)
      && (NoBypass(steps) ==> At(d.granted, key) == Min(LimitOf(l, key.lane), At(d.counters, key)))
  {
    ReachableInv(l, n, steps);
    assert KeyOk(l, RunFrom(l, Initial(n), steps), key);
    if NoBypass(steps) { NothingBypassed(l, n, steps, key); }
  }

  ghost predicate NoBypass(steps: seq<Step>) {
    forall i :: 0 <= i < |steps| ==>
      && (steps[i].Acquire? ==> steps[i].redisUp && !steps[i].exempt)
      && (steps[i].Poll? ==> steps[i].redisUp)
  }

  lemma {:induction false} NothingBypassed(l: Limits, n: nat, steps: seq<Step>, key: Key)
    requires NoBypass(steps)
    ensures At(RunFrom(l, Initial(n), steps).bypassed, key) == 0
  {
    if steps != [] {
      NothingBypassed(l, n, steps[..|steps| - 1], key);
    }
  }

  /** While Redis is reachable and no caller is exempt, the requests charged to a day, retries included,
      never exceed the sum of the two lanes' limits. */
  lemma DailySpendIsBounded(l: Limits, n: nat, steps: seq<Step>, day: int)
    requires l.main > 0 && l.priority > 0 && NoBypass(steps)
    ensures var d := RunFrom(l, Initial(n), steps);
      && At(d.requests, Key(Main, day)) <= l.main
      && At(d.requests, Key(Priority, day)) <= l.priority
      && At(d.requests, Key(Main, day)) + At(d.requests, Key(Priority, day)) <= l.main + l.priority
  {
    forall lane: Lane
      ensures At(RunFrom(l, Initial(n), steps).requests, Key(lane, day)) <= LimitOf(l, lane)
    {
      ReachableInv(l, n, steps);
      assert KeyOk(l, RunFrom(l, Initial(n), steps), Key(lane, day));
      NothingBypassed(l, n, steps, Key(lane, day));
    }
    assert LimitOf(l, Main) == l.main && LimitOf(l, Priority) == l.priority;
  }

  // --- what the counters count ----------------------------------------------

  /** The step increments the day's counter of the lane in Redis. */
  predicate Increments(l: Limits, d: State, step: Step, key: Key) {
    match step
    case Acquire(p, lane, day, exempt, redisUp) =>
      p < |d.processes| && d.processes[p] == Ready && redisUp && lane == key.lane && day == key.day
      && (if lane == Main then l.main > 0 else l.priority > 0)
    case Poll(p, day, redisUp) => p < |d.processes| && d.processes[p] == Waiting(key.lane) && redisUp && day == key.day
    case _ => false
  }

  /** The step spends a credit of that key on a request. */
  predicate Requests(d: State, step: Step, key: Key) {
    step.Send? && step.p < |d.processes| && d.processes[step.p] == Credited(key)
  }

  function Count(b: bool): nat { if b then 1 else 0 }

  function IncrementsIn(l: Limits, d: State, steps: seq<Step>, key: Key): nat {
    if steps == [] then 0
    else
      var n := |steps| - 1;
      IncrementsIn(l, d, steps[..n], key) + Count(Increments(l, RunFrom(l, d, steps[..n]), steps[n], key))
  }

  function RequestsIn(l: Limits, d: State, steps: seq<Step>, key: Key): nat {
    if steps == [] then 0
    else
      var n := |steps| - 1;
      RequestsIn(l, d, steps[..n], key) + Count(Requests(RunFrom(l, d, steps[..n]), steps[n], key))
  }

  /** Over every run a counter stands at the increments made on it, one each, and the requests charged to
      it are those sent. */
  lemma {:induction false} CountersCount(l: Limits, d: State, steps: seq<Step>, key: Key)
    ensures At(RunFrom(l, d, steps).counters, key) == At(d.counters, key) + IncrementsIn(l, d, steps, key)
    ensures At(RunFrom(l, d, steps).requests, key) == At(d.requests, key) + RequestsIn(l, d, steps, key)
  {
    if steps != [] {
      var n := |steps| - 1;
      CountersCount(l, d, steps[..n], key);
      StepCounts(l, RunFrom(l, d, steps[..n]), steps[n], key);
    }
  }

  lemma StepCounts(l: Limits, d: State, step: Step, key: Key)
    ensures At(Next(l, d, step).counters, key) == At(d.counters, key) + Count(Increments(l, d, step, key))
    ensures At(Next(l, d, step).requests, key) == At(d.requests, key) + Count(Requests(d, step, key))
  {
    match step
    case Acquire(p, lane, day, exempt, redisUp) => AtPlus(d.counters, Key(lane, day), key); hide At, Plus;
    case Poll(p, day, redisUp) =>
      if p < |d.processes| && d.processes[p].Waiting? { AtPlus(d.counters, Key(d.processes[p].lane, day), key); }
      hide At, Plus;
    case Send(p) =>
      if p < |d.processes| && d.processes[p].Credited? { AtPlus(d.requests, d.processes[p].key, key); }
      hide At, Plus;
    case Die(p) =>
  }

  /** The verdict on a turn: with Redis up and no exemption a first try or a poll is granted exactly when
      the day's counter stands below the limit; without Redis, or exempt at the first try, always; a
      caller that is not granted waits. */
  lemma TurnIsGrantedExactly(l: Limits, d: State, p: nat, lane: Lane, day: int, exempt: bool, redisUp: bool)
    requires p < |d.processes| && (if lane == Main then l.main > 0 else l.priority > 0)
    ensures var limit := if lane == Main then l.main else l.priority;
      var key := Key(lane, day);
      && (d.processes[p] == Ready ==>
            Next(l, d, Acquire(p, lane, day, exempt, redisUp)).processes[p]
              == if !redisUp || exempt || At(d.counters, key) < limit then Credited(key) else Waiting(lane))
      && (d.processes[p] == Waiting(lane) ==>
            Next(l, d, Poll(p, day, redisUp)).processes[p]
              == if !redisUp || At(d.counters, key) < limit then Credited(key) else Waiting(lane))
  {
  }

  // --- one process --------------------------------------------------------

  /** One turn of the acquire loop: what the other processes do before it, the counters Redis then holds,
      the UTC day the process reads, and whether Redis answers it. */
  datatype Tick = Tick(others: seq<Step>, stored: map<Key, nat>, day: int, redisUp: bool)

  predicate IsOther(p: nat, step: Step) { step.p != p }

  /** Process p's own step of a turn: the first increment or a poll. */
  function OwnStep(p: nat, lane: Lane, exempt: bool, t: Tick, first: bool): Step {
    if first then Acquire(p, lane, t.day, exempt, t.redisUp) else Poll(p, t.day, t.redisUp)
  }

  /** The steps of the first n turns, everyone's. */
  function TurnSteps(p: nat, lane: Lane, exempt: bool, ticks: seq<Tick>, n: nat): seq<Step>
    requires n <= |ticks|
  {
    if n == 0 then []
    else
      TurnSteps(p, lane, exempt, ticks, n - 1) + ticks[n - 1].others
        + [OwnStep(p, lane, exempt, ticks[n - 1], n == 1)]
  }

  lemma {:induction false} RunSplits(l: Limits, d: State, a: seq<Step>, b: seq<Step>)
    ensures RunFrom(l, d, a + b) == RunFrom(l, RunFrom(l, d, a), b)
  {
    if b == [] {
      assert a + b == a;
    } else {
      assert (a + b)[..|a + b| - 1] == a + b[..|b| - 1];
      RunSplits(l, d, a, b[..|b| - 1]);
    }
  }

  lemma RunOfOneMore(l: Limits, d: State, steps: seq<Step>, step: Step)
    ensures RunFrom(l, d, steps + [step]) == Next(l, RunFrom(l, d, steps), step)
  {
    assert (steps + [step])[..|steps|] == steps;
  }

  /** What the others do leaves the process as it is. */
  lemma {:induction false} OthersKeep(l: Limits, d: State, steps: seq<Step>, p: nat)
    requires p < |d.processes| && forall i :: 0 <= i < |steps| ==> IsOther(p, steps[i])
    ensures |RunFrom(l, d, steps).processes| == |d.processes| && RunFrom(l, d, steps).processes[p] == d.processes[p]
  {
    if steps != [] {
      OthersKeep(l, d, steps[..|steps| - 1], p);
      OtherKeeps(l, RunFrom(l, d, steps[..|steps| - 1]), steps[|steps| - 1], p);
    }
  }

  lemma OtherKeeps(l: Limits, d: State, step: Step, p: nat)
    requires p < |d.processes| && IsOther(p, step)
    ensures |Next(l, d, step).processes| == |d.processes| && Next(l, d, step).processes[p] == d.processes[p]
  {
    hide At, Plus;
  }

  /** Before each turn only the others act, and Redis holds what the steps so far have made of it. */
  ghost predicate Consistent(l: Limits, d: State, p: nat, lane: Lane, exempt: bool, ticks: seq<Tick>) {
    forall n :: 0 <= n < |ticks| ==>
      && (forall i :: 0 <= i < |ticks[n].others| ==> IsOther(p, ticks[n].others[i]))
      && ticks[n].stored == RunFrom(l, RunFrom(l, d, TurnSteps(p, lane, exempt, ticks, n)), ticks[n].others).counters
  }

  /** After n turns process p is about to ask: for the first time, or again after waiting. */
  ghost predicate Asks(l: Limits, d: State, p: nat, lane: Lane, exempt: bool, ticks: seq<Tick>, n: nat)
    requires n <= |ticks|
  {
    AsksIn(RunFrom(l, d, TurnSteps(p, lane, exempt, ticks, n)), p, lane, n == 0)
  }

  predicate AsksIn(d: State, p: nat, lane: Lane, first: bool) {
    p < |d.processes| && d.processes[p] == if first then Ready else Waiting(lane)
  }

  /** One turn: the others, then the process's own step. */
  lemma TurnRuns(l: Limits, d: State, p: nat, lane: Lane, exempt: bool, ticks: seq<Tick>, n: nat)
    requires n < |ticks| && Asks(l, d, p, lane, exempt, ticks, n)
    requires forall i :: 0 <= i < |ticks[n].others| ==> IsOther(p, ticks[n].others[i])
    ensures var met := RunFrom(l, RunFrom(l, d, TurnSteps(p, lane, exempt, ticks, n)), ticks[n].others);
      && AsksIn(met, p, lane, n == 0)
      && RunFrom(l, d, TurnSteps(p, lane, exempt, ticks, n + 1))
        == Next(l, met, OwnStep(p, lane, exempt, ticks[n], n == 0))
  {
    var front := TurnSteps(p, lane, exempt, ticks, n);
    OthersKeep(l, RunFrom(l, d, front), ticks[n].others, p);
    RunSplits(l, d, front, ticks[n].others);
    RunOfOneMore(l, d, front + ticks[n].others, OwnStep(p, lane, exempt, ticks[n], n == 0));
    hide Next, RunFrom;
  }

  /** The process's own step increments its key exactly when Redis answers, and is granted as a turn is. */
  lemma OwnStepMeans(l: Limits, d: State, p: nat, lane: Lane, exempt: bool, t: Tick, first: bool)
    requires AsksIn(d, p, lane, first) && LimitOf(l, lane) > 0
    ensures var e := Next(l, d, OwnStep(p, lane, exempt, t, first));
      var key := Key(lane, t.day);
      && |e.processes| == |d.processes|
      && e.processes[p] == (if !t.redisUp || (first && exempt) || At(d.counters, key) < LimitOf(l, lane)
                            then Credited(key) else Waiting(lane))
      && e.counters == (if t.redisUp then Plus(d.counters, key) else d.counters)
  {
  }

  /** The lane's budget as process p uses it, next to the others: `counters` is what Redis holds and `world`
      the whole system. */
  class Budget {
    const limits: Limits
    const lane: Lane
    const p: nat
    var counters: map<Key, nat>
    ghost var world: State

    constructor (limits: Limits, lane: Lane, p: nat, n: nat)
      requires p < n
      ensures this.limits == limits && this.lane == lane && this.p == p && world == Initial(n) && Valid()
    {
      this.limits, this.lane, this.p := limits, lane, p;
      counters, world := map[], Initial(n);
    }

    ghost predicate Valid()
      reads this
    {
      counters == world.counters && p < |world.processes|
    }

    /** Redis as the others leave it. */
    method Meet(others: seq<Step>, met: map<Key, nat>)
      requires Valid() && met == RunFrom(limits, world, others).counters
      requires forall i :: 0 <= i < |others| ==> IsOther(p, others[i])
      modifies this
      ensures Valid() && world == RunFrom(limits, old(world), others)
    {
      OthersKeep(limits, world, others, p);
      world := RunFrom(limits, world, others);
      counters := met;
    }

    /** One atomic increment of the day's counter; nothing when Redis does not answer. */
    method Incr(day: int, redisUp: bool) returns (used: nat)
      modifies this`counters
      ensures counters == if redisUp then Plus(old(counters), Key(lane, day)) else old(counters)
      ensures redisUp ==> used == At(old(counters), Key(lane, day)) + 1
    {
      used := 0;
      if redisUp {
        used := At(counters, Key(lane, day)) + 1;
        counters := counters[Key(lane, day) := used];
      }
    }

    /** Increment once, then poll until an increment falls within the limit.  Every turn is a step of the
        shared system, so its theorems cover it. */
    method Acquire(exempt: bool, ticks: seq<Tick>) returns (turns: nat, granted: bool)
      requires Valid() && world.processes[p] == Ready
      requires Consistent(limits, world, p, lane, exempt, ticks)
      modifies this
      ensures Valid() && turns <= |ticks|
      ensures LimitOf(limits, lane) <= 0 ==> granted && turns == 0 && world == old(world)
      ensures LimitOf(limits, lane) > 0 ==>
        && world == RunFrom(limits, old(world), TurnSteps(p, lane, exempt, ticks, turns))
        && (granted ==> turns > 0 && world.processes[p] == Credited(Key(lane, ticks[turns - 1].day)))
        && (!granted ==> turns == |ticks| && world.processes[p] == if turns == 0 then Ready else Waiting(lane))
        && (forall k: nat :: k < turns ==> Asks(limits, old(world), p, lane, exempt, ticks, k))
    {
      hide Next, RunFrom, TurnSteps, OwnStep, Plus;
      turns, granted := 0, false;
      if LimitOf(limits, lane) <= 0 {
        granted := true;
        return;
      }
      assert RunFrom(limits, world, TurnSteps(p, lane, exempt, ticks, 0)) == world by {
        NoTurns(limits, world, p, lane, exempt, ticks);
      }
      while turns < |ticks|
        invariant 0 <= turns <= |ticks| && !granted && Valid()
        invariant world == RunFrom(limits, old(world), TurnSteps(p, lane, exempt, ticks, turns))
        invariant AsksIn(world, p, lane, turns == 0)
        invariant forall k: nat :: k < turns ==> Asks(limits, old(world), p, lane, exempt, ticks, k)
      {
        var t := ticks[turns];
        TurnRuns(limits, old(world), p, lane, exempt, ticks, turns);
        Meet(t.others, t.stored);
        ghost var own := OwnStep(p, lane, exempt, t, turns == 0);
        OwnStepMeans(limits, world, p, lane, exempt, t, turns == 0);
        world := Next(limits, world, own);
        var used := Incr(t.day, t.redisUp);
        turns := turns + 1;
        if !t.redisUp || used <= LimitOf(limits, lane) || (turns == 1 && exempt) {
          granted := true;
          return;
        }
      }
    }
  }

  lemma NoTurns(l: Limits, d: State, p: nat, lane: Lane, exempt: bool, ticks: seq<Tick>)
    ensures RunFrom(l, d, TurnSteps(p, lane, exempt, ticks, 0)) == d
  {
  }

  /** The turns among the first n that increment the counter of the day. */
  function OwnTurns(ticks: seq<Tick>, n: nat, day: int): nat
    requires n <= |ticks|
  {
    if n == 0 then 0 else OwnTurns(ticks, n - 1, day) + Count(ticks[n - 1].redisUp && ticks[n - 1].day == day)
  }

  /** The increments of the others before each of the first n turns. */
  ghost function OthersTurns(l: Limits, d: State, p: nat, lane: Lane, exempt: bool, ticks: seq<Tick>, n: nat, key: Key): nat
    requires n <= |ticks|
  {
    if n == 0 then 0
    else
      OthersTurns(l, d, p, lane, exempt, ticks, n - 1, key)
      + IncrementsIn(l, RunFrom(l, d, TurnSteps(p, lane, exempt, ticks, n - 1)), ticks[n - 1].others, key)
  }

  lemma AtPlus(m: map<Key, nat>, key: Key, k: Key)
    ensures At(Plus(m, key), k) == At(m, k) + Count(k == key)
  {
  }

  /** What the acquire loop does to a counter: the increments of the others and, for each of its own turns on
      that day, exactly one when Redis answers. */
  lemma {:induction false} AcquireCounts(
    l: Limits, d: State, p: nat, lane: Lane, exempt: bool, ticks: seq<Tick>, n: nat, day: int)
    requires n <= |ticks| && LimitOf(l, lane) > 0 && Consistent(l, d, p, lane, exempt, ticks)
    requires forall k: nat :: k < n ==> Asks(l, d, p, lane, exempt, ticks, k)
    ensures At(RunFrom(l, d, TurnSteps(p, lane, exempt, ticks, n)).counters, Key(lane, day))
      == At(d.counters, Key(lane, day)) + OthersTurns(l, d, p, lane, exempt, ticks, n, Key(lane, day)) + OwnTurns(ticks, n, day)
  {
    hide Next, RunFrom, TurnSteps, OwnStep, IncrementsIn, At, Plus, AsksIn;
    if n == 0 {
      NoTurns(l, d, p, lane, exempt, ticks);
    } else {
      AcquireCounts(l, d, p, lane, exempt, ticks, n - 1, day);
      var before := RunFrom(l, d, TurnSteps(p, lane, exempt, ticks, n - 1));
      var met := RunFrom(l, before, ticks[n - 1].others);
      CountersCount(l, before, ticks[n - 1].others, Key(lane, day));
      TurnRuns(l, d, p, lane, exempt, ticks, n - 1);
      OwnStepMeans(l, met, p, lane, exempt, ticks[n - 1], n == 1);
      AtPlus(met.counters, Key(lane, ticks[n - 1].day), Key(lane, day));
    }
  }
}
