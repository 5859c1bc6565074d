/** The ingest delivery protocol: listener, stream with consumer group, and writers that fetch,
    persist, retry and acknowledge.  Every step is one externally visible effect, so a crash may fall
    between any two of them. */
module Delivery {
  import opened Sorting

  type Signature = string

  datatype Entry = Entry(signature: Signature, attempts: nat)

  /** A trade row, by its signature and its number in the transaction. */
  datatype Trade = Trade(signature: Signature, index: nat)

  /** Where one stream entry stands.  `Held` entries are in the hands of a consumer; `Written` ones are
      committed and their new trades `left` are still to be announced before the acknowledgement;
      `Requeued` and `GivenUp` ones wait for theirs; for `Unpublished` ones announcing a trade failed
      after the commit, which makes them retries; `Orphaned` entries were in the hands of a consumer that
      died: they stay un-acknowledged. */
  datatype Stage =
    | Waiting
    | Held
    | Written(left: seq<nat>)
    | Unpublished
    | Requeued(child: nat)
    | GivenUp
    | Orphaned(at: Stage)
    | Acked(after: Stage)

  /** The streams as one append-only log, the persisted and dropped signatures, the dedup keys and the
      trades announced to the copy trader and the dashboard. */
  datatype State = State(
    entries: seq<Entry>, stages: seq<Stage>, persisted: set<Signature>, dropped: set<Signature>,
    claims: set<Signature>, announced: set<Trade>)

  const INITIAL := State([], [], {}, {}, {}, {})

  /** How one call of the listener's enqueue ends. */
  datatype EnqueueEnd = Added | AddFailed(released: bool) | Died

  datatype Step =
    | Notify(signature: Signature, priority: bool, end: EnqueueEnd)
    | ClaimExpires(signature: Signature)
    | Deliver(id: nat)
    | Write(id: nat, news: seq<nat>)
    | Publish(id: nat)
    | FailPublish(id: nat)
    | Requeue(id: nat)
    | GiveUp(id: nat)
    | Ack(id: nat)
    | Abandon(id: nat)
    | Autoclaim(id: nat)

  function WithEntry(d: State, e: Entry): State {
    d.(entries := d.entries + [e], stages := d.stages + [Waiting])
  }

  function WithStage(d: State, id: nat, stage: Stage): State
    requires id < |d.stages|
  {
    d.(stages := d.stages[id := stage])
  }

  /** The listener: a priority notification always enqueues; any other only if it is the first to
      claim the signature, and it releases the claim when the enqueue fails. */
  function Enqueue(d: State, signature: Signature, priority: bool, end: EnqueueEnd): State {
    if !priority && signature in d.claims then d
    else
      var claimed := d.(claims := d.claims + {signature});
      match end
      case Added => WithEntry(claimed, Entry(signature, 0))
      case AddFailed(released) =>
        if !priority && released then claimed.(claims := claimed.claims - {signature}) else claimed
      case Died => claimed
  }

  predicate Holds(d: State, id: nat) {
    id < |d.entries| && id < |d.stages| && d.stages[id].Held?
  }

  /** What the consumer may requeue or drop: not stored, or stored but not announced. */
  predicate Retryable(d: State, id: nat) {
    id < |d.entries| && id < |d.stages| && (d.stages[id].Held? || d.stages[id].Unpublished?)
  }

  /** The entry is committed and has trades left to announce. */
  predicate Announces(d: State, id: nat) {
    id < |d.entries| && id < |d.stages| && d.stages[id].Written? && d.stages[id].left != []
  }

  /** One step.  A commit reports the new trades it inserted.  Autoclaim moves ownership of an orphaned
      entry, but the writer discards what it returns and reads only new entries, so it changes nothing
      here. */
  function Next(max: int, d: State, step: Step): State {
    match step
    case Notify(signature, priority, end) => Enqueue(d, signature, priority, end)
    case ClaimExpires(signature) => d.(claims := d.claims - {signature})
    case Deliver(id) => if id < |d.stages| && d.stages[id].Waiting? then WithStage(d, id, Held) else d
    case Write(id, news) =>
      if Holds(d, id)
      then WithStage(d, id, Written(news)).(persisted := d.persisted + {d.entries[id].signature})
      else d
    case Publish(id) =>
      if Announces(d, id)
      then WithStage(d, id, Written(d.stages[id].left[1..])).(
             announced := d.announced + {Trade(d.entries[id].signature, d.stages[id].left[0])})
      else d
    case FailPublish(id) => if Announces(d, id) then WithStage(d, id, Unpublished) else d
    case Requeue(id) =>
      if Retryable(d, id) && d.entries[id].attempts + 1 < max
      then WithStage(
             WithEntry(d, d.entries[id].(attempts := d.entries[id].attempts + 1)), id, Requeued(|d.entries|))
      else d
    case GiveUp(id) =>
      if Retryable(d, id) && d.entries[id].attempts + 1 >= max
      then WithStage(d, id, GivenUp).(dropped := d.dropped + {d.entries[id].signature})
      else d
    case Ack(id) =>
      if id < |d.stages| && Finished(d.stages[id])
      then WithStage(d, id, Acked(d.stages[id]))
      else d
    case Abandon(id) =>
      if id < |d.stages| && InHand(d.stages[id]) then WithStage(d, id, Orphaned(d.stages[id])) else d
    case Autoclaim(id) => d
  }

  /** Ready for the acknowledgement. */
  predicate Finished(stage: Stage) {
    stage == Written([]) || stage.Requeued? || stage.GivenUp?
  }

  predicate InHand(stage: Stage) {
    stage.Held? || stage.Written? || stage.Unpublished? || stage.Requeued? || stage.GivenUp?
  }

  function RunFrom(max: int, d: State, steps: seq<Step>): State {
    if steps == [] then d
    else Next(max, RunFrom(max, d, steps[..|steps| - 1]), steps[|steps| - 1])
  }

  lemma RunOneMore(max: int, d: State, steps: seq<Step>, step: Step)
    ensures RunFrom(max, d, steps + [step]) == Next(max, RunFrom(max, d, steps), step)
  {
    assert (steps + [step])[..|steps|] == steps;
  }

  lemma {:induction false} RunSplits(max: int, d: State, a: seq<Step>, b: seq<Step>)
    ensures RunFrom(max, d, a + b) == RunFrom(max, RunFrom(max, d, a), b)
  {
    if b == [] {
      assert a + b == a;
    } else {
      assert (a + b)[..|a + b| - 1] == a + b[..|b| - 1];
      RunSplits(max, d, a, b[..|b| - 1]);
    }
  }

  // --- the invariant ------------------------------------------------------

  /** The stage an entry reached, seen through a death or an acknowledgement. */
  function Reached(stage: Stage): Stage {
    match stage
    case Orphaned(at) => at
    case Acked(after) => after
    case _ => stage
  }

  /** What an entry's stage testifies. */
  ghost predicate EntryOk(max: int, d: State, id: nat)
    requires id < |d.entries| == |d.stages|
  {
    var e, stage := d.entries[id], d.stages[id];
    && e.attempts <= (if max >= 1 then max - 1 else 0)
    && (stage.Orphaned? ==> InHand(stage.at))
    && (stage.Acked? ==> Finished(stage.after))
    && (Reached(stage).Written? || Reached(stage).Unpublished? ==> e.signature in d.persisted)
    && (Reached(stage).GivenUp? ==> e.signature in d.dropped && e.attempts + 1 >= max)
    && (Reached(stage).Requeued? ==>
          && id < Reached(stage).child < |d.entries|
          && d.entries[Reached(stage).child] == e.(attempts := e.attempts + 1))
    && (e.attempts > 0 ==> exists parent :: 0 <= parent < id && IsParent(d, parent, id))
  }

  ghost predicate IsParent(d: State, parent: int, id: int)
    requires |d.entries| == |d.stages|
  {
    && 0 <= parent < |d.entries| && 0 <= id < |d.entries|
    && Reached(d.stages[parent]) == Requeued(id)
    && d.entries[id] == d.entries[parent].(attempts := d.entries[parent].attempts + 1)
  }

  ghost predicate Inv(max: int, d: State) {
    && |d.entries| == |d.stages|
    && (forall id :: 0 <= id < |d.entries| ==> EntryOk(max, d, id))
    && (forall s :: s in d.persisted ==> Queued(d, s))
    && (forall s :: s in d.dropped ==> exists id :: 0 <= id < |d.entries| && DroppedEntry(d, id, s))
  }

  /** The signature was put on a stream. */
  ghost predicate Queued(d: State, s: Signature) {
    exists id :: 0 <= id < |d.entries| && d.entries[id].signature == s
  }

  ghost predicate DroppedEntry(d: State, id: int, s: Signature)
    requires |d.entries| == |d.stages|
  {
    0 <= id < |d.entries| && d.entries[id].signature == s && Reached(d.stages[id]).GivenUp?
  }

  /** Appending an entry whose history is in order, or moving one entry on in a way that keeps what it
      testifies, keeps the invariant; every step is one of these or both. */
  lemma StageKeepsInv(max: int, d: State, e: State, id: nat)
    requires Inv(max, d) && id < |d.entries|
    requires |e.stages| == |d.stages| && e.entries == d.entries && e.stages == d.stages[id := e.stages[id]]
    requires d.persisted <= e.persisted && d.dropped <= e.dropped
    requires Reached(e.stages[id]) == Reached(d.stages[id]) || !Reached(d.stages[id]).Requeued?
    requires Reached(d.stages[id]).GivenUp? ==> Reached(e.stages[id]).GivenUp?
    requires EntryOk(max, d.(persisted := e.persisted, dropped := e.dropped, announced := e.announced, stages := e.stages), id)
    requires forall s :: s in e.persisted && s !in d.persisted ==> s == d.entries[id].signature
    requires forall s :: s in e.dropped && s !in d.dropped ==> DroppedEntry(e, id, s)
    ensures Inv(max, e)
  {
    forall k: nat | k < |e.entries| ensures EntryOk(max, e, k) {
      assert EntryOk(max, d, k);
      if d.entries[k].attempts > 0 {
        var parent :| 0 <= parent < k && IsParent(d, parent, k);
        assert IsParent(e, parent, k);
      }
    }
    forall s | s in e.persisted ensures Queued(e, s) {
      if s in d.persisted { assert Queued(d, s); } else { assert e.entries[id].signature == s; }
    }
    forall s | s in e.dropped ensures exists k :: 0 <= k < |e.entries| && DroppedEntry(e, k, s) {
      if s in d.dropped {
        var k :| 0 <= k < |d.entries| && DroppedEntry(d, k, s);
        assert DroppedEntry(e, k, s);
      } else {
        assert DroppedEntry(e, id, s);
      }
    }
  }

  /** Adds entry `x` to the log, as a fresh one or as the requeued child of `parent`. */
  lemma AppendKeepsInv(max: int, d: State, e: State, x: Entry, parent: int)
    requires Inv(max, d) && -1 <= parent < |d.entries|
    requires e.entries == d.entries + [x] && e.persisted == d.persisted && e.dropped == d.dropped
    requires parent < 0 ==> x.attempts == 0 && e.stages == d.stages + [Waiting]
    requires parent >= 0 ==>
      && Retryable(d, parent)
      && x == d.entries[parent].(attempts := d.entries[parent].attempts + 1)
      && x.attempts < max
      && e.stages == d.stages[parent := Requeued(|d.entries|)] + [Waiting]
    ensures Inv(max, e)
  {
    var n := |d.entries|;
    if parent >= 0 {
      assert IsParent(e, parent, n);
    }
    forall k: nat | k < |e.entries| ensures EntryOk(max, e, k) {
      if k < n {
        assert EntryOk(max, d, k);
        if d.entries[k].attempts > 0 {
          var p :| 0 <= p < k && IsParent(d, p, k);
          assert IsParent(e, p, k);
        }
      }
    }
    forall s | s in e.persisted ensures Queued(e, s) {
      var k :| 0 <= k < n && d.entries[k].signature == s;
      assert e.entries[k].signature == s;
    }
    forall s | s in e.dropped ensures exists k :: 0 <= k < |e.entries| && DroppedEntry(e, k, s) {
      var k :| 0 <= k < n && DroppedEntry(d, k, s);
      assert DroppedEntry(e, k, s);
    }
  }

  lemma ClaimsDoNotMatter(max: int, d: State, e: State)
    requires Inv(max, d) && e == d.(claims := e.claims)
    ensures Inv(max, e)
  {
    forall k: nat | k < |e.entries| ensures EntryOk(max, e, k) {
      assert EntryOk(max, d, k);
      if d.entries[k].attempts > 0 {
        var p :| 0 <= p < k && IsParent(d, p, k);
        assert IsParent(e, p, k);
      }
    }
    forall s | s in e.persisted ensures Queued(e, s) { assert Queued(d, s); }
    forall s | s in e.dropped ensures exists k :: 0 <= k < |e.entries| && DroppedEntry(e, k, s) {
      var k :| 0 <= k < |d.entries| && DroppedEntry(d, k, s);
      assert DroppedEntry(e, k, s);
    }
  }

  lemma NotifyKeepsInv(max: int, d: State, signature: Signature, priority: bool, end: EnqueueEnd)
    requires Inv(max, d)
    ensures Inv(max, Enqueue(d, signature, priority, end))
  {
    var e := Enqueue(d, signature, priority, end);
    var claimed := d.(claims := d.claims + {signature});
    ClaimsDoNotMatter(max, d, claimed);
    if e.entries != d.entries {
      AppendKeepsInv(max, claimed, e, Entry(signature, 0), -1);
    } else {
      ClaimsDoNotMatter(max, d, e);
    }
  }

  lemma NextKeepsInv(max: int, d: State, step: Step)
    requires Inv(max, d)
    ensures Inv(max, Next(max, d, step))
  {
    var e := Next(max, d, step);
    match step
    case Notify(signature, priority, end) => NotifyKeepsInv(max, d, signature, priority, end);
    case ClaimExpires(signature) => ClaimsDoNotMatter(max, d, e);
    case Autoclaim(id) =>
    case Requeue(id) =>
      if e != d {
        AppendKeepsInv(max, d, e, d.entries[id].(attempts := d.entries[id].attempts + 1), id);
      }
    case _ => if e != d { MoveOn(max, d, e, step); }
  }

  /** e is d after a step that moves one entry on. */
  predicate MovesOn(max: int, d: State, e: State, step: Step) {
    && (step.Deliver? || step.Write? || step.Publish? || step.FailPublish? || step.GiveUp? || step.Ack? || step.Abandon?)
    && e == Next(max, d, step)
  }

  lemma MovedEntryOk(max: int, d: State, e: State, step: Step)
    requires Inv(max, d) && MovesOn(max, d, e, step) && e != d
    ensures step.id < |e.entries| == |e.stages| == |d.entries| && EntryOk(max, e, step.id)
  {
    var id := step.id;
    assert EntryOk(max, d, id);
    MovedStage(max, d, e, step);
    hide MovesOn;
    if d.entries[id].attempts > 0 {
      var parent :| 0 <= parent < id && IsParent(d, parent, id);
      assert IsParent(e, parent, id);
    }
  }

  /** What a step that moves an entry on changes: that stage, and what its new stage testifies. */
  lemma MovedStage(max: int, d: State, e: State, step: Step)
    requires |d.entries| == |d.stages| && MovesOn(max, d, e, step) && e != d
    requires step.id < |d.stages| ==> EntryOk(max, d, step.id)
    ensures step.id < |e.stages| == |d.stages| && d.persisted <= e.persisted && d.dropped <= e.dropped
    ensures var id := step.id;
      e == d.(persisted := e.persisted, dropped := e.dropped, announced := e.announced, stages := d.stages[id := e.stages[id]])
    ensures var id := step.id; var s := e.stages[id]; var signature := d.entries[id].signature;
      && (s.Orphaned? ==> InHand(s.at))
      && (s.Acked? ==> Finished(s.after))
      && (Reached(s).Written? || Reached(s).Unpublished? ==> signature in e.persisted)
      && (Reached(s).GivenUp? ==> signature in e.dropped && d.entries[id].attempts + 1 >= max)
      && (Reached(s).Requeued? ==> Reached(s) == Reached(d.stages[id]))
    ensures Reached(e.stages[step.id]) == Reached(d.stages[step.id]) || !Reached(d.stages[step.id]).Requeued?
    ensures Reached(d.stages[step.id]).GivenUp? ==> Reached(e.stages[step.id]).GivenUp?
    ensures forall s :: s in e.persisted && s !in d.persisted ==> s == d.entries[step.id].signature
    ensures forall s :: s in e.dropped && s !in d.dropped ==>
      s == d.entries[step.id].signature && Reached(e.stages[step.id]).GivenUp?
  {
    hide IsParent;
  }

  lemma MoveOn(max: int, d: State, e: State, step: Step)
    requires Inv(max, d) && MovesOn(max, d, e, step) && e != d
    ensures Inv(max, e)
  {
    var id := step.id;
    MovedEntryOk(max, d, e, step);
    assert EntryOk(max, d, id);
    MovedStage(max, d, e, step);
    hide MovesOn, EntryOk;
    assert e == d.(persisted := e.persisted, dropped := e.dropped, announced := e.announced, stages := e.stages);
    StageKeepsInv(max, d, e, id);
  }

  lemma {:induction false} ReachableInv(max: int, steps: seq<Step>)
    ensures Inv(max, RunFrom(max, INITIAL, steps))
  {
    if steps != [] {
      ReachableInv(max, steps[..|steps| - 1]);
      NextKeepsInv(max, RunFrom(max, INITIAL, steps[..|steps| - 1]), steps[|steps| - 1]);
    }
  }

  // --- safety: nothing is lost --------------------------------------------

  ghost predicate Unacked(d: State, id: int, signature: Signature) {
    0 <= id < |d.entries| && id < |d.stages| && d.entries[id].signature == signature && !d.stages[id].Acked?
  }

  /** Following the requeues of an entry ends at a persisted signature, a dropped one, or an entry
      that is still un-acknowledged; the attempt number rises along the way and stays below max. */
  lemma {:induction false} ChainEnds(max: int, d: State, id: nat)
    requires Inv(max, d) && id < |d.entries|
    ensures var s := d.entries[id].signature;
      s in d.persisted || s in d.dropped || exists k :: Unacked(d, k, s)
    decreases |d.entries| - id
  {
    assert EntryOk(max, d, id);
    if d.stages[id].Acked? {
      if d.stages[id].after.Requeued? {
        ChainEnds(max, d, d.stages[id].after.child);
      }
    } else {
      assert Unacked(d, id, d.entries[id].signature);
    }
  }

  /** Nothing is lost, wherever the crashes fall: every signature ever put on a stream is persisted,
      was dropped, or still has an un-acknowledged entry. */
  lemma NothingIsLost(max: int, steps: seq<Step>, id: nat)
    requires id < |RunFrom(max, INITIAL, steps).entries|
    ensures var d := RunFrom(max, INITIAL, steps);
      var s := d.entries[id].signature;
      s in d.persisted || s in d.dropped || exists k :: Unacked(d, k, s)
  {
    ReachableInv(max, steps);
    ChainEnds(max, RunFrom(max, INITIAL, steps), id);
  }

  /** Attempt numbers never reach the maximum. */
  lemma {:induction false} AttemptsStayBelowMax(max: int, steps: seq<Step>, id: nat)
    requires max >= 1 && id < |RunFrom(max, INITIAL, steps).entries|
    ensures RunFrom(max, INITIAL, steps).entries[id].attempts < max
  {
    ReachableInv(max, steps);
    assert EntryOk(max, RunFrom(max, INITIAL, steps), id);
  }

  /** An entry at attempt a has predecessors for every smaller attempt number. */
  lemma {:induction false} HasEveryAttempt(max: int, d: State, id: nat, a: nat)
    requires Inv(max, d) && id < |d.entries| && a <= d.entries[id].attempts
    ensures exists k :: 0 <= k < |d.entries| && d.entries[k] == Entry(d.entries[id].signature, a)
    decreases id
  {
    assert EntryOk(max, d, id);
    if a == d.entries[id].attempts {
      assert d.entries[id] == Entry(d.entries[id].signature, a);
    } else {
      var parent :| 0 <= parent < id && IsParent(d, parent, id);
      HasEveryAttempt(max, d, parent, a);
    }
  }

  /** A signature is dropped only after all its attempts: an entry for each attempt number was made. */
  lemma DroppedMeansEveryAttempt(max: int, steps: seq<Step>, s: Signature, a: nat)
    requires s in RunFrom(max, INITIAL, steps).dropped && a < max
    ensures var d := RunFrom(max, INITIAL, steps);
      exists k :: 0 <= k < |d.entries| && d.entries[k] == Entry(s, a)
  {
    ReachableInv(max, steps);
    var d := RunFrom(max, INITIAL, steps);
    var id :| 0 <= id < |d.entries| && DroppedEntry(d, id, s);
    assert EntryOk(max, d, id);
    HasEveryAttempt(max, d, id, a);
  }

  // --- bounded work -------------------------------------------------------

  /** Work left in one entry: a retry costs more than the requeued copy it leaves behind. */
  function Weight(max: int, e: Entry, stage: Stage): nat {
    var left: nat := if max > e.attempts then max - e.attempts else 1;
    match stage
    case Waiting => 6 * left + 1
    case Held => 6 * left
    case Written(trades) => 6 * left - 1 + |trades|
    case Unpublished => 6 * left - 2
    case Requeued(_) => 1
    case GivenUp => 1
    case Orphaned(_) => 0
    case Acked(_) => 0
  }

  function Work(max: int, entries: seq<Entry>, stages: seq<Stage>): nat
    requires |entries| == |stages|
  {
    if entries == [] then 0
    else
      var n := |entries| - 1;
      Work(max, entries[..n], stages[..n]) + Weight(max, entries[n], stages[n])
  }

  lemma {:induction false} WorkUpdate(max: int, entries: seq<Entry>, stages: seq<Stage>, id: nat, stage: Stage)
    requires |entries| == |stages| && id < |entries|
    ensures Work(max, entries, stages[id := stage]) + Weight(max, entries[id], stages[id])
         == Work(max, entries, stages) + Weight(max, entries[id], stage)
  {
    var n := |entries| - 1;
    if id == n {
      assert stages[id := stage][..n] == stages[..n];
    } else {
      WorkUpdate(max, entries[..n], stages[..n], id, stage);
      assert stages[id := stage][..n] == stages[..n][id := stage];
    }
  }

  /** The work a commit adds: the trades it has to announce. */
  function News(steps: seq<Step>): nat {
    if steps == [] then 0
    else News(steps[..|steps| - 1]) + NewsOf(steps[|steps| - 1])
  }

  function NewsOf(step: Step): nat { if step.Write? then |step.news| else 0 }

  /** Every step of the writers that changes anything uses up work; only the listener and the trades a
      commit reports add any. */
  lemma StepUsesWork(max: int, d: State, step: Step)
    requires Inv(max, d) && !step.Notify? && !step.ClaimExpires? && Next(max, d, step) != d
    ensures |Next(max, d, step).entries| == |Next(max, d, step).stages|
    ensures Work(max, Next(max, d, step).entries, Next(max, d, step).stages) < Work(max, d.entries, d.stages) + NewsOf(step)
  {
    assert |d.entries| == |d.stages|;
    hide Inv;
    var e := Next(max, d, step);
    var id := step.id;
    WorkUpdate(max, d.entries, d.stages, id, e.stages[id]);
    if step.Requeue? {
      var n := |d.entries|;
      assert e.entries[..n] == d.entries && e.stages[..n] == d.stages[id := e.stages[id]];
    }
  }

  /** Between notifications the writers can take only so many steps that do anything: retries end. */
  lemma {:induction false} RetriesEnd(max: int, d: State, steps: seq<Step>)
    requires Inv(max, d)
    requires forall i :: 0 <= i < |steps| ==>
      && !steps[i].Notify? && !steps[i].ClaimExpires?
      && Next(max, RunFrom(max, d, steps[..i]), steps[i]) != RunFrom(max, d, steps[..i])
    ensures Inv(max, RunFrom(max, d, steps))
    ensures |steps| + Work(max, RunFrom(max, d, steps).entries, RunFrom(max, d, steps).stages)
         <= Work(max, d.entries, d.stages) + News(steps)
  {
    if steps != [] {
      var front := steps[..|steps| - 1];
      forall i | 0 <= i < |front|
        ensures Next(max, RunFrom(max, d, front[..i]), front[i]) != RunFrom(max, d, front[..i])
      {
        assert front[..i] == steps[..i];
      }
      RetriesEnd(max, d, front);
      NextKeepsInv(max, RunFrom(max, d, front), steps[|steps| - 1]);
      StepUsesWork(max, RunFrom(max, d, front), steps[|steps| - 1]);
    }
  }

  // --- what is announced --------------------------------------------------

  /** One commit of a run: the entry, its signature and the new trades it reported. */
  datatype Commit = Commit(id: nat, signature: Signature, news: seq<nat>)

  /** The commits of a run, in order; a signature is there each time it is written. */
  function Commits(max: int, d: State, steps: seq<Step>): seq<Commit> {
    if steps == [] then []
    else
      var n := |steps| - 1;
      Commits(max, d, steps[..n]) + CommitOf(RunFrom(max, d, steps[..n]), steps[n])
  }

  function CommitOf(d: State, step: Step): seq<Commit> {
    if step.Write? && Holds(d, step.id) then [Commit(step.id, d.entries[step.id].signature, step.news)] else []
  }

  /** How many trades a run announces for an entry. */
  function Published(max: int, d: State, steps: seq<Step>, id: nat): nat {
    if steps == [] then 0
    else
      var n := |steps| - 1;
      Published(max, d, steps[..n], id)
      + (if steps[n] == Publish(id) && Announces(RunFrom(max, d, steps[..n]), id) then 1 else 0)
  }

  /** The commit's k-th trade is t. */
  predicate Reports(c: Commit, k: int, t: Trade) {
    0 <= k < |c.news| && c.signature == t.signature && c.news[k] == t.index
  }

  /** The trade was announced for commit number j, as its k-th. */
  predicate AnnouncedFor(max: int, steps: seq<Step>, j: int, k: int, t: Trade) {
    && 0 <= j < |Commits(max, INITIAL, steps)|
    && Reports(Commits(max, INITIAL, steps)[j], k, t)
    && k < Published(max, INITIAL, steps, Commits(max, INITIAL, steps)[j].id)
  }

  /** What an entry's stage says about its commit, if it has one: while it is written the trades left are
      those not yet announced, and once it is retried some are missing for good. */
  ghost predicate CommitOk(d: State, c: Commit, published: nat) {
    && c.id < |d.stages| && c.id < |d.entries| && d.entries[c.id].signature == c.signature
    && published <= |c.news|
    && match Reached(d.stages[c.id])
       case Written(left) => left == c.news[published..]
       case Unpublished => published < |c.news|
       case Requeued(_) => published < |c.news|
       case GivenUp => published < |c.news|
       case _ => false
  }

  /** The entry has not been stored: it waits, or is or was in a consumer's hands. */
  predicate Untouched(d: State, id: nat) {
    id < |d.stages| ==> Reached(d.stages[id]).Waiting? || Reached(d.stages[id]).Held?
  }

  predicate IsCommitOf(commits: seq<Commit>, j: int, id: int) { 0 <= j < |commits| && commits[j].id == id }

  /** Each entry is committed at most once, and every commit is in order. */
  ghost predicate CommitsFit(max: int, steps: seq<Step>) {
    var d, commits := RunFrom(max, INITIAL, steps), Commits(max, INITIAL, steps);
    && (forall j :: 0 <= j < |commits| ==> CommitOk(d, commits[j], Published(max, INITIAL, steps, commits[j].id)))
    && (forall i, j :: 0 <= i < j < |commits| ==> commits[i].id != commits[j].id)
  }

  /** Every written entry has a commit, and nothing is announced for an entry that has not been stored. */
  ghost predicate WrittenFits(max: int, steps: seq<Step>) {
    var d, commits := RunFrom(max, INITIAL, steps), Commits(max, INITIAL, steps);
    && (forall id :: 0 <= id < |d.stages| && Reached(d.stages[id]).Written? ==> exists j :: IsCommitOf(commits, j, id))
    && (forall id: nat :: Untouched(d, id) ==> Published(max, INITIAL, steps, id) == 0)
  }

  ghost predicate CommitsOk(max: int, steps: seq<Step>) { CommitsFit(max, steps) && WrittenFits(max, steps) }

  function PublishesNow(d: State, step: Step, id: nat): nat {
    if step == Publish(id) && Announces(d, id) then 1 else 0
  }

  /** A commit stays in order whatever the next step is. */
  lemma CommitStays(max: int, d: State, step: Step, c: Commit, published: nat)
    requires |d.entries| == |d.stages| && CommitOk(d, c, published)
    ensures CommitOk(Next(max, d, step), c, published + PublishesNow(d, step, c.id))
  {
    if Announces(d, c.id) {
      assert d.stages[c.id].left[1..] == c.news[published + 1..];
    }
  }

  lemma NewCommitOk(max: int, d: State, step: Step)
    requires |d.entries| == |d.stages| && step.Write? && Holds(d, step.id)
    ensures CommitOk(Next(max, d, step), Commit(step.id, d.entries[step.id].signature, step.news), 0)
  {
  }

  /** An entry that is not stored after a step was not stored before it, and the step announces nothing
      for it; one that is written after it was written before, or is written by it. */
  lemma StorageIsWritten(max: int, d: State, step: Step, id: nat)
    requires |d.entries| == |d.stages|
    ensures var e := Next(max, d, step);
      && (Untouched(e, id) ==> Untouched(d, id) && PublishesNow(d, step, id) == 0)
      && (id < |e.stages| && Reached(e.stages[id]).Written? ==>
            || (id < |d.stages| && Reached(d.stages[id]).Written?)
            || (step.Write? && step.id == id && Holds(d, id)))
  {
  }

  lemma {:induction false} CommitsInOrder(max: int, steps: seq<Step>)
    ensures CommitsOk(max, steps)
  {
    if steps != [] {
      CommitsInOrder(max, steps[..|steps| - 1]);
      ReachableInv(max, steps[..|steps| - 1]);
      CommitsStep(max, steps);
    }
  }

  /** How the state, the commits and the announcements of a run grow with its last step. */
  lemma RunGrows(max: int, steps: seq<Step>)
    requires steps != []
    ensures var front, step := steps[..|steps| - 1], steps[|steps| - 1];
      var d := RunFrom(max, INITIAL, front);
      && RunFrom(max, INITIAL, steps) == Next(max, d, step)
      && Commits(max, INITIAL, steps) == Commits(max, INITIAL, front) + CommitOf(d, step)
      && forall id: nat ::
           Published(max, INITIAL, steps, id) == Published(max, INITIAL, front, id) + PublishesNow(d, step, id)
  {
    hide Next, CommitOf, Announces;
  }

  /** The commit of a step is the one of its write, in order, and nothing is announced for it yet. */
  lemma AddedCommit(max: int, d: State, step: Step)
    requires |d.entries| == |d.stages|
    ensures CommitOf(d, step) != [] <==> step.Write? && Holds(d, step.id)
    ensures CommitOf(d, step) != [] ==>
      && |CommitOf(d, step)| == 1 && CommitOf(d, step)[0].id == step.id
      && Untouched(d, step.id) && PublishesNow(d, step, step.id) == 0
      && CommitOk(Next(max, d, step), CommitOf(d, step)[0], 0)
  {
    if step.Write? && Holds(d, step.id) { NewCommitOk(max, d, step); }
    hide Next, CommitOk;
  }

  lemma CommitsStep(max: int, steps: seq<Step>)
    requires steps != [] && CommitsOk(max, steps[..|steps| - 1])
    requires Inv(max, RunFrom(max, INITIAL, steps[..|steps| - 1]))
    ensures CommitsOk(max, steps)
  {
    var front := steps[..|steps| - 1];
    assert |RunFrom(max, INITIAL, front).entries| == |RunFrom(max, INITIAL, front).stages|;
    hide Inv, RunFrom, CommitsFit, WrittenFits;
    CommitsStayInOrder(max, steps);
    WrittenIsCommitted(max, steps);
  }

  lemma CommitsStayInOrder(max: int, steps: seq<Step>)
    requires steps != [] && CommitsOk(max, steps[..|steps| - 1])
    requires var d := RunFrom(max, INITIAL, steps[..|steps| - 1]); |d.entries| == |d.stages|
    ensures CommitsFit(max, steps)
  {
    var front, step := steps[..|steps| - 1], steps[|steps| - 1];
    var d, e := RunFrom(max, INITIAL, front), RunFrom(max, INITIAL, steps);
    var old', commits := Commits(max, INITIAL, front), Commits(max, INITIAL, steps);
    RunGrows(max, steps);
    AddedCommit(max, d, step);
    hide Next, Published, Commits, RunFrom, Reached, CommitOk, CommitOf, PublishesNow, Untouched, Holds;
    forall j | 0 <= j < |commits| ensures CommitOk(e, commits[j], Published(max, INITIAL, steps, commits[j].id)) {
      if j < |old'| {
        CommitStays(max, d, step, old'[j], Published(max, INITIAL, front, old'[j].id));
      }
    }
    forall i, j | 0 <= i < j < |commits| ensures commits[i].id != commits[j].id {
      if j == |old'| {
        assert CommitOk(d, old'[i], Published(max, INITIAL, front, old'[i].id));
        HeldHasNoCommit(d, step.id, old'[i], Published(max, INITIAL, front, old'[i].id));
      }
    }
  }

  lemma WrittenIsCommitted(max: int, steps: seq<Step>)
    requires steps != [] && CommitsOk(max, steps[..|steps| - 1])
    requires var d := RunFrom(max, INITIAL, steps[..|steps| - 1]); |d.entries| == |d.stages|
    ensures WrittenFits(max, steps)
  {
    var front, step := steps[..|steps| - 1], steps[|steps| - 1];
    var d, e := RunFrom(max, INITIAL, front), RunFrom(max, INITIAL, steps);
    var old', commits := Commits(max, INITIAL, front), Commits(max, INITIAL, steps);
    RunGrows(max, steps);
    AddedCommit(max, d, step);
    hide Next, Published, Commits, RunFrom, Reached, CommitOk, CommitOf, PublishesNow, Untouched, Holds;
    forall id | 0 <= id < |e.stages| && Reached(e.stages[id]).Written? ensures exists j :: IsCommitOf(commits, j, id) {
      StorageIsWritten(max, d, step, id);
      if id < |d.stages| && Reached(d.stages[id]).Written? {
        var j :| IsCommitOf(old', j, id);
        assert IsCommitOf(commits, j, id);
      } else {
        assert IsCommitOf(commits, |old'|, id);
      }
    }
    forall id: nat | Untouched(e, id) ensures Published(max, INITIAL, steps, id) == 0 {
      StorageIsWritten(max, d, step, id);
    }
  }

  lemma HeldIsUntouched(d: State, id: nat)
    ensures Holds(d, id) ==> Untouched(d, id)
  {
  }

  lemma HeldHasNoCommit(d: State, id: nat, c: Commit, published: nat)
    requires Holds(d, id) && CommitOk(d, c, published)
    ensures c.id != id
  {
  }

  /** What a run announces, exactly: the k-th trade of a commit is announced if and only if the entry of
      the commit is published more than k times, and nothing else is. */
  lemma {:induction false} AnnouncedExactly(max: int, steps: seq<Step>, t: Trade)
    ensures t in RunFrom(max, INITIAL, steps).announced <==> exists j, k :: AnnouncedFor(max, steps, j, k, t)
  {
    if steps != [] {
      var front, step := steps[..|steps| - 1], steps[|steps| - 1];
      var d := RunFrom(max, INITIAL, front);
      AnnouncedExactly(max, front, t);
      CommitsInOrder(max, front);
      AnnouncedStep(max, steps, t);
    }
  }

  lemma AnnouncedStep(max: int, steps: seq<Step>, t: Trade)
    requires steps != [] && CommitsOk(max, steps[..|steps| - 1])
    requires var front := steps[..|steps| - 1];
      t in RunFrom(max, INITIAL, front).announced <==> exists j, k :: AnnouncedFor(max, front, j, k, t)
    ensures t in RunFrom(max, INITIAL, steps).announced <==> exists j, k :: AnnouncedFor(max, steps, j, k, t)
  {
    var front, step := steps[..|steps| - 1], steps[|steps| - 1];
    var d, e := RunFrom(max, INITIAL, front), RunFrom(max, INITIAL, steps);
    if t in e.announced && t !in d.announced {
      var j, k := NewlyAnnounced(max, steps, t);
      assert AnnouncedFor(max, steps, j, k, t);
    } else if t in e.announced {
      var j, k :| AnnouncedFor(max, front, j, k, t);
      assert AnnouncedFor(max, steps, j, k, t);
    }
    if j, k :| AnnouncedFor(max, steps, j, k, t) { AnnouncedIsThere(max, steps, j, k, t); }
  }

  /** What the last step announces is the next trade of the entry's commit. */
  lemma NewlyAnnounced(max: int, steps: seq<Step>, t: Trade) returns (j: int, k: int)
    requires steps != [] && CommitsOk(max, steps[..|steps| - 1])
    requires t in RunFrom(max, INITIAL, steps).announced && t !in RunFrom(max, INITIAL, steps[..|steps| - 1]).announced
    ensures AnnouncedFor(max, steps, j, k, t)
  {
    var front, step := steps[..|steps| - 1], steps[|steps| - 1];
    var d := RunFrom(max, INITIAL, front);
    var id := step.id;
    assert step == Publish(id) && Announces(d, id) && t == Trade(d.entries[id].signature, d.stages[id].left[0]);
    assert Reached(d.stages[id]).Written?;
    var commits := Commits(max, INITIAL, front);
    j :| IsCommitOf(commits, j, id);
    k := Published(max, INITIAL, front, id);
    assert CommitOk(d, commits[j], k);
    assert Commits(max, INITIAL, steps)[j] == commits[j] && Published(max, INITIAL, steps, id) == k + 1;
    hide RunFrom, Commits, Published, Next;
  }

  lemma AnnouncedIsThere(max: int, steps: seq<Step>, j: int, k: int, t: Trade)
    requires steps != [] && CommitsOk(max, steps[..|steps| - 1]) && AnnouncedFor(max, steps, j, k, t)
    requires var front := steps[..|steps| - 1];
      t in RunFrom(max, INITIAL, front).announced <==> exists j, k :: AnnouncedFor(max, front, j, k, t)
    ensures t in RunFrom(max, INITIAL, steps).announced
  {
    var front, step := steps[..|steps| - 1], steps[|steps| - 1];
    var d := RunFrom(max, INITIAL, front);
    var old', commits := Commits(max, INITIAL, front), Commits(max, INITIAL, steps);
    var c := commits[j];
    var published := Published(max, INITIAL, front, c.id);
    assert commits == old' + CommitOf(d, step) && RunFrom(max, INITIAL, steps) == Next(max, d, step);
    assert Published(max, INITIAL, steps, c.id) == published + PublishesNow(d, step, c.id);
    HeldIsUntouched(d, c.id);
    assert j == |old'| ==> published == 0 && PublishesNow(d, step, c.id) == 0;
    assert j < |old'| && c == old'[j] && CommitOk(d, c, published);
    hide RunFrom, Commits, CommitsOk;
    if k < published {
      assert AnnouncedFor(max, front, j, k, t);
      assert d.announced <= Next(max, d, step).announced;
    } else {
      assert step == Publish(c.id) && Announces(d, c.id) && k == published;
    }
  }

  /** All new trades of a commit are announced exactly when its entry got as far as its acknowledgement. */
  lemma AllAnnouncedExactly(max: int, steps: seq<Step>, j: nat)
    requires j < |Commits(max, INITIAL, steps)|
    ensures var c := Commits(max, INITIAL, steps)[j];
      var d := RunFrom(max, INITIAL, steps);
      && c.id < |d.stages|
      && (Published(max, INITIAL, steps, c.id) == |c.news| <==> Reached(d.stages[c.id]) == Written([]))
  {
    CommitsInOrder(max, steps);
    var c := Commits(max, INITIAL, steps)[j];
    assert CommitOk(RunFrom(max, INITIAL, steps), c, Published(max, INITIAL, steps, c.id));
  }

  /** The announcements of an entry are over: it failed, died or was acknowledged. */
  predicate Settled(stage: Stage) {
    !stage.Waiting? && !stage.Held? && !stage.Written?
  }

  lemma SettledStays(max: int, d: State, step: Step, id: nat)
    requires |d.entries| == |d.stages| && id < |d.stages| && Settled(d.stages[id])
    ensures id < |Next(max, d, step).stages| && Settled(Next(max, d, step).stages[id])
    ensures PublishesNow(d, step, id) == 0
  {
  }

  lemma {:induction false} SettledIsSilent(max: int, steps: seq<Step>, more: seq<Step>, id: nat)
    requires id < |RunFrom(max, INITIAL, steps).stages| && Settled(RunFrom(max, INITIAL, steps).stages[id])
    ensures var d := RunFrom(max, INITIAL, steps + more);
      id < |d.stages| && Settled(d.stages[id])
    ensures Published(max, INITIAL, steps + more, id) == Published(max, INITIAL, steps, id)
  {
    if more == [] {
      assert steps + more == steps;
    } else {
      var n := |more| - 1;
      assert (steps + more)[..|steps + more| - 1] == steps + more[..n];
      SettledIsSilent(max, steps, more[..n], id);
      ReachableInv(max, steps + more[..n]);
      SettledStays(max, RunFrom(max, INITIAL, steps + more[..n]), more[n], id);
    }
  }

  function Publishes(id: nat, n: nat): seq<Step> { seq(n, _ => Publish(id)) }

  function Trades(s: Signature, news: seq<nat>): set<Trade> { set i | 0 <= i < |news| :: Trade(s, news[i]) }

  lemma {:induction false} PublishRun(max: int, d: State, id: nat, n: nat)
    requires |d.entries| == |d.stages| && id < |d.stages| && d.stages[id].Written? && n <= |d.stages[id].left|
    ensures var left := d.stages[id].left;
      RunFrom(max, d, Publishes(id, n))
        == WithStage(d, id, Written(left[n..])).(announced := d.announced + Trades(d.entries[id].signature, left[..n]))
  {
    var left := d.stages[id].left;
    if n == 0 {
      assert left[0..] == left && d.stages[id := Written(left)] == d.stages;
      assert d.announced + Trades(d.entries[id].signature, []) == d.announced;
    } else {
      PublishRun(max, d, id, n - 1);
      assert Publishes(id, n)[..n - 1] == Publishes(id, n - 1);
      assert left[n - 1..][1..] == left[n..];
      TradesMore(d.entries[id].signature, left, n - 1);
    }
  }

  lemma TradesMore(s: Signature, news: seq<nat>, n: nat)
    requires n < |news|
    ensures Trades(s, news[..n + 1]) == Trades(s, news[..n]) + {Trade(s, news[n])}
  {
    assert news[..n + 1] == news[..n] + [news[n]];
    var more := news[..n + 1];
    assert more[n] == news[n] && forall i :: 0 <= i < n ==> more[i] == news[..n][i];
    forall t | t in Trades(s, news[..n]) + {Trade(s, news[n])} ensures t in Trades(s, more) {
      if t in Trades(s, news[..n]) {
        var i :| 0 <= i < n && t == Trade(s, news[..n][i]);
        assert more[i] == news[..n][i];
      } else {
        assert t == Trade(s, more[n]);
      }
    }
  }

  lemma {:induction false} PublishedRun(max: int, steps: seq<Step>, id: nat, n: nat)
    requires var d := RunFrom(max, INITIAL, steps);
      id < |d.stages| && d.stages[id].Written? && n <= |d.stages[id].left|
    ensures Published(max, INITIAL, steps + Publishes(id, n), id) == Published(max, INITIAL, steps, id) + n
  {
    if n == 0 {
      assert steps + Publishes(id, 0) == steps;
    } else {
      var front := steps + Publishes(id, n - 1);
      PublishedRun(max, steps, id, n - 1);
      ReachableInv(max, steps);
      StillAnnounces(max, steps, id, n - 1);
      assert steps + Publishes(id, n) == front + [Publish(id)];
      PublishedOneMore(max, front, Publish(id), id);
      hide RunFrom, Published, Announces;
    }
  }

  lemma PublishedOneMore(max: int, steps: seq<Step>, step: Step, id: nat)
    ensures Published(max, INITIAL, steps + [step], id)
         == Published(max, INITIAL, steps, id) + PublishesNow(RunFrom(max, INITIAL, steps), step, id)
  {
    assert (steps + [step])[..|steps|] == steps;
  }

  lemma StillAnnounces(max: int, steps: seq<Step>, id: nat, n: nat)
    requires var d := RunFrom(max, INITIAL, steps);
      |d.entries| == |d.stages| && id < |d.stages| && d.stages[id].Written? && n < |d.stages[id].left|
    ensures Announces(RunFrom(max, INITIAL, steps + Publishes(id, n)), id)
  {
    var d := RunFrom(max, INITIAL, steps);
    PublishRun(max, d, id, n);
    RunSplits(max, INITIAL, steps, Publishes(id, n));
    hide RunFrom, Trades;
  }

  /** A reported trade can still be announced exactly when it has been already or its entry is still
      written: a failed announcement or a crash after the commit loses the rest for good. */
  lemma AnnounceableExactly(max: int, steps: seq<Step>, j: nat, k: nat)
    requires j < |Commits(max, INITIAL, steps)| && k < |Commits(max, INITIAL, steps)[j].news|
    ensures var c := Commits(max, INITIAL, steps)[j];
      && c.id < |RunFrom(max, INITIAL, steps).stages|
      && ((exists more :: Published(max, INITIAL, steps + more, c.id) > k)
          <==> Published(max, INITIAL, steps, c.id) > k || RunFrom(max, INITIAL, steps).stages[c.id].Written?)
  {
    var d := RunFrom(max, INITIAL, steps);
    var c := Commits(max, INITIAL, steps)[j];
    var published := Published(max, INITIAL, steps, c.id);
    CommitsInOrder(max, steps);
    assert CommitOk(d, c, published);
    hide RunFrom, Commits, Published, CommitsOk;
    if more :| Published(max, INITIAL, steps + more, c.id) > k {
      if Settled(d.stages[c.id]) { SettledIsSilent(max, steps, more, c.id); }
    }
    if d.stages[c.id].Written? {
      var rest: nat := |c.news| - published;
      PublishedRun(max, steps, c.id, rest);
      assert Published(max, INITIAL, steps + Publishes(c.id, rest), c.id) > k;
    } else if published > k {
      assert steps + [] == steps;
      assert Published(max, INITIAL, steps + [], c.id) > k;
    }
  }

  lemma {:induction false} CommitsGrow(max: int, steps: seq<Step>, more: seq<Step>)
    ensures Commits(max, INITIAL, steps) <= Commits(max, INITIAL, steps + more)
    ensures (forall i :: 0 <= i < |more| ==> !more[i].Write?) ==>
      Commits(max, INITIAL, steps + more) == Commits(max, INITIAL, steps)
  {
    if more == [] {
      assert steps + more == steps;
    } else {
      var n := |more| - 1;
      assert (steps + more)[..|steps + more| - 1] == steps + more[..n];
      CommitsGrow(max, steps, more[..n]);
    }
  }

  /** Entries stay as they are. */
  lemma {:induction false} EntriesStay(max: int, d: State, steps: seq<Step>)
    ensures d.entries <= RunFrom(max, d, steps).entries
  {
    if steps != [] { EntriesStay(max, d, steps[..|steps| - 1]); }
  }

  /** Each further commit of a longer run is made by a write of its own. */
  lemma {:induction false} CommitIsWrite(max: int, steps: seq<Step>, more: seq<Step>, a: nat) returns (p: nat)
    requires |Commits(max, INITIAL, steps)| <= a < |Commits(max, INITIAL, steps + more)|
    ensures p < |more| && more[p].Write? && more[p].id == Commits(max, INITIAL, steps + more)[a].id
  {
    hide Commits;
    assert steps + [] == steps;
    var n := |more| - 1;
    OneMoreCommit(max, steps, more[..n], more[n]);
    assert more == more[..n] + [more[n]];
    if a < |Commits(max, INITIAL, steps + more[..n])| {
      p := CommitIsWrite(max, steps, more[..n], a);
    } else {
      p := n;
    }
  }

  /** A step adds the commit of its write, or nothing. */
  lemma OneMoreCommit(max: int, steps: seq<Step>, more: seq<Step>, step: Step)
    ensures var before, after := Commits(max, INITIAL, steps + more), Commits(max, INITIAL, steps + (more + [step]));
      && |before| <= |after| <= |before| + 1 && after[..|before|] == before
      && (|after| > |before| ==> step.Write? && after[|before|].id == step.id)
  {
    var all := steps + (more + [step]);
    assert all[..|all| - 1] == steps + more && all[|all| - 1] == step;
    hide RunFrom, Holds;
  }

  /** Commits come in the order of their writes. */
  lemma {:induction false} CommitsFollowWrites(max: int, steps: seq<Step>, more: seq<Step>, a: nat, b: nat)
    returns (p: nat, q: nat)
    requires |Commits(max, INITIAL, steps)| <= a < b < |Commits(max, INITIAL, steps + more)|
    ensures p < q < |more| && more[p].Write? && more[q].Write?
    ensures var commits := Commits(max, INITIAL, steps + more); more[p].id == commits[a].id && more[q].id == commits[b].id
  {
    hide Commits;
    assert steps + [] == steps;
    var n := |more| - 1;
    OneMoreCommit(max, steps, more[..n], more[n]);
    assert more == more[..n] + [more[n]];
    if b < |Commits(max, INITIAL, steps + more[..n])| {
      p, q := CommitsFollowWrites(max, steps, more[..n], a, b);
    } else {
      p := CommitIsWrite(max, steps, more[..n], a);
      q := n;
    }
  }

  /** Where a run from the start ends and what it commits. */
  ghost predicate After(max: int, steps: seq<Step>, d: State, commits: seq<Commit>) {
    RunFrom(max, INITIAL, steps) == d && Commits(max, INITIAL, steps) == commits
  }

  lemma AfterMore(max: int, steps: seq<Step>, d: State, commits: seq<Commit>, step: Step)
    requires After(max, steps, d, commits)
    ensures After(max, steps + [step], Next(max, d, step), commits + CommitOf(d, step))
  {
    assert (steps + [step])[..|steps|] == steps;
  }

  /** One signature arrives, is delivered and committed with one new trade. */
  function CommittedSteps(news: nat, s: Signature): seq<Step> { [Notify(s, false, Added)] + [Deliver(0)] + [Write(0, [news])] }

  lemma CommittedOnce(s: Signature, news: nat)
    ensures After(3, CommittedSteps(news, s),
      State([Entry(s, 0)], [Written([news])], {s}, {}, {s}, {}), [Commit(0, s, [news])])
  {
    var d1 := State([Entry(s, 0)], [Waiting], {}, {}, {s}, {});
    var d2 := d1.(stages := [Held]);
    var d3 := d1.(stages := [Written([news])], persisted := {s});
    assert Next(3, INITIAL, Notify(s, false, Added)) == d1 && Next(3, d1, Deliver(0)) == d2;
    assert Next(3, d2, Write(0, [news])) == d3;
    assert After(3, [], INITIAL, []);
    AfterMore(3, [], INITIAL, [], Notify(s, false, Added));
    AfterMore(3, [Notify(s, false, Added)], d1, [], Deliver(0));
    AfterMore(3, [Notify(s, false, Added)] + [Deliver(0)], d2, [], Write(0, [news]));
    hide After, Next;
    assert [] + [Notify(s, false, Added)] == [Notify(s, false, Added)];
    assert [] + CommitOf(INITIAL, Notify(s, false, Added)) == [] && [] + CommitOf(d1, Deliver(0)) == [];
    assert [] + CommitOf(d2, Write(0, [news])) == [Commit(0, s, [news])];
  }

  /** The announcement fails; the entry is requeued, and the retry finds nothing new. */
  function RetriedSteps(news: nat, s: Signature): seq<Step> {
    CommittedSteps(news, s) + [FailPublish(0)] + [Requeue(0)] + [Ack(0)] + [Deliver(1)] + [Write(1, [])] + [Ack(1)]
  }

  /** Everything is stored and acknowledged, and the trade was never announced. */
  function Unannounced(s: Signature): State {
    State([Entry(s, 0), Entry(s, 1)], [Acked(Requeued(1)), Acked(Written([]))], {s}, {}, {s}, {})
  }

  lemma RetriedSilently(s: Signature, news: nat)
    ensures After(3, RetriedSteps(news, s), Unannounced(s), [Commit(0, s, [news]), Commit(1, s, [])])
  {
    CommittedOnce(s, news);
    FirstTry(s, news, CommittedSteps(news, s));
    hide After, CommittedSteps;
    SecondTry(s, [Commit(0, s, [news])], CommittedSteps(news, s) + [FailPublish(0)] + [Requeue(0)] + [Ack(0)]);
    assert [Commit(0, s, [news])] + [Commit(1, s, [])] == [Commit(0, s, [news]), Commit(1, s, [])];
  }

  lemma FirstTry(s: Signature, news: nat, u: seq<Step>)
    requires After(3, u, State([Entry(s, 0)], [Written([news])], {s}, {}, {s}, {}), [Commit(0, s, [news])])
    ensures After(3, u + [FailPublish(0)] + [Requeue(0)] + [Ack(0)],
      State([Entry(s, 0), Entry(s, 1)], [Acked(Requeued(1)), Waiting], {s}, {}, {s}, {}), [Commit(0, s, [news])])
  {
    var c := [Commit(0, s, [news])];
    var d3 := State([Entry(s, 0)], [Written([news])], {s}, {}, {s}, {});
    var d4 := d3.(stages := [Unpublished]);
    var d5 := State([Entry(s, 0), Entry(s, 1)], [Requeued(1), Waiting], {s}, {}, {s}, {});
    assert Next(3, d3, FailPublish(0)) == d4 && Next(3, d4, Requeue(0)) == d5;
    assert Next(3, d5, Ack(0)) == d5.(stages := [Acked(Requeued(1)), Waiting]);
    AfterMore(3, u, d3, c, FailPublish(0));
    AfterMore(3, u + [FailPublish(0)], d4, c, Requeue(0));
    AfterMore(3, u + [FailPublish(0)] + [Requeue(0)], d5, c, Ack(0));
    hide After, Next;
    assert c + [] == c;
  }

  lemma SecondTry(s: Signature, c: seq<Commit>, u: seq<Step>)
    requires After(3, u, State([Entry(s, 0), Entry(s, 1)], [Acked(Requeued(1)), Waiting], {s}, {}, {s}, {}), c)
    ensures After(3, u + [Deliver(1)] + [Write(1, [])] + [Ack(1)], Unannounced(s), c + [Commit(1, s, [])])
  {
    var d6 := State([Entry(s, 0), Entry(s, 1)], [Acked(Requeued(1)), Waiting], {s}, {}, {s}, {});
    var d7 := d6.(stages := [Acked(Requeued(1)), Held]);
    var d8 := d6.(stages := [Acked(Requeued(1)), Written([])]);
    assert Next(3, d6, Deliver(1)) == d7;
    assert Next(3, d7, Write(1, [])) == d8 by { assert {s} + {s} == {s}; }
    assert Next(3, d8, Ack(1)) == Unannounced(s);
    AfterMore(3, u, d6, c, Deliver(1));
    assert c + [] == c && CommitOf(d7, Write(1, [])) == [Commit(1, s, [])];
    AfterMore(3, u + [Deliver(1)], d7, c, Write(1, []));
    AfterMore(3, u + [Deliver(1)] + [Write(1, [])], d8, c + [Commit(1, s, [])], Ack(1));
    hide After, Next;
    assert c + [Commit(1, s, [])] + [] == c + [Commit(1, s, [])];
  }

  /** The writer dies between the commit and the announcement. */
  lemma DiedSilently(s: Signature, news: nat)
    ensures After(3, CommittedSteps(news, s) + [Abandon(0)],
      State([Entry(s, 0)], [Orphaned(Written([news]))], {s}, {}, {s}, {}), [Commit(0, s, [news])])
  {
    CommittedOnce(s, news);
    var d3 := State([Entry(s, 0)], [Written([news])], {s}, {}, {s}, {});
    AfterMore(3, CommittedSteps(news, s), d3, [Commit(0, s, [news])], Abandon(0));
    assert Next(3, d3, Abandon(0)).stages == [Orphaned(Written([news]))];
    hide After;
    assert [Commit(0, s, [news])] + CommitOf(d3, Abandon(0)) == [Commit(0, s, [news])];
  }

  // --- what a crash costs -------------------------------------------------

  /** Some entry for the signature can still be worked on. */
  ghost predicate Live(d: State, s: Signature) {
    exists id :: 0 <= id < |d.entries| && LiveEntry(d, id, s)
  }

  ghost predicate LiveEntry(d: State, id: int, s: Signature) {
    && 0 <= id < |d.entries| && id < |d.stages| && d.entries[id].signature == s
    && (d.stages[id].Waiting? || d.stages[id].Held? || d.stages[id].Written? || d.stages[id].Unpublished?)
  }

  lemma DeadStaysDead(max: int, d: State, step: Step, s: Signature)
    requires Inv(max, d) && !Live(d, s) && !(step.Notify? && step.signature == s)
    ensures !Live(Next(max, d, step), s)
    ensures s in Next(max, d, step).persisted <==> s in d.persisted
  {
    var e := Next(max, d, step);
    forall id | 0 <= id < |e.entries| ensures !LiveEntry(e, id, s) {
      if id < |d.entries| {
        assert !LiveEntry(d, id, s);
      } else if step.Requeue? {
        assert !LiveEntry(d, step.id, s);
      }
    }
    if step.Write? {
      assert Holds(d, step.id) ==> !LiveEntry(d, step.id, s);
    }
  }

  lemma {:induction false} DeadForever(max: int, d: State, steps: seq<Step>, s: Signature)
    requires Inv(max, d) && !Live(d, s)
    requires forall i :: 0 <= i < |steps| && steps[i].Notify? ==> steps[i].signature != s
    ensures Inv(max, RunFrom(max, d, steps)) && !Live(RunFrom(max, d, steps), s)
    ensures s in RunFrom(max, d, steps).persisted <==> s in d.persisted
  {
    if steps != [] {
      var front := steps[..|steps| - 1];
      DeadForever(max, d, front, s);
      NextKeepsInv(max, RunFrom(max, d, front), steps[|steps| - 1]);
      DeadStaysDead(max, RunFrom(max, d, front), steps[|steps| - 1], s);
    }
  }

  /** The steps of a run that does not notify s again. */
  ghost predicate WithoutNotice(steps: seq<Step>, s: Signature) {
    forall i :: 0 <= i < |steps| && steps[i].Notify? ==> steps[i].signature != s
  }

  /** The exact cost of a crash: without another notification, a signature that is not persisted can
      still become so if and only if some entry for it is waiting or in a living consumer's hands.
      Entries of a dead consumer do not help, although they stay un-acknowledged. */
  lemma RecoverableExactly(max: int, d: State, s: Signature)
    requires Inv(max, d) && s !in d.persisted
    ensures Live(d, s)
       <==> exists steps :: WithoutNotice(steps, s) && s in RunFrom(max, d, steps).persisted
  {
    if Live(d, s) {
      var id :| 0 <= id < |d.entries| && LiveEntry(d, id, s);
      assert EntryOk(max, d, id);
      var steps := [Deliver(id), Write(id, [])];
      assert steps[..1] == [Deliver(id)] && [Deliver(id)][..0] == [];
      assert RunFrom(max, d, []) == d;
      assert RunFrom(max, d, steps[..1]) == Next(max, d, Deliver(id));
      assert RunFrom(max, d, steps) == Next(max, Next(max, d, Deliver(id)), Write(id, []));
      assert WithoutNotice(steps, s) && s in RunFrom(max, d, steps).persisted;
    }
    if exists steps :: WithoutNotice(steps, s) && s in RunFrom(max, d, steps).persisted {
      var steps :| WithoutNotice(steps, s) && s in RunFrom(max, d, steps).persisted;
      if !Live(d, s) {
        DeadForever(max, d, steps, s);
      }
    }
  }

  /** The documentation promises that a crash never loses work because pending entries are reclaimed.
      They are not: after one delivery and one crash the signature is never written in any run. */
  lemma OrphanIsNeverWritten(max: int, s: Signature, steps: seq<Step>)
    requires WithoutNotice(steps, s)
    ensures var d := RunFrom(max, INITIAL, [Notify(s, false, Added), Deliver(0), Abandon(0)]);
      s !in RunFrom(max, d, steps).persisted
  {
    var start := [Notify(s, false, Added), Deliver(0), Abandon(0)];
    ReachableInv(max, start);
    var a, b := start[..1], start[..2];
    assert b[..1] == a && a[..0] == [] && b[1] == Deliver(0) && a[0] == Notify(s, false, Added);
    var d1 := State([Entry(s, 0)], [Waiting], {}, {}, {s}, {});
    assert RunFrom(max, INITIAL, a[..0]) == INITIAL;
    assert RunFrom(max, INITIAL, a) == Next(max, INITIAL, Notify(s, false, Added)) == d1;
    assert RunFrom(max, INITIAL, b) == Next(max, d1, Deliver(0)) == d1.(stages := [Held]);
    var d := RunFrom(max, INITIAL, start);
    assert d == d1.(stages := [Orphaned(Held)]);
    DeadForever(max, d, steps, s);
  }

  // --- the dedup claim ----------------------------------------------------

  /** Every claimed signature was put on a stream. */
  ghost predicate ClaimsAreQueued(d: State) {
    forall s :: s in d.claims ==> Queued(d, s)
  }

  /** The claim outlives a failed enqueue in exactly these cases: the listener died in between, the
      release failed too, or the notification was a priority one, whose branch has no release. */
  lemma ClaimLeaksExactly(d: State, s: Signature, priority: bool, end: EnqueueEnd)
    requires ClaimsAreQueued(d)
    ensures ClaimsAreQueued(Enqueue(d, s, priority, end))
       <==> (Queued(d, s) || end.Added? || (end.AddFailed? && end.released && !priority))
  {
    var e := Enqueue(d, s, priority, end);
    assert forall id :: 0 <= id < |d.entries| ==> e.entries[id] == d.entries[id];
    if end.Added? && e.entries != d.entries {
      assert e.entries[|d.entries|].signature == s;
    }
    if !Queued(d, s) {
      assert s !in d.claims;
    }
    forall t | t in e.claims && t != s ensures Queued(e, t) {
      assert t in d.claims;
      var id :| 0 <= id < |d.entries| && d.entries[id].signature == t;
      assert e.entries[id].signature == t;
    }
  }

  /** A priority notification whose add fails leaves a claim behind with nothing on any stream. */
  lemma PriorityClaimLeaks()
    ensures var d := RunFrom(3, INITIAL, [Notify("A", true, AddFailed(true))]);
      "A" in d.claims && d.entries == [] && !ClaimsAreQueued(d)
  {
    var steps := [Notify("A", true, AddFailed(true))];
    assert steps[..0] == [];
    assert RunFrom(3, INITIAL, steps) == Next(3, INITIAL, steps[0]);
    ClaimLeaksExactly(INITIAL, "A", true, AddFailed(true));
  }

  /** A notification takes the claim, whether or not it was taken already, unless its enqueue fails on the
      ordinary branch and is released. */
  predicate TakesClaim(step: Step, s: Signature) {
    step.Notify? && step.signature == s && (step.priority || step.end != AddFailed(true))
  }

  /** Step k takes the claim of the signature and no later step lets it expire. */
  ghost predicate ClaimedAt(steps: seq<Step>, s: Signature, k: int) {
    0 <= k < |steps| && TakesClaim(steps[k], s) && forall j :: k < j < |steps| ==> steps[j] != ClaimExpires(s)
  }

  ghost predicate Claimed(steps: seq<Step>, s: Signature) {
    exists k :: ClaimedAt(steps, s, k)
  }

  /** A claim is held exactly when some notification took it and it has not expired since. */
  lemma {:induction false} ClaimedExactly(max: int, steps: seq<Step>, s: Signature)
    ensures s in RunFrom(max, INITIAL, steps).claims <==> Claimed(steps, s)
  {
    if steps != [] {
      var n := |steps| - 1;
      ClaimedExactly(max, steps[..n], s);
      ClaimStep(max, RunFrom(max, INITIAL, steps[..n]), steps[n], s);
      hide Next, TakesClaim;
      assert RunFrom(max, INITIAL, steps) == Next(max, RunFrom(max, INITIAL, steps[..n]), steps[n]);
      hide RunFrom;
      if TakesClaim(steps[n], s) { assert ClaimedAt(steps, s, n); }
      if k :| ClaimedAt(steps[..n], s, k) && steps[n] != ClaimExpires(s) {
        forall j | k < j < |steps| ensures steps[j] != ClaimExpires(s) { assert j < n ==> steps[j] == steps[..n][j]; }
        assert ClaimedAt(steps, s, k);
      }
      if k :| ClaimedAt(steps, s, k) && k < n { assert ClaimedAt(steps[..n], s, k); }
    }
  }

  lemma ClaimStep(max: int, d: State, step: Step, s: Signature)
    ensures s in Next(max, d, step).claims <==> TakesClaim(step, s) || (s in d.claims && step != ClaimExpires(s))
  {
  }

  /** The entries of a signature that are no retries. */
  function Fresh(entries: seq<Entry>, s: Signature): nat {
    if entries == [] then 0
    else Fresh(entries[..|entries| - 1], s) + (if entries[|entries| - 1] == Entry(s, 0) then 1 else 0)
  }

  /** The notifications of a signature that were added: priority ones, and others that found no claim. */
  ghost function Admitted(steps: seq<Step>, s: Signature): nat {
    if steps == [] then 0
    else
      var front, last := steps[..|steps| - 1], steps[|steps| - 1];
      Admitted(front, s)
      + (if last.Notify? && last.signature == s && last.end.Added? && (last.priority || !Claimed(front, s)) then 1 else 0)
  }

  /** Deduplication, exactly: a signature is on the streams once for each priority notification and once
      for each other one that came while its claim was not held, as far as their adds succeeded; retries
      aside, nothing else puts it there. */
  lemma {:induction false} QueuedExactly(max: int, steps: seq<Step>, s: Signature)
    ensures Fresh(RunFrom(max, INITIAL, steps).entries, s) == Admitted(steps, s)
  {
    if steps != [] {
      var n := |steps| - 1;
      QueuedExactly(max, steps[..n], s);
      ClaimedExactly(max, steps[..n], s);
      var d := RunFrom(max, INITIAL, steps[..n]);
      hide RunFrom, Claimed;
      QueueStep(max, d, steps[n], s);
    }
  }

  lemma QueueStep(max: int, d: State, step: Step, s: Signature)
    ensures Fresh(Next(max, d, step).entries, s) == Fresh(d.entries, s)
      + (if step.Notify? && step.signature == s && step.end.Added? && (step.priority || s !in d.claims) then 1 else 0)
  {
    var e := Next(max, d, step);
    if |e.entries| == |d.entries| + 1 {
      assert e.entries[..|d.entries|] == d.entries;
    } else {
      assert e.entries == d.entries;
    }
  }

  // --- the writer's batch loop --------------------------------------------

  /** How storing one message ends: it is committed with its new trades, of which the announcement of
      the one numbered `published` fails if there is one, or it is not committed. */
  datatype StoreResult = Committed(news: seq<nat>, published: nat) | NotStored

  /** One delivered message after the concurrent fetch: its slot, and how storing it will end. */
  datatype Fetched = Fetched(id: nat, slot: int, signature: Signature, result: StoreResult)

  /** Slot first, signature as the tie-break. */
  predicate SlotOrder(a: Fetched, b: Fetched) {
    a.slot < b.slot || (a.slot == b.slot && TextLe(a.signature, b.signature))
  }

  lemma SlotOrderIsPreorder()
    ensures TotalPreorder(SlotOrder)
  {
    forall a, b ensures SlotOrder(a, b) || SlotOrder(b, a) {
      TextTotal(a.signature, b.signature);
    }
    forall a, b, c | SlotOrder(a, b) && SlotOrder(b, c) ensures SlotOrder(a, c) {
      if a.slot == b.slot == c.slot { TextTransitive(a.signature, b.signature, c.signature); }
    }
  }

  /** Two different messages of a batch carry the same signature of the same slot. */
  ghost predicate Twins(batch: seq<Fetched>) {
    exists a, b :: a in batch && b in batch && a != b && a.slot == b.slot && a.signature == b.signature
  }

  /** A batch is stored in the same order, however the stream delivered its messages, if and only if no
      two different messages of it carry the same signature of the same slot. */
  lemma StoringOrderIsFixedExactly(batch: seq<Fetched>)
    ensures !Twins(batch)
      <==> forall other :: multiset(other) == multiset(batch) ==> Sort(SlotOrder, other) == Sort(SlotOrder, batch)
  {
    SlotOrderIsPreorder();
    SortIgnoresOrderExactly(SlotOrder, batch);
    forall a, b | SlotOrder(a, b) && SlotOrder(b, a) ensures a.slot == b.slot && a.signature == b.signature {
      TextAntisymmetric(a.signature, b.signature);
    }
    forall a: Fetched, b: Fetched | a.slot == b.slot && a.signature == b.signature ensures SlotOrder(a, b) && SlotOrder(b, a) {
      TextTotal(a.signature, b.signature);
    }
    hide SlotOrder, Sort;
  }

  /** The message is committed and all its new trades are announced. */
  predicate Succeeds(item: Fetched) {
    item.result.Committed? && item.result.published >= |item.result.news|
  }

  /** The steps of storing a message, if it is stored. */
  function StoreSteps(item: Fetched): seq<Step> {
    match item.result
    case Committed(news, n) =>
      if n < |news| then [Write(item.id, news)] + Publishes(item.id, n) + [FailPublish(item.id)]
      else [Write(item.id, news)] + Publishes(item.id, |news|) + [Ack(item.id)]
    case NotStored => []
  }

  /** The effect of storing one message. */
  function AfterStore(d: State, item: Fetched): State
    requires Holds(d, item.id)
  {
    match item.result
    case Committed(news, n) =>
      var signature := d.entries[item.id].signature;
      WithStage(d, item.id, if n < |news| then Unpublished else Acked(Written([]))).(
        persisted := d.persisted + {signature},
        announced := d.announced + Trades(signature, if n < |news| then news[..n] else news))
    case NotStored => d
  }

  lemma RunOfStore(max: int, d: State, steps: seq<Step>, item: Fetched)
    requires var e := RunFrom(max, d, steps); |e.entries| == |e.stages| && Holds(e, item.id)
    ensures RunFrom(max, d, steps + StoreSteps(item)) == AfterStore(RunFrom(max, d, steps), item)
  {
    var e := RunFrom(max, d, steps);
    RunSplits(max, d, steps, StoreSteps(item));
    hide RunFrom;
    if item.result.Committed? {
      var id, news := item.id, item.result.news;
      if item.result.published < |news| {
        CommitRun(max, e, id, news, item.result.published, FailPublish(id));
      } else {
        CommitRun(max, e, id, news, |news|, Ack(id));
      }
    } else {
      RunOfNothing(max, e);
    }
  }

  /** A commit, n announcements, and a failing one or the acknowledgement. */
  lemma CommitRun(max: int, e: State, id: nat, news: seq<nat>, n: nat, last: Step)
    requires |e.entries| == |e.stages| && Holds(e, id) && n <= |news|
    requires last == if n < |news| then FailPublish(id) else Ack(id)
    ensures RunFrom(max, e, [Write(id, news)] + Publishes(id, n) + [last])
      == WithStage(e, id, if n < |news| then Unpublished else Acked(Written([]))).(
           persisted := e.persisted + {e.entries[id].signature},
           announced := e.announced + Trades(e.entries[id].signature, if n < |news| then news[..n] else news))
  {
    var written := Next(max, e, Write(id, news));
    var published := RunFrom(max, written, Publishes(id, n));
    PublishRun(max, written, id, n);
    assert published.stages[id] == Written(news[n..]);
    assert n == |news| ==> news[..n] == news && news[n..] == [];
    assert Next(max, published, last).stages == e.stages[id := if n < |news| then Unpublished else Acked(Written([]))];
    RunOfOne(max, e, Write(id, news));
    RunOfOne(max, published, last);
    hide Trades;
    assert [Write(id, news)] + Publishes(id, n) + [last] == [Write(id, news)] + (Publishes(id, n) + [last]);
    RunSplits(max, e, [Write(id, news)], Publishes(id, n) + [last]);
    RunSplits(max, written, Publishes(id, n), [last]);
    hide RunFrom;
  }

  lemma RunOfOne(max: int, d: State, step: Step)
    ensures RunFrom(max, d, [step]) == Next(max, d, step)
  {
    assert [step][..0] == [];
    assert RunFrom(max, d, [step][..0]) == d;
  }

  lemma RunOfNothing(max: int, d: State)
    ensures RunFrom(max, d, []) == d
  {
  }

  /** The steps of the sequential phase, in order. */
  function WriteSteps(batch: seq<Fetched>): seq<Step> {
    if batch == [] then [] else WriteSteps(batch[..|batch| - 1]) + StoreSteps(batch[|batch| - 1])
  }

  lemma WriteStepsOfOneMore(batch: seq<Fetched>, k: nat)
    requires k < |batch|
    ensures WriteSteps(batch[..k + 1]) == WriteSteps(batch[..k]) + StoreSteps(batch[k])
    ensures Retries(batch[..k + 1]) == Retries(batch[..k]) + (if Succeeds(batch[k]) then [] else [batch[k].id])
  {
    assert batch[..k + 1][..k] == batch[..k];
  }

  /** In the middle of the sequential phase: the retries so far and the messages from k on are all in
      this consumer's hands, each once. */
  ghost predicate Storing(d: State, batch: seq<Fetched>, k: nat, retries: seq<nat>) {
    && |d.entries| == |d.stages| && k <= |batch|
    && (forall j :: k <= j < |batch| ==> Holds(d, batch[j].id))
    && (forall i, j :: k <= i < j < |batch| ==> batch[i].id != batch[j].id)
    && (forall i :: 0 <= i < |retries| ==> Retryable(d, retries[i]))
    && (forall i, j :: 0 <= i < j < |retries| ==> retries[i] != retries[j])
    && (forall i, j :: 0 <= i < |retries| && k <= j < |batch| ==> retries[i] != batch[j].id)
  }

  lemma StorageKeeps(d: State, batch: seq<Fetched>, k: nat, retries: seq<nat>)
    requires k < |batch| && Storing(d, batch, k, retries)
    ensures Storing(AfterStore(d, batch[k]), batch, k + 1, if Succeeds(batch[k]) then retries else retries + [batch[k].id])
  {
    var e := AfterStore(d, batch[k]);
    assert |e.entries| == |d.entries| && |e.stages| == |d.stages|;
    assert forall id :: 0 <= id < |d.stages| && id != batch[k].id ==> e.stages[id] == d.stages[id];
    assert !Succeeds(batch[k]) ==> Retryable(e, batch[k].id);
    hide AfterStore, Succeeds;
  }

  lemma RetryKeeps(max: int, d: State, retries: seq<nat>)
    requires retries != [] && Storing(d, [], 0, retries)
    ensures var id := retries[0];
      Storing(Next(max, Next(max, Next(max, d, Requeue(id)), GiveUp(id)), Ack(id)), [], 0, retries[1..])
  {
    var id := retries[0];
    var e := Next(max, Next(max, Next(max, d, Requeue(id)), GiveUp(id)), Ack(id));
    assert |e.entries| == |e.stages| >= |d.stages|;
    assert forall k :: 0 <= k < |d.stages| && k != id ==> e.stages[k] == d.stages[k];
  }

  function Retries(batch: seq<Fetched>): seq<nat> {
    if batch == [] then []
    else
      var last := batch[|batch| - 1];
      Retries(batch[..|batch| - 1]) + (if Succeeds(last) then [] else [last.id])
  }

  /** Re-add before acknowledging, or drop; only one of the two first steps is enabled. */
  function RetrySteps(retries: seq<nat>): seq<Step> {
    if retries == [] then []
    else
      var last := retries[|retries| - 1];
      RetrySteps(retries[..|retries| - 1]) + [Requeue(last), GiveUp(last), Ack(last)]
  }

  /** The whole protocol trace of one batch. */
  function BatchSteps(batch: seq<Fetched>): seq<Step> {
    var ordered := Sort(SlotOrder, batch);
    WriteSteps(ordered) + RetrySteps(Retries(ordered))
  }

  lemma StoreStepsWriteOnce(item: Fetched, p: nat)
    requires p < |StoreSteps(item)| && StoreSteps(item)[p].Write?
    ensures p == 0 && StoreSteps(item)[p].id == item.id
  {
  }

  /** A write of the sequential phase is that of a message of the batch. */
  lemma {:induction false} WriteIsOfBatch(batch: seq<Fetched>, p: nat) returns (i: nat)
    requires p < |WriteSteps(batch)| && WriteSteps(batch)[p].Write?
    ensures i < |batch| && batch[i].id == WriteSteps(batch)[p].id
  {
    var n := |batch| - 1;
    if p < |WriteSteps(batch[..n])| {
      i := WriteIsOfBatch(batch[..n], p);
    } else {
      StoreStepsWriteOnce(batch[n], p - |WriteSteps(batch[..n])|);
      i := n;
    }
  }

  /** Of two writes the earlier is that of the earlier message. */
  lemma {:induction false} WritesFollowTheBatch(batch: seq<Fetched>, p: nat, q: nat) returns (i: nat, j: nat)
    requires p < q < |WriteSteps(batch)| && WriteSteps(batch)[p].Write? && WriteSteps(batch)[q].Write?
    ensures i < j < |batch| && batch[i].id == WriteSteps(batch)[p].id && batch[j].id == WriteSteps(batch)[q].id
  {
    var n := |batch| - 1;
    var front := |WriteSteps(batch[..n])|;
    if q < front {
      i, j := WritesFollowTheBatch(batch[..n], p, q);
    } else {
      StoreStepsWriteOnce(batch[n], q - front);
      i := WriteIsOfBatch(batch[..n], p);
      j := n;
    }
  }

  lemma {:induction false} RetriesDoNotWrite(retries: seq<nat>, p: nat)
    requires p < |RetrySteps(retries)|
    ensures !RetrySteps(retries)[p].Write?
  {
    if p < |RetrySteps(retries[..|retries| - 1])| { RetriesDoNotWrite(retries[..|retries| - 1], p); }
  }

  ghost predicate DistinctIds(batch: seq<Fetched>) {
    forall i, j :: 0 <= i < j < |batch| ==> batch[i].id != batch[j].id
  }

  /** A batch is written oldest slot first, signatures breaking ties: whatever order it was delivered in,
      of two messages written the earlier has the smaller slot, or the same slot and not the greater
      signature. */
  lemma WritesGoUpInSlots(batch: seq<Fetched>, p: nat, q: nat, x: Fetched, y: Fetched)
    requires DistinctIds(batch) && x in batch && y in batch && p < q < |BatchSteps(batch)|
    requires BatchSteps(batch)[p].Write? && BatchSteps(batch)[p].id == x.id
    requires BatchSteps(batch)[q].Write? && BatchSteps(batch)[q].id == y.id
    ensures x.slot < y.slot || (x.slot == y.slot && TextLe(x.signature, y.signature))
  {
    var ordered := Sort(SlotOrder, batch);
    WriteIsStored(batch, p);
    WriteIsStored(batch, q);
    hide BatchSteps, WriteSteps, Sort, TextLe;
    var i, j := WritesFollowTheBatch(ordered, p, q);
    StoredInSlotOrder(batch, i, j);
    SameId(batch, ordered[i], x);
    SameId(batch, ordered[j], y);
  }

  /** Only the sequential phase of a batch writes. */
  lemma WriteIsStored(batch: seq<Fetched>, p: nat)
    requires p < |BatchSteps(batch)| && BatchSteps(batch)[p].Write?
    ensures var writes := WriteSteps(Sort(SlotOrder, batch)); p < |writes| && writes[p] == BatchSteps(batch)[p]
  {
    var ordered := Sort(SlotOrder, batch);
    hide Sort, WriteSteps, RetrySteps, Retries;
    if p >= |WriteSteps(ordered)| { RetriesDoNotWrite(Retries(ordered), p - |WriteSteps(ordered)|); }
  }

  lemma StoredInSlotOrder(batch: seq<Fetched>, i: nat, j: nat)
    requires DistinctIds(batch)
    ensures var ordered := Sort(SlotOrder, batch);
      i < j < |ordered| ==>
        && ordered[i] in batch && ordered[j] in batch
        && (ordered[i].slot < ordered[j].slot
            || (ordered[i].slot == ordered[j].slot && TextLe(ordered[i].signature, ordered[j].signature)))
  {
    SortDistinct(batch);
    hide Sort, TextLe;
    var ordered := Sort(SlotOrder, batch);
    if i < j < |ordered| { assert SlotOrder(ordered[i], ordered[j]); }
  }

  lemma SameId(batch: seq<Fetched>, x: Fetched, y: Fetched)
    requires DistinctIds(batch) && x in batch && y in batch && x.id == y.id
    ensures x == y
  {
    var i :| 0 <= i < |batch| && batch[i] == x;
    var j :| 0 <= j < |batch| && batch[j] == y;
  }

  lemma RunOfThree(max: int, d: State, steps: seq<Step>, a: Step, b: Step, c: Step)
    ensures RunFrom(max, d, steps + [a, b, c]) == Next(max, Next(max, Next(max, RunFrom(max, d, steps), a), b), c)
  {
    RunOneMore(max, d, steps, a);
    RunOneMore(max, d, steps + [a], b);
    RunOneMore(max, d, steps + [a] + [b], c);
    hide Next, RunFrom;
    assert steps + [a, b, c] == steps + [a] + [b] + [c];
  }

  class IngestWriter {
    const maxAttempts: int
    var entries: seq<Entry>
    var stages: seq<Stage>
    var persisted: set<Signature>
    var dropped: set<Signature>
    var announced: set<Trade>
    ghost const claims: set<Signature>

    ghost function Abstract(): State
      reads this
    {
      State(entries, stages, persisted, dropped, claims, announced)
    }

    /** The writer joins streams that may already hold entries. */
    constructor (maxAttempts: int, d: State)
      ensures this.maxAttempts == maxAttempts && Abstract() == d
    {
      this.maxAttempts := maxAttempts;
      entries, stages, persisted, dropped := d.entries, d.stages, d.persisted, d.dropped;
      claims, announced := d.claims, d.announced;
    }

    /** The messages of a batch are in this consumer's hands, each once. */
    ghost predicate HoldsBatch(batch: seq<Fetched>)
      reads this
    {
      Storing(Abstract(), batch, 0, [])
    }

    /** Store one transaction, announce its new trades one by one and acknowledge its entry; true when
        acknowledged.  A failing commit or announcement leaves the entry to be retried. */
    method PersistAndAck(item: Fetched) returns (acked: bool)
      requires Holds(Abstract(), item.id)
      modifies this
      ensures acked <==> Succeeds(item)
      ensures Abstract() == AfterStore(old(Abstract()), item)
    {
      if item.result.NotStored? {
        return false;
      }
      var signature, news := entries[item.id].signature, item.result.news;
      persisted := persisted + {signature};
      stages := stages[item.id := Written(news)];
      var k := 0;
      assert announced + Trades(signature, news[..0]) == announced && news[0..] == news;
      while k < |news|
        invariant 0 <= k <= |news| && k <= item.result.published
        invariant |stages| == |old(stages)| && stages == old(stages)[item.id := Written(news[k..])]
        invariant announced == old(announced) + Trades(signature, news[..k])
        invariant persisted == old(persisted) + {signature} && entries == old(entries) && dropped == old(dropped)
      {
        if k == item.result.published {
          stages := stages[item.id := Unpublished];
          return false;
        }
        TradesMore(signature, news, k);
        announced := announced + {Trade(signature, news[k])};
        k := k + 1;
        stages := stages[item.id := Written(news[k..])];
      }
      assert news[..k] == news && news[k..] == [];
      stages := stages[item.id := Acked(Written([]))];
      return true;
    }

    /** Re-add the entry with its attempt count raised and only then acknowledge it, or drop it at
        the last attempt. */
    method RequeueOrDrop(id: nat)
      requires Retryable(Abstract(), id) && |entries| == |stages|
      modifies this
      ensures Abstract()
           == Next(maxAttempts, Next(maxAttempts, Next(maxAttempts, old(Abstract()), Requeue(id)), GiveUp(id)), Ack(id))
      ensures persisted == old(persisted) && announced == old(announced)
      ensures old(entries)[id].attempts + 1 >= maxAttempts ==>
        && entries == old(entries) && dropped == old(dropped) + {old(entries)[id].signature}
        && stages == old(stages)[id := Acked(GivenUp)]
      ensures old(entries)[id].attempts + 1 < maxAttempts ==>
        && entries == old(entries) + [Entry(old(entries)[id].signature, old(entries)[id].attempts + 1)]
        && dropped == old(dropped)
        && stages == old(stages)[id := Acked(Requeued(|old(entries)|))] + [Waiting]
    {
      var attempts := entries[id].attempts;
      if attempts + 1 >= maxAttempts {
        dropped := dropped + {entries[id].signature};
        stages := stages[id := GivenUp];
        stages := stages[id := Acked(GivenUp)];
        return;
      }
      var child := |entries|;
      entries := entries + [entries[id].(attempts := attempts + 1)];
      stages := stages[id := Requeued(child)] + [Waiting];
      stages := stages[id := Acked(Requeued(child))];
    }

    /** Sequential phase: store the fetched messages in the order given; the rest are retries. */
    method StoreInOrder(ordered: seq<Fetched>) returns (retries: seq<nat>)
      requires HoldsBatch(ordered)
      modifies this
      ensures Abstract() == RunFrom(maxAttempts, old(Abstract()), WriteSteps(ordered))
      ensures retries == Retries(ordered)
      ensures HoldsIds(retries)
    {
      hide RunFrom, AfterStore, StoreSteps, Succeeds;
      ghost var start := Abstract();
      retries := [];
      var k := 0;
      assert RunFrom(maxAttempts, start, []) == start by { RunOfNothing(maxAttempts, start); }
      while k < |ordered|
        invariant 0 <= k <= |ordered|
        invariant Abstract() == RunFrom(maxAttempts, start, WriteSteps(ordered[..k]))
        invariant retries == Retries(ordered[..k])
        invariant Storing(Abstract(), ordered, k, retries)
      {
        var item := ordered[k];
        WriteStepsOfOneMore(ordered, k);
        RunOfStore(maxAttempts, start, WriteSteps(ordered[..k]), item);
        StorageKeeps(Abstract(), ordered, k, retries);
        var acked := PersistAndAck(item);
        if !acked {
          retries := retries + [item.id];
        }
        k := k + 1;
      }
      assert ordered[..k] == ordered;
    }

    ghost predicate HoldsIds(ids: seq<nat>)
      reads this
    {
      Storing(Abstract(), [], 0, ids)
    }

    /** Concurrent phase: requeue or drop what was not stored. */
    method RequeueAll(retries: seq<nat>)
      requires HoldsIds(retries)
      modifies this
      ensures Abstract() == RunFrom(maxAttempts, old(Abstract()), RetrySteps(retries))
    {
      ghost var start := Abstract();
      var r := 0;
      while r < |retries|
        invariant 0 <= r <= |retries|
        invariant Abstract() == RunFrom(maxAttempts, start, RetrySteps(retries[..r]))
        invariant Storing(Abstract(), [], 0, retries[r..])
      {
        var id := retries[r];
        assert id == retries[r..][0] && retries[r + 1..] == retries[r..][1..];
        assert retries[..r + 1][..r] == retries[..r];
        RunOfThree(maxAttempts, start, RetrySteps(retries[..r]), Requeue(id), GiveUp(id), Ack(id));
        RetryKeeps(maxAttempts, Abstract(), retries[r..]);
        RequeueOrDrop(id);
        r := r + 1;
      }
      assert retries[..r] == retries;
    }

    /** One round of the consumer loop: store in slot order, then requeue what was not stored.  Its
        effect is exactly a run of the protocol, so every protocol theorem covers it. */
    method ProcessBatch(batch: seq<Fetched>)
      requires HoldsBatch(batch)
      modifies this
      ensures Abstract() == RunFrom(maxAttempts, old(Abstract()), BatchSteps(batch))
    {
      var ordered := Sort(SlotOrder, batch);
      SortDistinct(batch);
      ghost var start := Abstract();
      var retries := StoreInOrder(ordered);
      RequeueAll(retries);
      RunSplits(maxAttempts, start, WriteSteps(ordered), RetrySteps(retries));
    }
  }

  /** Sorting keeps the ids of a batch distinct and drawn from the batch, and puts it in slot order. */
  lemma SortDistinct(batch: seq<Fetched>)
    requires forall i, j :: 0 <= i < j < |batch| ==> batch[i].id != batch[j].id
    ensures var ordered := Sort(SlotOrder, batch);
      && Sorted(SlotOrder, ordered)
      && |ordered| == |batch|
      && (forall i :: 0 <= i < |ordered| ==> ordered[i] in batch)
      && (forall i, j :: 0 <= i < j < |ordered| ==> ordered[i].id != ordered[j].id)
  {
    SlotOrderIsPreorder();
    SortSorts(SlotOrder, batch);
    var ordered := Sort(SlotOrder, batch);
    forall i | 0 <= i < |ordered| ensures ordered[i] in batch {
      SortKeeps(SlotOrder, batch, ordered[i]);
    }
    forall i, j | 0 <= i < j < |ordered| ensures ordered[i].id != ordered[j].id {
      StillDistinct(batch, ordered, i, j);
    }
  }

  lemma StillDistinct(batch: seq<Fetched>, ordered: seq<Fetched>, i: nat, j: nat)
    requires forall i, j :: 0 <= i < j < |batch| ==> batch[i].id != batch[j].id
    requires multiset(ordered) == multiset(batch) && i < j < |ordered|
    requires ordered[i] in batch && ordered[j] in batch
    ensures ordered[i].id != ordered[j].id
  {
    if ordered[i].id == ordered[j].id {
      TwiceCounts(ordered, i, j);
      OnceEach(batch, ordered[i]);
    }
  }

  lemma {:induction false} OnceEach(batch: seq<Fetched>, x: Fetched)
    requires forall i, j :: 0 <= i < j < |batch| ==> batch[i].id != batch[j].id
    ensures multiset(batch)[x] <= 1
  {
    if batch != [] {
      var n := |batch| - 1;
      OnceEach(batch[..n], x);
      assert batch == batch[..n] + [batch[n]];
      if x in batch[..n] { assert x != batch[n]; } else { assert multiset(batch[..n])[x] == 0; }
    }
  }

  lemma TwiceCounts<T>(s: seq<T>, i: nat, j: nat)
    requires i < j < |s| && s[i] == s[j]
    ensures multiset(s)[s[i]] >= 2
  {
    assert s == s[..j] + [s[j]] + s[j + 1..];
    assert s[i] in s[..j];
    assert multiset(s) == multiset(s[..j]) + multiset{s[j]} + multiset(s[j + 1..]);
  }

  // --- what a batch leaves behind -------------------------------------------

  /** A message that was not stored, or not announced in full, after its batch: given up at the last
      attempt, and otherwise followed on the stream by an entry with one attempt more. */
  ghost predicate Retried(max: int, e: State, id: nat, entry: Entry) {
    && id < |e.stages| && |e.entries| == |e.stages| && e.stages[id].Acked?
    && if entry.attempts + 1 >= max then e.stages[id].after == GivenUp && entry.signature in e.dropped
       else
         && e.stages[id].after.Requeued?
         && var child := e.stages[id].after.child;
            child < |e.entries| && e.entries[child] == Entry(entry.signature, entry.attempts + 1) && e.stages[child] == Waiting
  }

  /** What is stored and announced for a message: nothing unless its commit succeeds, and then its trades
      up to the one whose announcement fails. */
  ghost predicate Recorded(e: State, x: Fetched, signature: Signature) {
    x.result.Committed? ==>
      && signature in e.persisted
      && forall k :: 0 <= k < |x.result.news| && k < x.result.published ==> Trade(signature, x.result.news[k]) in e.announced
  }

  ghost predicate BatchSettled(max: int, e: State, x: Fetched, entry: Entry) {
    && x.id < |e.stages|
    && Recorded(e, x, entry.signature)
    && if x.result.Committed? && x.result.published >= |x.result.news| then e.stages[x.id] == Acked(Written([]))
       else Retried(max, e, x.id, entry)
  }

  /** The message in the middle of the sequential phase. */
  ghost predicate Stored(d: State, x: Fetched, entry: Entry) {
    && x.id < |d.stages| && Recorded(d, x, entry.signature)
    && (Succeeds(x) ==> d.stages[x.id] == Acked(Written([])))
  }

  lemma StoreSettles(d: State, x: Fetched)
    requires |d.entries| == |d.stages| && Holds(d, x.id)
    ensures AfterStore(d, x).entries == d.entries && Stored(AfterStore(d, x), x, d.entries[x.id])
  {
  }

  lemma StoreKeepsStored(d: State, x: Fetched, y: Fetched, entry: Entry)
    requires |d.entries| == |d.stages| && Holds(d, x.id) && x.id != y.id && Stored(d, y, entry)
    ensures Stored(AfterStore(d, x), y, entry)
  {
    hide Trades;
  }

  /** The sequential phase up to message k. */
  lemma {:induction false} WritesSettle(max: int, d: State, ordered: seq<Fetched>, k: nat)
    requires Storing(d, ordered, 0, []) && k <= |ordered|
    ensures var e := RunFrom(max, d, WriteSteps(ordered[..k]));
      && e.entries == d.entries && Storing(e, ordered, k, Retries(ordered[..k]))
      && forall i :: 0 <= i < k ==> Stored(e, ordered[i], d.entries[ordered[i].id])
  {
    if k == 0 {
      assert ordered[..0] == [];
      RunOfNothing(max, d);
    } else {
      var n := k - 1;
      WritesSettle(max, d, ordered, n);
      var before := RunFrom(max, d, WriteSteps(ordered[..n]));
      WriteStepsOfOneMore(ordered, n);
      RunOfStore(max, d, WriteSteps(ordered[..n]), ordered[n]);
      NextStoreSettles(d, before, ordered, n, Retries(ordered[..n]));
      hide RunFrom, AfterStore, Stored, Retries, WriteSteps, Succeeds;
    }
  }

  lemma NextStoreSettles(d: State, before: State, ordered: seq<Fetched>, n: nat, retries: seq<nat>)
    requires Storing(d, ordered, 0, []) && n < |ordered|
    requires before.entries == d.entries && Storing(before, ordered, n, retries)
    requires forall i :: 0 <= i < n ==> Stored(before, ordered[i], d.entries[ordered[i].id])
    ensures var e := AfterStore(before, ordered[n]);
      && e.entries == d.entries
      && Storing(e, ordered, n + 1, retries + (if Succeeds(ordered[n]) then [] else [ordered[n].id]))
      && forall i :: 0 <= i < n + 1 ==> Stored(e, ordered[i], d.entries[ordered[i].id])
  {
    var x := ordered[n];
    assert retries + [] == retries;
    StorageKeeps(before, ordered, n, retries);
    StoreSettles(before, x);
    hide AfterStore, Stored, Succeeds;
    forall i | 0 <= i < n ensures Stored(AfterStore(before, x), ordered[i], d.entries[ordered[i].id]) {
      StoreKeepsStored(before, x, ordered[i], d.entries[ordered[i].id]);
    }
  }

  /** Requeue, drop and acknowledge as one step. */
  function AfterRetry(max: int, d: State, id: nat): State {
    Next(max, Next(max, Next(max, d, Requeue(id)), GiveUp(id)), Ack(id))
  }

  /** Everything but the retried entry stays. */
  ghost predicate RetryLeaves(d: State, e: State, ids: seq<nat>) {
    && |e.entries| == |e.stages| && d.entries <= e.entries
    && e.persisted == d.persisted && e.announced == d.announced && d.dropped <= e.dropped
    && forall k :: 0 <= k < |d.stages| && k !in ids ==> k < |e.stages| && e.stages[k] == d.stages[k]
  }

  lemma RetrySettles(max: int, d: State, id: nat)
    requires |d.entries| == |d.stages| && Retryable(d, id)
    ensures var e := AfterRetry(max, d, id);
      Retried(max, e, id, d.entries[id]) && RetryLeaves(d, e, [id])
  {
  }

  lemma RetriedStays(max: int, d: State, e: State, id: nat, other: nat, entry: Entry)
    requires |d.entries| == |d.stages| && Retryable(d, other) && other != id
    requires Retried(max, d, id, entry) && RetryLeaves(d, e, [other])
    ensures Retried(max, e, id, entry)
  {
  }

  /** The concurrent phase up to retry k. */
  lemma {:induction false} RetriesSettle(max: int, d: State, retries: seq<nat>, k: nat)
    requires Storing(d, [], 0, retries) && k <= |retries|
    ensures var e := RunFrom(max, d, RetrySteps(retries[..k]));
      && RetryLeaves(d, e, retries[..k]) && Storing(e, [], 0, retries[k..])
      && forall i :: 0 <= i < k ==> Retried(max, e, retries[i], d.entries[retries[i]])
  {
    if k == 0 {
      assert retries[..0] == [] && retries[0..] == retries;
      RunOfNothing(max, d);
    } else {
      var n, id := k - 1, retries[k - 1];
      RetriesSettle(max, d, retries, n);
      assert retries[..k][..n] == retries[..n];
      RunOfThree(max, d, RetrySteps(retries[..n]), Requeue(id), GiveUp(id), Ack(id));
      NextRetrySettles(max, d, RunFrom(max, d, RetrySteps(retries[..n])), retries, n);
      hide RunFrom, Next, Retried, RetrySteps, RetryLeaves, Storing;
    }
  }

  lemma NextRetrySettles(max: int, d: State, before: State, retries: seq<nat>, n: nat)
    requires Storing(d, [], 0, retries) && n < |retries|
    requires RetryLeaves(d, before, retries[..n]) && Storing(before, [], 0, retries[n..])
    requires forall i :: 0 <= i < n ==> Retried(max, before, retries[i], d.entries[retries[i]])
    ensures var e := AfterRetry(max, before, retries[n]);
      && RetryLeaves(d, e, retries[..n + 1]) && Storing(e, [], 0, retries[n + 1..])
      && forall i :: 0 <= i < n + 1 ==> Retried(max, e, retries[i], d.entries[retries[i]])
  {
    var id := retries[n];
    assert id == retries[n..][0] && retries[n + 1..] == retries[n..][1..] && retries[..n + 1] == retries[..n] + [id];
    RetryKeeps(max, before, retries[n..]);
    assert Retryable(before, id);
    RetrySettles(max, before, id);
    assert before.entries[id] == d.entries[id];
    hide Next, Retried;
    forall i | 0 <= i < n ensures Retried(max, AfterRetry(max, before, id), retries[i], d.entries[retries[i]]) {
      RetriedStays(max, before, AfterRetry(max, before, id), retries[i], id, d.entries[retries[i]]);
    }
    hide AfterRetry, Storing;
    LeavesTransitive(d, before, AfterRetry(max, before, id), retries[..n], [id]);
  }

  lemma LeavesTransitive(d: State, before: State, e: State, a: seq<nat>, b: seq<nat>)
    requires |d.entries| == |d.stages| && RetryLeaves(d, before, a) && RetryLeaves(before, e, b)
    ensures RetryLeaves(d, e, a + b)
  {
  }

  lemma {:induction false} RetriesAre(batch: seq<Fetched>, id: nat)
    ensures id in Retries(batch) <==> exists i :: 0 <= i < |batch| && batch[i].id == id && !Succeeds(batch[i])
  {
    if batch != [] {
      var n := |batch| - 1;
      RetriesAre(batch[..n], id);
      assert batch == batch[..n] + [batch[n]];
    }
  }

  lemma SortedIsHeld(d: State, batch: seq<Fetched>, x: Fetched)
    requires Storing(d, batch, 0, []) && x in batch
    ensures Storing(d, Sort(SlotOrder, batch), 0, []) && x in Sort(SlotOrder, batch)
  {
    SortDistinct(batch);
    SlotOrderIsPreorder();
    SortKeeps(SlotOrder, batch, x);
    hide Sort;
  }

  lemma OrderedSettles(max: int, d: State, ordered: seq<Fetched>, x: Fetched)
    requires Storing(d, ordered, 0, []) && x in ordered
    ensures var e := RunFrom(max, RunFrom(max, d, WriteSteps(ordered)), RetrySteps(Retries(ordered)));
      BatchSettled(max, e, x, d.entries[x.id])
  {
    var retries := Retries(ordered);
    var i :| 0 <= i < |ordered| && ordered[i] == x;
    assert ordered[..|ordered|] == ordered && retries[..|retries|] == retries;
    var mid := RunFrom(max, d, WriteSteps(ordered));
    hide RunFrom, WriteSteps, RetrySteps, Retried, Retries, Stored, RetryLeaves, BatchSettled, Succeeds;
    WritesSettle(max, d, ordered, |ordered|);
    EmptyBatch(mid, ordered, retries);
    RetriesSettle(max, mid, retries, |retries|);
    RetriesAre(ordered, x.id);
    if !Succeeds(x) {
      assert x.id in retries;
      var r :| 0 <= r < |retries| && retries[r] == x.id;
    }
    SettledFrom(max, mid, RunFrom(max, mid, RetrySteps(retries)), x, d.entries[x.id], retries);
  }

  /** What one round of the consumer loop leaves behind, message by message: the stored ones are
      persisted and announced as far as that succeeds, the finished ones acknowledged, and every other one
      is back on its stream with one attempt more, or dropped at the last. */
  lemma {:induction false} BatchSettles(max: int, d: State, batch: seq<Fetched>, x: Fetched)
    requires Storing(d, batch, 0, []) && x in batch
    ensures BatchSettled(max, RunFrom(max, d, BatchSteps(batch)), x, d.entries[x.id])
  {
    var ordered := Sort(SlotOrder, batch);
    SortedIsHeld(d, batch, x);
    OrderedSettles(max, d, ordered, x);
    RunSplits(max, d, WriteSteps(ordered), RetrySteps(Retries(ordered)));
    hide RunFrom, WriteSteps, RetrySteps, Retries, Sort, BatchSettled;
  }

  lemma EmptyBatch(d: State, batch: seq<Fetched>, retries: seq<nat>)
    requires Storing(d, batch, |batch|, retries)
    ensures Storing(d, [], 0, retries)
  {
  }

  lemma SettledFrom(max: int, mid: State, e: State, x: Fetched, entry: Entry, retries: seq<nat>)
    requires |mid.entries| == |mid.stages| && Stored(mid, x, entry) && RetryLeaves(mid, e, retries)
    requires if Succeeds(x) then x.id !in retries else Retried(max, e, x.id, entry)
    ensures BatchSettled(max, e, x, entry)
  {
  }
}
