/** The parser registry: priority, fallback, deduplication and numbering of swap events
    (ingestion/parsers/__init__.py). */
module Parsers {
  import opened Options
  import opened Swaps

  class SwapEvent {
    const leg: Leg
    const dex: string
    var aggregator: Option<string>
    var eventIndex: nat

    constructor (leg: Leg, dex: string)
      ensures this.leg == leg && this.dex == dex && aggregator == None && eventIndex == 0
    {
      this.leg, this.dex, aggregator, eventIndex := leg, dex, None, 0;
    }
  }

  /** One parser as it meets one transaction: whether it only serves as a fallback, whether it matches,
      and what it returns, if it does not raise. */
  datatype Parser = Parser(fallbackOnly: bool, matches: bool, outcome: Option<seq<SwapEvent>>)

  /** What a parser contributes to a pass over the venue parsers or over the fallback parsers. */
  function Contribution(p: Parser, fallback: bool): seq<SwapEvent> {
    if p.fallbackOnly == fallback && p.matches && p.outcome.Some? then p.outcome.value else []
  }

  function Collect(parsers: seq<Parser>, fallback: bool): seq<SwapEvent> {
    if parsers == [] then []
    else Collect(parsers[..|parsers| - 1], fallback) + Contribution(parsers[|parsers| - 1], fallback)
  }

  function Collected(parsers: seq<Parser>): seq<SwapEvent> {
    if Collect(parsers, false) != [] then Collect(parsers, false) else Collect(parsers, true)
  }

  type EventKey = (string, string, Side, Mint)

  function LegKey(leg: Leg): EventKey { (leg.wallet, leg.token, leg.side, leg.quote) }

  /** Two legs count as the same event when wallet, token, direction and quote mint agree; amounts and price
      do not matter. */
  lemma SameKeyExactly(x: Leg, y: Leg)
    ensures LegKey(x) == LegKey(y)
      <==> x.wallet == y.wallet && x.token == y.token && x.side == y.side && x.quote == y.quote
  {
  }

  function KeyOf(e: SwapEvent): EventKey { LegKey(e.leg) }

  function KeysOf(events: seq<SwapEvent>): set<EventKey> { set e | e in events :: KeyOf(e) }

  /** The first event of every key, in order. */
  function Deduped(events: seq<SwapEvent>): seq<SwapEvent> {
    if events == [] then []
    else
      var n := |events| - 1;
      Deduped(events[..n]) + (if KeyOf(events[n]) in KeysOf(events[..n]) then [] else [events[n]])
  }

  /** Runs one pass over the registry. */
  method RunParsers(parsers: seq<Parser>, fallback: bool) returns (events: seq<SwapEvent>)
    ensures events == Collect(parsers, fallback)
  {
    events := [];
    var i := 0;
    while i < |parsers|
      invariant 0 <= i <= |parsers|
      invariant events == Collect(parsers[..i], fallback)
    {
      assert parsers[..i + 1][..i] == parsers[..i];
      var p := parsers[i];
      i := i + 1;
      if p.fallbackOnly != fallback || !p.matches {
        continue;
      }
      if p.outcome.Some? {
        events := events + p.outcome.value;
      }
    }
    assert parsers[..i] == parsers;
  }

  ghost predicate KeysDistinct(events: seq<SwapEvent>) {
    forall i, j :: 0 <= i < j < |events| ==> KeyOf(events[i]) != KeyOf(events[j])
  }

  /** The single entry point of the ingest writer. */
  method ParseTransaction(success: bool, parsers: seq<Parser>, jupiter: bool) returns (deduped: seq<SwapEvent>)
    modifies set e | e in Collect(parsers, false) + Collect(parsers, true)
    ensures deduped == if success then Deduped(Collected(parsers)) else []
    ensures forall i :: 0 <= i < |deduped| ==> deduped[i].eventIndex == i
    ensures forall i, k :: 0 <= i < |parsers| && parsers[i].outcome.Some? && 0 <= k < |parsers[i].outcome.value| ==>
      var e := parsers[i].outcome.value[k];
      && e.aggregator == (if success && jupiter && e in Collected(parsers) then Some("jupiter") else old(e.aggregator))
      && (e !in deduped ==> e.eventIndex == old(e.eventIndex))
  {
    if !success {
      return [];
    }
    var events := RunParsers(parsers, false);
    if events == [] {
      events := RunParsers(parsers, true);
    }
    if jupiter {
      Tag(events);
    }
    deduped := Number(events);
  }

  method Tag(events: seq<SwapEvent>)
    modifies set e | e in events
    ensures forall e :: e in events ==> e.aggregator == Some("jupiter") && e.eventIndex == old(e.eventIndex)
  {
    var i := 0;
    while i < |events|
      invariant 0 <= i <= |events|
      invariant forall k :: 0 <= k < i ==> events[k].aggregator == Some("jupiter")
      invariant forall e :: e in events ==> e.eventIndex == old(e.eventIndex)
    {
      events[i].aggregator := Some("jupiter");
      i := i + 1;
    }
  }

  method Number(events: seq<SwapEvent>) returns (deduped: seq<SwapEvent>)
    modifies set e | e in events
    ensures deduped == Deduped(events)
    ensures forall i :: 0 <= i < |deduped| ==> deduped[i].eventIndex == i
    ensures forall e :: e in events ==> e.aggregator == old(e.aggregator)
    ensures forall e :: e in events && e !in deduped ==> e.eventIndex == old(e.eventIndex)
  {
    deduped := [];
    var seen: set<EventKey> := {};
    var i := 0;
    while i < |events|
      invariant 0 <= i <= |events|
      invariant deduped == Deduped(events[..i]) && seen == KeysOf(events[..i])
      invariant forall k :: 0 <= k < |deduped| ==> deduped[k].eventIndex == k
      invariant forall e :: e in events ==> e.aggregator == old(e.aggregator)
      invariant forall e :: e in events && e !in deduped ==> e.eventIndex == old(e.eventIndex)
    {
      var event := events[i];
      OneMoreEvent(events, i);
      i := i + 1;
      if KeyOf(event) in seen {
        continue;
      }
      seen := seen + {KeyOf(event)};
      event.eventIndex := |deduped|;
      deduped := deduped + [event];
    }
    assert events[..i] == events;
  }

  lemma OneMoreEvent(events: seq<SwapEvent>, i: nat)
    requires i < |events|
    ensures var before, e := events[..i], events[i];
      && KeysOf(events[..i + 1]) == KeysOf(before) + {KeyOf(e)}
      && Deduped(events[..i + 1]) == (if KeyOf(e) in KeysOf(before) then Deduped(before) else Deduped(before) + [e])
      && (KeyOf(e) !in KeysOf(before) ==> e !in Deduped(before))
  {
    var before, e := events[..i], events[i];
    assert events[..i + 1] == before + [e] && events[..i + 1][..i] == before;
    DedupedIsFrom(before);
    assert Deduped(before) + [] == Deduped(before);
  }

  // --- what is kept --------------------------------------------------------

  lemma {:induction false} DedupedIsFrom(events: seq<SwapEvent>)
    ensures forall e :: e in Deduped(events) ==> e in events
    ensures KeysOf(Deduped(events)) == KeysOf(events)
  {
    if events != [] {
      var n := |events| - 1;
      DedupedIsFrom(events[..n]);
      assert events == events[..n] + [events[n]];
      assert KeysOf(events) == KeysOf(events[..n]) + {KeyOf(events[n])};
      if KeyOf(events[n]) !in KeysOf(events[..n]) {
        assert KeysOf(Deduped(events)) == KeysOf(Deduped(events[..n])) + {KeyOf(events[n])};
      }
    }
  }

  ghost predicate IsFirst(events: seq<SwapEvent>, j: int) {
    0 <= j < |events| && KeyOf(events[j]) !in KeysOf(events[..j])
  }

  /** Deduplication keeps exactly the events that are first of their key, each key once, and loses no
      key. */
  lemma {:induction false} DedupedMeans(events: seq<SwapEvent>)
    ensures KeysDistinct(Deduped(events)) && KeysOf(Deduped(events)) == KeysOf(events)
    ensures forall e :: e in Deduped(events) <==> exists j :: IsFirst(events, j) && events[j] == e
  {
    DedupedIsFrom(events);
    if events != [] {
      var n := |events| - 1;
      var front := Deduped(events[..n]);
      DedupedMeans(events[..n]);
      assert events == events[..n] + [events[n]];
      forall i, j | 0 <= i < j < |Deduped(events)| ensures KeyOf(Deduped(events)[i]) != KeyOf(Deduped(events)[j]) {
        if j == |front| { assert KeyOf(front[i]) in KeysOf(front); }
      }
      forall e ensures e in Deduped(events) <==> exists j :: IsFirst(events, j) && events[j] == e {
        if j :| IsFirst(events, j) && events[j] == e {
          if j < n {
            assert events[..n][..j] == events[..j];
            assert IsFirst(events[..n], j) && events[..n][j] == e;
          }
        }
        if e in front {
          var j :| IsFirst(events[..n], j) && events[..n][j] == e;
          assert events[..n][..j] == events[..j];
          assert IsFirst(events, j);
        }
        if e in Deduped(events) && e !in front { assert IsFirst(events, n); }
      }
    }
  }

  /** A later list can only add to what an earlier one already settled. */
  lemma {:induction false} DedupedOfMore(a: seq<SwapEvent>, b: seq<SwapEvent>)
    ensures Deduped(a) <= Deduped(a + b)
    ensures KeysOf(b) <= KeysOf(a) ==> Deduped(a + b) == Deduped(a)
  {
    if b == [] {
      assert a + b == a;
    } else {
      var n := |b| - 1;
      DedupedOfMore(a, b[..n]);
      assert (a + b)[..|a + b| - 1] == a + b[..n];
      if KeysOf(b) <= KeysOf(a) {
        assert KeyOf(b[n]) in KeysOf(b);
        var e :| e in a && KeyOf(e) == KeyOf(b[n]);
        assert e in a + b[..n];
        assert KeysOf(b[..n]) <= KeysOf(b);
      }
    }
  }

  lemma {:induction false} CollectSplits(parsers: seq<Parser>, n: nat, fallback: bool)
    requires n <= |parsers|
    ensures Collect(parsers, fallback) == Collect(parsers[..n], fallback) + Collect(parsers[n..], fallback)
  {
    hide Contribution;
    if n == |parsers| {
      assert parsers[..n] == parsers && parsers[n..] == [];
      assert Collect(parsers, fallback) + [] == Collect(parsers, fallback);
    } else {
      var m := |parsers| - 1;
      CollectSplits(parsers[..m], n, fallback);
      assert parsers[..m][..n] == parsers[..n] && parsers[..m][n..] == parsers[n..][..m - n];
      assert parsers[n..][|parsers[n..]| - 1] == parsers[m];
    }
  }

  lemma {:induction false} CollectedFrom(parsers: seq<Parser>, fallback: bool, e: SwapEvent)
    requires e in Collect(parsers, fallback)
    ensures exists j :: 0 <= j < |parsers| && e in Contribution(parsers[j], fallback)
  {
    var n := |parsers| - 1;
    if e !in Contribution(parsers[n], fallback) {
      CollectedFrom(parsers[..n], fallback, e);
      var j :| 0 <= j < n && e in Contribution(parsers[..n][j], fallback);
      assert parsers[j] == parsers[..n][j];
    }
  }

  /** The output holds an event with e's key, reported by a parser no later than the i-th. */
  ghost predicate KeptUpTo(parsers: seq<Parser>, fallback: bool, i: nat, e: SwapEvent, kept: SwapEvent, j: nat) {
    && kept in Deduped(Collect(parsers, fallback)) && KeyOf(kept) == KeyOf(e)
    && j <= i < |parsers| && kept in Contribution(parsers[j], fallback)
  }

  lemma PrefixIsCollected(parsers: seq<Parser>, i: nat, fallback: bool)
    requires i < |parsers|
    ensures Collect(parsers[..i + 1], fallback) == Collect(parsers[..i], fallback) + Contribution(parsers[i], fallback)
    ensures Deduped(Collect(parsers[..i + 1], fallback)) <= Deduped(Collect(parsers, fallback))
  {
    CollectOfOneMore(parsers[..i], parsers[i], fallback);
    assert parsers[..i] + [parsers[i]] == parsers[..i + 1];
    CollectSplits(parsers, i + 1, fallback);
    DedupedOfMore(Collect(parsers[..i + 1], fallback), Collect(parsers[i + 1..], fallback));
  }

  /** Whatever the i-th parser of a pass reports is in the output as reported by it or by a parser of
      higher priority. */
  lemma HighestPriorityIsKept(parsers: seq<Parser>, fallback: bool, i: nat, e: SwapEvent)
    requires i < |parsers| && e in Contribution(parsers[i], fallback)
    ensures exists kept, j :: KeptUpTo(parsers, fallback, i, e, kept, j)
  {
    PrefixIsCollected(parsers, i, fallback);
    var kept := KeptFor(Collect(parsers[..i + 1], fallback), e);
    CollectedFrom(parsers[..i + 1], fallback, kept);
    var j :| 0 <= j < i + 1 && kept in Contribution(parsers[..i + 1][j], fallback);
    assert KeptUpTo(parsers, fallback, i, e, kept, j);
  }

  lemma KeptFor(events: seq<SwapEvent>, e: SwapEvent) returns (kept: SwapEvent)
    requires e in events
    ensures kept in Deduped(events) && kept in events && KeyOf(kept) == KeyOf(e)
  {
    DedupedIsFrom(events);
    assert KeyOf(e) in KeysOf(events);
    kept :| kept in Deduped(events) && KeyOf(kept) == KeyOf(e);
  }

  function LegsOf(events: seq<SwapEvent>): seq<Leg> {
    seq(|events|, i requires 0 <= i < |events| => events[i].leg)
  }

  ghost predicate LegKeysDistinct(legs: seq<Leg>) {
    forall i, j :: 0 <= i < j < |legs| ==> LegKey(legs[i]) != LegKey(legs[j])
  }

  lemma LastKeyIsNew(events: seq<SwapEvent>)
    requires events != [] && KeysDistinct(events)
    ensures KeyOf(events[|events| - 1]) !in KeysOf(events[..|events| - 1])
  {
    var n := |events| - 1;
    forall e | e in events[..n] ensures KeyOf(e) != KeyOf(events[n]) {
      var i :| 0 <= i < n && events[..n][i] == e;
      assert KeyOf(events[i]) != KeyOf(events[n]);
    }
  }

  lemma {:induction false} DistinctIsDeduped(events: seq<SwapEvent>)
    requires KeysDistinct(events)
    ensures Deduped(events) == events
  {
    if events != [] {
      LastKeyIsNew(events);
      DistinctPrefix(events);
      DistinctIsDeduped(events[..|events| - 1]);
    }
  }

  lemma DistinctPrefix(events: seq<SwapEvent>)
    requires events != [] && KeysDistinct(events)
    ensures KeysDistinct(events[..|events| - 1])
  {
    var front := events[..|events| - 1];
    forall i, j | 0 <= i < j < |front| ensures KeyOf(front[i]) != KeyOf(front[j]) {
      assert KeyOf(events[i]) != KeyOf(events[j]);
    }
  }

  /** The legs inferred from one transaction never share a key. */
  lemma InferredKeysDistinct(tx: Transaction, owner: string, stables: seq<Mint>)
    requires StableOrder(stables)
    ensures LegKeysDistinct(Infer(tx, owner, stables))
  {
    LegsReportNetChanges(tx, owner, stables);
    if |Infer(tx, owner, stables)| == 2 {
      TwoLegsAreMirrored(tx, owner, stables);
    }
  }

  /** Every parser of the pass stays silent or reports exactly these legs. */
  ghost predicate AllReport(parsers: seq<Parser>, fallback: bool, legs: seq<Leg>) {
    forall i :: 0 <= i < |parsers| ==>
      Contribution(parsers[i], fallback) == [] || LegsOf(Contribution(parsers[i], fallback)) == legs
  }

  lemma {:induction false} CollectKeys(parsers: seq<Parser>, fallback: bool, legs: seq<Leg>)
    requires AllReport(parsers, fallback, legs)
    ensures forall e :: e in Collect(parsers, fallback) ==> e.leg in legs
  {
    if parsers != [] {
      var n := |parsers| - 1;
      forall i | 0 <= i < n
        ensures Contribution(parsers[..n][i], fallback) == [] || LegsOf(Contribution(parsers[..n][i], fallback)) == legs
      {
        assert parsers[..n][i] == parsers[i];
      }
      CollectKeys(parsers[..n], fallback, legs);
      forall e | e in Contribution(parsers[n], fallback) ensures e.leg in legs {
        var k :| 0 <= k < |Contribution(parsers[n], fallback)| && Contribution(parsers[n], fallback)[k] == e;
        assert LegsOf(Contribution(parsers[n], fallback))[k] == e.leg;
      }
    }
  }

  lemma {:induction false} SilentPrefix(parsers: seq<Parser>, n: nat, fallback: bool)
    requires n <= |parsers| && forall i :: 0 <= i < n ==> Contribution(parsers[i], fallback) == []
    ensures Collect(parsers[..n], fallback) == []
  {
    if n > 0 {
      SilentPrefix(parsers, n - 1, fallback);
      assert parsers[..n][..n - 1] == parsers[..n - 1];
    }
  }

  lemma LegsDistinct(events: seq<SwapEvent>)
    requires LegKeysDistinct(LegsOf(events))
    ensures KeysDistinct(events)
  {
    forall i, j | 0 <= i < j < |events| ensures KeyOf(events[i]) != KeyOf(events[j]) {
      assert LegKey(LegsOf(events)[i]) != LegKey(LegsOf(events)[j]);
    }
  }

  lemma CoveredKeys(own: seq<SwapEvent>, rest: seq<SwapEvent>)
    requires forall e :: e in rest ==> e.leg in LegsOf(own)
    ensures KeysOf(rest) <= KeysOf(own)
  {
    forall e | e in rest ensures KeyOf(e) in KeysOf(own) {
      var m :| 0 <= m < |own| && LegsOf(own)[m] == e.leg;
      assert own[m] in own && KeyOf(own[m]) == KeyOf(e);
    }
  }

  lemma AllReportTail(parsers: seq<Parser>, n: nat, fallback: bool, legs: seq<Leg>)
    requires n <= |parsers| && AllReport(parsers, fallback, legs)
    ensures AllReport(parsers[n..], fallback, legs)
  {
    var tail := parsers[n..];
    forall i | 0 <= i < |tail|
      ensures Contribution(tail[i], fallback) == [] || LegsOf(Contribution(tail[i], fallback)) == legs
    {
      assert tail[i] == parsers[n + i];
    }
  }

  lemma CollectOfOneMore(parsers: seq<Parser>, p: Parser, fallback: bool)
    ensures Collect(parsers + [p], fallback) == Collect(parsers, fallback) + Contribution(p, fallback)
  {
    assert (parsers + [p])[..|parsers|] == parsers;
  }

  lemma SilentUpTo(parsers: seq<Parser>, first: nat, fallback: bool)
    requires first < |parsers| && forall i :: 0 <= i < first ==> Contribution(parsers[i], fallback) == []
    ensures Collect(parsers[..first + 1], fallback) == Contribution(parsers[first], fallback)
  {
    var before := parsers[..first];
    assert Collect(before, fallback) == [] by { SilentPrefix(parsers, first, fallback); }
    CollectOfOneMore(before, parsers[first], fallback);
    assert before + [parsers[first]] == parsers[..first + 1];
  }

  lemma CollectFromFirst(parsers: seq<Parser>, first: nat, fallback: bool)
    requires first < |parsers| && forall i :: 0 <= i < first ==> Contribution(parsers[i], fallback) == []
    ensures Collect(parsers, fallback) == Contribution(parsers[first], fallback) + Collect(parsers[first + 1..], fallback)
  {
    SilentUpTo(parsers, first, fallback);
    CollectSplits(parsers, first + 1, fallback);
  }

  /** Several venue parsers that infer from the same balances count the trade once: the output is the
      inferred legs, all from the first venue that reported. */
  lemma SameInferenceCountsOnce(parsers: seq<Parser>, tx: Transaction, owner: string, stables: seq<Mint>, first: nat)
    requires StableOrder(stables) && AllReport(parsers, false, Infer(tx, owner, stables))
    requires first < |parsers| && Contribution(parsers[first], false) != []
    requires forall i :: 0 <= i < first ==> Contribution(parsers[i], false) == []
    ensures Deduped(Collected(parsers)) == Contribution(parsers[first], false)
    ensures LegsOf(Deduped(Collected(parsers))) == Infer(tx, owner, stables)
  {
    var legs := Infer(tx, owner, stables);
    var own, rest := Contribution(parsers[first], false), Collect(parsers[first + 1..], false);
    CollectFromFirst(parsers, first, false);
    assert Collected(parsers) == own + rest;
    InferredKeysDistinct(tx, owner, stables);
    AllReportTail(parsers, first + 1, false, legs);
    CollectKeys(parsers[first + 1..], false, legs);
    OwnIsKept(own, rest, legs);
  }

  lemma OwnIsKept(own: seq<SwapEvent>, rest: seq<SwapEvent>, legs: seq<Leg>)
    requires LegsOf(own) == legs && LegKeysDistinct(legs) && forall e :: e in rest ==> e.leg in legs
    ensures Deduped(own + rest) == own
  {
    LegsDistinct(own);
    DistinctIsDeduped(own);
    CoveredKeys(own, rest);
    DedupedOfMore(own, rest);
  }

  /** A venue parser that has nothing to say: it serves only as a fallback, does not match, raises, or finds
      nothing. */
  predicate Quiet(p: Parser) {
    p.fallbackOnly || !p.matches || p.outcome.None? || p.outcome.value == []
  }

  /** The parser matched and reported the event. */
  predicate Reports(p: Parser, e: SwapEvent) { p.matches && p.outcome.Some? && e in p.outcome.value }

  ghost predicate AllQuiet(parsers: seq<Parser>) {
    forall i :: 0 <= i < |parsers| ==> Quiet(parsers[i])
  }

  /** The pass that is heard is the fallback pass exactly when every venue parser was silent. */
  lemma HeardPass(parsers: seq<Parser>)
    ensures Collected(parsers) == Collect(parsers, AllQuiet(parsers))
  {
    if AllQuiet(parsers) {
      forall i | 0 <= i < |parsers| ensures Contribution(parsers[i], false) == [] { assert Quiet(parsers[i]); }
      SilentPrefix(parsers, |parsers|, false);
      assert parsers[..|parsers|] == parsers;
    } else {
      var i :| 0 <= i < |parsers| && !Quiet(parsers[i]);
      HighestPriorityIsKept(parsers, false, i, Contribution(parsers[i], false)[0]);
      assert Collect(parsers, false) != [];
    }
  }

  /** Whatever is in the output was reported by a venue parser, or, exactly when all of them were silent, by a
      fallback parser. */
  lemma FallbackExactly(parsers: seq<Parser>, e: SwapEvent)
    requires e in Deduped(Collected(parsers))
    ensures exists j :: 0 <= j < |parsers| && Reports(parsers[j], e) && (parsers[j].fallbackOnly <==> AllQuiet(parsers))
  {
    DedupedIsFrom(Collected(parsers));
    HeardPass(parsers);
    CollectedFrom(parsers, AllQuiet(parsers), e);
    var j :| 0 <= j < |parsers| && e in Contribution(parsers[j], AllQuiet(parsers));
    assert Reports(parsers[j], e);
  }

  /** And whatever such a parser reports is in the output, as its own event or as one of the same key. */
  lemma ReportedIsHeard(parsers: seq<Parser>, i: nat, e: SwapEvent)
    requires i < |parsers| && Reports(parsers[i], e) && (parsers[i].fallbackOnly <==> AllQuiet(parsers))
    ensures exists kept :: kept in Deduped(Collected(parsers)) && KeyOf(kept) == KeyOf(e)
  {
    HeardPass(parsers);
    HighestPriorityIsKept(parsers, AllQuiet(parsers), i, e);
    var kept, j :| KeptUpTo(parsers, AllQuiet(parsers), i, e, kept, j);
    assert kept in Deduped(Collected(parsers));
  }
}
