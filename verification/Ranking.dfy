/** Adaptive ranking of copied wallets from realised outcomes (decision/ranking.py). */
module Ranking {
  import opened Options

  /** What the store keeps for one leader: the weighted mean of its results and their number. */
  datatype State = State(ew: real, n: nat)

  const ALPHA := 0.25
  const MIN_OUTCOMES := 5
  const ADJUST_MIN := 0.5
  const ADJUST_MAX := 1.2

  /** One closed copy position: whose it was and what it returned. */
  datatype Outcome = Outcome(leader: int, roi: real)

  function Fold(rois: seq<real>): State {
    if rois == [] then State(0.0, 0)
    else
      var before := Fold(rois[..|rois| - 1]);
      State((1.0 - ALPHA) * before.ew + ALPHA * rois[|rois| - 1], before.n + 1)
  }

  function Factor(state: Option<State>): real {
    if state.None? || state.value.n < MIN_OUTCOMES then 1.0
    else
      var ew := state.value.ew;
      if ew < 0.0 then (if 1.0 + ew > ADJUST_MIN then 1.0 + ew else ADJUST_MIN)
      else if 1.0 + ew * 0.4 < ADJUST_MAX then 1.0 + ew * 0.4 else ADJUST_MAX
  }

  /** The results of one leader, in the order they were recorded. */
  function Results(outcomes: seq<Outcome>, leader: int): seq<real> {
    if outcomes == [] then []
    else
      var last := outcomes[|outcomes| - 1];
      Results(outcomes[..|outcomes| - 1], leader) + (if last.leader == leader then [last.roi] else [])
  }

  lemma ResultsOfOneMore(outcomes: seq<Outcome>, o: Outcome, leader: int)
    ensures Results(outcomes + [o], leader)
      == Results(outcomes, leader) + (if o.leader == leader then [o.roi] else [])
  {
    assert (outcomes + [o])[..|outcomes|] == outcomes;
  }

  /** The store holds, for each leader, the fold of exactly that leader's results. */
  ghost predicate Holds(scores: map<int, State>, outcomes: seq<Outcome>) {
    forall leader ::
      && (leader in scores <==> Results(outcomes, leader) != [])
      && (leader in scores ==> scores[leader] == Fold(Results(outcomes, leader)))
  }

  lemma Recorded(scores: map<int, State>, outcomes: seq<Outcome>, o: Outcome, state: State)
    requires Holds(scores, outcomes)
    requires var before := if o.leader in scores then scores[o.leader] else State(0.0, 0);
      state == State(0.75 * before.ew + 0.25 * o.roi, before.n + 1)
    ensures Holds(scores[o.leader := state], outcomes + [o])
  {
    var own := Results(outcomes, o.leader);
    assert (own + [o.roi])[..|own|] == own;
    assert Fold(own + [o.roi]) == state;
    forall leader
      ensures leader in scores[o.leader := state] <==> Results(outcomes + [o], leader) != []
      ensures leader in scores[o.leader := state] ==> scores[o.leader := state][leader] == Fold(Results(outcomes + [o], leader))
    {
      ResultsOfOneMore(outcomes, o, leader);
      if leader != o.leader {
        assert Results(outcomes, leader) + [] == Results(outcomes, leader);
      }
    }
  }

  class RankingStore {
    var scores: map<int, State>
    ghost var outcomes: seq<Outcome>

    ghost predicate Valid()
      reads this
    {
      Holds(scores, outcomes)
    }

    constructor ()
      ensures Valid() && outcomes == []
    {
      scores := map[];
      outcomes := [];
    }

    /** Folds one result into its leader's score and touches no other leader. */
    method RecordOutcome(leader: int, roi: real)
      requires Valid()
      modifies this
      ensures Valid()
      ensures outcomes == old(outcomes) + [Outcome(leader, roi)]
      ensures forall other :: other != leader ==> (other in scores <==> other in old(scores))
      ensures forall other :: other != leader && other in scores ==> scores[other] == old(scores)[other]
    {
      var state := if leader in scores then scores[leader] else State(0.0, 0);
      state := state.(ew := (1.0 - ALPHA) * state.ew + ALPHA * roi);
      state := state.(n := state.n + 1);
      Recorded(scores, outcomes, Outcome(leader, roi), state);
      scores := scores[leader := state];
      outcomes := outcomes + [Outcome(leader, roi)];
    }

    /** The multiplier of a leader depends on its own results alone, however they interleaved with
        those of others. */
    method AdjustmentFactor(leader: int) returns (factor: real)
      requires Valid()
      ensures factor == Factor(Some(Fold(Results(outcomes, leader))))
    {
      if leader !in scores {
        return 1.0;
      }
      var n, ew := scores[leader].n, scores[leader].ew;
      if n < MIN_OUTCOMES {
        return 1.0;
      }
      if ew < 0.0 {
        factor := if 1.0 + ew > ADJUST_MIN then 1.0 + ew else ADJUST_MIN;
      } else {
        factor := if 1.0 + ew * 0.4 < ADJUST_MAX then 1.0 + ew * 0.4 else ADJUST_MAX;
      }
    }
  }

  /** The share a result keeps after k newer ones. */
  function Decay(k: nat): real { if k == 0 then 1.0 else 0.75 * Decay(k - 1) }

  /** The first k of n results, each weighted by how many results followed it. */
  function Weighted(rois: seq<real>, n: nat, k: nat): real
    requires k <= n && k <= |rois|
  {
    if k == 0 then 0.0 else Weighted(rois, n, k - 1) + 0.25 * Decay(n - k) * rois[k - 1]
  }

  lemma {:induction false} OneMoreResult(rois: seq<real>, longer: seq<real>, n: nat, k: nat)
    requires k <= n && k <= |rois| && rois <= longer
    ensures Weighted(longer, n + 1, k) == 0.75 * Weighted(rois, n, k)
  {
    if k > 0 {
      OneMoreResult(rois, longer, n, k - 1);
      assert Decay(n + 1 - k) == 0.75 * Decay(n - k);
      Scale(Decay(n - k), rois[k - 1]);
    }
  }

  lemma Scale(d: real, x: real)
    ensures 0.25 * (0.75 * d) * x == 0.75 * (0.25 * d * x)
  {
  }

  /** The stored mean is the sum of 1/4 (3/4)^(n-1-i) roi_i. */
  lemma {:induction false} ClosedForm(rois: seq<real>)
    ensures Fold(rois) == State(Weighted(rois, |rois|, |rois|), |rois|)
  {
    if rois != [] {
      var n := |rois| - 1;
      ClosedForm(rois[..n]);
      OneMoreResult(rois[..n], rois, n, n);
      assert Decay(0) == 1.0;
    }
  }

  /** The means p and q differ by d times the difference of x and y. */
  ghost predicate Faded(d: real, x: real, y: real, p: real, q: real) { p - q == d * (x - y) }

  lemma FadeStep(d: real, x: real, y: real, p: real, q: real, roi: real)
    requires Faded(d, x, y, p, q)
    ensures Faded(0.75 * d, x, y, 0.75 * p + 0.25 * roi, 0.75 * q + 0.25 * roi)
  {
    assert (0.75 * d) * (x - y) == 0.75 * (d * (x - y));
  }

  lemma FoldOfOneMore(rois: seq<real>, roi: real)
    ensures Fold(rois + [roi]).ew == 0.75 * Fold(rois).ew + 0.25 * roi
  {
    assert (rois + [roi])[..|rois|] == rois;
  }

  /** However different two pasts were, k common newer results shrink the difference to exactly
      (3/4)^k of what it was. */
  lemma {:induction false} OldResultsFade(a: seq<real>, b: seq<real>, newer: seq<real>)
    ensures Faded(Decay(|newer|), Fold(a).ew, Fold(b).ew, Fold(a + newer).ew, Fold(b + newer).ew)
  {
    if newer == [] {
      assert a + newer == a && b + newer == b;
    } else {
      var front, last := newer[..|newer| - 1], newer[|newer| - 1];
      OldResultsFade(a, b, front);
      FadeStep(Decay(|front|), Fold(a).ew, Fold(b).ew, Fold(a + front).ew, Fold(b + front).ew, last);
      FoldOfOneMore(a + front, last);
      FoldOfOneMore(b + front, last);
      assert a + newer == (a + front) + [last] && b + newer == (b + front) + [last];
    }
  }

  /** A wallet is never erased and never boosted past the cap. */
  lemma FactorBounds(rois: seq<real>)
    ensures ADJUST_MIN <= Factor(Some(Fold(rois))) <= ADJUST_MAX
    ensures |rois| < MIN_OUTCOMES ==> Factor(Some(Fold(rois))) == 1.0
  {
    FoldCounts(rois);
  }

  /** The multiplier in numbers.  Five results are needed; then a loss counts in full, down to a half, and a
      gain for two fifths, up to 1.2. */
  lemma FactorMeans(rois: seq<real>)
    ensures var mean, factor := Fold(rois).ew, Factor(Some(Fold(rois)));
      && (|rois| < 5 ==> factor == 1.0)
      && (|rois| >= 5 && mean <= -0.5 ==> factor == 0.5)
      && (|rois| >= 5 && -0.5 <= mean <= 0.0 ==> factor - 1.0 == mean)
      && (|rois| >= 5 && 0.0 <= mean <= 0.5 ==> 5.0 * (factor - 1.0) == 2.0 * mean)
      && (|rois| >= 5 && mean >= 0.5 ==> factor == 1.2)
    ensures Factor(None) == 1.0
  {
    FoldCounts(rois);
  }

  lemma {:induction false} FoldMonotone(a: seq<real>, b: seq<real>)
    requires |a| == |b| && forall i :: 0 <= i < |a| ==> a[i] <= b[i]
    ensures Fold(a).ew <= Fold(b).ew && Fold(a).n == Fold(b).n
  {
    if a != [] {
      FoldMonotone(a[..|a| - 1], b[..|b| - 1]);
    }
  }

  /** A history that is nowhere worse never ranks its wallet lower. */
  lemma BetterHistoryNeverRanksLower(a: seq<real>, b: seq<real>)
    requires |a| == |b| && forall i :: 0 <= i < |a| ==> a[i] <= b[i]
    ensures Factor(Some(Fold(a))) <= Factor(Some(Fold(b)))
  {
    FoldMonotone(a, b);
  }

  function Negated(rois: seq<real>): seq<real> {
    if rois == [] then [] else Negated(rois[..|rois| - 1]) + [-rois[|rois| - 1]]
  }

  lemma {:induction false} FoldOfNegated(rois: seq<real>)
    ensures |Negated(rois)| == |rois|
    ensures Fold(Negated(rois)) == State(-Fold(rois).ew, Fold(rois).n)
  {
    if rois != [] {
      var n := |rois| - 1;
      FoldOfNegated(rois[..n]);
      assert Negated(rois)[..n] == Negated(rois[..n]);
    }
  }

  /** Losses demote at least as much as the mirrored gains promote; strictly more unless the mean is
      zero or there are too few results. */
  lemma {:induction false} LossesWeighMore(rois: seq<real>)
    requires Fold(rois).ew <= 0.0
    ensures var down := 1.0 - Factor(Some(Fold(rois)));
      var up := Factor(Some(Fold(Negated(rois)))) - 1.0;
      down >= up >= 0.0 && (down > up <==> |rois| >= MIN_OUTCOMES && Fold(rois).ew < 0.0)
  {
    FoldOfNegated(rois);
    FoldCounts(rois);
    Asymmetric(Fold(rois), Fold(Negated(rois)));
  }

  lemma Asymmetric(s: State, t: State)
    requires s.ew <= 0.0 && t == State(-s.ew, s.n)
    ensures 1.0 - Factor(Some(s)) >= Factor(Some(t)) - 1.0 >= 0.0
    ensures 1.0 - Factor(Some(s)) > Factor(Some(t)) - 1.0 <==> s.n >= MIN_OUTCOMES && s.ew < 0.0
  {
  }

  lemma {:induction false} FoldCounts(rois: seq<real>)
    ensures Fold(rois).n == |rois|
  {
    if rois != [] { FoldCounts(rois[..|rois| - 1]); }
  }

  /** Of two neighbouring results the newer counts more: moving the better one later never ranks the
      wallet lower. */
  lemma NewerCountsMore(before: seq<real>, low: real, high: real, after: seq<real>)
    requires low <= high
    ensures Factor(Some(Fold(before + [high, low] + after))) <= Factor(Some(Fold(before + [low, high] + after)))
  {
    var a, b := before + [high, low], before + [low, high];
    assert a[..|a| - 1] == before + [high] && b[..|b| - 1] == before + [low];
    assert (before + [high])[..|before|] == before && (before + [low])[..|before|] == before;
    assert Fold(a).ew <= Fold(b).ew;
    OldResultsFade(a, b, after);
    DecayPositive(|after|);
    assert Fold(a + after).ew <= Fold(b + after).ew by {
      NonPositive(Decay(|after|), Fold(a).ew - Fold(b).ew);
    }
    FoldCounts(a + after);
    FoldCounts(b + after);
  }

  lemma {:induction false} DecayPositive(k: nat)
    ensures 0.0 < Decay(k) <= 1.0
  {
    if k > 0 { DecayPositive(k - 1); }
  }

  lemma NonPositive(d: real, x: real)
    requires d > 0.0 && x <= 0.0
    ensures d * x <= 0.0
  {
  }
}
