/** Evidence-gated confidence of a wallet, 0 to 100 (analytics/confidence.py). */
module Confidence {
  import opened Options
  import opened Lamports

  /** The metrics of a wallet as `_f` reads them: None when absent, unparsable or not finite. */
  datatype Stats = Stats(
    closed: Option<real>, wins: Option<real>,
    profitFactor: Option<real>, roiStd: Option<real>, pnl30: Option<real>)

  /** A metric truncated towards zero and floored at zero; an absent one counts as zero. */
  function Count(o: Option<real>): nat {
    if o.None? || o.value < 0.0 then 0 else o.value.Floor
  }

  function Closed(s: Stats): nat { Count(s.closed) }

  function Wins(s: Stats): nat { if Count(s.wins) < Closed(s) then Count(s.wins) else Closed(s) }

  /** The ratios of a wallet are of non-negative quantities, so neither is below zero. */
  predicate Sane(s: Stats) {
    && (s.profitFactor.Some? ==> s.profitFactor.value >= 0.0)
    && (s.roiStd.Some? ==> s.roiStd.value >= 0.0)
  }

  /** Without this the source divides by zero. */
  predicate Divides(s: Stats) {
    s.profitFactor != Some(-1.0) && (Closed(s) >= 3 ==> s.roiStd != Some(-1.0))
  }

  function Over(x: real, y: real): real
    requires y != 0.0
  {
    x / y
  }

  /** Four decimals, ties to even. */
  function Round4(x: real): real { Quantize(x * 10000.0) as real / 10000.0 }

  function ShrunkWinRate(wins: nat, closed: nat): real { Over(wins as real + 3.5, closed as real + 10.0) }

  function WinPart(wins: nat, closed: nat): real {
    var x := ShrunkWinRate(wins, closed) / 0.7;
    if x < 0.0 then 0.0 else if x > 1.0 then 1.0 else x
  }

  function ProfitPart(factor: Option<real>, wins: nat): real
    requires factor != Some(-1.0)
  {
    if factor.Some? then Over(factor.value, factor.value + 1.0) else if wins > 0 then 0.9 else 0.5
  }

  function ConsistencyPart(std: Option<real>, closed: nat): real
    requires closed >= 3 ==> std != Some(-1.0)
  {
    if std.Some? && closed >= 3 then Over(1.0, 1.0 + std.value) else 0.5
  }

  function RecencyPart(pnl: Option<real>): real {
    if pnl.None? then 0.5
    else 0.5 * (1.0 + Over(pnl.value, (if pnl.value < 0.0 then -pnl.value else pnl.value) + 1.0))
  }

  function ExperiencePart(closed: nat): real { Over(closed as real, closed as real + 20.0) }

  /** The five explained terms: weight times the rounded component. */
  function Raw(s: Stats): real
    requires Divides(s)
  {
    35.0 * Round4(WinPart(Wins(s), Closed(s)))
    + 30.0 * Round4(ProfitPart(s.profitFactor, Wins(s)))
    + 15.0 * Round4(ConsistencyPart(s.roiStd, Closed(s)))
    + 10.0 * Round4(RecencyPart(s.pnl30))
    + 10.0 * Round4(ExperiencePart(Closed(s)))
  }

  /** How much of its deviation from the prior a score after n closed positions keeps. */
  function Shrink(n: nat): real { Over(n as real, n as real + 10.0) }

  function Blend(raw: real, shrink: real): real { 30.0 + (raw - 30.0) * shrink }

  /** The score before the last clamp. */
  function Unclamped(s: Stats): real
    requires Divides(s)
  {
    Blend(Raw(s), Shrink(Closed(s)))
  }

  function Clamp(x: real): real {
    var floored := if x > 0.0 then x else 0.0;
    if floored < 100.0 then floored else 100.0
  }

  /** The stored score, in hundredths. */
  function Score(s: Stats): int
    requires Divides(s)
  {
    Stored(Unclamped(s))
  }

  function Stored(x: real): int { Quantize(100.0 * Clamp(x)) }

  // --- the computation, with its explanation ------------------------------

  datatype Component = Component(weight: Option<real>, value: real, contribution: Option<real>)

  /** Weight times value to two decimals, where there is a weight. */
  function Contribution(c: Component): Option<real> { ContributionOf(c.weight, c.value) }

  function ContributionOf(weight: Option<real>, value: real): Option<real> {
    if weight.None? then None else Some(Hundredths(weight.value * value))
  }

  function Hundredths(x: real): real { Quantize(x * 100.0) as real / 100.0 }

  lemma HundredthsNear(x: real)
    ensures x - 0.005 <= Hundredths(x) <= x + 0.005
  {
  }

  lemma ContributionNear(c: Component)
    requires c.weight.Some?
    ensures Contribution(c).Some? && Share(c) - 0.005 <= Contribution(c).value <= Share(c) + 0.005
  {
    HundredthsNear(c.weight.value * c.value);
  }

  function Explained(c: Component): Component { c.(contribution := Contribution(c)) }

  function WeightedSum(components: seq<Component>): real {
    if components == [] then 0.0
    else
      var last := components[|components| - 1];
      WeightedSum(components[..|components| - 1]) + Share(last)
  }

  function Term(weight: real, value: real): Component { Component(Some(weight), value, None) }

  /** The five weighted terms before their contributions are filled in. */
  function Terms(s: Stats): seq<Component>
    requires Divides(s)
  {
    [Term(35.0, Round4(WinPart(Wins(s), Closed(s)))),
     Term(30.0, Round4(ProfitPart(s.profitFactor, Wins(s)))),
     Term(15.0, Round4(ConsistencyPart(s.roiStd, Closed(s)))),
     Term(10.0, Round4(RecencyPart(s.pnl30))),
     Term(10.0, Round4(ExperiencePart(Closed(s))))]
  }

  lemma SumOfFive(v0: real, v1: real, v2: real, v3: real, v4: real)
    ensures WeightedSum([Term(35.0, v0), Term(30.0, v1), Term(15.0, v2), Term(10.0, v3), Term(10.0, v4)])
      == 35.0 * v0 + 30.0 * v1 + 15.0 * v2 + 10.0 * v3 + 10.0 * v4
  {
    var c0 := [Term(35.0, v0)];
    var c1 := c0 + [Term(30.0, v1)];
    var c2 := c1 + [Term(15.0, v2)];
    var c3 := c2 + [Term(10.0, v3)];
    var c4 := c3 + [Term(10.0, v4)];
    SumOfOneMore([], Term(35.0, v0));
    SumOfOneMore(c0, Term(30.0, v1));
    SumOfOneMore(c1, Term(15.0, v2));
    SumOfOneMore(c2, Term(10.0, v3));
    SumOfOneMore(c3, Term(10.0, v4));
    assert c0 == [] + [Term(35.0, v0)];
    assert c4 == [Term(35.0, v0), Term(30.0, v1), Term(15.0, v2), Term(10.0, v3), Term(10.0, v4)];
  }

  function Share(c: Component): real { if c.weight.Some? then c.weight.value * c.value else 0.0 }

  lemma SumOfOneMore(c: seq<Component>, x: Component)
    ensures WeightedSum(c + [x]) == WeightedSum(c) + Share(x)
  {
    assert (c + [x])[..|c|] == c;
  }

  method Add(components: seq<Component>) returns (sum: real)
    ensures sum == WeightedSum(components)
  {
    sum := 0.0;
    var i := 0;
    while i < |components|
      invariant 0 <= i <= |components|
      invariant sum == WeightedSum(components[..i])
    {
      SumOfOneMore(components[..i], components[i]);
      assert components[..i + 1] == components[..i] + [components[i]];
      sum := sum + Share(components[i]);
      i := i + 1;
    }
    assert components[..i] == components;
  }

  /** Fills in the contributions. */
  method Explain(terms: seq<Component>) returns (components: seq<Component>)
    ensures |components| == |terms|
    ensures forall i :: 0 <= i < |terms| ==> components[i] == Explained(terms[i])
  {
    components := terms;
    var i := 0;
    while i < |components|
      invariant 0 <= i <= |components| == |terms|
      invariant forall k :: 0 <= k < i ==> components[k] == Explained(terms[k])
      invariant forall k :: i <= k < |terms| ==> components[k] == terms[k]
    {
      components := components[i := Explained(components[i])];
      i := i + 1;
    }
  }

  method BuildTerms(s: Stats) returns (terms: seq<Component>)
    requires Divides(s)
    ensures terms == Terms(s)
  {
    var closed := Closed(s);
    var wins := if closed > 0 then Wins(s) else 0;
    terms := [];
    terms := terms + [Term(35.0, Round4(WinPart(wins, closed)))];
    terms := terms + [Term(30.0, Round4(ProfitPart(s.profitFactor, wins)))];
    terms := terms + [Term(15.0, Round4(ConsistencyPart(s.roiStd, closed)))];
    terms := terms + [Term(10.0, Round4(RecencyPart(s.pnl30)))];
    terms := terms + [Term(10.0, Round4(ExperiencePart(closed)))];
  }

  /** What the source returns for a wallet: its stored score and an explanation of six terms.  The
      first five are weighted and add up to the raw score, the last is the shrinkage, and each
      carries its own contribution. */
  ghost predicate ExplainsScore(s: Stats, score: int, components: seq<Component>)
    requires Divides(s)
  {
    && score == Score(s)
    && |components| == 6 && WeightedSum(components) == Raw(s)
    && components[5].weight == None && components[5].value == Round4(Shrink(Closed(s)))
    && (forall i :: 0 <= i < 5 ==> components[i].weight == Terms(s)[i].weight && components[i].value == Terms(s)[i].value)
    && (forall i :: 0 <= i < 6 ==> components[i].contribution == Contribution(components[i]))
  }

  lemma SumOfExplained(terms: seq<Component>, extra: Component, components: seq<Component>)
    requires extra.weight == None && |components| == |terms| + 1
    requires forall i :: 0 <= i < |components| ==> components[i] == Explained((terms + [extra])[i])
    ensures WeightedSum(components) == WeightedSum(terms)
    ensures forall i :: 0 <= i < |terms| ==> components[i].weight == terms[i].weight && components[i].value == terms[i].value
    ensures forall i :: 0 <= i < |components| ==> components[i].contribution == Contribution(components[i])
    ensures components[|terms|].weight == None && components[|terms|].value == extra.value
  {
    SumOfOneMore(terms, extra);
    SameSum(terms + [extra], components);
    forall i | 0 <= i < |components| ensures components[i].contribution == Contribution(components[i]) {
      assert components[i] == Explained((terms + [extra])[i]);
    }
  }

  method ScoreWallet(s: Stats) returns (score: int, components: seq<Component>)
    requires Divides(s)
    ensures ExplainsScore(s, score, components)
  {
    var terms := BuildTerms(s);
    var raw := Add(terms);
    SumIsRaw(s);
    score := Stored(Blend(raw, Shrink(Closed(s))));
    var shrinkage := Component(None, Round4(Shrink(Closed(s))), None);
    components := Explain(terms + [shrinkage]);
    SumOfExplained(terms, shrinkage, components);
  }

  lemma SumIsRaw(s: Stats)
    requires Divides(s)
    ensures WeightedSum(Terms(s)) == Raw(s)
  {
    SumOfFive(Round4(WinPart(Wins(s), Closed(s))), Round4(ProfitPart(s.profitFactor, Wins(s))),
              Round4(ConsistencyPart(s.roiStd, Closed(s))), Round4(RecencyPart(s.pnl30)), Round4(ExperiencePart(Closed(s))));
  }

  lemma {:induction false} SameSum(a: seq<Component>, b: seq<Component>)
    requires |a| == |b| && forall i :: 0 <= i < |a| ==> b[i] == Explained(a[i])
    ensures WeightedSum(a) == WeightedSum(b)
  {
    if a != [] { SameSum(a[..|a| - 1], b[..|b| - 1]); }
  }

  function ContributionSum(components: seq<Component>): real {
    if components == [] then 0.0
    else
      var last := components[|components| - 1];
      ContributionSum(components[..|components| - 1])
      + (if last.contribution.Some? then last.contribution.value else 0.0)
  }

  function WeightedCount(components: seq<Component>): nat {
    if components == [] then 0
    else WeightedCount(components[..|components| - 1]) + (if components[|components| - 1].weight.Some? then 1 else 0)
  }

  /** The shown contributions add up to the raw score within half a hundredth for each of them. */
  lemma {:induction false} ContributionsExplain(c: seq<Component>)
    requires forall i :: 0 <= i < |c| ==> c[i].contribution == Contribution(c[i])
    ensures var slack := 0.005 * WeightedCount(c) as real;
      WeightedSum(c) - slack <= ContributionSum(c) <= WeightedSum(c) + slack
  {
    if c != [] {
      var last := c[|c| - 1];
      assert c[|c| - 1].contribution == Contribution(c[|c| - 1]);
      ContributionsExplain(c[..|c| - 1]);
      if last.weight.Some? {
        ContributionNear(last);
        assert (WeightedCount(c[..|c| - 1]) + 1) as real == WeightedCount(c[..|c| - 1]) as real + 1.0;
      }
    }
  }

  // --- scalar facts --------------------------------------------------------

  lemma OverBounds(x: real, y: real)
    requires 0.0 <= x <= y && y > 0.0
    ensures 0.0 <= Over(x, y) <= 1.0
  {
  }

  lemma OverTimes(x: real, y: real)
    requires y != 0.0
    ensures Over(x, y) * y == x
  {
  }

  /** a/b <= c/d for positive b and d when a d <= c b. */
  lemma OverCompare(a: real, b: real, c: real, d: real)
    requires b > 0.0 && d > 0.0 && a * d <= c * b
    ensures Over(a, b) <= Over(c, d)
  {
    OverTimes(a, b);
    OverTimes(c, d);
  }

  lemma Round4Monotone(x: real, y: real)
    requires x <= y
    ensures Round4(x) <= Round4(y)
  {
    QuantizeMonotone(x * 10000.0, y * 10000.0);
  }

  lemma Round4Bounds(x: real)
    requires 0.0 <= x <= 1.0
    ensures 0.0 <= Round4(x) <= 1.0
  {
    QuantizeAbove(x * 10000.0, 0);
    QuantizeBelow(x * 10000.0, 10000);
  }

  // --- bounds --------------------------------------------------------------

  lemma PartBounds(s: Stats)
    requires Sane(s)
    ensures 0.0 <= WinPart(Wins(s), Closed(s)) <= 1.0
    ensures 0.0 <= ProfitPart(s.profitFactor, Wins(s)) <= 1.0
    ensures 0.0 <= ConsistencyPart(s.roiStd, Closed(s)) <= 1.0
    ensures 0.0 <= RecencyPart(s.pnl30) <= 1.0
    ensures 0.0 <= ExperiencePart(Closed(s)) <= 1.0
  {
    if s.profitFactor.Some? { OverBounds(s.profitFactor.value, s.profitFactor.value + 1.0); }
    if s.roiStd.Some? { OverBounds(1.0, 1.0 + s.roiStd.value); }
    if s.pnl30.Some? {
      var p := s.pnl30.value;
      if p < 0.0 {
        OverBounds(-p, -p + 1.0);
        OverNegates(p, -p + 1.0);
      } else {
        OverBounds(p, p + 1.0);
      }
    }
    OverBounds(Closed(s) as real, Closed(s) as real + 20.0);
  }

  lemma OverNegates(x: real, y: real)
    requires y > 0.0
    ensures Over(-x, y) == -Over(x, y)
  {
  }

  lemma RawBounds(s: Stats)
    requires Sane(s)
    ensures 0.0 <= Raw(s) <= 100.0
  {
    PartBounds(s);
    Round4Bounds(WinPart(Wins(s), Closed(s)));
    Round4Bounds(ProfitPart(s.profitFactor, Wins(s)));
    Round4Bounds(ConsistencyPart(s.roiStd, Closed(s)));
    Round4Bounds(RecencyPart(s.pnl30));
    Round4Bounds(ExperiencePart(Closed(s)));
  }

  lemma DeviationBound(s: Stats)
    requires Sane(s)
    ensures 0.0 <= Shrink(Closed(s)) <= 1.0
    ensures -30.0 * Shrink(Closed(s)) <= Unclamped(s) - 30.0 <= 70.0 * Shrink(Closed(s))
  {
    RawBounds(s);
    OverBounds(Closed(s) as real, Closed(s) as real + 10.0);
    BlendBounds(Raw(s), Shrink(Closed(s)));
  }

  /** After n closed positions a score lies within 70 n/(n+10) above and 30 n/(n+10) below the prior,
      so the last clamp never acts and a wallet without evidence scores exactly 30.00. */
  lemma {:induction false} EvidenceBoundsTheScore(s: Stats)
    requires Sane(s)
    ensures -30.0 * Shrink(Closed(s)) <= Unclamped(s) - 30.0 <= 70.0 * Shrink(Closed(s))
    ensures Clamp(Unclamped(s)) == Unclamped(s)
    ensures 0 <= Score(s) <= 10000
    ensures Closed(s) == 0 ==> Score(s) == 3000
  {
    DeviationBound(s);
    QuantizeAbove(100.0 * Unclamped(s), 0);
    QuantizeBelow(100.0 * Unclamped(s), 10000);
    if Closed(s) == 0 {
      assert Shrink(0) == 0.0;
      QuantizeWhole(3000);
    }
  }

  lemma BlendBounds(raw: real, k: real)
    requires 0.0 <= raw <= 100.0 && 0.0 <= k <= 1.0
    ensures -30.0 * k <= Blend(raw, k) - 30.0 <= 70.0 * k
  {
    assert (raw - 30.0) * k <= 70.0 * k by { assert (100.0 - raw) * k >= 0.0; }
    assert (raw - 30.0) * k >= -30.0 * k by { assert raw * k >= 0.0; }
  }

  /** A high score needs evidence: one of t (before formatting) needs at least 10 (t-30)/(100-t)
      closed positions. */
  lemma {:induction false} HighScoreNeedsEvidence(s: Stats)
    requires Sane(s)
    ensures EnoughFor(Closed(s), Unclamped(s))
  {
    DeviationBound(s);
    EvidenceArithmetic(Closed(s), Shrink(Closed(s)), Unclamped(s));
  }

  predicate EnoughFor(n: nat, t: real) { n as real * (100.0 - t) >= 10.0 * (t - 30.0) }

  lemma EvidenceArithmetic(n: nat, k: real, t: real)
    requires k == Shrink(n) && t - 30.0 <= 70.0 * k
    ensures EnoughFor(n, t)
  {
    var m := n as real + 10.0;
    OverTimes(n as real, m);
    ProductSign(70.0 * k - (t - 30.0), m);
    assert (70.0 * k) * m == 70.0 * n as real;
  }

  lemma ProductSign(x: real, y: real)
    requires x >= 0.0 && y >= 0.0
    ensures x * y >= 0.0
  {
  }

  // --- the score in numbers ------------------------------------------------

  /** The five parts of a score before rounding, in the order they are explained, and the share of its
      deviation that it keeps. */
  datatype Parts = Parts(win: real, profit: real, consistency: real, recency: real, experience: real, kept: real)

  /** A count as read: the whole number below a metric, zero for a missing or negative one. */
  predicate CountOf(n: nat, metric: Option<real>) {
    if metric.Some? && metric.value >= 0.0 then n as real <= metric.value < n as real + 1.0 else n == 0
  }

  lemma CountsMean(s: Stats) returns (wins: nat)
    ensures CountOf(Closed(s), s.closed) && CountOf(wins, s.wins)
    ensures Wins(s) <= wins && Wins(s) <= Closed(s) && (Wins(s) == wins || Wins(s) == Closed(s))
  {
    wins := Count(s.wins);
  }

  /** The win rate, shrunk towards 35 per cent by ten imagined positions, in units of twice that rate
      and at most one. */
  predicate IsWinPart(x: real, wins: nat, closed: nat) {
    var whole := 0.7 * (closed as real + 10.0);
    if wins as real + 3.5 <= whole then x * whole == wins as real + 3.5 else x == 1.0
  }

  /** Profit over profit and loss; nine tenths without a loss, half without evidence. */
  predicate IsProfitPart(x: real, factor: Option<real>, wins: nat) {
    if factor.Some? then x * (factor.value + 1.0) == factor.value else if wins > 0 then x == 0.9 else x == 0.5
  }

  predicate IsConsistencyPart(x: real, std: Option<real>, closed: nat) {
    if std.Some? && closed >= 3 then x * (1.0 + std.value) == 1.0 else x == 0.5
  }

  /** Half for a level or unknown result, rising to one with gains and falling to zero with losses. */
  predicate IsRecencyPart(x: real, pnl: Option<real>) {
    match pnl
    case None => x == 0.5
    case Some(p) => if p >= 0.0 then (2.0 * x - 1.0) * (p + 1.0) == p else (2.0 * x - 1.0) * (1.0 - p) == p
  }

  predicate IsExperiencePart(x: real, closed: nat) { x * (closed as real + 20.0) == closed as real }

  predicate IsKept(x: real, closed: nat) { x * (closed as real + 10.0) == closed as real }

  ghost predicate PartsOf(p: Parts, s: Stats) {
    && IsWinPart(p.win, Wins(s), Closed(s))
    && IsProfitPart(p.profit, s.profitFactor, Wins(s))
    && IsConsistencyPart(p.consistency, s.roiStd, Closed(s))
    && IsRecencyPart(p.recency, s.pnl30)
    && IsExperiencePart(p.experience, Closed(s))
    && IsKept(p.kept, Closed(s))
  }

  lemma WinPartMeans(wins: nat, closed: nat)
    ensures IsWinPart(WinPart(wins, closed), wins, closed)
  {
    var n := closed as real + 10.0;
    var x := ShrunkWinRate(wins, closed);
    OverTimes(wins as real + 3.5, n);
    hide Over;
    assert x * n == wins as real + 3.5;
    if x < 0.0 { ProductSign(-x, n); }
    if x <= 0.7 { ProductSign(0.7 - x, n); } else { ProductSign(x - 0.7, n); }
    assert x > 0.7 ==> (x - 0.7) * n > 0.0;
    assert (x / 0.7) * (0.7 * n) == x * n;
  }

  lemma RecencyPartMeans(pnl: Option<real>)
    ensures IsRecencyPart(RecencyPart(pnl), pnl)
  {
    if pnl.Some? {
      var p := pnl.value;
      OverTimes(p, (if p < 0.0 then -p else p) + 1.0);
      hide Over;
      assert 2.0 * RecencyPart(pnl) - 1.0 == Over(p, (if p < 0.0 then -p else p) + 1.0);
    }
  }

  lemma OtherPartsMean(s: Stats)
    requires Sane(s)
    ensures IsProfitPart(ProfitPart(s.profitFactor, Wins(s)), s.profitFactor, Wins(s))
    ensures IsConsistencyPart(ConsistencyPart(s.roiStd, Closed(s)), s.roiStd, Closed(s))
    ensures IsExperiencePart(ExperiencePart(Closed(s)), Closed(s))
    ensures IsKept(Shrink(Closed(s)), Closed(s))
  {
    if s.profitFactor.Some? { OverTimes(s.profitFactor.value, s.profitFactor.value + 1.0); }
    if s.roiStd.Some? { OverTimes(1.0, 1.0 + s.roiStd.value); }
    OverTimes(Closed(s) as real, Closed(s) as real + 20.0);
    OverTimes(Closed(s) as real, Closed(s) as real + 10.0);
  }

  /** A shown value is within half a unit of the fourth decimal. */
  predicate Shows(value: real, x: real) { x - 0.00005 <= value <= x + 0.00005 }

  lemma Round4Shows(x: real)
    ensures Shows(Round4(x), x)
  {
  }

  ghost predicate ShowsParts(components: seq<Component>, p: Parts) {
    && |components| == 6
    && Shows(components[0].value, p.win) && components[0].weight == Some(35.0)
    && Shows(components[1].value, p.profit) && components[1].weight == Some(30.0)
    && Shows(components[2].value, p.consistency) && components[2].weight == Some(15.0)
    && Shows(components[3].value, p.recency) && components[3].weight == Some(10.0)
    && Shows(components[4].value, p.experience) && components[4].weight == Some(10.0)
    && Shows(components[5].value, p.kept) && components[5].weight == None
  }

  /** The weighted sum of the five shown values, in numbers. */
  function ShownSum(c: seq<Component>): real
    requires |c| == 6
  {
    35.0 * c[0].value + 30.0 * c[1].value + 15.0 * c[2].value + 10.0 * c[3].value + 10.0 * c[4].value
  }

  /** What a wallet's answer says, in numbers: each shown value is its part, and the score is, to half a
      hundredth, thirty plus the share n / (n + 10) of what the weighted sum differs from thirty. */
  lemma {:induction false} ScoreMeans(s: Stats, score: int, components: seq<Component>)
      returns (p: Parts, exact: real)
    requires Sane(s) && ExplainsScore(s, score, components)
    ensures PartsOf(p, s) && ShowsParts(components, p)
    ensures 100.0 * exact - 0.5 <= score as real <= 100.0 * exact + 0.5
    ensures IsBlend(exact, ShownSum(components), Closed(s))
  {
    p := Parts(WinPart(Wins(s), Closed(s)), ProfitPart(s.profitFactor, Wins(s)), ConsistencyPart(s.roiStd, Closed(s)),
               RecencyPart(s.pnl30), ExperiencePart(Closed(s)), Shrink(Closed(s)));
    exact := Unclamped(s);
    EvidenceBoundsTheScore(s);
    BlendMeans(Raw(s), Closed(s));
    WinPartMeans(Wins(s), Closed(s));
    RecencyPartMeans(s.pnl30);
    OtherPartsMean(s);
    hide *;
    ShowsTerms(s, components, p, score);
  }

  predicate IsBlend(exact: real, raw: real, n: nat) {
    (exact - 30.0) * (n as real + 10.0) == n as real * (raw - 30.0)
  }

  lemma BlendMeans(raw: real, n: nat)
    ensures IsBlend(Blend(raw, Shrink(n)), raw, n)
  {
    var k, m := Shrink(n), n as real + 10.0;
    OverTimes(n as real, m);
    assert ((raw - 30.0) * k) * m == (raw - 30.0) * (k * m);
  }

  lemma ShowsTerms(s: Stats, components: seq<Component>, p: Parts, score: int)
    requires Sane(s) && ExplainsScore(s, score, components)
    requires p == Parts(WinPart(Wins(s), Closed(s)), ProfitPart(s.profitFactor, Wins(s)), ConsistencyPart(s.roiStd, Closed(s)),
                        RecencyPart(s.pnl30), ExperiencePart(Closed(s)), Shrink(Closed(s)))
    ensures ShowsParts(components, p) && ShownSum(components) == Raw(s)
  {
    Round4Shows(p.win);
    Round4Shows(p.profit);
    Round4Shows(p.consistency);
    Round4Shows(p.recency);
    Round4Shows(p.experience);
    Round4Shows(p.kept);
    hide Round4, Shows, Score, WeightedSum, Contribution, WinPart, ProfitPart, ConsistencyPart, RecencyPart, ExperiencePart;
    var t := Terms(s);
    assert components[0].value == t[0].value && components[1].value == t[1].value && components[2].value == t[2].value;
    assert components[3].value == t[3].value && components[4].value == t[4].value;
  }

  // --- monotonicity --------------------------------------------------------

  /** The profit factor a missing one counts as: nine for a record without a loss, one without
      evidence. */
  function EffectiveFactor(s: Stats): real {
    if s.profitFactor.Some? then s.profitFactor.value else if Wins(s) > 0 then 9.0 else 1.0
  }

  /** A missing dispersion, or one of fewer than three positions, counts as one. */
  function EffectiveStd(s: Stats): real {
    if s.roiStd.Some? && Closed(s) >= 3 then s.roiStd.value else 1.0
  }

  function EffectivePnl(s: Stats): real { if s.pnl30.Some? then s.pnl30.value else 0.0 }

  lemma EffectiveParts(s: Stats)
    requires Sane(s)
    ensures EffectiveFactor(s) >= 0.0 && EffectiveStd(s) >= 0.0
    ensures ProfitPart(s.profitFactor, Wins(s)) == Over(EffectiveFactor(s), EffectiveFactor(s) + 1.0)
    ensures ConsistencyPart(s.roiStd, Closed(s)) == Over(1.0, 1.0 + EffectiveStd(s))
    ensures var p := EffectivePnl(s);
      RecencyPart(s.pnl30) == 0.5 * (1.0 + Over(p, (if p < 0.0 then -p else p) + 1.0))
  {
    assert Over(9.0, 10.0) == 0.9 && Over(1.0, 2.0) == 0.5 && Over(0.0, 1.0) == 0.0;
  }

  /** Same experience, and b is nowhere worse: at least as many wins, at least the profit factor and
      the 30-day result, at most the dispersion, a missing metric counting as its neutral value. */
  predicate NowhereWorse(a: Stats, b: Stats) {
    && Closed(a) == Closed(b) && Wins(a) <= Wins(b)
    && EffectiveFactor(a) <= EffectiveFactor(b) && EffectivePnl(a) <= EffectivePnl(b) && EffectiveStd(b) <= EffectiveStd(a)
  }

  lemma PartsMonotone(a: Stats, b: Stats)
    requires Sane(a) && Sane(b) && NowhereWorse(a, b)
    ensures WinPart(Wins(a), Closed(a)) <= WinPart(Wins(b), Closed(b))
    ensures ProfitPart(a.profitFactor, Wins(a)) <= ProfitPart(b.profitFactor, Wins(b))
    ensures ConsistencyPart(a.roiStd, Closed(a)) <= ConsistencyPart(b.roiStd, Closed(b))
    ensures RecencyPart(a.pnl30) <= RecencyPart(b.pnl30)
  {
    WinPartMonotone(Wins(a), Wins(b), Closed(a));
    EffectiveParts(a);
    EffectiveParts(b);
    SquashMonotone(EffectiveFactor(a), EffectiveFactor(b));
    OverCompare(1.0, 1.0 + EffectiveStd(a), 1.0, 1.0 + EffectiveStd(b));
    SignedSquashMonotone(EffectivePnl(a), EffectivePnl(b));
  }

  lemma WinPartMonotone(v: nat, w: nat, closed: nat)
    requires v <= w
    ensures WinPart(v, closed) <= WinPart(w, closed)
  {
    var n := closed as real + 10.0;
    ProductSign(w as real - v as real, n);
    OverCompare(v as real + 3.5, n, w as real + 3.5, n);
  }

  lemma SquashMonotone(x: real, y: real)
    requires 0.0 <= x <= y
    ensures Over(x, x + 1.0) <= Over(y, y + 1.0)
  {
    assert x * (y + 1.0) <= y * (x + 1.0) by { assert x * (y + 1.0) == x * y + x; }
    OverCompare(x, x + 1.0, y, y + 1.0);
  }

  lemma SignedSquashMonotone(x: real, y: real)
    requires x <= y
    ensures Over(x, (if x < 0.0 then -x else x) + 1.0) <= Over(y, (if y < 0.0 then -y else y) + 1.0)
  {
    if x >= 0.0 {
      SquashMonotone(x, y);
    } else if y < 0.0 {
      SquashMonotone(-y, -x);
      OverNegates(x, -x + 1.0);
      OverNegates(y, -y + 1.0);
    } else {
      OverBounds(-x, -x + 1.0);
      OverNegates(x, -x + 1.0);
      OverBounds(y, y + 1.0);
    }
  }

  /** A wallet that is nowhere worse never gets the lower stored score, through every rounding step:
      the score rises with wins, profit factor and 30-day result and falls with dispersion. */
  lemma {:induction false} NowhereWorseNeverScoresLower(a: Stats, b: Stats)
    requires Sane(a) && Sane(b) && NowhereWorse(a, b)
    ensures Score(a) <= Score(b)
  {
    PartsMonotone(a, b);
    Round4Monotone(WinPart(Wins(a), Closed(a)), WinPart(Wins(b), Closed(b)));
    Round4Monotone(ProfitPart(a.profitFactor, Wins(a)), ProfitPart(b.profitFactor, Wins(b)));
    Round4Monotone(ConsistencyPart(a.roiStd, Closed(a)), ConsistencyPart(b.roiStd, Closed(b)));
    Round4Monotone(RecencyPart(a.pnl30), RecencyPart(b.pnl30));
    assert Raw(a) <= Raw(b);
    OverBounds(Closed(a) as real, Closed(a) as real + 10.0);
    BlendMonotone(Raw(a), Raw(b), Shrink(Closed(a)));
    assert Clamp(Unclamped(a)) <= Clamp(Unclamped(b));
    QuantizeMonotone(100.0 * Clamp(Unclamped(a)), 100.0 * Clamp(Unclamped(b)));
  }

  lemma BlendMonotone(x: real, y: real, k: real)
    requires x <= y && k >= 0.0
    ensures Blend(x, k) <= Blend(y, k)
  {
    assert (y - x) * k >= 0.0;
  }

  /** A record without a loss scores below the same record with profit factor p only if p exceeds nine:
      the cap of 0.9 on an undefeated record is what a factor of nine earns. */
  lemma {:induction false} UndefeatedScoresBelowExactly(s: Stats)
    requires Sane(s) && s.profitFactor.Some? && Wins(s) > 0
    ensures var undefeated := s.(profitFactor := None);
      && (ProfitPart(None, Wins(s)) < ProfitPart(s.profitFactor, Wins(s)) <==> s.profitFactor.value > 9.0)
      && (s.profitFactor.value <= 9.0 ==> Score(s) <= Score(undefeated))
      && (s.profitFactor.value >= 9.0 ==> Score(undefeated) <= Score(s))
  {
    var undefeated := s.(profitFactor := None);
    var p := s.profitFactor.value;
    SquashAgainstNine(p);
    assert Wins(undefeated) == Wins(s) && Closed(undefeated) == Closed(s);
    if p <= 9.0 { NowhereWorseNeverScoresLower(s, undefeated); }
    if p >= 9.0 { NowhereWorseNeverScoresLower(undefeated, s); }
  }

  lemma SquashAgainstNine(p: real)
    requires p >= 0.0
    ensures 0.9 < Over(p, p + 1.0) <==> p > 9.0
  {
    OverTimes(p, p + 1.0);
    var q := Over(p, p + 1.0);
    if q <= 0.9 { ProductSign(0.9 - q, p + 1.0); }
    if p <= 9.0 { OverCompare(p, p + 1.0, 9.0, 10.0); assert Over(9.0, 10.0) == 0.9; }
  }

  /** The reversal shows in the stored score: from ten closed positions on, a profit factor of 99 beats
      the undefeated record. */
  lemma {:induction false} UndefeatedCanScoreLower(s: Stats)
    requires Sane(s) && s.profitFactor == Some(99.0) && Wins(s) > 0 && Closed(s) >= 10
    ensures Score(s.(profitFactor := None)) < Score(s)
  {
    var undefeated := s.(profitFactor := None);
    assert Wins(undefeated) == Wins(s) && Closed(undefeated) == Closed(s);
    RoundedProfits();
    assert Raw(s) == Raw(undefeated) + 2.7;
    HalfShrink(Closed(s));
    BlendGap(Raw(undefeated), Raw(s), Shrink(Closed(s)));
    EvidenceBoundsTheScore(s);
    EvidenceBoundsTheScore(undefeated);
    StoredGap(Unclamped(undefeated), Unclamped(s));
  }

  lemma RoundedProfits()
    ensures Round4(Over(99.0, 99.0 + 1.0)) == 0.99 && Round4(0.9) == 0.9
  {
    assert Over(99.0, 100.0) * 10000.0 == 9900.0;
    QuantizeWhole(9900);
    QuantizeWhole(9000);
  }

  lemma HalfShrink(n: nat)
    requires n >= 10
    ensures Shrink(n) >= 0.5
  {
    OverCompare(1.0, 2.0, n as real, n as real + 10.0);
    assert Over(1.0, 2.0) == 0.5;
  }

  lemma BlendGap(x: real, y: real, k: real)
    requires y == x + 2.7 && k >= 0.5
    ensures Blend(y, k) >= Blend(x, k) + 1.0
  {
    assert Blend(y, k) == Blend(x, k) + 2.7 * k;
  }

  lemma StoredGap(x: real, y: real)
    requires 0.0 <= x && y <= 100.0 && y >= x + 1.0
    ensures Stored(x) < Stored(y)
  {
  }
}
