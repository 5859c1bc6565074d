/** Learned weights of the token-risk engine: tuning them (analytics/risk_learning.py), loading them
    back and scoring with them (decision/token_risk.py).  A component is its position in the table of
    base weights. */
module RiskWeights {
  import opened Numbers
  import opened Options

  const MIN_RUGS := 10
  const CHURN_THRESHOLD := 0.01

  const BASE_WEIGHTS: seq<real> := [0.20, 0.20, 0.15, 0.15, 0.15, 0.15]

  /** The bounds of a learned weight: half and twice its base. */
  function Lower(base: real): real { 0.5 * base }

  function Upper(base: real): real { 2.0 * base }

  function Sum(s: seq<real>): real {
    if s == [] then 0.0 else Sum(s[..|s| - 1]) + s[|s| - 1]
  }

  /** What the tuner and the loader need of the base weights. */
  ghost predicate GoodBase(base: seq<real>) {
    && Sum(base) == 1.0
    && forall i :: 0 <= i < |base| ==> base[i] > 0.0
  }

  lemma BaseIsGood()
    ensures GoodBase(BASE_WEIGHTS) && |BASE_WEIGHTS| == 6
  {
    var b := BASE_WEIGHTS;
    assert b[..5][..4] == b[..4] && b[..4][..3] == b[..3] && b[..3][..2] == b[..2] && b[..2][..1] == b[..1];
    assert Sum(b) == Sum(b[..5]) + 0.15;
    assert Sum(b[..5]) == Sum(b[..4]) + 0.15;
    assert Sum(b[..4]) == Sum(b[..3]) + 0.15;
    assert Sum(b[..3]) == Sum(b[..2]) + 0.15;
    assert Sum(b[..2]) == Sum(b[..1]) + 0.20;
    assert b[..1][..0] == [];
    assert Sum(b[..1]) == 0.20;
  }

  // --- numbers as the store can hold them ---------------------------------

  datatype Float = Finite(r: real) | PosInf | NegInf | NaN

  predicate Less(a: Float, b: Float) {
    match (a, b)
    case (NaN, _) => false
    case (_, NaN) => false
    case (Finite(x), Finite(y)) => x < y
    case (NegInf, _) => !b.NegInf?
    case (_, PosInf) => !a.PosInf?
    case _ => false
  }

  /** Python's `min` and `max` keep their first argument unless the second compares strictly. */
  function PyMin(a: Float, b: Float): Float { if Less(b, a) then b else a }

  function PyMax(a: Float, b: Float): Float { if Less(a, b) then b else a }

  function Clamp(x: Float, lo: real, hi: real): Float { PyMax(Finite(lo), PyMin(Finite(hi), x)) }

  function ClampReal(x: real, lo: real, hi: real): real {
    var y := if x < hi then x else hi;
    if lo < y then y else lo
  }

  /** Clamping yields a real number within the bounds, even for the infinities and for NaN (which ends
      at the upper bound), and leaves a number that was within them alone. */
  lemma ClampIsFinite(x: Float, lo: real, hi: real)
    requires lo <= hi
    ensures Clamp(x, lo, hi).Finite? && lo <= Clamp(x, lo, hi).r <= hi
    ensures x.Finite? ==> Clamp(x, lo, hi).r == ClampReal(x.r, lo, hi)
    ensures x.NaN? ==> Clamp(x, lo, hi).r == hi
  {
  }

  // --- loading -------------------------------------------------------------

  /** The entry under a component's name: absent, something `float` rejects, an integer too large for
      a float, or a number. */
  datatype Field = Absent | Unparsable | TooLarge | Number(value: Float)

  /** The stored text: none, one that is not a mapping of the expected shape, one nested more deeply than
      the JSON parser recurses, one whose version is infinite, or a version with an entry for each
      component. */
  datatype Stored = Nothing | Malformed | TooDeep | InfiniteVersion | Payload(version: int, learned: seq<Field>)

  datatype Clamped = Clamped(weights: seq<real>) | Rejected | Overflowed

  /** The comprehension over the components, in order; the first entry that raises ends it. */
  function ClampAll(base: seq<real>, learned: seq<Field>): Clamped
    requires |learned| == |base|
  {
    if base == [] then Clamped([])
    else
      var n := |base| - 1;
      match ClampAll(base[..n], learned[..n])
      case Clamped(front) =>
        (match learned[n]
         case Unparsable => Rejected
         case TooLarge => Overflowed
         case Absent => Clamped(front + [ClampEntry(base[n], Finite(base[n]))])
         case Number(x) => Clamped(front + [ClampEntry(base[n], x)]))
      case raised => raised
  }

  function ClampEntry(base: real, x: Float): real {
    match Clamp(x, Lower(base), Upper(base))
    case Finite(r) => r
    case _ => base
  }

  datatype Loaded = Loaded(weights: seq<real>, version: int) | Raised

  function Load(base: seq<real>, stored: Stored): Loaded
    requires stored.Payload? ==> |stored.learned| == |base|
  {
    match stored
    case Nothing => Loaded(base, 0)
    case Malformed => Loaded(base, 0)
    case TooDeep => Raised
    case InfiniteVersion => Raised
    case Payload(version, learned) =>
      match ClampAll(base, learned)
      case Rejected => Loaded(base, 0)
      case Overflowed => Raised
      case Clamped(weights) =>
        if Sum(weights) <= 0.0 then Loaded(base, 0) else Loaded(Normalised(weights), version)
  }

  function Share(x: real, total: real): real
    requires total != 0.0
  {
    x / total
  }

  function Normalised(s: seq<real>): seq<real>
    requires Sum(s) != 0.0
  {
    seq(|s|, i requires 0 <= i < |s| => Share(s[i], Sum(s)))
  }

  /** Each weight lies between half and twice its base. */
  ghost predicate WithinFactors(base: seq<real>, w: seq<real>) {
    |w| == |base| && forall i :: 0 <= i < |base| ==> Within(base[i], w[i])
  }

  predicate Within(base: real, w: real) { Lower(base) <= w <= Upper(base) }

  /** The loader raises exactly when the text is nested too deeply, the version is infinite, or an entry
      too large for a float comes before any entry that `float` rejects. */
  ghost predicate Overflows(stored: Stored) {
    stored.TooDeep? || stored.InfiniteVersion? || (stored.Payload? && exists i :: OverflowAt(stored.learned, i))
  }

  ghost predicate NoneRejected(learned: seq<Field>, n: nat)
    requires n <= |learned|
  {
    forall j :: 0 <= j < n ==> !learned[j].Unparsable?
  }

  lemma ClampEntryBounds(base: real, x: Float)
    requires base > 0.0
    ensures Lower(base) <= ClampEntry(base, x) <= Upper(base)
    ensures x.Finite? ==> ClampEntry(base, x) == ClampReal(x.r, Lower(base), Upper(base))
  {
    ClampIsFinite(x, Lower(base), Upper(base));
  }

  ghost predicate NoneTooLarge(learned: seq<Field>, n: nat)
    requires n <= |learned|
  {
    forall j :: 0 <= j < n ==> !learned[j].TooLarge?
  }

  ghost predicate OverflowAt(learned: seq<Field>, i: int) {
    0 <= i < |learned| && learned[i].TooLarge? && NoneRejected(learned, i)
  }

  ghost predicate RejectAt(learned: seq<Field>, i: int) {
    0 <= i < |learned| && learned[i].Unparsable? && NoneTooLarge(learned, i)
  }

  ghost predicate EntriesClamped(base: seq<real>, learned: seq<Field>, w: seq<real>)
    requires |learned| == |base|
  {
    && |w| == |base|
    && NoneRejected(learned, |learned|) && NoneTooLarge(learned, |learned|)
    && forall i :: 0 <= i < |base| ==>
      w[i] == ClampEntry(base[i], if learned[i].Number? then learned[i].value else Finite(base[i]))
  }

  lemma {:induction false} ClampAllMeans(base: seq<real>, learned: seq<Field>)
    requires |learned| == |base|
    ensures match ClampAll(base, learned)
      case Clamped(w) => EntriesClamped(base, learned, w)
      case Overflowed => exists i :: OverflowAt(learned, i)
      case Rejected => exists i :: RejectAt(learned, i)
  {
    if base != [] {
      var n := |base| - 1;
      ClampAllMeans(base[..n], learned[..n]);
      match ClampAll(base[..n], learned[..n])
      case Overflowed =>
        var i :| OverflowAt(learned[..n], i);
        PrefixNoneRejected(learned, n, i);
        assert OverflowAt(learned, i);
      case Rejected =>
        var i :| RejectAt(learned[..n], i);
        PrefixNoneTooLarge(learned, n, i);
        assert RejectAt(learned, i);
      case Clamped(front) =>
        PrefixNoneRejected(learned, n, n);
        PrefixNoneTooLarge(learned, n, n);
        if learned[n].TooLarge? { assert OverflowAt(learned, n); }
        if learned[n].Unparsable? { assert RejectAt(learned, n); }
    }
  }

  lemma PrefixNoneRejected(learned: seq<Field>, n: nat, i: nat)
    requires i <= n <= |learned| && NoneRejected(learned[..n], i)
    ensures NoneRejected(learned, i)
  {
    forall j | 0 <= j < i ensures !learned[j].Unparsable? { assert learned[j] == learned[..n][j]; }
  }

  lemma PrefixNoneTooLarge(learned: seq<Field>, n: nat, i: nat)
    requires i <= n <= |learned| && NoneTooLarge(learned[..n], i)
    ensures NoneTooLarge(learned, i)
  {
    forall j | 0 <= j < i ensures !learned[j].TooLarge? { assert learned[j] == learned[..n][j]; }
  }

  lemma BoundsOfEntries(base: seq<real>, learned: seq<Field>, w: seq<real>)
    requires |learned| == |base| && EntriesClamped(base, learned, w)
    requires forall i :: 0 <= i < |base| ==> base[i] > 0.0
    ensures WithinFactors(base, w)
  {
    forall i | 0 <= i < |base| ensures Within(base[i], w[i]) {
      ClampEntryBounds(base[i], if learned[i].Number? then learned[i].value else Finite(base[i]));
    }
  }

  // --- sums ----------------------------------------------------------------

  lemma {:induction false} SumCompare(a: seq<real>, b: seq<real>, k: real)
    requires |a| == |b| && forall i :: 0 <= i < |a| ==> k * a[i] <= b[i]
    ensures k * Sum(a) <= Sum(b)
  {
    if a != [] {
      var n := |a| - 1;
      SumCompare(a[..n], b[..n], k);
      assert k * (Sum(a[..n]) + a[n]) == k * Sum(a[..n]) + k * a[n];
    }
  }

  lemma {:induction false} SumOfShares(s: seq<real>, t: seq<real>, total: real)
    requires total != 0.0 && |t| == |s| && forall i :: 0 <= i < |s| ==> t[i] == Share(s[i], total)
    ensures Sum(t) == Share(Sum(s), total)
  {
    if s != [] {
      var n := |s| - 1;
      SumOfShares(s[..n], t[..n], total);
      ShareOfSum(Sum(s[..n]), s[n], total);
    }
  }

  lemma ShareOfSum(x: real, y: real, total: real)
    requires total != 0.0
    ensures Share(x + y, total) == Share(x, total) + Share(y, total)
  {
  }

  lemma ShareTimes(x: real, total: real)
    requires total != 0.0
    ensures Share(x, total) * total == x
  {
  }

  lemma NormalisedSumsToOne(s: seq<real>)
    requires Sum(s) != 0.0
    ensures Sum(Normalised(s)) == 1.0
  {
    SumOfShares(s, Normalised(s), Sum(s));
    ShareOfWhole(Sum(s));
  }

  lemma ShareOfWhole(x: real)
    requires x != 0.0
    ensures Share(x, x) == 1.0
  {
  }

  /** Weights within half and twice a base that sums to one sum to between 1/2 and 2. */
  lemma TotalWithinFactors(base: seq<real>, w: seq<real>)
    requires GoodBase(base) && WithinFactors(base, w)
    ensures 0.5 <= Sum(w) <= 2.0
  {
    SumCompare(base, w, 0.5);
    SumCompare(w, base, 0.5);
  }

  // --- what the loader guarantees ------------------------------------------

  /** Any two weights keep the ratio of their bases within a factor of four. */
  ghost predicate KeepsRatios(base: seq<real>, w: seq<real>)
    requires |w| == |base|
  {
    forall i, j :: 0 <= i < |base| && 0 <= j < |base| ==> RatioKept(base[i], base[j], w[i], w[j])
  }

  predicate RatioKept(bi: real, bj: real, wi: real, wj: real) { wi * bj <= 4.0 * (wj * bi) }

  ghost predicate GoodWeights(base: seq<real>, w: seq<real>) {
    && |w| == |base| && Sum(w) == 1.0
    && (forall i :: 0 <= i < |base| ==> w[i] > 0.0 && 0.25 * base[i] <= w[i] <= 4.0 * base[i])
    && KeepsRatios(base, w)
  }

  lemma NormalisedIsGood(base: seq<real>, c: seq<real>)
    requires GoodBase(base) && WithinFactors(base, c)
    ensures Sum(c) > 0.0 && GoodWeights(base, Normalised(c))
  {
    TotalWithinFactors(base, c);
    NormalisedSumsToOne(c);
    var t := Sum(c);
    forall i | 0 <= i < |base|
      ensures Normalised(c)[i] > 0.0 && 0.25 * base[i] <= Normalised(c)[i] <= 4.0 * base[i]
    {
      ShareBounds(base[i], c[i], t);
    }
    forall i, j | 0 <= i < |base| && 0 <= j < |base|
      ensures RatioKept(base[i], base[j], Normalised(c)[i], Normalised(c)[j])
    {
      ShareRatio(base[i], base[j], c[i], c[j], t);
    }
  }

  lemma ShareBounds(b: real, c: real, t: real)
    requires b > 0.0 && 0.5 * b <= c <= 2.0 * b && 0.5 <= t <= 2.0
    ensures Share(c, t) > 0.0 && 0.25 * b <= Share(c, t) <= 4.0 * b
  {
    ShareTimes(c, t);
    NonNegativeProduct(4.0 * b, t - 0.5);
    CancelPositive(Share(c, t), 4.0 * b, t);
    NonNegativeProduct(0.25 * b, 2.0 - t);
    CancelPositive(0.25 * b, Share(c, t), t);
  }

  lemma NonNegativeProduct(x: real, y: real)
    requires x >= 0.0 && y >= 0.0
    ensures x * y >= 0.0
  {
  }

  lemma ShareRatio(bi: real, bj: real, ci: real, cj: real, t: real)
    requires bi > 0.0 && bj > 0.0 && t > 0.0
    requires 0.0 < ci <= 2.0 * bi && 0.5 * bj <= cj
    ensures RatioKept(bi, bj, Share(ci, t), Share(cj, t))
  {
    assert ci * bj <= 4.0 * (cj * bi) by {
      NonNegativeProduct(2.0 * bi - ci, bj);
      NonNegativeProduct(cj - 0.5 * bj, bi);
    }
    var p, q := Share(ci, t) * bj, 4.0 * (Share(cj, t) * bi);
    ShareTimes(ci, t);
    ShareTimes(cj, t);
    assert p * t == ci * bj by { assert p * t == (Share(ci, t) * t) * bj; }
    assert q * t == 4.0 * (cj * bi) by { assert q * t == 4.0 * ((Share(cj, t) * t) * bi); }
    CancelPositive(p, q, t);
  }

  lemma CancelPositive(p: real, q: real, t: real)
    requires t > 0.0 && p * t <= q * t
    ensures p <= q
  {
    assert (q - p) * t >= 0.0;
  }

  lemma BaseIsGoodWeights(base: seq<real>)
    requires GoodBase(base)
    ensures GoodWeights(base, base)
  {
    forall i, j | 0 <= i < |base| && 0 <= j < |base| ensures RatioKept(base[i], base[j], base[i], base[j]) {
      NonNegativeProduct(base[i], base[j]);
    }
  }

  /** Whatever the store holds: if loading returns, the effective weights are positive, sum to one and
      keep every base ratio within a factor of four; and it fails to return exactly on an overflow. */
  lemma LoadedWeightsAreGood(base: seq<real>, stored: Stored)
    requires GoodBase(base) && (stored.Payload? ==> |stored.learned| == |base|)
    ensures Load(base, stored).Raised? <==> Overflows(stored)
    ensures Load(base, stored).Loaded? ==> GoodWeights(base, Load(base, stored).weights)
  {
    BaseIsGoodWeights(base);
    if stored.Payload? {
      ClampAllMeans(base, stored.learned);
      match ClampAll(base, stored.learned)
      case Clamped(w) =>
        BoundsOfEntries(base, stored.learned, w);
        NormalisedIsGood(base, w);
      case Rejected =>
      case Overflowed =>
    }
  }

  /** One entry with an integer too large for a float makes loading raise, unless an entry that `float`
      rejects comes first: then the base weights apply. */
  lemma OversizedEntryRaises()
    ensures Load(BASE_WEIGHTS, Payload(1, [Absent, TooLarge, Unparsable, Absent, Absent, Absent])).Raised?
    ensures Load(BASE_WEIGHTS, Payload(1, [Absent, Unparsable, TooLarge, Absent, Absent, Absent])) == Loaded(BASE_WEIGHTS, 0)
  {
    BaseIsGood();
    var raising := [Absent, TooLarge, Unparsable, Absent, Absent, Absent];
    LoadedWeightsAreGood(BASE_WEIGHTS, Payload(1, raising));
    assert OverflowAt(raising, 1);
    var rejected := [Absent, Unparsable, TooLarge, Absent, Absent, Absent];
    LoadedWeightsAreGood(BASE_WEIGHTS, Payload(1, rejected));
    ClampAllMeans(BASE_WEIGHTS, rejected);
    forall i ensures !OverflowAt(rejected, i) {
      assert rejected[1].Unparsable?;
    }
  }

  /** What an entry is clamped to, bound by bound. */
  predicate EntryClamped(base: real, field: Field, c: real) {
    match field
    case Absent => c == base
    case Number(Finite(r)) => if 2.0 * r < base then 2.0 * c == base else if r > 2.0 * base then c == 2.0 * base else c == r
    case Number(NegInf) => 2.0 * c == base
    case Number(_) => c == 2.0 * base
    case _ => false
  }

  lemma ClampEntryMeans(base: real, field: Field)
    requires base > 0.0 && (field.Absent? || field.Number?)
    ensures EntryClamped(base, field, ClampEntry(base, if field.Number? then field.value else Finite(base)))
  {
  }

  /** x is to y as a is to b. */
  predicate InProportion(x: real, y: real, a: real, b: real) { x * b == y * a }

  lemma ShareCross(x: real, y: real, total: real)
    requires total != 0.0
    ensures InProportion(Share(x, total), Share(y, total), x, y)
  {
    ShareTimes(x, total);
    ShareTimes(y, total);
    var u, v := Share(x, total), Share(y, total);
    assert u * (v * total) == v * (u * total);
  }

  /** Entries that all read: the effective weights add up to one and are to each other as the clamped
      entries, an absent one standing for its base.  Nothing stored, a text of another shape, or an
      entry `float` rejects before any too large for it, gives the base weights as version 0. */
  lemma LoadedFollowsTheEntries(base: seq<real>, version: int, learned: seq<Field>) returns (c: seq<real>)
    requires GoodBase(base) && |learned| == |base|
    requires forall i :: 0 <= i < |base| ==> learned[i].Absent? || learned[i].Number?
    ensures |c| == |base| && forall i :: 0 <= i < |base| ==> EntryClamped(base[i], learned[i], c[i])
    ensures var loaded := Load(base, Payload(version, learned));
      && loaded.Loaded? && loaded.version == version
      && |loaded.weights| == |base| && Sum(loaded.weights) == 1.0
      && forall i, j :: 0 <= i < |base| && 0 <= j < |base| ==> InProportion(loaded.weights[i], loaded.weights[j], c[i], c[j])
  {
    c := ClampsEntries(base, version, learned);
    hide *;
    NormalisedIsGood(base, c);
    GoodSum(base, Normalised(c));
    NormalisedInProportion(c);
  }

  lemma GoodSum(base: seq<real>, w: seq<real>)
    requires GoodWeights(base, w)
    ensures |w| == |base| && Sum(w) == 1.0
  {
  }

  lemma NormalisedInProportion(c: seq<real>)
    requires Sum(c) != 0.0
    ensures |Normalised(c)| == |c|
    ensures forall i, j :: 0 <= i < |c| && 0 <= j < |c| ==> InProportion(Normalised(c)[i], Normalised(c)[j], c[i], c[j])
  {
    hide InProportion, Share, Sum;
    forall i, j | 0 <= i < |c| && 0 <= j < |c| ensures InProportion(Normalised(c)[i], Normalised(c)[j], c[i], c[j]) {
      ShareCross(c[i], c[j], Sum(c));
    }
  }

  lemma ClampsEntries(base: seq<real>, version: int, learned: seq<Field>) returns (c: seq<real>)
    requires GoodBase(base) && |learned| == |base|
    requires forall i :: 0 <= i < |base| ==> learned[i].Absent? || learned[i].Number?
    ensures |c| == |base| && forall i :: 0 <= i < |base| ==> EntryClamped(base[i], learned[i], c[i])
    ensures WithinFactors(base, c) && Sum(c) > 0.0
    ensures Load(base, Payload(version, learned)) == Loaded(Normalised(c), version)
  {
    ClampAllMeans(base, learned);
    c := ClampAll(base, learned).weights;
    BoundsOfEntries(base, learned, c);
    TotalWithinFactors(base, c);
    hide ClampAll, Normalised, Sum, WithinFactors, EntryClamped, ClampEntry;
    forall i | 0 <= i < |base| ensures EntryClamped(base[i], learned[i], c[i]) {
      ClampEntryMeans(base[i], learned[i]);
    }
  }

  lemma UnreadableFallsBack(base: seq<real>, version: int, learned: seq<Field>, i: nat)
    requires |learned| == |base| && i < |learned| && learned[i].Unparsable?
    requires forall j :: 0 <= j < i ==> !learned[j].TooLarge?
    ensures Load(base, Payload(version, learned)) == Loaded(base, 0)
    ensures Load(base, Nothing) == Loaded(base, 0) && Load(base, Malformed) == Loaded(base, 0)
  {
    ClampAllMeans(base, learned);
  }

  // --- scoring -------------------------------------------------------------

  function Weighed(score: real, weight: real): real { score * weight }

  /** The weighted composite of the component scores. */
  function Composite(scores: seq<real>, w: seq<real>): real
    requires |scores| == |w|
  {
    if scores == [] then 0.0
    else
      var n := |scores| - 1;
      Composite(scores[..n], w[..n]) + Weighed(scores[n], w[n])
  }

  lemma {:induction false} CompositeCompare(scores: seq<real>, v: seq<real>, w: seq<real>, k: real)
    requires |scores| == |v| == |w|
    requires forall i :: 0 <= i < |v| ==> scores[i] >= 0.0 && v[i] <= k * w[i]
    ensures Composite(scores, v) <= k * Composite(scores, w)
  {
    if scores != [] {
      var n := |scores| - 1;
      CompositeCompare(scores[..n], v[..n], w[..n], k);
      TermCompare(scores[n], v[n], w[n], k);
      assert k * (Composite(scores[..n], w[..n]) + Weighed(scores[n], w[n]))
        == k * Composite(scores[..n], w[..n]) + k * Weighed(scores[n], w[n]);
    }
  }

  lemma TermCompare(x: real, v: real, w: real, k: real)
    requires x >= 0.0 && v <= k * w
    ensures Weighed(x, v) <= k * Weighed(x, w)
  {
    NonNegativeProduct(x, k * w - v);
    assert x * (k * w) == k * (x * w);
  }

  lemma {:induction false} CompositeBounds(scores: seq<real>, w: seq<real>)
    requires |scores| == |w|
    requires forall i :: 0 <= i < |w| ==> 0.0 <= scores[i] <= 100.0 && w[i] >= 0.0
    ensures 0.0 <= Composite(scores, w) <= 100.0 * Sum(w)
  {
    if scores != [] {
      var n := |scores| - 1;
      CompositeBounds(scores[..n], w[..n]);
      NonNegativeProduct(scores[n], w[n]);
      NonNegativeProduct(100.0 - scores[n], w[n]);
      assert 100.0 * (Sum(w[..n]) + w[n]) == 100.0 * Sum(w[..n]) + 100.0 * w[n];
    }
  }

  /** With loaded weights the composite of scores in [0, 100] is in [0, 100], so its clamp never acts,
      and it is within a factor of four of the composite under the base weights. */
  lemma {:induction false} LearnedCompositeIsBounded(base: seq<real>, stored: Stored, scores: seq<real>)
    requires GoodBase(base) && |scores| == |base| && (stored.Payload? ==> |stored.learned| == |base|)
    requires Load(base, stored).Loaded?
    requires forall i :: 0 <= i < |scores| ==> 0.0 <= scores[i] <= 100.0
    ensures var w := Load(base, stored).weights;
      && |w| == |base|
      && 0.0 <= Composite(scores, w) <= 100.0
      && ClampReal(Composite(scores, w), 0.0, 100.0) == Composite(scores, w)
      && Composite(scores, w) <= 4.0 * Composite(scores, base)
      && Composite(scores, base) <= 4.0 * Composite(scores, w)
  {
    LoadedWeightsAreGood(base, stored);
    hide *;
    GoodCompositeIsBounded(base, Load(base, stored).weights, scores);
  }

  lemma GoodCompositeIsBounded(base: seq<real>, w: seq<real>, scores: seq<real>)
    requires GoodBase(base) && |scores| == |base| && GoodWeights(base, w)
    requires forall i :: 0 <= i < |scores| ==> 0.0 <= scores[i] <= 100.0
    ensures |w| == |base|
    ensures 0.0 <= Composite(scores, w) <= 100.0
    ensures ClampReal(Composite(scores, w), 0.0, 100.0) == Composite(scores, w)
    ensures Composite(scores, w) <= 4.0 * Composite(scores, base)
    ensures Composite(scores, base) <= 4.0 * Composite(scores, w)
  {
    hide Composite, Sum, KeepsRatios;
    CompositeBounds(scores, w);
    CompositeCompare(scores, w, base, 4.0);
    CompositeCompare(scores, base, w, 4.0);
  }

  class RiskComponent {
    const name: nat
    const score: real
    var weight: real

    constructor (name: nat, score: real)
      ensures this.name == name && this.score == score
    {
      this.name, this.score, weight := name, score, 0.0;
    }
  }

  /** The components in the order of the table of base weights. */
  ghost predicate OnePerName(components: seq<RiskComponent>) {
    forall i :: 0 <= i < |components| ==> components[i].name == i
  }

  function ScoresOf(components: seq<RiskComponent>): seq<real> {
    seq(|components|, i requires 0 <= i < |components| => components[i].score)
  }

  /** The fresh assessment of a token: the clamped composite, with every component stamped with the
      weight that was applied to it. */
  method Assess(components: seq<RiskComponent>, weights: seq<real>) returns (score: real)
    requires |weights| == |components| && OnePerName(components)
    modifies set c | c in components
    ensures score == ClampReal(Composite(ScoresOf(components), weights), 0.0, 100.0)
    ensures forall i :: 0 <= i < |components| ==> components[i].weight == weights[i]
  {
    var scores := ScoresOf(components);
    var sum := 0.0;
    var i := 0;
    while i < |components|
      invariant 0 <= i <= |components|
      invariant sum == Composite(scores[..i], weights[..i])
    {
      CompositeOfOneMore(scores[..i], weights[..i], scores[i], weights[i]);
      assert scores[..i + 1] == scores[..i] + [scores[i]] && weights[..i + 1] == weights[..i] + [weights[i]];
      sum := sum + Weighed(components[i].score, weights[components[i].name]);
      i := i + 1;
    }
    assert scores[..i] == scores && weights[..i] == weights;
    score := ClampReal(sum, 0.0, 100.0);
    i := 0;
    while i < |components|
      invariant 0 <= i <= |components|
      invariant forall k :: 0 <= k < i ==> components[k].weight == weights[k]
    {
      components[i].weight := weights[components[i].name];
      i := i + 1;
    }
  }

  lemma CompositeOfOneMore(scores: seq<real>, w: seq<real>, x: real, v: real)
    requires |scores| == |w|
    ensures Composite(scores + [x], w + [v]) == Composite(scores, w) + Weighed(x, v)
  {
    hide Weighed;
    var s, u, n := scores + [x], w + [v], |scores|;
    assert s[..n] == scores && u[..n] == w && s[n] == x && u[n] == v;
  }

  /** The composite of the six components is the sum of six products of score and weight. */
  lemma CompositeOfSix(s: seq<real>, w: seq<real>, t: seq<real>)
    requires |s| == |w| == |t| == 6
    requires forall n :: 0 <= n < 6 ==> IsTimes(t[n], s[n], w[n])
    ensures Composite(s, w) == t[0] + t[1] + t[2] + t[3] + t[4] + t[5]
  {
    hide Composite, IsTimes;
    forall n | 0 <= n < 6 ensures Composite(s[..n + 1], w[..n + 1]) == Composite(s[..n], w[..n]) + t[n] {
      CompositeStep(s, w, n, t[n]);
    }
    EmptyComposite(s[..0], w[..0]);
    assert s[..6] == s && w[..6] == w;
    var c := seq(7, n requires 0 <= n < 7 => Composite(s[..n], w[..n]));
    assert c[0 + 1] == c[0] + t[0] && c[1 + 1] == c[1] + t[1] && c[2 + 1] == c[2] + t[2];
    assert c[3 + 1] == c[3] + t[3] && c[4 + 1] == c[4] + t[4] && c[5 + 1] == c[5] + t[5];
  }

  lemma CompositeStep(s: seq<real>, w: seq<real>, n: nat, t: real)
    requires n < |s| == |w| && IsTimes(t, s[n], w[n])
    ensures Composite(s[..n + 1], w[..n + 1]) == Composite(s[..n], w[..n]) + t
  {
    CompositeOfOneMore(s[..n], w[..n], s[n], w[n]);
    assert s[..n + 1] == s[..n] + [s[n]] && w[..n + 1] == w[..n] + [w[n]];
  }

  lemma EmptyComposite(s: seq<real>, w: seq<real>)
    requires s == [] && w == []
    ensures Composite(s, w) == 0.0
  {
  }

  // --- tuning --------------------------------------------------------------

  /** A labelled assessment: whether the token was a rug, and the stored score of each component where
      there is a usable one. */
  datatype Row = Row(rug: bool, scores: seq<Option<real>>)

  function RowsOf(rows: seq<Row>, rug: bool): seq<Row> {
    if rows == [] then []
    else
      var last := rows[|rows| - 1];
      RowsOf(rows[..|rows| - 1], rug) + (if last.rug == rug then [last] else [])
  }

  function ScoresAt(rows: seq<Row>, i: nat): seq<real> {
    if rows == [] then []
    else
      var last := rows[|rows| - 1];
      ScoresAt(rows[..|rows| - 1], i)
      + (if i < |last.scores| && last.scores[i].Some? then [last.scores[i].value] else [])
  }

  function Mean(s: seq<real>): real { if s == [] then 0.0 else Sum(s) / |s| as real }

  /** A component that scores rugs hotter than the rest gains weight, one that does not loses it. */
  function Factor(bad: real, good: real): real { ClampReal(1.0 + (bad - good) / 100.0, Lower(1.0), Upper(1.0)) }

  function FactorAt(rows: seq<Row>, i: nat): real {
    Factor(Mean(ScoresAt(RowsOf(rows, true), i)), Mean(ScoresAt(RowsOf(rows, false), i)))
  }

  function Factors(rows: seq<Row>, n: nat): seq<real> { seq(n, i requires 0 <= i < n => FactorAt(rows, i)) }

  function Rescaled(base: real, factor: real): real { base * factor }

  function Scaled(base: seq<real>, factors: seq<real>): seq<real>
    requires |factors| == |base|
  {
    seq(|base|, i requires 0 <= i < |base| => Rescaled(base[i], factors[i]))
  }

  ghost predicate GoodFactors(factors: seq<real>) {
    forall i :: 0 <= i < |factors| ==> 0.5 <= factors[i] <= 2.0
  }

  lemma ScaledWithin(base: seq<real>, factors: seq<real>)
    requires GoodBase(base) && |factors| == |base| && GoodFactors(factors)
    ensures WithinFactors(base, Scaled(base, factors))
    ensures 0.5 <= Sum(Scaled(base, factors)) <= 2.0
  {
    forall i | 0 <= i < |base| ensures Within(base[i], Scaled(base, factors)[i]) {
      NonNegativeProduct(base[i], factors[i] - 0.5);
      NonNegativeProduct(base[i], 2.0 - factors[i]);
    }
    TotalWithinFactors(base, Scaled(base, factors));
  }

  /** The weights the tuner stores. */
  function Tuned(base: seq<real>, factors: seq<real>): seq<real>
    requires |factors| == |base|
  {
    var scaled := Scaled(base, factors);
    if Sum(scaled) == 0.0 then base else Normalised(scaled)
  }

  /** Tuned weights are positive, sum to one and keep every base ratio within a factor of four. */
  lemma TunedIsGood(base: seq<real>, factors: seq<real>)
    requires GoodBase(base) && |factors| == |base| && GoodFactors(factors)
    ensures GoodWeights(base, Tuned(base, factors))
    ensures Sum(Scaled(base, factors)) > 0.0
  {
    ScaledWithin(base, factors);
    NormalisedIsGood(base, Scaled(base, factors));
  }

  function Distance(x: real, y: real): real { if x < y then y - x else x - y }

  /** Some weight moves by at least the churn threshold. */
  ghost predicate Moves(a: seq<real>, b: seq<real>)
    requires |a| == |b|
  {
    exists i :: 0 <= i < |a| && Distance(a[i], b[i]) >= CHURN_THRESHOLD
  }

  /** Some weight rises or falls by a hundredth or more. */
  ghost predicate MovesByHundredth(a: seq<real>, b: seq<real>)
    requires |a| == |b|
  {
    exists i :: 0 <= i < |a| && (a[i] - b[i] >= 0.01 || b[i] - a[i] >= 0.01)
  }

  lemma MovesExactly(a: seq<real>, b: seq<real>)
    requires |a| == |b|
    ensures Moves(a, b) <==> MovesByHundredth(a, b)
  {
    if i :| 0 <= i < |a| && (a[i] - b[i] >= 0.01 || b[i] - a[i] >= 0.01) {
      assert Distance(a[i], b[i]) >= CHURN_THRESHOLD;
    }
  }

  method HasMoved(a: seq<real>, b: seq<real>) returns (moved: bool)
    requires |a| == |b|
    ensures moved <==> Moves(a, b)
  {
    moved := false;
    var i := 0;
    while i < |a|
      invariant 0 <= i <= |a|
      invariant moved <==> exists k :: 0 <= k < i && Distance(a[k], b[k]) >= CHURN_THRESHOLD
    {
      moved := moved || Distance(a[i], b[i]) >= CHURN_THRESHOLD;
      i := i + 1;
    }
  }

  lemma FactorsAreGood(rows: seq<Row>, n: nat)
    ensures |Factors(rows, n)| == n && GoodFactors(Factors(rows, n))
  {
  }

  /** New weights are stored exactly when learning is on, there are samples and rugs enough, and some
      weight moves far enough from its current value; they are the normalised rescaled base. */
  method TuneWeights(base: seq<real>, enabled: bool, minSamples: int, rows: seq<Row>, current: seq<real>)
    returns (stored: Option<seq<real>>)
    requires GoodBase(base) && |current| == |base|
    ensures stored.Some? <==>
      enabled && |rows| >= minSamples && |RowsOf(rows, true)| >= MIN_RUGS && Moves(Tuned(base, Factors(rows, |base|)), current)
    ensures stored.Some? ==> stored.value == Tuned(base, Factors(rows, |base|))
    ensures var w := Tuned(base, Factors(rows, |base|));
      stored.Some? <==> enabled && |rows| >= minSamples && Labelled(rows, true) >= 10 && MovesByHundredth(w, current)
  {
    RugsAreLabelled(rows);
    MovesExactly(Tuned(base, Factors(rows, |base|)), current);
    if !enabled {
      return None;
    }
    var rugRows, goodRows := RowsOf(rows, true), RowsOf(rows, false);
    if |rows| < minSamples || |rugRows| < MIN_RUGS {
      return None;
    }
    var scaled, total := Rescale(base, rugRows, goodRows, rows);
    FactorsAreGood(rows, |base|);
    TunedIsGood(base, Factors(rows, |base|));
    var weights := seq(|base|, i requires 0 <= i < |base| => Share(scaled[i], total));
    assert weights == Tuned(base, Factors(rows, |base|));
    var moved := HasMoved(weights, current);
    stored := if moved then Some(weights) else None;
  }

  method Rescale(base: seq<real>, rugRows: seq<Row>, goodRows: seq<Row>, ghost rows: seq<Row>)
    returns (scaled: seq<real>, total: real)
    requires rugRows == RowsOf(rows, true) && goodRows == RowsOf(rows, false)
    ensures scaled == Scaled(base, Factors(rows, |base|)) && total == Sum(scaled)
  {
    scaled, total := [], 0.0;
    var i := 0;
    while i < |base|
      invariant 0 <= i <= |base|
      invariant scaled == Scaled(base, Factors(rows, |base|))[..i]
      invariant total == Sum(scaled)
    {
      var value := Rescaled(base[i], Factor(Mean(ScoresAt(rugRows, i)), Mean(ScoresAt(goodRows, i))));
      assert value == Scaled(base, Factors(rows, |base|))[i];
      assert (scaled + [value])[..|scaled|] == scaled;
      total := total + value;
      scaled := scaled + [value];
      i := i + 1;
    }
  }

  // --- what is learned, in terms of the rows --------------------------------

  /** How many usable scores of a component the rugs, or the other tokens, have. */
  function Scored(rows: seq<Row>, rug: bool, i: nat): nat {
    if rows == [] then 0
    else
      var last := rows[|rows| - 1];
      Scored(rows[..|rows| - 1], rug, i) + (if last.rug == rug && i < |last.scores| && last.scores[i].Some? then 1 else 0)
  }

  /** What those scores add up to. */
  function Scores(rows: seq<Row>, rug: bool, i: nat): real {
    if rows == [] then 0.0
    else
      var last := rows[|rows| - 1];
      Scores(rows[..|rows| - 1], rug, i)
      + (if last.rug == rug && i < |last.scores| && last.scores[i].Some? then last.scores[i].value else 0.0)
  }

  /** The number of rugs, or of other tokens. */
  function Labelled(rows: seq<Row>, rug: bool): nat {
    if rows == [] then 0
    else Labelled(rows[..|rows| - 1], rug) + (if rows[|rows| - 1].rug == rug then 1 else 0)
  }

  /** The usable score of a component in one row, if there is one. */
  function Usable(x: Row, i: nat): seq<real> {
    if i < |x.scores| && x.scores[i].Some? then [x.scores[i].value] else []
  }

  lemma ScoresOfOneMore(rows: seq<Row>, x: Row, i: nat)
    ensures ScoresAt(rows + [x], i) == ScoresAt(rows, i) + Usable(x, i)
  {
    assert (rows + [x])[..|rows|] == rows;
  }

  lemma SumOfOneMore(s: seq<real>, x: real)
    ensures Sum(s + [x]) == Sum(s) + x
  {
    assert (s + [x])[..|s|] == s;
  }

  lemma {:induction false} ScoresOfRows(rows: seq<Row>, rug: bool, i: nat)
    ensures var s := ScoresAt(RowsOf(rows, rug), i);
      |s| == Scored(rows, rug, i) && Sum(s) == Scores(rows, rug, i)
    ensures |RowsOf(rows, rug)| == Labelled(rows, rug)
  {
    hide Sum, ScoresAt;
    if rows == [] {
      NothingScored(i);
    } else {
      var front, last := rows[..|rows| - 1], rows[|rows| - 1];
      ScoresOfRows(front, rug, i);
      var kept := RowsOf(front, rug);
      assert RowsOf(rows, rug) == if last.rug == rug then kept + [last] else kept;
      ScoresOfOneMore(kept, last, i);
      assert ScoresAt(kept, i) + [] == ScoresAt(kept, i);
      if i < |last.scores| && last.scores[i].Some? {
        SumOfOneMore(ScoresAt(kept, i), last.scores[i].value);
      }
    }
  }

  lemma NothingScored(i: nat)
    ensures ScoresAt([], i) == [] && Sum([]) == 0.0
  {
  }

  lemma RugsAreLabelled(rows: seq<Row>)
    ensures |RowsOf(rows, true)| == Labelled(rows, true)
  {
    ScoresOfRows(rows, true, 0);
  }

  /** `m` is the mean of `n` numbers that add up to `total`; no numbers have the mean zero. */
  predicate IsMean(m: real, n: nat, total: real) { if n == 0 then m == 0.0 else m * n as real == total }

  lemma MeanIsMean(s: seq<real>)
    ensures IsMean(Mean(s), |s|, Sum(s))
  {
    if s != [] {
      QuotientTimes(Sum(s), |s| as real);
    }
  }

  lemma FactorMeans(rugs: real, others: real)
    ensures var f := Factor(rugs, others);
      && (-50.0 <= rugs - others <= 100.0 ==> 100.0 * (f - 1.0) == rugs - others)
      && (rugs - others < -50.0 ==> f == 0.5) && (rugs - others > 100.0 ==> f == 2.0)
      && (f > 1.0 <==> rugs > others) && (f < 1.0 <==> rugs < others)
  {
  }

  /** The factor of a component follows from the mean scores of the rugs and of the other tokens: one
      point of difference is a hundredth, down to a half and up to two.  So a component gains weight
      exactly when it scores rugs hotter than the rest, and loses it exactly when it scores them
      cooler. */
  lemma FactorFollowsTheRugs(rows: seq<Row>, i: nat) returns (rugs: real, others: real)
    ensures IsMean(rugs, Scored(rows, true, i), Scores(rows, true, i))
    ensures IsMean(others, Scored(rows, false, i), Scores(rows, false, i))
    ensures var f := FactorAt(rows, i);
      && (-50.0 <= rugs - others <= 100.0 ==> 100.0 * (f - 1.0) == rugs - others)
      && (rugs - others < -50.0 ==> f == 0.5) && (rugs - others > 100.0 ==> f == 2.0)
      && (f > 1.0 <==> rugs > others) && (f < 1.0 <==> rugs < others)
  {
    rugs, others := Mean(ScoresAt(RowsOf(rows, true), i)), Mean(ScoresAt(RowsOf(rows, false), i));
    FactorMeans(rugs, others);
    hide Factor, Mean, IsMean;
    ScoresOfRows(rows, true, i);
    ScoresOfRows(rows, false, i);
    MeanIsMean(ScoresAt(RowsOf(rows, true), i));
    MeanIsMean(ScoresAt(RowsOf(rows, false), i));
  }

  /** The stored weights add up to one and are to each other as base weight times factor, which fixes
      them. */
  lemma TunedFollowsTheFactors(base: seq<real>, factors: seq<real>, scaled: seq<real>)
    requires GoodBase(base) && |scaled| == |factors| == |base| && GoodFactors(factors)
    requires forall i :: 0 <= i < |base| ==> IsTimes(scaled[i], base[i], factors[i])
    ensures var w := Tuned(base, factors);
      && |w| == |base| && Sum(w) == 1.0
      && forall i, j :: 0 <= i < |base| && 0 <= j < |base| ==> InProportion(w[i], w[j], scaled[i], scaled[j])
  {
    TunedIsGood(base, factors);
    ScaledTimes(base, factors, scaled);
    GoodSum(base, Tuned(base, factors));
    hide Sum, InProportion, Normalised, Scaled, IsTimes;
    NormalisedInProportion(scaled);
  }

  lemma ScaledTimes(base: seq<real>, factors: seq<real>, scaled: seq<real>)
    requires |scaled| == |factors| == |base|
    requires forall i :: 0 <= i < |base| ==> IsTimes(scaled[i], base[i], factors[i])
    ensures Scaled(base, factors) == scaled
  {
    forall i | 0 <= i < |base| ensures Scaled(base, factors)[i] == scaled[i] {
      assert IsTimes(scaled[i], base[i], factors[i]);
    }
  }

  // --- tuner and loader together -------------------------------------------

  function AsFields(w: seq<real>): seq<Field> { seq(|w|, i requires 0 <= i < |w| => Number(Finite(w[i]))) }

  lemma ClampAllOfWeights(base: seq<real>, w: seq<real>)
    requires |w| == |base| && forall i :: 0 <= i < |base| ==> base[i] > 0.0
    ensures ClampAll(base, AsFields(w)).Clamped?
    ensures WithinFactors(base, ClampAll(base, AsFields(w)).weights)
    ensures ClampsTo(base, w, ClampAll(base, AsFields(w)).weights)
  {
    ClampAllMeans(base, AsFields(w));
    var c := ClampAll(base, AsFields(w)).weights;
    BoundsOfEntries(base, AsFields(w), c);
    forall i | 0 <= i < |base| ensures ClampedTo(base[i], w[i], c[i]) {
      ClampEntryBounds(base[i], Finite(w[i]));
    }
  }

  lemma ShareOfOne(x: real)
    ensures Share(x, 1.0) == x
  {
  }

  lemma NormalisedOfOne(w: seq<real>)
    requires Sum(w) == 1.0
    ensures Normalised(w) == w
  {
    forall i | 0 <= i < |w| ensures Normalised(w)[i] == w[i] { ShareOfOne(w[i]); }
  }

  ghost predicate ClampsTo(base: seq<real>, w: seq<real>, c: seq<real>) {
    && |w| == |base| && |c| == |base|
    && forall i :: 0 <= i < |base| ==> ClampedTo(base[i], w[i], c[i])
  }

  predicate ClampedTo(base: real, w: real, c: real) { c == ClampReal(w, Lower(base), Upper(base)) }

  predicate IsTimes(c: real, w: real, t: real) { c == w * t }

  lemma ShrinksBy(c: real, w: real, t: real)
    requires IsTimes(c, w, t) && w > 0.0 && t < 1.0
    ensures c < w
  {
  }

  lemma GrowsBy(c: real, w: real, t: real)
    requires IsTimes(c, w, t) && w > 0.0 && t > 1.0
    ensures c > w
  {
  }

  lemma PositiveTimes(c: real, w: real, t: real)
    requires IsTimes(c, w, t) && c > 0.0 && t > 0.0
    ensures w > 0.0
  {
    if w <= 0.0 { NonNegativeProduct(-w, t); }
  }

  lemma LoweredByClamp(b: real, w: real, c: real)
    requires b > 0.0 && ClampedTo(b, w, c) && c < w
    ensures 2.0 * b <= w
  {
  }

  lemma RaisedByClamp(b: real, w: real, c: real)
    requires b > 0.0 && ClampedTo(b, w, c) && c > w
    ensures 2.0 * w <= b
  {
  }

  /** If clamping multiplied every weight by the same number, that number was one: otherwise all of
      them were clamped to the same side, and then they could not sum to one. */
  lemma ScaleIsOne(base: seq<real>, w: seq<real>, c: seq<real>, t: real)
    requires GoodBase(base) && Sum(w) == 1.0 && t > 0.0 && ClampsTo(base, w, c)
    requires forall i :: 0 <= i < |base| ==> IsTimes(c[i], w[i], t)
    ensures t == 1.0
  {
    if t < 1.0 {
      forall i | 0 <= i < |base| ensures 2.0 * base[i] <= w[i] {
        PositiveTimes(c[i], w[i], t);
        ShrinksBy(c[i], w[i], t);
        LoweredByClamp(base[i], w[i], c[i]);
      }
      SumCompare(base, w, 2.0);
    } else if t > 1.0 {
      forall i | 0 <= i < |base| ensures 2.0 * w[i] <= base[i] {
        PositiveTimes(c[i], w[i], t);
        GrowsBy(c[i], w[i], t);
        RaisedByClamp(base[i], w[i], c[i]);
      }
      SumCompare(w, base, 2.0);
    }
  }

  lemma ReclampKeeps(base: seq<real>, w: seq<real>, c: seq<real>)
    requires Sum(w) == 1.0 && ClampsTo(base, w, c) && WithinFactors(base, w)
    ensures c == w && Normalised(c) == w
  {
    forall i | 0 <= i < |base| ensures c[i] == w[i] { assert Within(base[i], w[i]) && ClampedTo(base[i], w[i], c[i]); }
    NormalisedOfOne(w);
  }

  lemma ReclampMoves(base: seq<real>, w: seq<real>, c: seq<real>)
    requires GoodBase(base) && Sum(w) == 1.0 && ClampsTo(base, w, c) && WithinFactors(base, c) && Sum(c) > 0.0
    requires Normalised(c) == w
    ensures WithinFactors(base, w)
  {
    var t := Sum(c);
    forall i | 0 <= i < |base| ensures IsTimes(c[i], w[i], t) {
      NormalisedTimes(c, i);
    }
    ScaleIsOne(base, w, c, t);
    forall i | 0 <= i < |base| ensures Within(base[i], w[i]) {
      TimesOne(c[i], w[i]);
    }
  }

  lemma NormalisedTimes(c: seq<real>, i: nat)
    requires Sum(c) != 0.0 && i < |c|
    ensures IsTimes(c[i], Normalised(c)[i], Sum(c))
  {
    ShareIsTimes(c[i], Sum(c));
    assert Normalised(c)[i] == Share(c[i], Sum(c));
  }

  lemma ShareIsTimes(x: real, total: real)
    requires total != 0.0
    ensures IsTimes(x, Share(x, total), total)
  {
  }

  lemma TimesOne(c: real, w: real)
    requires IsTimes(c, w, 1.0)
    ensures c == w
  {
  }

  /** Loading weights clamps and normalises them. */
  lemma LoadOfWeights(base: seq<real>, w: seq<real>, version: int) returns (c: seq<real>)
    requires GoodBase(base) && |w| == |base|
    ensures ClampsTo(base, w, c) && WithinFactors(base, c) && Sum(c) > 0.0
    ensures Load(base, Payload(version, AsFields(w))) == Loaded(Normalised(c), version)
  {
    ClampAllOfWeights(base, w);
    c := ClampAll(base, AsFields(w)).weights;
    TotalWithinFactors(base, c);
    hide ClampAll, Normalised, Sum, WithinFactors, ClampsTo;
  }

  /** Stored weights that sum to one are loaded back unchanged exactly when each is within half and
      twice its base. */
  lemma LoadKeepsExactly(base: seq<real>, w: seq<real>, version: int)
    requires GoodBase(base) && |w| == |base| && Sum(w) == 1.0
    ensures Load(base, Payload(version, AsFields(w))) == Loaded(w, version) <==> WithinFactors(base, w)
  {
    var c := LoadOfWeights(base, w, version);
    hide Load;
    if WithinFactors(base, w) {
      ReclampKeeps(base, w, c);
    } else if Normalised(c) == w {
      ReclampMoves(base, w, c);
    }
  }

  /** What the tuner stores comes back unchanged exactly when every factor is within half and twice
      their base-weighted mean; otherwise the engine scores with other weights than the snapshot. */
  lemma TunedWeightsSurviveExactly(base: seq<real>, factors: seq<real>, version: int)
    requires GoodBase(base) && |factors| == |base| && GoodFactors(factors)
    ensures var mean := Sum(Scaled(base, factors));
      Load(base, Payload(version, AsFields(Tuned(base, factors)))) == Loaded(Tuned(base, factors), version)
      <==> forall i :: 0 <= i < |base| ==> 0.5 * mean <= factors[i] <= 2.0 * mean
  {
    var mean := Sum(Scaled(base, factors));
    var w := Tuned(base, factors);
    TunedIsGood(base, factors);
    LoadKeepsExactly(base, w, version);
    forall i | 0 <= i < |base|
      ensures Within(base[i], w[i]) <==> 0.5 * mean <= factors[i] <= 2.0 * mean
    {
      assert w[i] == Share(Rescaled(base[i], factors[i]), mean);
      SameBounds(base[i], factors[i], mean);
    }
  }

  lemma SameBounds(b: real, f: real, mean: real)
    requires b > 0.0 && mean > 0.0
    ensures Within(b, Share(Rescaled(b, f), mean)) <==> 0.5 * mean <= f <= 2.0 * mean
  {
    ShareTimes(b * f, mean);
    var s, bf, bm := Share(b * f, mean), b * f, b * mean;
    SameOrder(s, 2.0 * b, mean, bf, 2.0 * bm);
    SameOrder(0.5 * b, s, mean, 0.5 * bm, bf);
    SameOrder(f, 2.0 * mean, b, bf, 2.0 * bm);
    SameOrder(0.5 * mean, f, b, 0.5 * bm, bf);
  }

  lemma SameOrder(x: real, y: real, t: real, xt: real, yt: real)
    requires t > 0.0 && xt == x * t && yt == y * t
    ensures x <= y <==> xt <= yt
  {
    if x <= y { NonNegativeProduct(y - x, t); }
    if x * t <= y * t { CancelPositive(x, y, t); }
  }

  /** With the real base weights the condition can fail: when rugs score 100 above the rest on the
      first component and 100 below on all others, its stored weight is above twice its base. */
  lemma TunedWeightsCanBeReclamped()
    ensures var factors := [2.0, 0.5, 0.5, 0.5, 0.5, 0.5];
      && Factor(100.0, 0.0) == 2.0 && Factor(0.0, 100.0) == 0.5
      && GoodFactors(factors) && Tuned(BASE_WEIGHTS, factors)[0] == 0.5
      && Load(BASE_WEIGHTS, Payload(1, AsFields(Tuned(BASE_WEIGHTS, factors)))) != Loaded(Tuned(BASE_WEIGHTS, factors), 1)
  {
    BaseIsGood();
    var factors := [2.0, 0.5, 0.5, 0.5, 0.5, 0.5];
    var s := Scaled(BASE_WEIGHTS, factors);
    assert s == [0.4, 0.1, 0.075, 0.075, 0.075, 0.075];
    assert s[..5][..4] == s[..4] && s[..4][..3] == s[..3] && s[..3][..2] == s[..2] && s[..2][..1] == s[..1];
    assert s[..1][..0] == [];
    assert Sum(s[..1]) == 0.4;
    assert Sum(s[..2]) == 0.5;
    assert Sum(s[..3]) == 0.575;
    assert Sum(s[..4]) == 0.65;
    assert Sum(s[..5]) == 0.725;
    assert Sum(s) == 0.8;
    TunedWeightsSurviveExactly(BASE_WEIGHTS, factors, 1);
    assert factors[0] > 2.0 * Sum(s);
  }
}
