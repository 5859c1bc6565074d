/** Maximum drawdown of a wallet's cumulative realised result, in one pass. */
module Drawdown {
  import opened Options
  import opened Sorting

  /** A closed position: its times and its realised result, when recorded. */
  datatype Position = Position(openedAt: int, closedAt: Option<int>, pnl: Option<real>)

  function SortTime(p: Position): int {
    if p.closedAt.Some? then p.closedAt.value else p.openedAt
  }

  predicate InCloseOrder(a: Position, b: Position) { SortTime(a) <= SortTime(b) }

  function Pnl(p: Position): real { if p.pnl.Some? then p.pnl.value else 0.0 }

  /** The cumulative result after the first n positions; it starts at zero. */
  function Curve(s: seq<Position>, n: nat): real
    requires n <= |s|
  {
    if n == 0 then 0.0 else Curve(s, n - 1) + Pnl(s[n - 1])
  }

  /** The highest point of the curve so far. */
  function Peak(s: seq<Position>, n: nat): real
    requires n <= |s|
  {
    if n == 0 then 0.0 else if Curve(s, n) > Peak(s, n - 1) then Curve(s, n) else Peak(s, n - 1)
  }

  lemma {:induction false} PeakIsMaximum(s: seq<Position>, n: nat)
    requires n <= |s|
    ensures forall i: nat :: i <= n ==> Curve(s, i) <= Peak(s, n)
    ensures exists i: nat :: i <= n && Curve(s, i) == Peak(s, n)
  {
    if n == 0 {
      assert Curve(s, 0) == Peak(s, 0);
    } else {
      PeakIsMaximum(s, n - 1);
      var i: nat :| i <= n - 1 && Curve(s, i) == Peak(s, n - 1);
      assert Curve(s, i) == Peak(s, n) || Curve(s, n) == Peak(s, n);
    }
  }

  /** The fall from point i to point j. */
  function Fall(s: seq<Position>, i: nat, j: nat): real
    requires i <= j <= |s|
  {
    Curve(s, i) - Curve(s, j)
  }

  /** x is the largest fall from an earlier to a later point of the first n. */
  ghost predicate IsMaxDrop(s: seq<Position>, n: nat, x: real)
    requires n <= |s|
  {
    && (forall i: nat, j: nat :: i <= j <= n ==> Fall(s, i, j) <= x)
    && exists i: nat, j: nat :: i <= j <= n && Fall(s, i, j) == x
  }

  /** The fall from the running peak as a fraction of it, where the peak is positive. */
  function Fraction(s: seq<Position>, j: nat): Option<real>
    requires j <= |s|
  {
    Quotient(Peak(s, j) - Curve(s, j), Peak(s, j))
  }

  function Quotient(x: real, y: real): Option<real> { if y > 0.0 then Some(x / y) else None }

  /** x is the largest such fraction over the points with a positive peak, if there is one. */
  ghost predicate IsMaxFraction(s: seq<Position>, n: nat, x: Option<real>)
    requires n <= |s|
  {
    && (x.None? <==> forall j: nat :: j <= n ==> Fraction(s, j).None?)
    && (x.Some? ==>
          && (forall j: nat :: j <= n && Fraction(s, j).Some? ==> Fraction(s, j).value <= x.value)
          && exists j: nat :: j <= n && Fraction(s, j) == x)
  }

  /** The step of the absolute part. */
  lemma DropStep(s: seq<Position>, n: nat, x: real)
    requires n < |s| && IsMaxDrop(s, n, x)
    ensures var d := Peak(s, n + 1) - Curve(s, n + 1);
      IsMaxDrop(s, n + 1, if d > x then d else x)
  {
    PeakIsMaximum(s, n + 1);
    var d := Peak(s, n + 1) - Curve(s, n + 1);
    var y := if d > x then d else x;
    forall i: nat, j: nat | i <= j <= n + 1 ensures Fall(s, i, j) <= y {
      if j == n + 1 { assert Curve(s, i) <= Peak(s, n + 1); }
    }
    if d > x {
      var i: nat :| i <= n + 1 && Curve(s, i) == Peak(s, n + 1);
      assert Fall(s, i, n + 1) == y;
    } else {
      var i: nat, j: nat :| i <= j <= n && Fall(s, i, j) == x;
      assert i <= j <= n + 1;
    }
  }

  /** The update of the relative part. */
  function NextFraction(s: seq<Position>, n: nat, x: Option<real>): Option<real>
    requires n <= |s|
  {
    if Fraction(s, n).Some? && (x.None? || Fraction(s, n).value > x.value) then Fraction(s, n) else x
  }

  lemma FractionStep(s: seq<Position>, n: nat, x: Option<real>)
    requires n < |s| && IsMaxFraction(s, n, x)
    ensures IsMaxFraction(s, n + 1, NextFraction(s, n + 1, x))
  {
    var y := NextFraction(s, n + 1, x);
    if x.Some? {
      var j: nat :| j <= n && Fraction(s, j) == x;
      assert j <= n + 1;
    }
    if y != x {
      assert Fraction(s, n + 1) == y;
    }
  }

  /** The four variables of the pass after n positions. */
  datatype Scan = Scan(curve: real, peak: real, maxDrop: real, relative: Option<real>)

  ghost predicate ScanOk(s: seq<Position>, n: nat, v: Scan) {
    && n <= |s|
    && v.curve == Curve(s, n) && v.peak == Peak(s, n)
    && IsMaxDrop(s, n, v.maxDrop)
    && IsMaxFraction(s, n, v.relative)
  }

  function Step(v: Scan, pnl: real): Scan {
    var curve := v.curve + pnl;
    var peak := if curve > v.peak then curve else v.peak;
    var drop := peak - curve;
    Scan(curve, peak, if drop > v.maxDrop then drop else v.maxDrop,
         if peak > 0.0 && (v.relative.None? || drop / peak > v.relative.value) then Some(drop / peak) else v.relative)
  }

  lemma ScanStart(s: seq<Position>)
    ensures ScanOk(s, 0, Scan(0.0, 0.0, 0.0, None))
  {
    assert Fall(s, 0, 0) == 0.0;
  }

  lemma ScanStep(s: seq<Position>, n: nat, v: Scan)
    requires n < |s| && ScanOk(s, n, v)
    ensures ScanOk(s, n + 1, Step(v, Pnl(s[n])))
  {
    var e := Step(v, Pnl(s[n]));
    assert e.curve == Curve(s, n + 1) && e.peak == Peak(s, n + 1);
    StepValues(s, n, v);
    DropStep(s, n, v.maxDrop);
    FractionStep(s, n, v.relative);
  }

  lemma StepValues(s: seq<Position>, n: nat, v: Scan)
    requires n < |s| && v.curve == Curve(s, n) && v.peak == Peak(s, n)
    ensures var d := Peak(s, n + 1) - Curve(s, n + 1);
      Step(v, Pnl(s[n]))
        == Scan(Curve(s, n + 1), Peak(s, n + 1), if d > v.maxDrop then d else v.maxDrop,
                NextFraction(s, n + 1, v.relative))
  {
  }

  function ScanOf(s: seq<Position>, n: nat): Scan
    requires n <= |s|
  {
    if n == 0 then Scan(0.0, 0.0, 0.0, None) else Step(ScanOf(s, n - 1), Pnl(s[n - 1]))
  }

  lemma {:induction false} ScanMeans(s: seq<Position>, n: nat)
    requires n <= |s|
    ensures ScanOk(s, n, ScanOf(s, n))
  {
    if n == 0 {
      ScanStart(s);
    } else {
      ScanMeans(s, n - 1);
      ScanStep(s, n - 1, ScanOf(s, n - 1));
    }
  }

  /** The pass itself, over positions in closing order. */
  method ScanAll(ordered: seq<Position>) returns (maxDrop: real, relative: Option<real>)
    ensures maxDrop == ScanOf(ordered, |ordered|).maxDrop
    ensures relative == ScanOf(ordered, |ordered|).relative
  {
    var curve, peak := 0.0, 0.0;
    maxDrop, relative := 0.0, None;
    var n := 0;
    while n < |ordered|
      invariant 0 <= n <= |ordered|
      invariant Scan(curve, peak, maxDrop, relative) == ScanOf(ordered, n)
    {
      curve := curve + Pnl(ordered[n]);
      peak := if curve > peak then curve else peak;
      var drop := peak - curve;
      if drop > maxDrop {
        maxDrop := drop;
      }
      if peak > 0.0 {
        var fraction := drop / peak;
        if relative.None? || fraction > relative.value {
          relative := Some(fraction);
        }
      }
      n := n + 1;
    }
  }

  /** Positions closed earlier come first; one without a closing time stands at its opening. */
  ghost predicate ClosesAscend(s: seq<Position>) {
    forall i, j :: 0 <= i < j < |s| ==>
      match (s[i].closedAt, s[j].closedAt)
      case (Some(x), Some(y)) => x <= y
      case (Some(x), None) => x <= s[j].openedAt
      case (None, Some(y)) => s[i].openedAt <= y
      case (None, None) => s[i].openedAt <= s[j].openedAt
  }

  /** The pass runs over all the positions, each as often as listed, in the order of their closes. */
  lemma {:induction false} OrderedByClose(closed: seq<Position>)
    ensures var ordered := Sort(InCloseOrder, closed);
      multiset(ordered) == multiset(closed) && ClosesAscend(ordered)
  {
    SortSorts(InCloseOrder, closed);
  }

  /** The curve starts at zero and moves by each recorded result; a missing one leaves it level. */
  lemma CurveMoves(s: seq<Position>, n: nat)
    requires n < |s|
    ensures Curve(s, 0) == 0.0
    ensures match s[n].pnl
      case Some(x) => Curve(s, n + 1) - Curve(s, n) == x
      case None => Curve(s, n + 1) == Curve(s, n)
  {
  }

  /** A fraction times its peak is the fall from it. */
  lemma FractionMeans(s: seq<Position>, j: nat, highest: real)
    requires j <= |s|
    requires forall i: nat :: i <= j ==> Curve(s, i) <= highest
    requires exists i: nat :: i <= j && Curve(s, i) == highest
    ensures IsPart(Fraction(s, j), highest - Curve(s, j), highest)
  {
    hide Curve, Peak, Quotient, IsPart;
    HighestIsPeak(s, j, highest);
    QuotientIsPart(highest - Curve(s, j), highest);
  }

  /** There is a part exactly of a positive whole, and taking it of the whole gives the fall. */
  predicate IsPart(part: Option<real>, fall: real, whole: real) {
    (part.Some? <==> whole > 0.0) && (part.Some? ==> part.value * whole == fall)
  }

  lemma HighestIsPeak(s: seq<Position>, j: nat, highest: real)
    requires j <= |s|
    requires forall i: nat :: i <= j ==> Curve(s, i) <= highest
    requires exists i: nat :: i <= j && Curve(s, i) == highest
    ensures Peak(s, j) == highest
  {
    PeakIsMaximum(s, j);
  }

  lemma QuotientIsPart(x: real, y: real)
    ensures IsPart(Quotient(x, y), x, y)
  {
  }

  /** The absolute result is the maximum fall over all pairs of points, the relative one the maximum
      fall from a positive peak; a wallet without closed positions has neither. */
  method MaxDrawdown(closed: seq<Position>) returns (absolute: Option<real>, relative: Option<real>)
    ensures closed == [] <==> absolute.None?
    ensures closed == [] ==> relative.None?
    ensures closed != [] ==>
      var ordered := Sort(InCloseOrder, closed);
      && multiset(ordered) == multiset(closed) && ClosesAscend(ordered)
      && IsMaxDrop(ordered, |ordered|, absolute.value)
      && IsMaxFraction(ordered, |ordered|, relative)
  {
    if closed == [] {
      return None, None;
    }
    var ordered := Sort(InCloseOrder, closed);
    var maxDrop;
    maxDrop, relative := ScanAll(ordered);
    ScanMeans(ordered, |ordered|);
    OrderedByClose(closed);
    absolute := Some(maxDrop);
  }

  /** The maximum fall is one number: two answers that meet the definition are equal. */
  lemma MaxDropIsUnique(s: seq<Position>, n: nat, x: real, y: real)
    requires n <= |s| && IsMaxDrop(s, n, x) && IsMaxDrop(s, n, y)
    ensures x == y
  {
    var i: nat, j: nat :| i <= j <= n && Fall(s, i, j) == x;
    var k: nat, m: nat :| k <= m <= n && Fall(s, k, m) == y;
  }

  function Total(s: seq<Position>): real {
    if s == [] then 0.0 else Total(s[..|s| - 1]) + Pnl(s[|s| - 1])
  }

  lemma {:induction false} CurvePrefix(s: seq<Position>, t: seq<Position>, n: nat)
    requires n <= |s| && n <= |t| && s[..n] == t[..n]
    ensures Curve(s, n) == Curve(t, n)
  {
    if n > 0 {
      assert s[..n][..n - 1] == s[..n - 1] && t[..n][..n - 1] == t[..n - 1];
      assert s[n - 1] == s[..n][n - 1] == t[..n][n - 1];
      CurvePrefix(s, t, n - 1);
    }
  }

  lemma {:induction false} CurveEndsAtTotal(s: seq<Position>)
    ensures Curve(s, |s|) == Total(s)
  {
    if s != [] {
      CurveEndsAtTotal(s[..|s| - 1]);
      CurvePrefix(s, s[..|s| - 1], |s| - 1);
    }
  }

  lemma TotalOfOneMore(s: seq<Position>, x: Position)
    ensures Total(s + [x]) == Total(s) + Pnl(x)
  {
    assert (s + [x])[..|s|] == s;
  }

  lemma {:induction false} InsertTotal(s: seq<Position>, x: Position)
    ensures Total(Insert(InCloseOrder, s, x)) == Total(s) + Pnl(x)
  {
    hide Pnl, InCloseOrder;
    if s == [] {
      assert [x][..0] == [];
    } else if InCloseOrder(s[|s| - 1], x) {
      TotalOfOneMore(s, x);
    } else {
      InsertTotal(s[..|s| - 1], x);
      TotalOfOneMore(Insert(InCloseOrder, s[..|s| - 1], x), s[|s| - 1]);
    }
  }

  lemma {:induction false} SortTotal(s: seq<Position>)
    ensures Total(Sort(InCloseOrder, s)) == Total(s)
  {
    if s != [] {
      SortTotal(s[..|s| - 1]);
      InsertTotal(Sort(InCloseOrder, s[..|s| - 1]), s[|s| - 1]);
    }
  }

  /** The drawdown is never negative and never smaller than the wallet's total loss, in whatever order
      its positions are listed. */
  lemma DrawdownCoversTheLoss(closed: seq<Position>, x: real)
    requires IsMaxDrop(Sort(InCloseOrder, closed), |Sort(InCloseOrder, closed)|, x)
    ensures x >= 0.0 && x >= -Total(closed)
  {
    var ordered := Sort(InCloseOrder, closed);
    CurveEndsAtTotal(ordered);
    SortTotal(closed);
    assert Fall(ordered, 0, 0) <= x;
    assert Fall(ordered, 0, |ordered|) <= x;
  }
}
