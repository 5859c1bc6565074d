/** Training-set construction: snapshot pairs, point-in-time lookup and outcome labels. */
module Dataset {
  import opened Numbers
  import opened Options
  import opened Sorting

  // --- snapshot pairs -----------------------------------------------------

  /** One wallet snapshot: its time and trailing result, when known. */
  datatype Snapshot = Snapshot(ts: int, pnl30: Option<real>)

  ghost predicate InTimeOrder(s: seq<Snapshot>) {
    forall i, j :: 0 <= i < j < |s| ==> s[i].ts <= s[j].ts
  }

  /** The quadratic search: from position j on, the first snapshot at least `gap` after snapshot i. */
  function Search(s: seq<Snapshot>, gap: int, i: nat, j: nat): (k: nat)
    requires i < |s| && j <= |s|
    ensures j <= k <= |s|
    ensures k < |s| ==> s[k].ts - s[i].ts >= gap
    ensures forall m :: j <= m < k ==> s[m].ts - s[i].ts < gap
    decreases |s| - j
  {
    if j == |s| then j else if s[j].ts - s[i].ts >= gap then j else Search(s, gap, i, j + 1)
  }

  /** One training row: the earlier snapshot, the later one and the label. */
  datatype Row = Row(earlier: nat, later: nat, positive: bool)

  /** The rows of snapshot i alone. */
  function RowsAt(s: seq<Snapshot>, gap: int, i: nat): seq<Row>
    requires i < |s|
  {
    var k := Search(s, gap, i, i + 1);
    if k < |s| && s[k].pnl30.Some? then [Row(i, k, s[k].pnl30.value > 0.0)] else []
  }

  /** All rows, each found by its own search. */
  function RowsUpTo(s: seq<Snapshot>, gap: int, n: nat): seq<Row>
    requires n <= |s|
  {
    if n == 0 then [] else RowsUpTo(s, gap, n - 1) + RowsAt(s, gap, n - 1)
  }

  lemma SearchFrom(s: seq<Snapshot>, gap: int, i: nat, j: nat, k: nat)
    requires i < |s| && j <= k <= |s|
    requires forall m :: j <= m < k ==> s[m].ts - s[i].ts < gap
    requires k < |s| ==> s[k].ts - s[i].ts >= gap
    ensures Search(s, gap, i, j) == k
  {
  }

  lemma {:induction false} NoMoreRows(s: seq<Snapshot>, gap: int, i: nat, n: nat)
    requires InTimeOrder(s) && i < n <= |s|
    requires forall m :: i < m < |s| ==> s[m].ts - s[i].ts < gap
    ensures RowsUpTo(s, gap, n) == RowsUpTo(s, gap, i)
  {
    forall m | n - 1 < m < |s| ensures s[m].ts - s[n - 1].ts < gap {
      assert s[i].ts <= s[n - 1].ts || i == n - 1;
    }
    SearchFrom(s, gap, n - 1, n, |s|);
    assert RowsAt(s, gap, n - 1) == [];
    hide RowsAt, Search;
    assert RowsUpTo(s, gap, n) == RowsUpTo(s, gap, n - 1);
    hide RowsUpTo;
    if n - 1 > i {
      NoMoreRows(s, gap, i, n - 1);
    }
  }

  /** Everything strictly between snapshot i and position `later` is less than a gap after i. */
  ghost predicate TooClose(s: seq<Snapshot>, gap: int, i: nat, later: nat) {
    later <= |s| && forall m :: i < m < later ==> s[m].ts - s[i].ts < gap
  }

  lemma TooCloseNext(s: seq<Snapshot>, gap: int, i: nat, later: nat)
    requires InTimeOrder(s) && TooClose(s, gap, i, later) && i + 1 < |s|
    ensures TooClose(s, gap, i + 1, later)
  {
    assert s[i].ts <= s[i + 1].ts;
  }

  lemma FoundRow(s: seq<Snapshot>, gap: int, i: nat, later: nat)
    requires i < later < |s| && TooClose(s, gap, i, later) && s[later].ts - s[i].ts >= gap
    ensures RowsUpTo(s, gap, i + 1) == RowsUpTo(s, gap, i)
         + (if s[later].pnl30.Some? then [Row(i, later, s[later].pnl30.value > 0.0)] else [])
  {
    SearchFrom(s, gap, i, i + 1, later);
  }

  /** The pointer's advance for one snapshot. */
  method Advance(s: seq<Snapshot>, gap: int, i: nat, start: nat) returns (later: nat)
    requires i < start <= |s| && TooClose(s, gap, i, start)
    ensures start <= later && TooClose(s, gap, i, later)
    ensures later < |s| ==> s[later].ts - s[i].ts >= gap
  {
    later := start;
    while later < |s| && s[later].ts - s[i].ts < gap
      invariant start <= later <= |s| && TooClose(s, gap, i, later)
    {
      later := later + 1;
    }
  }

  /** The two-pointer walk: the later pointer only advances, at most once per snapshot over the whole
      walk, and the early exit loses nothing. */
  method PairSnapshots(s: seq<Snapshot>, gap: int) returns (rows: seq<Row>, advances: nat)
    requires InTimeOrder(s)
    ensures rows == RowsUpTo(s, gap, |s|)
    ensures advances <= |s|
  {
    rows, advances := [], 0;
    var later, i := 0, 0;
    while i < |s|
      invariant 0 <= i <= |s| && 0 <= later <= |s|
      invariant advances <= later
      invariant rows == RowsUpTo(s, gap, i)
      invariant i < |s| ==> TooClose(s, gap, i, later)
    {
      var start := if later < i + 1 then i + 1 else later;
      later := Advance(s, gap, i, start);
      advances := advances + (later - start);
      if later >= |s| {
        NoMoreRows(s, gap, i, |s|);
        return;
      }
      FoundRow(s, gap, i, later);
      if s[later].pnl30.Some? {
        rows := rows + [Row(i, later, s[later].pnl30.value > 0.0)];
      }
      if i + 1 < |s| { TooCloseNext(s, gap, i, later); }
      i := i + 1;
    }
  }

  /** The later snapshot is the earliest one at least a gap after the earlier one, and labels it. */
  ghost predicate IsPairing(s: seq<Snapshot>, gap: int, r: Row) {
    && r.earlier < r.later < |s|
    && s[r.later].ts - s[r.earlier].ts >= gap
    && (forall m :: r.earlier < m < r.later ==> s[m].ts - s[r.earlier].ts < gap)
    && s[r.later].pnl30.Some? && r.positive == (s[r.later].pnl30.value > 0.0)
  }

  lemma RowsAtMean(s: seq<Snapshot>, gap: int, i: nat, r: Row)
    requires i < |s|
    ensures r in RowsAt(s, gap, i) <==> r.earlier == i && IsPairing(s, gap, r)
  {
    if r.earlier == i && IsPairing(s, gap, r) {
      SearchFrom(s, gap, i, i + 1, r.later);
    }
  }

  /** What the rows say: a snapshot is paired exactly when something labelled lies a gap later, and then
      with the earliest such snapshot. */
  lemma {:induction false} RowsMean(s: seq<Snapshot>, gap: int, n: nat, r: Row)
    requires n <= |s|
    ensures r in RowsUpTo(s, gap, n) <==> r.earlier < n && IsPairing(s, gap, r)
  {
    if n > 0 {
      RowsMean(s, gap, n - 1, r);
      RowsAtMean(s, gap, n - 1, r);
    }
  }

  // --- point-in-time lookup -----------------------------------------------

  predicate Earlier(a: Snapshot, b: Snapshot) { a.ts <= b.ts }

  lemma EarlierIsPreorder()
    ensures TotalPreorder(Earlier)
  {
  }

  /** Everything known at time `at`. */
  function Known(s: seq<Snapshot>, at: int): seq<Snapshot> {
    if s == [] then []
    else Known(s[..|s| - 1], at) + (if s[|s| - 1].ts <= at then [s[|s| - 1]] else [])
  }

  /** The insertion point to the right of `at` in a time-ordered list, by bisection. */
  method BisectRight(s: seq<Snapshot>, at: int) returns (k: nat)
    requires InTimeOrder(s)
    ensures k <= |s|
    ensures forall i :: 0 <= i < k ==> s[i].ts <= at
    ensures forall i :: k <= i < |s| ==> s[i].ts > at
  {
    var lo, hi := 0, |s|;
    while lo < hi
      invariant 0 <= lo <= hi <= |s|
      invariant forall i :: 0 <= i < lo ==> s[i].ts <= at
      invariant forall i :: hi <= i < |s| ==> s[i].ts > at
    {
      var mid := (lo + hi) / 2;
      if s[mid].ts > at { hi := mid; } else { lo := mid + 1; }
    }
    k := lo;
  }

  /** The snapshot to use at time `at`: the last one known then, in time order. */
  function AsOfSpec(s: seq<Snapshot>, at: int): Option<Snapshot> {
    var known := Sort(Earlier, Known(s, at));
    if known == [] then None else Some(known[|known| - 1])
  }

  lemma {:induction false} KnownPrefix(s: seq<Snapshot>, at: int, k: nat)
    requires k <= |s|
    requires forall i :: 0 <= i < k ==> s[i].ts <= at
    requires forall i :: k <= i < |s| ==> s[i].ts > at
    ensures Known(s, at) == s[..k]
  {
    if s != [] {
      var n := |s| - 1;
      KnownPrefix(s[..n], at, if k <= n then k else n);
      if k == |s| { assert s[..k] == s[..n] + [s[n]]; } else { assert s[..n][..k] == s[..k]; }
    }
  }

  lemma KnownAppend(s: seq<Snapshot>, x: Snapshot, at: int)
    ensures Known(s + [x], at) == if x.ts <= at then Known(s, at) + [x] else Known(s, at)
  {
    assert (s + [x])[..|s|] == s;
  }

  lemma {:induction false} InsertKnown(s: seq<Snapshot>, x: Snapshot, at: int)
    requires Sorted(Earlier, s)
    ensures Known(Insert(Earlier, s, x), at) == InsertIfKnown(Known(s, at), x, at)
  {
    if s == [] {
      assert [x][..0] == [];
    } else {
      var n := |s| - 1;
      var front, last := s[..n], s[n];
      if Earlier(last, x) {
        InsertAtEndKnown(s, x, at);
      } else {
        InsertKnown(front, x, at);
        InsertInFrontKnown(front, last, x, at);
        assert s == front + [last];
      }
    }
  }

  lemma InsertAtEndKnown(s: seq<Snapshot>, x: Snapshot, at: int)
    requires s != [] && Sorted(Earlier, s) && Earlier(s[|s| - 1], x)
    ensures Known(Insert(Earlier, s, x), at) == InsertIfKnown(Known(s, at), x, at)
  {
    forall i | 0 <= i < |s| ensures s[i].ts <= x.ts {
      assert i < |s| - 1 ==> Earlier(s[i], s[|s| - 1]);
    }
    KnownAppend(s, x, at);
    AllKnownEarlier(s, x, at);
  }

  lemma InsertInFrontKnown(front: seq<Snapshot>, last: Snapshot, x: Snapshot, at: int)
    requires !Earlier(last, x)
    requires Known(Insert(Earlier, front, x), at) == InsertIfKnown(Known(front, at), x, at)
    ensures Known(Insert(Earlier, front + [last], x), at) == InsertIfKnown(Known(front + [last], at), x, at)
  {
    assert (front + [last])[..|front|] == front;
    KnownAppend(Insert(Earlier, front, x), last, at);
    KnownAppend(front, last, at);
    InsertBeforeLast(Known(front, at), last, x, at);
  }

  function InsertIfKnown(known: seq<Snapshot>, x: Snapshot, at: int): seq<Snapshot> {
    if x.ts <= at then Insert(Earlier, known, x) else known
  }

  lemma InsertBeforeLast(known: seq<Snapshot>, last: Snapshot, x: Snapshot, at: int)
    requires x.ts < last.ts
    ensures last.ts <= at ==> InsertIfKnown(known + [last], x, at) == InsertIfKnown(known, x, at) + [last]
  {
    assert (known + [last])[..|known|] == known;
  }

  lemma {:induction false} AllKnownEarlier(s: seq<Snapshot>, x: Snapshot, at: int)
    requires forall i :: 0 <= i < |s| ==> s[i].ts <= x.ts
    ensures Insert(Earlier, Known(s, at), x) == Known(s, at) + [x]
    ensures forall i :: 0 <= i < |Known(s, at)| ==> Known(s, at)[i].ts <= x.ts
  {
    if s != [] { AllKnownEarlier(s[..|s| - 1], x, at); }
  }

  lemma SortAppend(s: seq<Snapshot>, x: Snapshot)
    ensures Sort(Earlier, s + [x]) == Insert(Earlier, Sort(Earlier, s), x)
  {
    assert (s + [x])[..|s|] == s;
  }

  /** Restricting to what is known commutes with sorting. */
  lemma {:induction false} SortKnown(s: seq<Snapshot>, at: int)
    ensures Known(Sort(Earlier, s), at) == Sort(Earlier, Known(s, at))
  {
    if s != [] {
      var front, x := s[..|s| - 1], s[|s| - 1];
      assert s == front + [x];
      EarlierIsPreorder();
      SortKnown(front, at);
      SortSorts(Earlier, front);
      SortAppend(front, x);
      InsertKnown(Sort(Earlier, front), x, at);
      SortAppend(Known(front, at), x);
      KnownAppend(front, x, at);
      assert Known(Sort(Earlier, s), at) == InsertIfKnown(Sort(Earlier, Known(front, at)), x, at);
    }
  }

  lemma {:induction false} KnownMember(s: seq<Snapshot>, at: int, x: Snapshot)
    ensures x in Known(s, at) <==> x in s && x.ts <= at
  {
    if s != [] {
      KnownMember(s[..|s| - 1], at, x);
      assert s == s[..|s| - 1] + [s[|s| - 1]];
    }
  }

  /** The specification names the latest snapshot at or before `at`. */
  lemma AsOfMeans(s: seq<Snapshot>, at: int)
    ensures var r := AsOfSpec(s, at);
      && (r.Some? ==> r.value in s && r.value.ts <= at && forall x :: x in s && x.ts <= at ==> x.ts <= r.value.ts)
      && (r.None? ==> forall x :: x in s ==> x.ts > at)
  {
    var known := Sort(Earlier, Known(s, at));
    EarlierIsPreorder();
    SortSorts(Earlier, Known(s, at));
    forall x ensures x in known <==> x in s && x.ts <= at {
      SortKeeps(Earlier, Known(s, at), x);
      KnownMember(s, at, x);
    }
    forall x | x in s && x.ts <= at ensures x in known && Earlier(x, known[|known| - 1]) {
      LastIsGreatest(Earlier, known, x);
    }
    if known != [] { assert known[|known| - 1] in known; }
  }

  /** The lookup as written: sort the wallet's snapshots by time, bisect, step back one.  The answer is
      the latest snapshot at or before `at`, and snapshots after `at` play no part in it. */
  method AsOf(s: seq<Snapshot>, at: int) returns (r: Option<Snapshot>)
    ensures r == AsOfSpec(s, at)
    ensures r.Some? ==> r.value in s && r.value.ts <= at
    ensures r.Some? ==> forall x :: x in s && x.ts <= at ==> x.ts <= r.value.ts
    ensures r.None? ==> forall x :: x in s ==> x.ts > at
  {
    AsOfMeans(s, at);
    EarlierIsPreorder();
    SortSorts(Earlier, s);
    var rows := Sort(Earlier, s);
    var k := BisectRight(rows, at);
    KnownPrefix(rows, at, k);
    SortKnown(s, at);
    if k == 0 {
      return None;
    }
    return Some(rows[k - 1]);
  }

  /** No look-ahead: two histories that agree on what is known at `at` give the same features. */
  lemma NoLookAhead(s: seq<Snapshot>, later: seq<Snapshot>, at: int)
    requires forall i :: 0 <= i < |later| ==> later[i].ts > at
    ensures AsOfSpec(s + later, at) == AsOfSpec(s, at)
  {
    KnownIgnores(s, later, at);
  }

  lemma {:induction false} KnownIgnores(s: seq<Snapshot>, later: seq<Snapshot>, at: int)
    requires forall i :: 0 <= i < |later| ==> later[i].ts > at
    ensures Known(s + later, at) == Known(s, at)
  {
    if later == [] {
      assert s + later == s;
    } else {
      var n := |later| - 1;
      assert s + later == (s + later[..n]) + [later[n]];
      KnownAppend(s + later[..n], later[n], at);
      KnownIgnores(s, later[..n], at);
    }
  }

  // --- labels -------------------------------------------------------------

  /** A closed position of one wallet and token. */
  datatype Closing = Closing(wallet: int, token: int, closedAt: int, pnl: Option<real>)

  predicate Profit(c: Closing) { c.pnl.Some? && c.pnl.value > 0.0 }

  predicate InWindow(c: Closing, t: int, horizon: int) { t < c.closedAt <= t + horizon }

  predicate ClosesEarlier(a: Closing, b: Closing) { a.closedAt <= b.closedAt }

  lemma ClosesEarlierIsPreorder()
    ensures TotalPreorder(ClosesEarlier)
  {
  }

  /** The first entry of the list inside the window. */
  function FirstMatch(s: seq<Closing>, t: int, horizon: int): Option<Closing> {
    if s == [] then None
    else if InWindow(s[0], t, horizon) then Some(s[0])
    else FirstMatch(s[1..], t, horizon)
  }

  ghost predicate IsEarliest(c: Closing, s: seq<Closing>, t: int, horizon: int) {
    && c in s && InWindow(c, t, horizon)
    && forall d :: d in s && InWindow(d, t, horizon) ==> c.closedAt <= d.closedAt
  }

  predicate AfterCutoff(c: Closing, cutoff: Option<int>) { cutoff.None? || c.closedAt >= cutoff.value }

  /** The positions of one pair, from the window cutoff on when the query has one. */
  function OfPair(s: seq<Closing>, wallet: int, token: int, cutoff: Option<int>): seq<Closing> {
    if s == [] then []
    else
      var last := s[|s| - 1];
      OfPair(s[..|s| - 1], wallet, token, cutoff)
        + (if last.wallet == wallet && last.token == token && AfterCutoff(last, cutoff) then [last] else [])
  }

  lemma {:induction false} OfPairIn(s: seq<Closing>, wallet: int, token: int, cutoff: Option<int>, c: Closing)
    ensures c in OfPair(s, wallet, token, cutoff)
       <==> c in s && c.wallet == wallet && c.token == token && AfterCutoff(c, cutoff)
  {
    if s != [] {
      OfPairIn(s[..|s| - 1], wallet, token, cutoff, c);
      assert s == s[..|s| - 1] + [s[|s| - 1]];
    }
  }

  /** In a list ordered by closing time the first match is an earliest one. */
  lemma {:induction false} FirstMatchIsEarliest(s: seq<Closing>, t: int, horizon: int)
    requires Sorted(ClosesEarlier, s)
    ensures var m := FirstMatch(s, t, horizon);
      && (m.Some? ==> IsEarliest(m.value, s, t, horizon))
      && (m.None? ==> forall d :: d in s ==> !InWindow(d, t, horizon))
  {
    if s != [] {
      FirstMatchIsEarliest(s[1..], t, horizon);
      assert s == [s[0]] + s[1..];
      if InWindow(s[0], t, horizon) {
        forall d | d in s ensures s[0].closedAt <= d.closedAt {
          var i :| 0 <= i < |s| && s[i] == d;
          assert i > 0 ==> ClosesEarlier(s[0], s[i]);
        }
      }
    }
  }

  /** The training label's match: the window query returns the pair's recent closings in closing order. */
  function TrainingMatch(ordered: seq<Closing>, t: int, horizon: int): Option<Closing> {
    FirstMatch(ordered, t, horizon)
  }

  /** The grading match: fetch the candidates in any order, keep the pair's, sort, take the first. */
  function GradingMatch(candidates: seq<Closing>, wallet: int, token: int, t: int, horizon: int): Option<Closing> {
    FirstMatch(Sort(ClosesEarlier, OfPair(candidates, wallet, token, None)), t, horizon)
  }

  /** No two closings of the pair that tie as the earliest in the window differ in their label. */
  ghost predicate TiesAgree(s: seq<Closing>, t: int, horizon: int) {
    forall a, b :: IsEarliest(a, s, t, horizon) && IsEarliest(b, s, t, horizon) ==> Profit(a) == Profit(b)
  }

  /** The same elements, whatever the order and multiplicity. */
  ghost predicate SameContents(a: seq<Closing>, b: seq<Closing>) {
    forall c :: c in a <==> c in b
  }

  /** What training and grading see of the pair: training, in closing order, only closings from the
      cutoff on; grading all of them, in any order and among other pairs. */
  ghost predicate Views(
    all: seq<Closing>, ordered: seq<Closing>, candidates: seq<Closing>, wallet: int, token: int, cutoff: int)
  {
    && Sorted(ClosesEarlier, ordered) && SameContents(ordered, OfPair(all, wallet, token, Some(cutoff)))
    && forall c: Closing :: c.wallet == wallet && c.token == token ==> (c in candidates <==> c in all)
  }

  /** All closings of the pair. */
  function PairCloses(all: seq<Closing>, wallet: int, token: int): seq<Closing> { OfPair(all, wallet, token, None) }

  /** x is a match of the window from t: an earliest closing in it, or none when it holds none. */
  ghost predicate IsMatch(x: Option<Closing>, s: seq<Closing>, t: int, horizon: int) {
    && (x.Some? ==> IsEarliest(x.value, s, t, horizon))
    && (x.None? ==> forall d :: d in s ==> !InWindow(d, t, horizon))
  }

  /** The training match is an earliest closing of its window; the cutoff does not reach the window. */
  lemma TrainingMatchMeans(
    all: seq<Closing>, ordered: seq<Closing>, candidates: seq<Closing>,
    wallet: int, token: int, cutoff: int, t: int, horizon: int)
    requires Views(all, ordered, candidates, wallet, token, cutoff) && cutoff <= t
    ensures IsMatch(TrainingMatch(ordered, t, horizon), PairCloses(all, wallet, token), t, horizon)
  {
    FirstMatchIsEarliest(ordered, t, horizon);
    forall c: Closing ensures c in ordered <==> c in PairCloses(all, wallet, token) && c.closedAt >= cutoff {
      OfPairIn(all, wallet, token, Some(cutoff), c);
      OfPairIn(all, wallet, token, None, c);
    }
  }

  /** The grading match is an earliest closing of its window. */
  lemma GradingMatchMeans(
    all: seq<Closing>, ordered: seq<Closing>, candidates: seq<Closing>,
    wallet: int, token: int, cutoff: int, t: int, horizon: int)
    requires Views(all, ordered, candidates, wallet, token, cutoff)
    ensures IsMatch(GradingMatch(candidates, wallet, token, t, horizon), PairCloses(all, wallet, token), t, horizon)
  {
    var mine := OfPair(candidates, wallet, token, None);
    ClosesEarlierIsPreorder();
    SortSorts(ClosesEarlier, mine);
    forall c: Closing ensures c in Sort(ClosesEarlier, mine) <==> c in PairCloses(all, wallet, token) {
      SortKeeps(ClosesEarlier, mine, c);
      OfPairIn(candidates, wallet, token, None, c);
      OfPairIn(all, wallet, token, None, c);
    }
    FirstMatchIsEarliest(Sort(ClosesEarlier, mine), t, horizon);
  }

  /** Some closing lies after lo and not after hi. */
  ghost predicate ClosesIn(s: seq<Closing>, lo: int, hi: int) {
    exists c :: c in s && lo < c.closedAt <= hi
  }

  predicate SameMoment(x: Option<Closing>, y: Option<Closing>) {
    (x.Some? <==> y.Some?) && (x.Some? ==> x.value.closedAt == y.value.closedAt)
  }

  function LabelOf(x: Option<Closing>): Option<bool> { if x.Some? then Some(Profit(x.value)) else None }

  /** The pair's closing c is an earliest one after t and not after t + horizon. */
  ghost predicate Decides(c: Closing, all: seq<Closing>, wallet: int, token: int, t: int, horizon: int) {
    && c in all && c.wallet == wallet && c.token == token && t < c.closedAt <= t + horizon
    && forall d :: d in all && d.wallet == wallet && d.token == token && t < d.closedAt <= t + horizon
         ==> c.closedAt <= d.closedAt
  }

  /** A label in terms of the positions: there is one exactly when the pair closes in the window, and it
      says whether an earliest of those closes made a profit. */
  ghost predicate LabelSays(found: Option<bool>, all: seq<Closing>, wallet: int, token: int, t: int, horizon: int) {
    match found
    case None => forall c :: c in all && c.wallet == wallet && c.token == token ==> !(t < c.closedAt <= t + horizon)
    case Some(profit) => exists c ::
      Decides(c, all, wallet, token, t, horizon) && (profit <==> c.pnl.Some? && c.pnl.value > 0.0)
  }

  lemma MatchSays(x: Option<Closing>, all: seq<Closing>, wallet: int, token: int, t: int, horizon: int)
    requires IsMatch(x, PairCloses(all, wallet, token), t, horizon)
    ensures LabelSays(LabelOf(x), all, wallet, token, t, horizon)
  {
    forall c ensures c in PairCloses(all, wallet, token) <==> c in all && c.wallet == wallet && c.token == token {
      OfPairIn(all, wallet, token, None, c);
    }
    if x.Some? { assert Decides(x.value, all, wallet, token, t, horizon); }
  }

  /** What training and grading call a success, each for the window from its own moment. */
  lemma LabelsMean(
    all: seq<Closing>, ordered: seq<Closing>, candidates: seq<Closing>,
    wallet: int, token: int, cutoff: int, t: int, horizon: int)
    requires Views(all, ordered, candidates, wallet, token, cutoff)
    ensures cutoff <= t ==> LabelSays(LabelOf(TrainingMatch(ordered, t, horizon)), all, wallet, token, t, horizon)
    ensures LabelSays(LabelOf(GradingMatch(candidates, wallet, token, t, horizon)), all, wallet, token, t, horizon)
  {
    hide LabelSays, LabelOf, IsMatch, Views;
    if cutoff <= t {
      TrainingMatchMeans(all, ordered, candidates, wallet, token, cutoff, t, horizon);
      MatchSays(TrainingMatch(ordered, t, horizon), all, wallet, token, t, horizon);
    }
    GradingMatchMeans(all, ordered, candidates, wallet, token, cutoff, t, horizon);
    MatchSays(GradingMatch(candidates, wallet, token, t, horizon), all, wallet, token, t, horizon);
  }

  /** The pair closes in the window that starts first, but not after the start of the other: only one
      side can see that close.  Mostly the prediction follows the buy; a node's block time ahead of the
      local clock makes it precede. */
  ghost predicate ClosesBetween(s: seq<Closing>, bought: int, predicted: int, horizon: int) {
    ClosesIn(s, Min(bought, predicted), Min(Max(bought, predicted), Min(bought, predicted) + horizon))
  }

  /** Nothing the two windows share, but a close only the later window reaches. */
  ghost predicate ClosesOnlyLate(s: seq<Closing>, bought: int, predicted: int, horizon: int) {
    var lo, hi := Min(bought, predicted), Max(bought, predicted);
    !ClosesIn(s, hi, lo + horizon) && ClosesIn(s, Max(hi, lo + horizon), hi + horizon)
  }

  /** Training measures the horizon from the buy's block time, grading from the moment the prediction
      was made.  They find a close at the same moment, or both none, exactly when the pair closes
      neither between the two moments nor only after the earlier window. */
  lemma MatchesAgreeExactly(
    all: seq<Closing>, ordered: seq<Closing>, candidates: seq<Closing>,
    wallet: int, token: int, cutoff: int, bought: int, predicted: int, horizon: int)
    requires Views(all, ordered, candidates, wallet, token, cutoff) && cutoff <= bought
    ensures var x := TrainingMatch(ordered, bought, horizon);
      var y := GradingMatch(candidates, wallet, token, predicted, horizon);
      var s := PairCloses(all, wallet, token);
      && (SameMoment(x, y) <==> !ClosesBetween(s, bought, predicted, horizon) && !ClosesOnlyLate(s, bought, predicted, horizon))
      && (SameMoment(x, y) && TiesAgree(s, bought, horizon) ==> LabelOf(x) == LabelOf(y))
  {
    TrainingMatchMeans(all, ordered, candidates, wallet, token, cutoff, bought, horizon);
    GradingMatchMeans(all, ordered, candidates, wallet, token, cutoff, predicted, horizon);
    var x, y := TrainingMatch(ordered, bought, horizon), GradingMatch(candidates, wallet, token, predicted, horizon);
    var s := PairCloses(all, wallet, token);
    if bought <= predicted {
      WindowsAgree(s, x, y, bought, predicted, horizon);
    } else {
      WindowsAgree(s, y, x, predicted, bought, horizon);
    }
    if SameMoment(x, y) && x.Some? { SharedIsEarliest(s, x.value, y.value, bought, predicted, horizon); }
  }

  /** Two matches at one moment are earliest in either window. */
  lemma SharedIsEarliest(s: seq<Closing>, x: Closing, y: Closing, bought: int, predicted: int, horizon: int)
    requires IsEarliest(x, s, bought, horizon) && IsEarliest(y, s, predicted, horizon) && x.closedAt == y.closedAt
    ensures IsEarliest(y, s, bought, horizon)
  {
  }

  lemma WindowsAgree(s: seq<Closing>, x: Option<Closing>, y: Option<Closing>, first: int, second: int, horizon: int)
    requires IsMatch(x, s, first, horizon) && IsMatch(y, s, second, horizon) && first <= second
    ensures SameMoment(x, y)
      <==> !ClosesBetween(s, first, second, horizon) && !ClosesOnlyLate(s, first, second, horizon)
  {
    if c :| c in s && first < c.closedAt <= Min(second, first + horizon) {
      assert InWindow(c, first, horizon) && x.value.closedAt <= c.closedAt;
    } else {
      if c :| c in s && second < c.closedAt <= first + horizon {
        assert InWindow(c, first, horizon) && InWindow(c, second, horizon);
        assert InWindow(y.value, first, horizon);
        assert x.value.closedAt > second;
        assert InWindow(x.value, second, horizon);
      }
      if y.Some? { assert y.value in s && second < y.value.closedAt; }
      if c :| c in s && Max(second, first + horizon) < c.closedAt <= second + horizon {
        assert InWindow(c, second, horizon);
      }
    }
  }

  /** The labels themselves, which may agree by chance after a close in between: then the later window
      has to hold an episode that ends the same way.  Otherwise they agree as the matches do, and whether
      there is a close in between (the condition of MatchesAgreeExactly) is all a caller needs to check. */
  lemma LabelsAgreeExactly(
    all: seq<Closing>, ordered: seq<Closing>, candidates: seq<Closing>,
    wallet: int, token: int, cutoff: int, bought: int, predicted: int, horizon: int)
    requires Views(all, ordered, candidates, wallet, token, cutoff) && cutoff <= bought
    requires TiesAgree(PairCloses(all, wallet, token), bought, horizon)
    requires TiesAgree(PairCloses(all, wallet, token), predicted, horizon)
    ensures var s := PairCloses(all, wallet, token);
      LabelOf(TrainingMatch(ordered, bought, horizon)) == LabelOf(GradingMatch(candidates, wallet, token, predicted, horizon))
      <==> (if ClosesBetween(s, bought, predicted, horizon)
            then exists a, b :: IsEarliest(a, s, bought, horizon) && IsEarliest(b, s, predicted, horizon) && Profit(a) == Profit(b)
            else !ClosesOnlyLate(s, bought, predicted, horizon))
  {
    var s := PairCloses(all, wallet, token);
    var x, y := TrainingMatch(ordered, bought, horizon), GradingMatch(candidates, wallet, token, predicted, horizon);
    TrainingMatchMeans(all, ordered, candidates, wallet, token, cutoff, bought, horizon);
    GradingMatchMeans(all, ordered, candidates, wallet, token, cutoff, predicted, horizon);
    MatchesAgreeExactly(all, ordered, candidates, wallet, token, cutoff, bought, predicted, horizon);
    hide TrainingMatch, GradingMatch, Views, PairCloses;
    var lo, hi := Min(bought, predicted), Max(bought, predicted);
    if c :| c in s && lo < c.closedAt <= Min(hi, lo + horizon) {
      assert InWindow(c, lo, horizon);
    } else if ClosesOnlyLate(s, bought, predicted, horizon) {
      var c :| c in s && Max(hi, lo + horizon) < c.closedAt <= hi + horizon;
      assert InWindow(c, hi, horizon);
      NoneInFirst(s, lo, hi, horizon);
    }
  }

  lemma NoneInFirst(s: seq<Closing>, lo: int, hi: int, horizon: int)
    requires lo <= hi && !ClosesIn(s, lo, Min(hi, lo + horizon)) && !ClosesIn(s, hi, lo + horizon)
    ensures forall c :: c in s ==> !InWindow(c, lo, horizon)
  {
  }

  /** A leader sells within seconds: the close at 11 follows the buy at 10 but precedes the prediction
      at 12, so training learns from it and grading never finds it. */
  lemma QuickSellIsNeverGraded()
    ensures var c := Closing(1, 1, 11, Some(1.0));
      && Views([c], [c], [c], 1, 1, 0)
      && TiesAgree([c], 10, 100) && TiesAgree([c], 12, 100)
      && TrainingMatch([c], 10, 100) == Some(c)
      && GradingMatch([c], 1, 1, 12, 100) == None
  {
    var c := Closing(1, 1, 11, Some(1.0));
    OfPairOne(c, Some(0));
    OfPairOne(c, None);
    assert FirstMatch([c], 10, 100) == Some(c);
    hide OfPair, FirstMatch;
    assert Views([c], [c], [c], 1, 1, 0);
    GradingMatchMeans([c], [c], [c], 1, 1, 0, 12, 100);
    hide GradingMatch, Views;
  }

  lemma OfPairOne(c: Closing, cutoff: Option<int>)
    requires AfterCutoff(c, cutoff)
    ensures OfPair([c], c.wallet, c.token, cutoff) == [c]
  {
    assert [c][..0] == [];
    assert OfPair([], c.wallet, c.token, cutoff) == [];
  }

  /** When prediction and buy share their moment the labels always agree. */
  lemma LabelsAgree(
    all: seq<Closing>, ordered: seq<Closing>, candidates: seq<Closing>,
    wallet: int, token: int, cutoff: int, t: int, horizon: int)
    requires cutoff <= t
    requires Views(all, ordered, candidates, wallet, token, cutoff)
    requires TiesAgree(PairCloses(all, wallet, token), t, horizon)
    ensures var x := TrainingMatch(ordered, t, horizon);
      var y := GradingMatch(candidates, wallet, token, t, horizon);
      SameMoment(x, y) && LabelOf(x) == LabelOf(y)
  {
    MatchesAgreeExactly(all, ordered, candidates, wallet, token, cutoff, t, t, horizon);
  }

  /** Distinct closing times leave no ties at all. */
  lemma DistinctTimesAgree(s: seq<Closing>, t: int, horizon: int)
    requires forall a, b :: a in s && b in s && a.closedAt == b.closedAt ==> a == b
    ensures TiesAgree(s, t, horizon)
  {
  }

  /** Closing order with ties broken in favour of one closing. */
  function Favour(x: Closing): (Closing, Closing) -> bool {
    (a: Closing, b: Closing) => a.closedAt < b.closedAt || (a.closedAt == b.closedAt && (a == x || b != x))
  }

  lemma FavouredIsFirst(s: seq<Closing>, x: Closing, t: int, horizon: int)
    requires IsEarliest(x, s, t, horizon)
    ensures var o := Sort(Favour(x), s);
      && Sorted(ClosesEarlier, o) && multiset(o) == multiset(s)
      && FirstMatch(o, t, horizon) == Some(x)
  {
    var le := Favour(x);
    assert TotalPreorder(le);
    SortSorts(le, s);
    var o := Sort(le, s);
    forall c ensures c in o <==> c in s { SortKeeps(le, s, c); }
    assert Sorted(ClosesEarlier, o);
    FirstMatchIsEarliest(o, t, horizon);
    FavouredFirst(o, x, t, horizon);
  }

  lemma {:induction false} FavouredFirst(o: seq<Closing>, x: Closing, t: int, horizon: int)
    requires Sorted(Favour(x), o) && IsEarliest(x, o, t, horizon)
    ensures FirstMatch(o, t, horizon) == Some(x)
  {
    if InWindow(o[0], t, horizon) {
      var i :| 0 <= i < |o| && o[i] == x;
      assert i > 0 ==> Favour(x)(o[0], o[i]);
    } else {
      assert o == [o[0]] + o[1..];
      FavouredFirst(o[1..], x, t, horizon);
    }
  }

  /** The condition is exact: the label depends only on the closings, not on the order in which the
      database returns equal closing times, if and only if the tied earliest closings share it. */
  lemma OrderNeverMattersExactly(s: seq<Closing>, t: int, horizon: int)
    ensures TiesAgree(s, t, horizon) <==>
      (forall a, b :: OrderOf(a, s) && OrderOf(b, s) ==> SameLabel(a, b, t, horizon))
  {
    if TiesAgree(s, t, horizon) {
      forall a, b | OrderOf(a, s) && OrderOf(b, s) ensures SameLabel(a, b, t, horizon) {
        FirstMatchIsEarliest(a, t, horizon);
        FirstMatchIsEarliest(b, t, horizon);
        SameElements(a, s);
        SameElements(b, s);
        var x, y := FirstMatch(a, t, horizon), FirstMatch(b, t, horizon);
        if x.Some? { assert IsEarliest(x.value, s, t, horizon); }
        if y.Some? { assert IsEarliest(y.value, s, t, horizon); }
      }
    }
    if forall a, b :: OrderOf(a, s) && OrderOf(b, s) ==> SameLabel(a, b, t, horizon) {
      forall x, y | IsEarliest(x, s, t, horizon) && IsEarliest(y, s, t, horizon) ensures Profit(x) == Profit(y) {
        FavouredIsFirst(s, x, t, horizon);
        FavouredIsFirst(s, y, t, horizon);
        var a, b := Sort(Favour(x), s), Sort(Favour(y), s);
        assert OrderOf(a, s) && OrderOf(b, s);
        assert SameLabel(a, b, t, horizon);
      }
    }
  }

  /** Two episodes that close at one moment, one at a profit and one at a loss: the label is whichever the
      database returns first. */
  lemma TiedClosesDependOnTheOrder()
    ensures var a, b := Closing(1, 1, 11, Some(1.0)), Closing(1, 1, 11, Some(-1.0));
      && OrderOf([a, b], [a, b]) && OrderOf([b, a], [a, b])
      && LabelOf(FirstMatch([a, b], 10, 100)) == Some(true) && LabelOf(FirstMatch([b, a], 10, 100)) == Some(false)
      && !TiesAgree([a, b], 10, 100)
  {
    var a, b := Closing(1, 1, 11, Some(1.0)), Closing(1, 1, 11, Some(-1.0));
    assert [b, a][0] == b && [b, a][1] == a;
    assert IsEarliest(a, [a, b], 10, 100) && IsEarliest(b, [a, b], 10, 100);
  }

  /** An order in which the database may return the closings. */
  ghost predicate OrderOf(a: seq<Closing>, s: seq<Closing>) {
    Sorted(ClosesEarlier, a) && multiset(a) == multiset(s)
  }

  ghost predicate SameLabel(a: seq<Closing>, b: seq<Closing>, t: int, horizon: int) {
    var x, y := FirstMatch(a, t, horizon), FirstMatch(b, t, horizon);
    (x.Some? <==> y.Some?) && (x.Some? && y.Some? ==> Profit(x.value) == Profit(y.value))
  }

  lemma SameElements(a: seq<Closing>, s: seq<Closing>)
    requires multiset(a) == multiset(s)
    ensures forall c :: c in a <==> c in s
  {
    forall c ensures c in a <==> c in s {
      assert c in a <==> c in multiset(a);
      assert c in s <==> c in multiset(s);
    }
  }
}
