/** Stable insertion sort over a total preorder, standing for Python's `sorted`. */
module Sorting {

  ghost predicate TotalPreorder<T(!new)>(le: (T, T) -> bool) {
    && (forall x, y :: le(x, y) || le(y, x))
    && (forall x, y, z :: le(x, y) && le(y, z) ==> le(x, z))
  }

  ghost predicate Sorted<T>(le: (T, T) -> bool, s: seq<T>) {
    forall i, j :: 0 <= i < j < |s| ==> le(s[i], s[j])
  }

  /** Inserts x after every element that is not greater. */
  function Insert<T>(le: (T, T) -> bool, s: seq<T>, x: T): seq<T> {
    if s == [] then [x]
    else if le(s[|s| - 1], x) then s + [x]
    else Insert(le, s[..|s| - 1], x) + [s[|s| - 1]]
  }

  function Sort<T>(le: (T, T) -> bool, s: seq<T>): seq<T> {
    if s == [] then [] else Insert(le, Sort(le, s[..|s| - 1]), s[|s| - 1])
  }

  lemma {:induction false} InsertSorts<T(!new)>(le: (T, T) -> bool, s: seq<T>, x: T)
    requires TotalPreorder(le) && Sorted(le, s)
    ensures Sorted(le, Insert(le, s, x))
    ensures multiset(Insert(le, s, x)) == multiset(s) + multiset{x}
  {
    if s == [] {
    } else {
      var front, last := s[..|s| - 1], s[|s| - 1];
      assert s == front + [last];
      if le(last, x) {
        forall i | 0 <= i < |s| ensures le(s[i], x) {
          assert i < |s| - 1 ==> le(s[i], last);
        }
      } else {
        InsertSorts(le, front, x);
        InsertedStayBelow(le, front, last, x);
      }
    }
  }

  /** Inserting x into a list below `last` gives a list below `last`, which may then be appended. */
  lemma InsertedStayBelow<T(!new)>(le: (T, T) -> bool, front: seq<T>, last: T, x: T)
    requires TotalPreorder(le) && Sorted(le, front + [last]) && !le(last, x)
    requires Sorted(le, Insert(le, front, x)) && multiset(Insert(le, front, x)) == multiset(front) + multiset{x}
    ensures Sorted(le, Insert(le, front, x) + [last])
  {
    var t := Insert(le, front, x);
    forall i | 0 <= i < |t| ensures le(t[i], last) {
      assert t[i] in multiset(t);
      if t[i] in front {
        var k :| 0 <= k < |front| && front[k] == t[i];
        assert le((front + [last])[k], (front + [last])[|front|]);
      }
    }
  }

  lemma {:induction false} SortSorts<T(!new)>(le: (T, T) -> bool, s: seq<T>)
    requires TotalPreorder(le)
    ensures Sorted(le, Sort(le, s))
    ensures multiset(Sort(le, s)) == multiset(s)
    ensures |Sort(le, s)| == |s|
  {
    if s == [] {
    } else {
      SortSorts(le, s[..|s| - 1]);
      InsertSorts(le, Sort(le, s[..|s| - 1]), s[|s| - 1]);
      assert s == s[..|s| - 1] + [s[|s| - 1]];
      assert |multiset(Sort(le, s))| == |multiset(s)|;
    }
  }

  /** Sorting changes neither what is in the list nor how often. */
  lemma SortKeeps<T(!new)>(le: (T, T) -> bool, s: seq<T>, x: T)
    requires TotalPreorder(le)
    ensures x in Sort(le, s) <==> x in s
  {
    SortSorts(le, s);
    assert x in Sort(le, s) <==> x in multiset(Sort(le, s));
  }

  /** Removing one position removes one occurrence. */
  lemma Without<T>(s: seq<T>, i: nat)
    requires i < |s|
    ensures multiset(s) == multiset(s[..i] + s[i + 1..]) + multiset{s[i]}
  {
    assert s == s[..i] + ([s[i]] + s[i + 1..]);
    assert multiset(s) == multiset(s[..i]) + multiset([s[i]] + s[i + 1..]);
    assert multiset([s[i]] + s[i + 1..]) == multiset{s[i]} + multiset(s[i + 1..]);
  }

  lemma WithoutLast<T>(s: seq<T>)
    requires s != []
    ensures multiset(s) == multiset(s[..|s| - 1]) + multiset{s[|s| - 1]}
  {
    assert s == s[..|s| - 1] + [s[|s| - 1]];
  }

  lemma Cancel<T>(x: multiset<T>, y: multiset<T>, e: T)
    requires x + multiset{e} == y + multiset{e}
    ensures x == y
  {
    assert x == (x + multiset{e}) - multiset{e};
    assert y == (y + multiset{e}) - multiset{e};
  }

  /** The last elements of two sorted lists with the same elements are equivalent. */
  lemma LastIsGreatest<T(!new)>(le: (T, T) -> bool, s: seq<T>, x: T)
    requires TotalPreorder(le) && Sorted(le, s) && x in s
    ensures le(x, s[|s| - 1])
  {
    var i :| 0 <= i < |s| && s[i] == x;
  }

  ghost predicate NoTies<T(!new)>(le: (T, T) -> bool, s: seq<T>) {
    forall x, y :: x in s && y in s && le(x, y) && le(y, x) ==> x == y
  }

  /** Two sorted lists with the same elements agree when no two different elements tie. */
  lemma {:induction false} SortedIsUnique<T(!new)>(le: (T, T) -> bool, s: seq<T>, t: seq<T>)
    requires TotalPreorder(le) && Sorted(le, s) && Sorted(le, t)
    requires multiset(s) == multiset(t)
    requires NoTies(le, s)
    ensures s == t
  {
    assert |multiset(s)| == |multiset(t)|;
    if s != [] {
      var n := |s| - 1;
      assert s[n] in multiset(t) && t[n] in multiset(s);
      LastIsGreatest(le, t, s[n]);
      LastIsGreatest(le, s, t[n]);
      assert s[n] == t[n];
      WithoutLast(s);
      WithoutLast(t);
      Cancel(multiset(s[..n]), multiset(t[..n]), s[n]);
      SortedIsUnique(le, s[..n], t[..n]);
      assert s == s[..n] + [s[n]] && t == t[..n] + [t[n]];
    }
  }

  /** A sorted list is left as it is. */
  lemma {:induction false} SortOfSorted<T(!new)>(le: (T, T) -> bool, s: seq<T>)
    requires Sorted(le, s)
    ensures Sort(le, s) == s
  {
    if s != [] {
      var n := |s| - 1;
      SortOfSorted(le, s[..n]);
      assert s == s[..n] + [s[n]];
    }
  }

  function Swap<T>(s: seq<T>, i: nat, j: nat): seq<T>
    requires i < |s| && j < |s|
  {
    s[i := s[j]][j := s[i]]
  }

  /** Swapping two elements that tie leaves a list sorted. */
  lemma SwapTied<T(!new)>(le: (T, T) -> bool, s: seq<T>, i: nat, j: nat)
    requires TotalPreorder(le) && Sorted(le, s) && i < j < |s| && le(s[j], s[i])
    ensures Sorted(le, Swap(s, i, j)) && multiset(Swap(s, i, j)) == multiset(s)
  {
    var t := Swap(s, i, j);
    forall a, b | 0 <= a < b < |t| ensures le(t[a], t[b]) {
      assert le(s[i], s[j]) && le(s[i], s[i]) && le(s[j], s[j]);
      if a < i { assert le(s[a], s[i]) && le(s[a], s[j]); }
      if b > j { assert le(s[i], s[b]) && le(s[j], s[b]); }
      if i < a < j { assert le(s[i], s[a]) && le(s[a], s[j]); }
      if i < b < j { assert le(s[i], s[b]) && le(s[b], s[j]); }
    }
  }

  /** The sorted list does not depend on the order of the elements exactly when different ones never tie. */
  lemma SortIgnoresOrderExactly<T(!new)>(le: (T, T) -> bool, s: seq<T>)
    requires TotalPreorder(le)
    ensures NoTies(le, s) <==> forall t :: multiset(t) == multiset(s) ==> Sort(le, t) == Sort(le, s)
  {
    SortSorts(le, s);
    if NoTies(le, s) {
      forall t | multiset(t) == multiset(s) ensures Sort(le, t) == Sort(le, s) {
        SortSorts(le, t);
        forall x | x in Sort(le, s) ensures x in s { SortKeeps(le, s, x); }
        SortedIsUnique(le, Sort(le, s), Sort(le, t));
      }
    } else {
      var x, y :| x in s && y in s && le(x, y) && le(y, x) && x != y;
      SortKeeps(le, s, x);
      SortKeeps(le, s, y);
      var t := TiedTheOtherWay(le, Sort(le, s), x, y);
      SortOfSorted(le, t);
    }
  }

  /** A sorted list with two different elements that tie has another order. */
  lemma TiedTheOtherWay<T(!new)>(le: (T, T) -> bool, s: seq<T>, x: T, y: T) returns (t: seq<T>)
    requires TotalPreorder(le) && Sorted(le, s) && x in s && y in s && le(x, y) && le(y, x) && x != y
    ensures Sorted(le, t) && multiset(t) == multiset(s) && t != s
  {
    var i :| 0 <= i < |s| && s[i] == x;
    var j :| 0 <= j < |s| && s[j] == y;
    var a, b := if i < j then i else j, if i < j then j else i;
    SwapTied(le, s, a, b);
    t := Swap(s, a, b);
    assert t[a] != s[a];
  }

  /** Lexicographic order of texts by code point, as Python compares them. */
  predicate TextLe(a: string, b: string)
    decreases |a|
  {
    if a == [] then true
    else if b == [] then false
    else a[0] < b[0] || (a[0] == b[0] && TextLe(a[1..], b[1..]))
  }

  /** The texts agree before position k, and there the first has the smaller character. */
  ghost predicate SmallerAt(a: string, b: string, k: nat) {
    k < |a| && k < |b| && a[..k] == b[..k] && a[k] < b[k]
  }

  lemma SmallerAtHead(a: string, b: string, k: nat)
    requires SmallerAt(a, b, k)
    ensures a != [] && b != [] && if k == 0 then a[0] < b[0] else a[0] == b[0]
  {
    if k > 0 { assert a[..k][0] == b[..k][0]; }
  }

  lemma SmallerAtTail(a: string, b: string, k: nat)
    requires a != [] && b != [] && a[0] == b[0]
    ensures SmallerAt(a, b, k + 1) <==> SmallerAt(a[1..], b[1..], k)
  {
    if k + 1 < |a| && k + 1 < |b| {
      assert a[..k + 1] == [a[0]] + a[1..][..k] && b[..k + 1] == [b[0]] + b[1..][..k];
      assert a[..k + 1][1..] == a[1..][..k] && b[..k + 1][1..] == b[1..][..k];
    }
  }

  /** A text is at or before another when it is a beginning of it, or has the smaller character where
      they first differ. */
  lemma {:induction false} TextLeExactly(a: string, b: string)
    ensures TextLe(a, b) <==> a <= b || exists k: nat :: SmallerAt(a, b, k)
    decreases |a|
  {
    if k: nat :| SmallerAt(a, b, k) {
      SmallerAtHead(a, b, k);
      if k > 0 {
        SmallerAtTail(a, b, k - 1);
        TextLeExactly(a[1..], b[1..]);
      }
    } else if a != [] && b != [] {
      assert a[0] < b[0] ==> SmallerAt(a, b, 0);
      if a[0] == b[0] {
        forall k: nat ensures !SmallerAt(a[1..], b[1..], k) { SmallerAtTail(a, b, k); }
        TextLeExactly(a[1..], b[1..]);
        assert a == [a[0]] + a[1..] && b == [b[0]] + b[1..];
      }
    }
  }

  lemma TextTotal(a: string, b: string)
    ensures TextLe(a, b) || TextLe(b, a)
    decreases |a|
  {
    if a != [] && b != [] { TextTotal(a[1..], b[1..]); }
  }

  lemma TextTransitive(a: string, b: string, c: string)
    requires TextLe(a, b) && TextLe(b, c)
    ensures TextLe(a, c)
    decreases |a|
  {
    if a != [] && a[0] == b[0] && b[0] == c[0] { TextTransitive(a[1..], b[1..], c[1..]); }
  }

  lemma {:induction false} TextAntisymmetric(a: string, b: string)
    requires TextLe(a, b) && TextLe(b, a)
    ensures a == b
    decreases |a|
  {
    if a != [] {
      TextAntisymmetric(a[1..], b[1..]);
      assert a == [a[0]] + a[1..] && b == [b[0]] + b[1..];
    }
  }
}
