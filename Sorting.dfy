/** Python's `sorted` / `list.sort`: a stable sort under a total preorder, written as an
    insertion sort. Used for the sorted directory listings and the length and affinity sorts. */
module Sorting {
  import opened Common

  /** `le` is total and transitive: the orders `sorted` can be given. */
  ghost predicate TotalPreorder<T(!new)>(le: (T, T) -> bool) {
    Total(le) && Transitive(le)
  }

  ghost predicate Total<T(!new)>(le: (T, T) -> bool) {
    forall a, b :: le(a, b) || le(b, a)
  }

  ghost predicate Transitive<T(!new)>(le: (T, T) -> bool) {
    forall a, b, c :: le(a, b) && le(b, c) ==> le(a, c)
  }

  predicate Sorted<T>(s: seq<T>, le: (T, T) -> bool) {
    forall i, j :: 0 <= i < j < |s| ==> le(s[i], s[j])
  }

  /** Puts `x` after every element of `s` that is not above it. */
  function Insert<T>(x: T, s: seq<T>, le: (T, T) -> bool): (r: seq<T>)
    ensures |r| == |s| + 1
    ensures multiset(r) == multiset(s) + multiset{x}
  {
    if s == [] then [x]
    else if le(s[0], x) then
      assert s == [s[0]] + s[1..];
      [s[0]] + Insert(x, s[1..], le)
    else [x] + s
  }

  /** Inserts the elements one after the other, in input order. */
  function SortBy<T>(s: seq<T>, le: (T, T) -> bool): (r: seq<T>)
    ensures |r| == |s|
    ensures multiset(r) == multiset(s)
  {
    if s == [] then []
    else
      assert s == s[..|s| - 1] + [s[|s| - 1]];
      Insert(s[|s| - 1], SortBy(s[..|s| - 1], le), le)
  }

  lemma {:induction false} InsertSorted<T(!new)>(x: T, s: seq<T>, le: (T, T) -> bool)
    requires TotalPreorder(le) && Sorted(s, le)
    ensures Sorted(Insert(x, s, le), le)
  {
    if s != [] {
      if le(s[0], x) {
        InsertSorted(x, s[1..], le);
        var r := Insert(x, s, le);
        assert r == [s[0]] + Insert(x, s[1..], le);
        forall j | 0 < j < |r|
          ensures le(r[0], r[j])
        {
          assert r[j] in multiset(Insert(x, s[1..], le));
          assert r[j] == x || r[j] in s[1..];
        }
      } else {
        assert le(x, s[0]);
      }
    }
  }

  /** The result of `SortBy` is ordered and is a permutation of the input. */
  lemma {:induction false} SortBySorted<T(!new)>(s: seq<T>, le: (T, T) -> bool)
    requires TotalPreorder(le)
    ensures Sorted(SortBy(s, le), le)
    ensures multiset(SortBy(s, le)) == multiset(s)
  {
    if s != [] {
      SortBySorted(s[..|s| - 1], le);
      InsertSorted(s[|s| - 1], SortBy(s[..|s| - 1], le), le);
    }
  }

  /** The elements of `s` that `le` ranks equal to `x`, in order. */
  function EquivTo<T>(s: seq<T>, x: T, le: (T, T) -> bool): seq<T> {
    if s == [] then []
    else (if le(s[0], x) && le(x, s[0]) then [s[0]] else []) + EquivTo(s[1..], x, le)
  }

  lemma {:induction false} EquivToAppend<T>(a: seq<T>, b: seq<T>, x: T, le: (T, T) -> bool)
    ensures EquivTo(a + b, x, le) == EquivTo(a, x, le) + EquivTo(b, x, le)
  {
    if a != [] {
      var h := if le(a[0], x) && le(x, a[0]) then [a[0]] else [];
      assert (a + b)[0] == a[0] && (a + b)[1..] == a[1..] + b;
      assert EquivTo(a + b, x, le) == h + EquivTo(a[1..] + b, x, le);
      EquivToAppend(a[1..], b, x, le);
      assert EquivTo(a, x, le) == h + EquivTo(a[1..], x, le);
    } else {
      assert a + b == b;
    }
  }

  lemma {:induction false} EquivToNone<T>(s: seq<T>, x: T, le: (T, T) -> bool)
    requires forall i :: 0 <= i < |s| ==> !(le(s[i], x) && le(x, s[i]))
    ensures EquivTo(s, x, le) == []
  {
    if s != [] {
      EquivToNone(s[1..], x, le);
    }
  }

  /** When `y` lands in front of a sorted `t`, nothing in `t` ranks equal to `y`. */
  lemma {:induction false} NothingEquivBehind<T(!new)>(y: T, t: seq<T>, x: T, le: (T, T) -> bool)
    requires Transitive(le) && Sorted(t, le)
    requires t != [] && !le(t[0], y) && le(y, x) && le(x, y)
    ensures EquivTo(t, x, le) == []
  {
    forall i | 0 <= i < |t|
      ensures !le(t[i], x)
    {
      if le(t[i], x) {
        assert false;
      }
    }
    EquivToNone(t, x, le);
  }

  lemma {:induction false} InsertEquivTo<T(!new)>(y: T, t: seq<T>, x: T, le: (T, T) -> bool)
    requires Transitive(le) && Sorted(t, le)
    ensures EquivTo(Insert(y, t, le), x, le)
         == EquivTo(t, x, le) + (if le(y, x) && le(x, y) then [y] else [])
  {
    if t == [] {
      assert Insert(y, t, le) == [y];
      EquivToSingle(y, x, le);
      assert t + [y] == [y];
    } else if le(t[0], y) {
      assert Sorted(t[1..], le);
      InsertEquivTo(y, t[1..], x, le);
      InsertEquivToBehind(y, t, x, le);
    } else {
      InsertEquivToFront(y, t, x, le);
    }
  }

  /** `y` goes past the head of `t`. */
  lemma {:induction false} InsertEquivToBehind<T>(y: T, t: seq<T>, x: T, le: (T, T) -> bool)
    requires t != [] && le(t[0], y)
    requires EquivTo(Insert(y, t[1..], le), x, le)
          == EquivTo(t[1..], x, le) + (if le(y, x) && le(x, y) then [y] else [])
    ensures EquivTo(Insert(y, t, le), x, le)
         == EquivTo(t, x, le) + (if le(y, x) && le(x, y) then [y] else [])
  {
    InsertBehind(y, t, le);
    EquivToCons(t[0], Insert(y, t[1..], le), x, le);
    EquivToCons(t[0], t[1..], x, le);
    assert [t[0]] + t[1..] == t;
  }

  lemma {:induction false} InsertBehind<T>(y: T, t: seq<T>, le: (T, T) -> bool)
    requires t != [] && le(t[0], y)
    ensures Insert(y, t, le) == [t[0]] + Insert(y, t[1..], le)
  {
  }

  lemma {:induction false} EquivToCons<T>(a: T, rest: seq<T>, x: T, le: (T, T) -> bool)
    ensures EquivTo([a] + rest, x, le) == (if le(a, x) && le(x, a) then [a] else []) + EquivTo(rest, x, le)
  {
    assert ([a] + rest)[0] == a && ([a] + rest)[1..] == rest;
  }

  /** `y` stays in front of `t`. */
  lemma {:induction false} InsertEquivToFront<T(!new)>(y: T, t: seq<T>, x: T, le: (T, T) -> bool)
    requires Transitive(le) && Sorted(t, le)
    requires t != [] && !le(t[0], y)
    ensures EquivTo(Insert(y, t, le), x, le)
         == EquivTo(t, x, le) + (if le(y, x) && le(x, y) then [y] else [])
  {
    var g := if le(y, x) && le(x, y) then [y] else [];
    var r := Insert(y, t, le);
    assert r[0] == y && r[1..] == t;
    assert EquivTo(r, x, le) == g + EquivTo(t, x, le);
    if g != [] {
      NothingEquivBehind(y, t, x, le);
    }
  }

  /** The sort is stable: elements ranked equal keep their relative input order. */
  lemma {:induction false} SortByStable<T(!new)>(s: seq<T>, x: T, le: (T, T) -> bool)
    requires TotalPreorder(le)
    ensures EquivTo(SortBy(s, le), x, le) == EquivTo(s, x, le)
  {
    if s != [] {
      var init, last := s[..|s| - 1], s[|s| - 1];
      assert s == init + [last];
      SortByStable(init, x, le);
      SortBySorted(init, le);
      StableStep(init, last, x, le);
    }
  }

  lemma {:induction false} StableStep<T(!new)>(init: seq<T>, last: T, x: T, le: (T, T) -> bool)
    requires Transitive(le) && Sorted(SortBy(init, le), le)
    requires EquivTo(SortBy(init, le), x, le) == EquivTo(init, x, le)
    ensures EquivTo(SortBy(init + [last], le), x, le) == EquivTo(init + [last], x, le)
  {
    SortBySnoc(init, last, le);
    InsertEquivTo(last, SortBy(init, le), x, le);
    EquivToAppend(init, [last], x, le);
    EquivToSingle(last, x, le);
  }

  lemma {:induction false} SortBySnoc<T>(init: seq<T>, last: T, le: (T, T) -> bool)
    ensures SortBy(init + [last], le) == Insert(last, SortBy(init, le), le)
  {
    var s := init + [last];
    assert s[..|s| - 1] == init && s[|s| - 1] == last;
  }

  lemma {:induction false} EquivToSingle<T>(y: T, x: T, le: (T, T) -> bool)
    ensures EquivTo([y], x, le) == if le(y, x) && le(x, y) then [y] else []
  {
    assert [y][1..] == [];
  }

  /** Python's string order: code point by code point, a proper prefix first. */
  predicate StrLe(a: string, b: string) {
    a == [] || (b != [] && (a[0] < b[0] || (a[0] == b[0] && StrLe(a[1..], b[1..]))))
  }

  lemma {:induction false} StrLeTotal(a: string, b: string)
    ensures StrLe(a, b) || StrLe(b, a)
  {
    if a != [] && b != [] && a[0] == b[0] {
      StrLeTotal(a[1..], b[1..]);
    }
  }

  lemma {:induction false} StrLeTrans(a: string, b: string, c: string)
    requires StrLe(a, b) && StrLe(b, c)
    ensures StrLe(a, c)
  {
    if a != [] && a[0] == b[0] && b[0] == c[0] {
      StrLeTrans(a[1..], b[1..], c[1..]);
    }
  }

  lemma {:induction false} StrLeAntisymmetric(a: string, b: string)
    requires StrLe(a, b) && StrLe(b, a)
    ensures a == b
  {
    if a != [] {
      StrLeAntisymmetric(a[1..], b[1..]);
      assert a == [a[0]] + a[1..] && b == [b[0]] + b[1..];
    }
  }

  lemma {:induction false} StrLeIsTotalPreorder()
    ensures TotalPreorder(StrLe)
  {
    forall a: string, b: string
      ensures StrLe(a, b) || StrLe(b, a)
    {
      StrLeTotal(a, b);
    }
    forall a: string, b: string, c: string | StrLe(a, b) && StrLe(b, c)
      ensures StrLe(a, c)
    {
      StrLeTrans(a, b, c);
    }
  }

  /** `sorted(paths)`: paths of one directory compare as their text. */
  function SortPaths(ps: seq<Path>): (r: seq<Path>)
    ensures |r| == |ps| && multiset(r) == multiset(ps)
    ensures Sorted(r, StrLe)
  {
    StrLeIsTotalPreorder();
    SortBySorted(ps, StrLe);
    SortBy(ps, StrLe)
  }

  lemma {:induction false} SortedHeadsEqual(a: seq<string>, b: seq<string>)
    requires a != [] && b != []
    requires Sorted(a, StrLe) && Sorted(b, StrLe) && multiset(a) == multiset(b)
    ensures a[0] == b[0]
  {
    assert a[0] in multiset(b) && b[0] in multiset(a);
    var i :| 0 <= i < |a| && a[i] == b[0];
    var j :| 0 <= j < |b| && b[j] == a[0];
    StrLeTotal(a[0], a[0]);
    assert StrLe(a[0], b[0]) by {
      if i > 0 {
        assert StrLe(a[0], a[i]);
      }
    }
    assert StrLe(b[0], a[0]) by {
      if j > 0 {
        assert StrLe(b[0], b[j]);
      }
    }
    StrLeAntisymmetric(a[0], b[0]);
  }

  lemma {:induction false} TailsSameElements<T>(a: seq<T>, b: seq<T>)
    requires a != [] && b != [] && a[0] == b[0] && multiset(a) == multiset(b)
    ensures multiset(a[1..]) == multiset(b[1..])
  {
    assert a == [a[0]] + a[1..] && b == [b[0]] + b[1..];
    assert multiset(a[1..]) == multiset(a) - multiset{a[0]};
    assert multiset(b[1..]) == multiset(b) - multiset{b[0]};
  }

  /** Two sorted arrangements of the same texts are the same sequence, so the order in
      which a directory is listed does not change what `sorted` returns. */
  lemma {:induction false} SortedStringsUnique(a: seq<string>, b: seq<string>)
    requires Sorted(a, StrLe) && Sorted(b, StrLe) && multiset(a) == multiset(b)
    ensures a == b
  {
    assert |a| == |multiset(a)| == |multiset(b)| == |b|;
    if a != [] {
      SortedHeadsEqual(a, b);
      TailsSameElements(a, b);
      SortedStringsUnique(a[1..], b[1..]);
      assert a == [a[0]] + a[1..] && b == [b[0]] + b[1..];
    }
  }

  /** `sorted(glob)` depends only on the files found, not on the order they were listed in. */
  lemma {:induction false} SortPathsOrderFree(ps: seq<Path>, qs: seq<Path>)
    requires multiset(ps) == multiset(qs)
    ensures SortPaths(ps) == SortPaths(qs)
  {
    SortedStringsUnique(SortPaths(ps), SortPaths(qs));
  }

  /** The positions `0 .. n-1`, in order. */
  function Range(n: nat): (r: seq<nat>)
    ensures |r| == n && forall k :: 0 <= k < n ==> r[k] == k
  {
    if n == 0 then [] else Range(n - 1) + [n - 1]
  }

  /** `order` names every position below `n` exactly once. */
  predicate IsOrderOf(order: seq<nat>, n: nat) {
    multiset(order) == multiset(Range(n))
  }

  predicate Below(order: seq<nat>, n: nat) {
    forall k :: 0 <= k < |order| ==> order[k] < n
  }

  lemma {:induction false} OrderBelow(order: seq<nat>, n: nat)
    requires IsOrderOf(order, n)
    ensures Below(order, n) && |order| == n
  {
    assert |order| == |multiset(order)| == |multiset(Range(n))| == n;
    forall k | 0 <= k < |order|
      ensures order[k] < n
    {
      assert order[k] in multiset(Range(n));
    }
  }

  /** The elements of `s` at the positions `order` names, in that order. */
  function Permute<T>(s: seq<T>, order: seq<nat>): (r: seq<T>)
    requires Below(order, |s|)
    ensures |r| == |order| && forall k :: 0 <= k < |order| ==> r[k] == s[order[k]]
  {
    if order == [] then [] else Permute(s, order[..|order| - 1]) + [s[order[|order| - 1]]]
  }

  lemma {:induction false} PermuteAppend<T>(s: seq<T>, a: seq<nat>, b: seq<nat>)
    requires Below(a, |s|) && Below(b, |s|)
    ensures Below(a + b, |s|)
    ensures Permute(s, a + b) == Permute(s, a) + Permute(s, b)
  {
    assert Below(a + b, |s|) by {
      forall k | 0 <= k < |a + b| ensures (a + b)[k] < |s| {
        if k >= |a| { assert (a + b)[k] == b[k - |a|]; }
      }
    }
  }

  lemma {:induction false} MultisetRemove(init: seq<nat>, xs: seq<nat>, a: seq<nat>, b: seq<nat>)
    requires multiset(init + xs) == multiset(a + xs + b)
    ensures multiset(init) == multiset(a + b)
  {
    assert multiset(init + xs) == multiset(init) + multiset(xs);
    assert multiset(a + xs + b) == multiset(a) + multiset(xs) + multiset(b);
    assert multiset(a + b) == multiset(a) + multiset(b);
    forall y
      ensures multiset(init)[y] == multiset(a + b)[y]
    {
      assert multiset(init + xs)[y] == multiset(init)[y] + multiset(xs)[y];
      assert multiset(a + xs + b)[y] == multiset(a + b)[y] + multiset(xs)[y];
    }
  }

  lemma {:induction false} PermuteRemove<T>(s: seq<T>, a: seq<nat>, xs: seq<nat>, b: seq<nat>)
    requires Below(a, |s|) && Below(b, |s|) && |xs| == 1 && xs[0] < |s|
    ensures Below(a + xs + b, |s|) && Below(a + b, |s|)
    ensures multiset(Permute(s, a + xs + b)) == multiset(Permute(s, a + b)) + multiset{s[xs[0]]}
  {
    PermuteAppend(s, a, b);
    PermuteAppend(s, a, xs);
    PermuteAppend(s, a + xs, b);
    assert Permute(s, xs) == [s[xs[0]]];
  }

  lemma {:induction false} BelowCut(o: seq<nat>, j: nat, n: nat)
    requires Below(o, n) && j < |o|
    ensures Below(o[..j], n) && Below(o[j + 1..], n) && Below(o[..j] + o[j + 1..], n)
  {
    var a, b := o[..j], o[j + 1..];
    assert forall k :: 0 <= k < |a| ==> a[k] == o[k];
    assert forall k :: 0 <= k < |b| ==> b[k] == o[k + j + 1];
    forall k | 0 <= k < |a + b| ensures (a + b)[k] < n {
      if k >= |a| { assert (a + b)[k] == b[k - |a|]; }
    }
  }

  /** Two orders naming the same positions pick the same elements. */
  lemma {:induction false} PermuteSameMultiset<T>(s: seq<T>, o1: seq<nat>, o2: seq<nat>)
    requires Below(o1, |s|) && Below(o2, |s|) && multiset(o1) == multiset(o2)
    ensures multiset(Permute(s, o1)) == multiset(Permute(s, o2))
    decreases |o1|
  {
    if o1 != [] {
      var init, x := o1[..|o1| - 1], o1[|o1| - 1];
      var xs: seq<nat> := [x];
      assert o1 == init + xs;
      assert x in multiset(o2);
      var j :| 0 <= j < |o2| && o2[j] == x;
      var a, b := o2[..j], o2[j + 1..];
      assert o2 == a + xs + b;
      BelowCut(o2, j, |s|);
      MultisetRemove(init, xs, a, b);
      PermuteSameMultiset(s, init, a + b);
      PermuteRemove(s, a, xs, b);
      PermuteRemove(s, init, xs, []);
      assert init + xs + [] == o1 && init + [] == init;
    }
  }

  /** Reading `s` in any order that names each position once gives the same elements. */
  lemma {:induction false} PermuteKeepsElements<T>(s: seq<T>, order: seq<nat>)
    requires IsOrderOf(order, |s|)
    ensures Below(order, |s|)
    ensures multiset(Permute(s, order)) == multiset(s)
  {
    OrderBelow(order, |s|);
    PermuteRange(s);
    PermuteSameMultiset(s, order, Range(|s|));
  }

  lemma {:induction false} PermuteRange<T>(s: seq<T>)
    ensures Below(Range(|s|), |s|) && Permute(s, Range(|s|)) == s
  {
  }
}
