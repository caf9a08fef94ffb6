/** The array operations the pages use on their lists (`filter`, `map`, `find`, `slice`),
    written over sequences, with the facts about them that the other modules rely on. */
module Seqs {
  import opened Wrappers

  function Min(a: int, b: int): int { if a <= b then a else b }

  /** The complement of a predicate. */
  function Not<T>(p: T -> bool): T -> bool { x => !p(x) }

  /** `p` after `f`. */
  function Compose<A, B>(p: B -> bool, f: A -> B): A -> bool { x => p(f(x)) }

  /** `xs.filter(p)`: the elements that satisfy `p`, in their original order. */
  function Filter<T>(s: seq<T>, p: T -> bool): (r: seq<T>)
    ensures |r| <= |s|
    ensures forall i :: 0 <= i < |r| ==> r[i] in s && p(r[i])
    ensures forall i :: 0 <= i < |s| && p(s[i]) ==> s[i] in r
    decreases |s|
  {
    if s == [] then [] else (if p(s[0]) then [s[0]] else []) + Filter(s[1..], p)
  }

  /** `xs.map(f)`. */
  function MapSeq<A, B>(s: seq<A>, f: A -> B): (r: seq<B>)
    ensures |r| == |s|
    ensures forall i :: 0 <= i < |s| ==> r[i] == f(s[i])
    decreases |s|
  {
    if s == [] then [] else [f(s[0])] + MapSeq(s[1..], f)
  }

  /** `xs.map(v => p(v) ? x : v)`: every element satisfying `p` is replaced by `x`. */
  function ReplaceWhere<T>(s: seq<T>, p: T -> bool, x: T): (r: seq<T>)
    ensures |r| == |s|
    ensures forall i :: 0 <= i < |s| ==> r[i] == (if p(s[i]) then x else s[i])
    decreases |s|
  {
    if s == [] then [] else [if p(s[0]) then x else s[0]] + ReplaceWhere(s[1..], p, x)
  }

  /** The index of the first element satisfying `p` (what `xs.find(p)` returns the element at). */
  function FindFirst<T>(s: seq<T>, p: T -> bool): (r: Option<nat>)
    ensures r.Some? ==> r.value < |s| && p(s[r.value]) && forall j :: 0 <= j < r.value ==> !p(s[j])
    ensures r.None? ==> forall j :: 0 <= j < |s| ==> !p(s[j])
    decreases |s|
  {
    if s == [] then None
    else if p(s[0]) then Some(0)
    else match FindFirst(s[1..], p)
      case None => None
      case Some(k) => Some(k + 1)
  }

  /** Two positions that are each the first to satisfy `p` are the same position. */
  lemma FirstMatchUnique<T>(s: seq<T>, p: T -> bool, i: nat, k: nat)
    requires i < |s| && k < |s| && p(s[i]) && p(s[k])
    requires forall j :: 0 <= j < i ==> !p(s[j])
    requires forall j :: 0 <= j < k ==> !p(s[j])
    ensures i == k
  {
  }

  /** `xs.slice(0, n)`. */
  function Take<T>(s: seq<T>, n: nat): (r: seq<T>)
    ensures |r| == Min(n, |s|) && r == s[..|r|]
  {
    s[..Min(n, |s|)]
  }

  lemma {:induction false} FilterConcat<T>(a: seq<T>, b: seq<T>, p: T -> bool)
    ensures Filter(a + b, p) == Filter(a, p) + Filter(b, p)
    decreases |a|
  {
    if a != [] {
      assert (a + b)[1..] == a[1..] + b;
      FilterConcat(a[1..], b, p);
    } else {
      assert a + b == b;
    }
  }

  /** Filtering a sequence extended by one element. */
  lemma FilterSnoc<T>(s: seq<T>, x: T, p: T -> bool)
    ensures Filter(s + [x], p) == Filter(s, p) + (if p(x) then [x] else [])
  {
    FilterConcat(s, [x], p);
    assert Filter([x], p) == (if p(x) then [x] else []) + Filter([x][1..], p);
  }

  lemma MapSeqSnoc<A, B>(s: seq<A>, x: A, f: A -> B)
    ensures MapSeq(s + [x], f) == MapSeq(s, f) + [f(x)]
  {
  }

  lemma {:induction false} FilterAll<T>(s: seq<T>, p: T -> bool)
    requires forall i :: 0 <= i < |s| ==> p(s[i])
    ensures Filter(s, p) == s
    decreases |s|
  {
    if s != [] {
      FilterAll(s[1..], p);
    }
  }

  lemma {:induction false} FilterNone<T>(s: seq<T>, p: T -> bool)
    requires forall i :: 0 <= i < |s| ==> !p(s[i])
    ensures Filter(s, p) == []
    decreases |s|
  {
    if s != [] {
      FilterNone(s[1..], p);
    }
  }

  /** A predicate and its complement split a sequence without losing or adding elements. */
  lemma {:induction false} FilterSplitMultiset<T>(s: seq<T>, p: T -> bool)
    ensures multiset(Filter(s, p)) + multiset(Filter(s, Not(p))) == multiset(s)
    decreases |s|
  {
    if s != [] {
      FilterSplitMultiset(s[1..], p);
      assert s == [s[0]] + s[1..];
    }
  }

  /** Counting is blind to the order of the elements. */
  lemma {:induction false} FilterCountPermutation<T>(a: seq<T>, b: seq<T>, p: T -> bool)
    requires multiset(a) == multiset(b)
    ensures |Filter(a, p)| == |Filter(b, p)|
    decreases |a|
  {
    if a == [] {
      assert |multiset(b)| == 0;
      assert b == [];
    } else {
      var x := a[0];
      assert x in multiset(b);
      var k :| 0 <= k < |b| && b[k] == x;
      var b' := b[..k] + b[k + 1..];
      assert b == b[..k] + [x] + b[k + 1..];
      assert a == [x] + a[1..];
      assert multiset(b') == multiset(b) - multiset{x};
      FilterCountPermutation(a[1..], b', p);
      FilterConcat(b[..k] + [x], b[k + 1..], p);
      FilterConcat(b[..k], [x], p);
      FilterConcat(b[..k], b[k + 1..], p);
    }
  }

  /** Filtering the images equals taking the images of the filtered elements. */
  lemma {:induction false} FilterMapSeq<A, B>(s: seq<A>, f: A -> B, p: B -> bool)
    ensures Filter(MapSeq(s, f), p) == MapSeq(Filter(s, Compose(p, f)), f)
    decreases |s|
  {
    if s != [] {
      FilterMapSeq(s[1..], f, p);
      assert MapSeq(s, f)[1..] == MapSeq(s[1..], f);
      var rest := Filter(s[1..], Compose(p, f));
      if Compose(p, f)(s[0]) {
        assert [s[0]] + rest == [s[0]] + rest;
        assert MapSeq([s[0]] + rest, f) == [f(s[0])] + MapSeq(rest, f) by {
          assert ([s[0]] + rest)[1..] == rest;
        }
      }
    }
  }

  /** Holds of what satisfies none of the three predicates. */
  function NoneOf<T>(p: T -> bool, q: T -> bool, r: T -> bool): T -> bool { x => !p(x) && !q(x) && !r(x) }

  lemma {:induction false} ExclusiveFilterCount<T>(s: seq<T>, p: T -> bool, q: T -> bool, r: T -> bool)
    requires forall i :: 0 <= i < |s| ==> !(p(s[i]) && q(s[i])) && !(p(s[i]) && r(s[i])) && !(q(s[i]) && r(s[i]))
    ensures |Filter(s, p)| + |Filter(s, q)| + |Filter(s, r)| + |Filter(s, NoneOf(p, q, r))| == |s|
    decreases |s|
  {
    if s != [] {
      ExclusiveFilterCount(s[1..], p, q, r);
    }
  }

  /** Three mutually exclusive predicates select at most as many elements as there are,
      and exactly as many when every element satisfies one of them. */
  lemma ExclusiveFilterSizes<T>(s: seq<T>, p: T -> bool, q: T -> bool, r: T -> bool)
    requires forall i :: 0 <= i < |s| ==> !(p(s[i]) && q(s[i])) && !(p(s[i]) && r(s[i])) && !(q(s[i]) && r(s[i]))
    ensures |Filter(s, p)| + |Filter(s, q)| + |Filter(s, r)| <= |s|
    ensures (forall i :: 0 <= i < |s| ==> p(s[i]) || q(s[i]) || r(s[i])) <==>
            |Filter(s, p)| + |Filter(s, q)| + |Filter(s, r)| == |s|
  {
    ExclusiveFilterCount(s, p, q, r);
    var n := Filter(s, NoneOf(p, q, r));
    if forall i :: 0 <= i < |s| ==> p(s[i]) || q(s[i]) || r(s[i]) {
      FilterNone(s, NoneOf(p, q, r));
    } else {
      var i :| 0 <= i < |s| && !(p(s[i]) || q(s[i]) || r(s[i]));
      assert NoneOf(p, q, r)(s[i]);
      assert s[i] in n;
    }
  }
}
