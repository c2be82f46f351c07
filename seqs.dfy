/**
 * The array methods the templates chain together, on immutable sequences:
 * `filter`, `findIndex`, `slice(0, n)`, and the order-keeping relation
 * between a filtered list and its source.
 */
module Sequences {
  import opened Js

  /** `r` lists some of the elements of `xs`, in the order `xs` has them. */
  ghost predicate IsSubsequence<T>(r: seq<T>, xs: seq<T>)
    decreases |xs|
  {
    if |r| == 0 then true
    else if |xs| == 0 then false
    else if r[0] == xs[0] then IsSubsequence(r[1..], xs[1..])
    else IsSubsequence(r, xs[1..])
  }

  lemma {:induction false} SubsequenceCons<T>(r: seq<T>, xs: seq<T>)
    requires |xs| > 0 && IsSubsequence(r, xs[1..])
    ensures IsSubsequence(r, xs)
    decreases |xs|, 0
  {
    if |r| > 0 && r[0] == xs[0] {
      SubsequenceTail(r, xs[1..]);
    }
  }

  lemma {:induction false} SubsequenceTail<T>(r: seq<T>, ys: seq<T>)
    requires |r| > 0 && IsSubsequence(r, ys)
    ensures IsSubsequence(r[1..], ys)
    decreases |ys|, 1
  {
    if |ys| > 0 {
      if r[0] != ys[0] {
        SubsequenceTail(r, ys[1..]);
      }
      SubsequenceCons(r[1..], ys);
    }
  }

  /** `xs.filter(keep)`. */
  function Filter<T>(xs: seq<T>, keep: T -> bool): (r: seq<T>)
    ensures |r| <= |xs|
    ensures forall i :: 0 <= i < |r| ==> r[i] in xs && keep(r[i])
    ensures forall i :: 0 <= i < |xs| && keep(xs[i]) ==> xs[i] in r
    decreases |xs|
  {
    if |xs| == 0 then []
    else if keep(xs[0]) then [xs[0]] + Filter(xs[1..], keep)
    else Filter(xs[1..], keep)
  }

  /** What `filter` keeps stays in its original order. */
  lemma {:induction false} FilterOrdered<T>(xs: seq<T>, keep: T -> bool)
    ensures IsSubsequence(Filter(xs, keep), xs)
    decreases |xs|
  {
    if |xs| > 0 {
      FilterOrdered(xs[1..], keep);
      if keep(xs[0]) {
        assert ([xs[0]] + Filter(xs[1..], keep))[1..] == Filter(xs[1..], keep);
      } else {
        SubsequenceCons(Filter(xs[1..], keep), xs);
      }
    }
  }

  /** `filter` keeps every element the predicate accepts, as many times as it occurs. */
  lemma {:induction false} FilterCount<T>(xs: seq<T>, keep: T -> bool, x: T)
    ensures multiset(Filter(xs, keep))[x] == if keep(x) then multiset(xs)[x] else 0
    decreases |xs|
  {
    if |xs| > 0 {
      FilterCount(xs[1..], keep, x);
      assert xs == [xs[0]] + xs[1..];
    }
  }

  /** A filter that accepts everything is the identity. */
  lemma {:induction false} FilterAll<T>(xs: seq<T>, keep: T -> bool)
    requires forall i :: 0 <= i < |xs| ==> keep(xs[i])
    ensures Filter(xs, keep) == xs
    decreases |xs|
  {
    if |xs| > 0 {
      FilterAll(xs[1..], keep);
      assert xs == [xs[0]] + xs[1..];
    }
  }

  /** `filter` starts with the first element it accepts, followed by what it keeps of the rest. */
  lemma {:induction false} FilterFirst<T>(xs: seq<T>, keep: T -> bool, j: nat)
    requires j < |xs| && keep(xs[j]) && forall i :: 0 <= i < j ==> !keep(xs[i])
    ensures Filter(xs, keep) == [xs[j]] + Filter(xs[j + 1..], keep)
    decreases j
  {
    if j > 0 {
      assert forall i :: 0 <= i < j - 1 ==> xs[1..][i] == xs[i + 1];
      FilterFirst(xs[1..], keep, j - 1);
      assert xs[1..][j..] == xs[j + 1..];
    }
  }

  /** A filter that accepts nothing is empty. */
  lemma {:induction false} FilterNone<T>(xs: seq<T>, keep: T -> bool)
    requires forall i :: 0 <= i < |xs| ==> !keep(xs[i])
    ensures Filter(xs, keep) == []
    decreases |xs|
  {
    if |xs| > 0 {
      assert forall i :: 0 <= i < |xs| - 1 ==> xs[1..][i] == xs[i + 1];
      FilterNone(xs[1..], keep);
    }
  }

  /** `xs.findIndex(f)`, `None` standing for `-1`: the first position `f` accepts. */
  function FindIndex<T>(xs: seq<T>, f: T -> bool): (r: Option<nat>)
    ensures r.None? <==> forall i :: 0 <= i < |xs| ==> !f(xs[i])
    ensures r.Some? ==> r.value < |xs| && f(xs[r.value]) && forall i :: 0 <= i < r.value ==> !f(xs[i])
    decreases |xs|
  {
    if |xs| == 0 then None
    else if f(xs[0]) then Some(0)
    else
      var rest := FindIndex(xs[1..], f);
      assert forall i :: 1 <= i < |xs| ==> xs[i] == xs[1..][i - 1];
      if rest.None? then None else Some(rest.value + 1)
  }

  /** `xs.find(f)`. */
  function Find<T>(xs: seq<T>, f: T -> bool): (r: Option<T>)
    ensures r.None? <==> forall i :: 0 <= i < |xs| ==> !f(xs[i])
    ensures r.Some? ==>
      exists i :: 0 <= i < |xs| && xs[i] == r.value && f(xs[i]) && forall j :: 0 <= j < i ==> !f(xs[j])
  {
    var i := FindIndex(xs, f);
    if i.None? then None else Some(xs[i.value])
  }

  function Min(a: int, b: int): int {
    if a < b then a else b
  }

  /** `xs.slice(start, end)` for non-negative bounds: both are clamped to the length. */
  function Slice<T>(xs: seq<T>, start: nat, end: nat): (r: seq<T>)
    ensures |r| == if start < Min(end, |xs|) then Min(end, |xs|) - start else 0
    ensures forall j :: 0 <= j < |r| ==> r[j] == xs[start + j]
  {
    if start < Min(end, |xs|) then xs[start..Min(end, |xs|)] else []
  }

  /** `xs.slice(0, n)`: JavaScript clamps the end to the length. */
  function Take<T>(xs: seq<T>, n: nat): (r: seq<T>)
    ensures |r| == if n < |xs| then n else |xs|
    ensures r <= xs
  {
    if n < |xs| then xs[..n] else xs
  }

  /** The array after `splice(i, 1)`: the element at `i` is taken out, the rest close up. */
  function RemoveAt<T>(xs: seq<T>, i: nat): (r: seq<T>)
    requires i < |xs|
    ensures |r| == |xs| - 1
    ensures forall j :: 0 <= j < i ==> r[j] == xs[j]
    ensures forall j :: i <= j < |r| ==> r[j] == xs[j + 1]
    ensures multiset(r) + multiset{xs[i]} == multiset(xs)
  {
    assert xs == xs[..i] + [xs[i]] + xs[i + 1..];
    xs[..i] + xs[i + 1..]
  }

  /** The array after `splice(i, 0, x)`: `x` is put at `i`, the rest move up by one. */
  function InsertAt<T>(xs: seq<T>, i: nat, x: T): (r: seq<T>)
    requires i <= |xs|
    ensures |r| == |xs| + 1 && r[i] == x
    ensures RemoveAt(r, i) == xs
    ensures multiset(r) == multiset(xs) + multiset{x}
  {
    var r := xs[..i] + [x] + xs[i..];
    assert r[..i] == xs[..i] && r[i + 1..] == xs[i..];
    assert xs == xs[..i] + xs[i..];
    r
  }
}
