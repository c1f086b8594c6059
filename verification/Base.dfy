/** Machine integers, results and the few `Vec`/iterator operations the broker relies on. */
module Base {

  const U64_MAX: int := 0xFFFF_FFFF_FFFF_FFFF

  /** An unsigned 64-bit integer; the source's clock readings and window lengths. */
  type u64 = x: int | 0 <= x <= U64_MAX

  /** One byte. */
  type u8 = x: int | 0 <= x < 256

  datatype Option<+T> = None | Some(value: T) {
    predicate IsFailure() { None? }

    function PropagateFailure<U>(): Option<U>
      requires None?
    {
      None
    }

    function Extract(): T
      requires Some?
    {
      value
    }
  }

  datatype Result<+T, +E> = Ok(value: T) | Err(error: E)

  /** `u64::saturating_add`. */
  function SatAdd(a: u64, b: u64): u64 {
    if a + b <= U64_MAX then a + b else U64_MAX
  }

  /** `u64::saturating_sub`. */
  function SatSub(a: u64, b: u64): u64 {
    if b <= a then a - b else 0
  }

  /** `Iterator::position`: the first index whose element satisfies `p`, or `|s|` if there is none. */
  function Position<T>(s: seq<T>, p: T -> bool): (i: nat)
    ensures i <= |s|
    ensures i < |s| ==> p(s[i])
    ensures forall j :: 0 <= j < i ==> !p(s[j])
  {
    if s == [] then 0 else if p(s[0]) then 0 else 1 + Position(s[1..], p)
  }

  lemma PositionUnique<T>(s: seq<T>, p: T -> bool, i: nat)
    requires i <= |s|
    requires i < |s| ==> p(s[i])
    requires forall j :: 0 <= j < i ==> !p(s[j])
    ensures Position(s, p) == i
  {
  }

  /** `Vec::retain`: the elements satisfying `p`, in order. */
  function Retain<T(!new)>(s: seq<T>, p: T -> bool): (r: seq<T>)
    ensures |r| <= |s|
    ensures forall x :: x in r <==> x in s && p(x)
  {
    if s == [] then []
    else
      var front := Retain(s[..|s| - 1], p);
      assert s == s[..|s| - 1] + [s[|s| - 1]];
      if p(s[|s| - 1]) then front + [s[|s| - 1]] else front
  }

  /** The elements of `a` are found in `s` at the increasing places `at`. */
  ghost predicate Places<T(!new)>(a: seq<T>, s: seq<T>, at: seq<nat>) {
    && |at| == |a|
    && (forall i, j :: 0 <= i < j < |at| ==> at[i] < at[j])
    && (forall i :: 0 <= i < |at| ==> at[i] < |s| && a[i] == s[at[i]])
  }

  /** `a` is part of `s` in the order of `s`. */
  ghost predicate InOrder<T(!new)>(a: seq<T>, s: seq<T>) {
    exists at: seq<nat> :: Places(a, s, at)
  }

  lemma {:induction false} RetainInOrder<T(!new)>(s: seq<T>, p: T -> bool)
    ensures InOrder(Retain(s, p), s)
  {
    if s == [] {
      assert Places(Retain(s, p), s, []);
    } else {
      var front := s[..|s| - 1];
      RetainInOrder(front, p);
      var at: seq<nat> :| Places(Retain(front, p), front, at);
      PlacesExtend(Retain(front, p), front, s[|s| - 1], at);
      assert front + [s[|s| - 1]] == s;
      assert Places(Retain(s, p), s, if p(s[|s| - 1]) then at + [|front|] else at);
    }
  }

  lemma PlacesExtend<T(!new)>(a: seq<T>, s: seq<T>, x: T, at: seq<nat>)
    requires Places(a, s, at)
    ensures Places(a, s + [x], at) && Places(a + [x], s + [x], at + [|s|])
  {
  }

  /** Retaining keeps what satisfies `p` as often as it occurs, and nothing else. */
  lemma {:induction false} RetainCounts<T(!new)>(s: seq<T>, p: T -> bool, x: T)
    ensures multiset(Retain(s, p))[x] == if p(x) then multiset(s)[x] else 0
  {
    if s != [] {
      assert s == s[..|s| - 1] + [s[|s| - 1]];
      RetainCounts(s[..|s| - 1], p, x);
    }
  }

  /** Filtering commutes with mapping: keeping by `p` after `f` is `f` after keeping by `p . f`. */
  lemma {:induction false} RetainMapped<A(!new), B(!new)>(xs: seq<A>, ys: seq<B>, p: A -> bool, q: B -> bool, f: B -> A)
    requires |xs| == |ys|
    requires forall i :: 0 <= i < |xs| ==> xs[i] == f(ys[i]) && p(xs[i]) == q(ys[i])
    ensures |Retain(xs, p)| == |Retain(ys, q)|
    ensures forall i :: 0 <= i < |Retain(xs, p)| ==> Retain(xs, p)[i] == f(Retain(ys, q)[i])
  {
    if xs != [] {
      RetainMapped(xs[..|xs| - 1], ys[..|ys| - 1], p, q, f);
    }
  }

  /** Retaining can be read from the front as well. */
  lemma {:induction false} RetainHead<T(!new)>(s: seq<T>, p: T -> bool)
    requires s != []
    ensures Retain(s, p) == (if p(s[0]) then [s[0]] else []) + Retain(s[1..], p)
  {
    if |s| > 1 {
      RetainHead(s[..|s| - 1], p);
      assert s[..|s| - 1][1..] == s[1..][..|s| - 2];
    }
  }

  lemma {:induction false} RetainAgrees<T(!new)>(s: seq<T>, p: T -> bool, q: T -> bool)
    requires forall x :: x in s ==> p(x) == q(x)
    ensures Retain(s, p) == Retain(s, q)
  {
    if s != [] {
      assert s[|s| - 1] in s;
      RetainAgrees(s[..|s| - 1], p, q);
    }
  }

  /** If two sequences satisfy their predicates at the same places, the first such place is the same. */
  lemma PositionMapped<A, B>(xs: seq<A>, ys: seq<B>, p: A -> bool, q: B -> bool)
    requires |xs| == |ys| && forall i :: 0 <= i < |xs| ==> p(xs[i]) == q(ys[i])
    ensures Position(xs, p) == Position(ys, q)
  {
    PositionUnique(ys, q, Position(xs, p));
  }

  /** `Vec::swap_remove`: drop element `i` and put the last element in its place. */
  function SwapRemove<T>(s: seq<T>, i: nat): (r: seq<T>)
    requires i < |s|
    ensures |r| == |s| - 1
    ensures forall j :: 0 <= j < |r| ==> r[j] == if j == i then s[|s| - 1] else s[j]
  {
    var front := s[..|s| - 1];
    if i == |s| - 1 then front else front[i := s[|s| - 1]]
  }

  /** Swapping the last element in loses nothing but element `i`. */
  lemma SwapRemoveMultiset<T>(s: seq<T>, i: nat)
    requires i < |s|
    ensures multiset(SwapRemove(s, i)) + multiset{s[i]} == multiset(s)
  {
    assert s == s[..|s| - 1] + [s[|s| - 1]];
    if i < |s| - 1 {
      var front := s[..|s| - 1];
      assert front == front[..i] + [front[i]] + front[i + 1..];
      assert front[i := s[|s| - 1]] == front[..i] + [s[|s| - 1]] + front[i + 1..];
    }
  }

  ghost predicate Distinct<T(!new)>(s: seq<T>) {
    forall i, j :: 0 <= i < j < |s| ==> s[i] != s[j]
  }

  lemma {:induction false} RetainDistinct<T(!new)>(s: seq<T>, p: T -> bool)
    requires Distinct(s)
    ensures Distinct(Retain(s, p))
  {
    if s != [] {
      RetainDistinct(s[..|s| - 1], p);
    }
  }

  lemma SwapRemoveDistinct<T(!new)>(s: seq<T>, i: nat)
    requires i < |s| && Distinct(s)
    ensures Distinct(SwapRemove(s, i))
    ensures s[i] !in SwapRemove(s, i)
    ensures forall x :: x in SwapRemove(s, i) <==> x in s && x != s[i]
  {
    var r := SwapRemove(s, i);
    forall x | x in s && x != s[i] ensures x in r {
      var j :| 0 <= j < |s| && s[j] == x;
      if j == |s| - 1 { assert r[i] == x; } else { assert r[j] == x; }
    }
  }

  function Concat<T>(ss: seq<seq<T>>): seq<T> {
    if ss == [] then [] else Concat(ss[..|ss| - 1]) + ss[|ss| - 1]
  }
}
