/** Helpers shared by the whole model: an optional value, and the ascending order in
    which `std::map` and `std::set` visit their integer keys. */
module Collections {

  datatype Option<+T> = None | Some(value: T)

  /** Some element of a non-empty set. */
  lemma Pick<T>(s: set<T>) returns (x: T)
    requires s != {}
    ensures x in s
  {
    if forall z :: z !in s { assert false; }
    x :| x in s;
  }

  /** Every non-empty finite set of integers has a least element. */
  lemma {:induction false} HasMin(s: set<int>)
    requires s != {}
    ensures exists m :: m in s && forall x | x in s :: m <= x
    decreases |s|
  {
    var y := Pick(s);
    if s != {y} {
      HasMin(s - {y});
      var m :| m in s - {y} && forall x | x in s - {y} :: m <= x;
      if y < m {
        forall x | x in s ensures y <= x {
          if x != y { assert x in s - {y}; }
        }
      } else {
        forall x | x in s ensures m <= x {
          if x != y { assert x in s - {y}; }
        }
      }
    }
  }

  /** The least key of a non-empty set: the first key a `std::map` iteration visits. */
  function Min(s: set<int>): (m: int)
    requires s != {}
    ensures m in s
    ensures forall x | x in s :: m <= x
  {
    HasMin(s);
    var m :| m in s && forall x | x in s :: m <= x; m
  }

  /** The keys of `s` in ascending order: the visiting order of `std::map` and `std::set`. */
  function Ascending(s: set<int>): (r: seq<int>)
    ensures |r| == |s|
    ensures forall i | 0 <= i < |r| :: r[i] in s
    ensures forall x | x in s :: x in r
    decreases |s|
  {
    if s == {} then []
    else
      var m := Min(s);
      [m] + Ascending(s - {m})
  }

  /** Each key comes before every larger one, so no key is visited twice. */
  lemma {:induction false} AscendingIsSorted(s: set<int>)
    ensures forall i, j | 0 <= i < j < |Ascending(s)| :: Ascending(s)[i] < Ascending(s)[j]
    decreases |s|
  {
    if s != {} {
      var m := Min(s);
      AscendingIsSorted(s - {m});
    }
  }

  /** `keys` visits every element of `s` once, in ascending order. */
  predicate ListsAscending(keys: seq<int>, s: set<int>) {
    && (forall i | 0 <= i < |keys| :: keys[i] in s)
    && (forall x | x in s :: x in keys)
    && (forall i, j | 0 <= i < j < |keys| :: keys[i] < keys[j])
  }

  lemma AscendingLists(s: set<int>)
    ensures ListsAscending(Ascending(s), s)
  {
    AscendingIsSorted(s);
  }

  lemma AppendAssoc<T>(a: seq<T>, b: seq<T>, c: seq<T>)
    ensures a + (b + c) == (a + b) + c
  {
  }

  /** The set `{0, ..., n - 1}`, which has exactly `n` elements. */
  function Below(n: nat): (s: set<int>)
    ensures forall k :: k in s <==> 0 <= k < n
    ensures |s| == n
  {
    if n == 0 then {} else Below(n - 1) + {n - 1}
  }

  /** `f` applied, starting from `s`, to the first `n` elements of `xs` in turn. */
  function FoldFirst<S, X>(s: S, xs: seq<X>, n: nat, f: (S, X) -> S): S
    requires n <= |xs|
  {
    if n == 0 then s else f(FoldFirst(s, xs, n - 1, f), xs[n - 1])
  }

  /** A property that every step keeps holds after the whole fold. */
  lemma {:induction false} FoldFirstKeeps<S, X>(s: S, xs: seq<X>, n: nat, f: (S, X) -> S, inv: S -> bool)
    requires n <= |xs|
    requires inv(s)
    requires forall t, i | 0 <= i < |xs| && inv(t) :: inv(f(t, xs[i]))
    ensures inv(FoldFirst(s, xs, n, f))
  {
    if n > 0 {
      FoldFirstKeeps(s, xs, n - 1, f, inv);
      assert inv(f(FoldFirst(s, xs, n - 1, f), xs[n - 1]));
    }
  }

  /** `f` applied, starting from `s`, to the elements of `xs` from the front: the same
      fold as `FoldFirst`, read as "what is left to do" while a loop walks `xs`. */
  function FoldFrom<S, X>(s: S, xs: seq<X>, f: (S, X) -> S): S
    decreases |xs|
  {
    if xs == [] then s else FoldFrom(f(s, xs[0]), xs[1..], f)
  }

  lemma FoldFromStep<S, X>(s: S, xs: seq<X>, i: nat, f: (S, X) -> S)
    requires i < |xs|
    ensures FoldFrom(s, xs[i..], f) == FoldFrom(f(s, xs[i]), xs[i + 1..], f)
  {
    assert xs[i..][1..] == xs[i + 1..];
  }

  /** Folding the first `n` elements and then the rest is folding them all. */
  lemma {:induction false} FoldFromFirst<S, X>(s: S, xs: seq<X>, n: nat, f: (S, X) -> S)
    requires n <= |xs|
    ensures FoldFrom(FoldFirst(s, xs, n, f), xs[n..], f) == FoldFirst(s, xs, |xs|, f)
    decreases |xs| - n
  {
    if n < |xs| {
      FoldFromStep(FoldFirst(s, xs, n, f), xs, n, f);
      FoldFromFirst(s, xs, n + 1, f);
    }
  }
}
