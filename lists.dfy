/** List operations the application builds from JavaScript's array methods:
    `filter`, the `includes`-then-`filter`-or-append toggle, and the notion
    of "the same items, in the same order". */
module Lists {

  /** `s.filter(p)`: the elements of `s` that satisfy `p`, in order. */
  function Filter<T(!new)>(p: T -> bool, s: seq<T>): (r: seq<T>)
    ensures |r| <= |s|
    ensures forall x :: x in r <==> x in s && p(x)
    ensures forall i :: 0 <= i < |r| ==> p(r[i])
  {
    if s == [] then []
    else if p(s[0]) then [s[0]] + Filter(p, s[1..])
    else Filter(p, s[1..])
  }

  /** Filtering keeps every copy of what it keeps: an element occurs in the
      result exactly as often as in the input when it satisfies `p`, and
      not at all otherwise. */
  lemma {:induction false} FilterMultiplicity<T(!new)>(p: T -> bool, s: seq<T>)
    ensures forall x :: multiset(Filter(p, s))[x] == if p(x) then multiset(s)[x] else 0
  {
    if s != [] {
      FilterMultiplicity(p, s[1..]);
      assert s == [s[0]] + s[1..];
    }
  }

  /** `r` can be obtained from `s` by deleting elements (order kept). */
  ghost predicate IsSubsequence<T>(r: seq<T>, s: seq<T>)
    decreases |s|
  {
    if r == [] then true
    else if s == [] then false
    else (r[0] == s[0] && IsSubsequence(r[1..], s[1..])) || IsSubsequence(r, s[1..])
  }

  /** Filtering keeps the order of what it keeps. */
  lemma {:induction false} FilterIsSubsequence<T(!new)>(p: T -> bool, s: seq<T>)
    ensures IsSubsequence(Filter(p, s), s)
  {
    if s != [] {
      FilterIsSubsequence(p, s[1..]);
      var r := Filter(p, s);
      if p(s[0]) {
        assert r[0] == s[0] && r[1..] == Filter(p, s[1..]);
      } else {
        assert r == Filter(p, s[1..]);
        if r != [] {
          assert IsSubsequence(r, s[1..]);
        }
      }
    }
  }

  /** Filtering a concatenation filters each part: what is kept from `a`
      comes before what is kept from `b`. */
  lemma {:induction false} FilterConcat<T(!new)>(p: T -> bool, a: seq<T>, b: seq<T>)
    ensures Filter(p, a + b) == Filter(p, a) + Filter(p, b)
  {
    if a == [] {
      assert a + b == b;
    } else {
      assert (a + b)[0] == a[0];
      assert (a + b)[1..] == a[1..] + b;
      FilterConcat(p, a[1..], b);
    }
  }

  /** A filter whose predicate holds of every element keeps the whole list. */
  lemma {:induction false} FilterKeepsAll<T(!new)>(p: T -> bool, s: seq<T>)
    requires forall x :: x in s ==> p(x)
    ensures Filter(p, s) == s
  {
    if s != [] {
      assert forall x :: x in s[1..] ==> x in s;
      FilterKeepsAll(p, s[1..]);
    }
  }

  /** A filter whose predicate holds of no element keeps nothing. */
  lemma {:induction false} FilterKeepsNone<T(!new)>(p: T -> bool, s: seq<T>)
    requires forall x :: x in s ==> !p(x)
    ensures Filter(p, s) == []
  {
    if s != [] {
      assert forall x :: x in s[1..] ==> x in s;
      FilterKeepsNone(p, s[1..]);
    }
  }

  /** Two predicates that agree on every element of `s` filter it alike. */
  lemma {:induction false} FilterAgree<T(!new)>(p: T -> bool, q: T -> bool, s: seq<T>)
    requires forall x :: x in s ==> p(x) == q(x)
    ensures Filter(p, s) == Filter(q, s)
  {
    if s != [] {
      assert forall x :: x in s[1..] ==> x in s;
      FilterAgree(p, q, s[1..]);
    }
  }

  /** `s.includes(x) ? s.filter(y => y !== x) : [...s, x]`: removes every
      copy of a present element and appends an absent one. */
  function Toggle<T(==,!new)>(s: seq<T>, x: T): (r: seq<T>)
    ensures x in s ==> x !in r && |r| < |s|
    ensures x !in s ==> r == s + [x]
    ensures forall y :: y != x ==> (y in r <==> y in s)
  {
    if x in s then
      FilterShrinks(y => y != x, s, x);
      Filter(y => y != x, s)
    else s + [x]
  }

  /** A filter drops at least one element when it rejects some element. */
  lemma {:induction false} FilterShrinks<T(!new)>(p: T -> bool, s: seq<T>, x: T)
    requires x in s && !p(x)
    ensures |Filter(p, s)| < |s|
  {
    if s[0] != x {
      FilterShrinks(p, s[1..], x);
    }
  }

  /** Toggling an absent element twice gives back the list exactly. */
  lemma {:induction false} ToggleTwiceAbsent<T(!new)>(s: seq<T>, x: T)
    requires x !in s
    ensures Toggle(Toggle(s, x), x) == s
  {
    var p := (y: T) => y != x;
    assert x in s + [x];
    FilterConcat(p, s, [x]);
    FilterKeepsAll(p, s);
    assert Filter(p, [x]) == [];
  }

  /** Toggling a present element twice restores membership, with every copy
      of the element replaced by one copy at the end. */
  lemma {:induction false} ToggleTwicePresent<T(!new)>(s: seq<T>, x: T)
    requires x in s
    ensures Toggle(Toggle(s, x), x) == Filter(y => y != x, s) + [x]
    ensures forall y :: y in Toggle(Toggle(s, x), x) <==> y in s
  {
  }

  /** `s.reduce((acc, x) => acc + f(x), acc)`: a left fold adding `f` of
      each element to the accumulator. Adding only non-negative values
      never lowers it. */
  function FoldAdd<T>(f: T -> int, acc: int, s: seq<T>): (r: int)
    ensures (forall i :: 0 <= i < |s| ==> f(s[i]) >= 0) ==> r >= acc
    decreases |s|
  {
    if s == [] then acc else FoldAdd(f, acc + f(s[0]), s[1..])
  }

  /** The sum of `f` over the elements. */
  function Sum<T>(f: T -> int, s: seq<T>): int
  {
    if s == [] then 0 else f(s[0]) + Sum(f, s[1..])
  }

  /** The left fold adds the sum to its starting value. */
  lemma {:induction false} FoldAddIsSum<T>(f: T -> int, acc: int, s: seq<T>)
    ensures FoldAdd(f, acc, s) == acc + Sum(f, s)
    decreases |s|
  {
    if s != [] {
      FoldAddIsSum(f, acc + f(s[0]), s[1..]);
    }
  }
}
