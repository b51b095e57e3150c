/** The two list transformations the application applies to its state lists:
    `Array.prototype.filter` and a `map` that rewrites only the matching entries. */
module Seqs {

  /** `xs.filter(keep)`. */
  function Filter<T>(xs: seq<T>, keep: T -> bool): (r: seq<T>)
    ensures |r| <= |xs|
    ensures forall i :: 0 <= i < |r| ==> r[i] in xs && keep(r[i])
    ensures forall i :: 0 <= i < |xs| && keep(xs[i]) ==> xs[i] in r
  {
    if xs == [] then [] else (if keep(xs[0]) then [xs[0]] else []) + Filter(xs[1..], keep)
  }

  /** `xs` can be obtained from `ys` by deleting elements, keeping the order of the rest. */
  predicate IsSubsequence<T(==)>(xs: seq<T>, ys: seq<T>)
    decreases |ys|
  {
    if xs == [] then true
    else if ys == [] then false
    else if xs[0] == ys[0] then IsSubsequence(xs[1..], ys[1..])
    else IsSubsequence(xs, ys[1..])
  }

  lemma {:induction false} SubsequenceOfTail<T>(xs: seq<T>, ys: seq<T>)
    requires |ys| > 0 && IsSubsequence(xs, ys[1..])
    ensures IsSubsequence(xs, ys)
    decreases |ys|, 0
  {
    if xs != [] && xs[0] == ys[0] {
      // both sides drop their head; xs[1..] embeds in ys[1..] because xs does
      SubsequenceDropHead(xs, ys[1..]);
    }
  }

  lemma {:induction false} SubsequenceDropHead<T>(xs: seq<T>, ys: seq<T>)
    requires xs != [] && IsSubsequence(xs, ys)
    ensures IsSubsequence(xs[1..], ys)
    decreases |ys|, 1
  {
    if xs[0] == ys[0] {
      SubsequenceOfTail(xs[1..], ys);
    } else {
      SubsequenceDropHead(xs, ys[1..]);
      SubsequenceOfTail(xs[1..], ys);
    }
  }

  /** Filtering keeps the surviving elements in their original order. */
  lemma {:induction false} FilterIsSubsequence<T>(xs: seq<T>, keep: T -> bool)
    ensures IsSubsequence(Filter(xs, keep), xs)
  {
    if xs != [] {
      FilterIsSubsequence(xs[1..], keep);
      var rest := Filter(xs[1..], keep);
      if keep(xs[0]) {
        assert Filter(xs, keep) == [xs[0]] + rest;
        assert ([xs[0]] + rest)[1..] == rest;
      } else {
        assert Filter(xs, keep) == rest;
        SubsequenceOfTail(rest, xs);
      }
    }
  }

  /** Filtering keeps every kept value as often as it occurred and drops every other value. */
  lemma {:induction false} FilterMultiplicity<T>(xs: seq<T>, keep: T -> bool, x: T)
    ensures multiset(Filter(xs, keep))[x] == if keep(x) then multiset(xs)[x] else 0
  {
    if xs != [] {
      FilterMultiplicity(xs[1..], keep, x);
      assert xs == [xs[0]] + xs[1..];
      var head := if keep(xs[0]) then [xs[0]] else [];
      assert Filter(xs, keep) == head + Filter(xs[1..], keep);
      assert multiset(Filter(xs, keep)) == multiset(head) + multiset(Filter(xs[1..], keep));
      assert multiset(xs) == multiset([xs[0]]) + multiset(xs[1..]);
    }
  }

  /** A filter that rejects nothing is the identity. */
  lemma {:induction false} FilterKeepsAll<T>(xs: seq<T>, keep: T -> bool)
    requires forall i :: 0 <= i < |xs| ==> keep(xs[i])
    ensures Filter(xs, keep) == xs
  {
    if xs != [] {
      FilterKeepsAll(xs[1..], keep);
      assert [xs[0]] + xs[1..] == xs;
    }
  }

  /** The sum of `amount` over the list. */
  function SumOf<T>(xs: seq<T>, amount: T -> real): real {
    if xs == [] then 0.0 else amount(xs[0]) + SumOf(xs[1..], amount)
  }

  /** `xs.map(x => hit(x) ? f(x) : x)`. */
  function MapWhere<T>(xs: seq<T>, hit: T -> bool, f: T -> T): (r: seq<T>)
    ensures |r| == |xs|
    ensures forall i :: 0 <= i < |xs| ==> r[i] == if hit(xs[i]) then f(xs[i]) else xs[i]
  {
    if xs == [] then [] else [if hit(xs[0]) then f(xs[0]) else xs[0]] + MapWhere(xs[1..], hit, f)
  }

  /** When no entry matches, the rewrite leaves the list as it was. */
  lemma MapWhereNoHit<T>(xs: seq<T>, hit: T -> bool, f: T -> T)
    requires forall i :: 0 <= i < |xs| ==> !hit(xs[i])
    ensures MapWhere(xs, hit, f) == xs
  {
  }
}
