/**
 * Sequence helpers that the specification functions share: `ConcatMap` is the
 * issue list a `for` loop with `issues.push` builds, `Filter` the reference
 * definition the loops are compared with.
 */
module Seqs {

  /** The concatenation of `f(x)` over `xs`, in list order. */
  function ConcatMap<T, U>(xs: seq<T>, f: T -> seq<U>): seq<U> {
    if xs == [] then [] else ConcatMap(xs[..|xs| - 1], f) + f(xs[|xs| - 1])
  }

  /** The elements of `xs` that satisfy `p`, in list order. */
  function Filter<T>(xs: seq<T>, p: T -> bool): (r: seq<T>)
    ensures |r| <= |xs|
  {
    if xs == [] then []
    else Filter(xs[..|xs| - 1], p) + (if p(xs[|xs| - 1]) then [xs[|xs| - 1]] else [])
  }

  /** Empty pieces drop out of a four-way join. */
  lemma JoinWithEmpty<T>(a: seq<T>, b: seq<T>, c: seq<T>, d: seq<T>)
    ensures [] + b + c + [] == b + c
    ensures a + [] + [] + [] == a
    ensures [] + [] + [] + d == d
  {
  }

  lemma AppendAssoc<T>(a: seq<T>, b: seq<T>, c: seq<T>)
    ensures a + (b + c) == (a + b) + c
  {
  }

  /** One more element processed by the loop appends its contribution. */
  lemma ConcatMapSnoc<T, U>(xs: seq<T>, x: T, f: T -> seq<U>)
    ensures ConcatMap(xs + [x], f) == ConcatMap(xs, f) + f(x)
  {
    assert (xs + [x])[..|xs|] == xs;
  }

  lemma ConcatMapOfThree<T, U>(a: T, b: T, c: T, f: T -> seq<U>)
    ensures ConcatMap([a, b, c], f) == f(a) + f(b) + f(c)
  {
    calc {
      ConcatMap([a, b, c], f);
    == { assert [a, b, c][..2] == [a, b]; }
      ConcatMap([a, b], f) + f(c);
    == { assert [a, b][..1] == [a]; }
      ConcatMap([a], f) + f(b) + f(c);
    == { assert [a][..0] == []; }
      f(a) + f(b) + f(c);
    }
  }

  lemma {:induction false} ConcatMapAppend<T, U>(a: seq<T>, b: seq<T>, f: T -> seq<U>)
    ensures ConcatMap(a + b, f) == ConcatMap(a, f) + ConcatMap(b, f)
  {
    if b == [] {
      assert a + b == a;
    } else {
      var b' := b[..|b| - 1];
      assert (a + b)[..|a + b| - 1] == a + b';
      ConcatMapAppend(a, b', f);
      AppendAssoc(ConcatMap(a, f), ConcatMap(b', f), f(b[|b| - 1]));
    }
  }

  /** Every element of the concatenation comes from one of the inputs. */
  lemma {:induction false} ConcatMapMember<T, U>(xs: seq<T>, f: T -> seq<U>, u: U)
    requires u in ConcatMap(xs, f)
    ensures exists x :: x in xs && u in f(x)
  {
    var init := xs[..|xs| - 1];
    if u in ConcatMap(init, f) {
      ConcatMapMember(init, f, u);
      var x :| x in init && u in f(x);
      assert x in xs;
    } else {
      assert xs[|xs| - 1] in xs;
    }
  }

  /**
   * When each input contributes one mapped value or nothing, the concatenation
   * is the map of `g` over the inputs `p` keeps, in list order.
   */
  lemma {:induction false} ConcatMapOfOptional<T, U>(xs: seq<T>, f: T -> seq<U>, p: T -> bool, g: T -> U)
    requires forall x :: x in xs ==> f(x) == if p(x) then [g(x)] else []
    ensures |ConcatMap(xs, f)| == |Filter(xs, p)|
    ensures forall k :: 0 <= k < |Filter(xs, p)| ==> ConcatMap(xs, f)[k] == g(Filter(xs, p)[k])
  {
    if xs != [] {
      var init, last := xs[..|xs| - 1], xs[|xs| - 1];
      assert forall x :: x in init ==> x in xs;
      assert last in xs;
      ConcatMapOfOptional(init, f, p, g);
    }
  }

  /** A property every contribution has holds of the whole concatenation. */
  lemma {:induction false} ConcatMapAll<T, U>(xs: seq<T>, f: T -> seq<U>, q: U -> bool)
    requires forall x, u :: x in xs && u in f(x) ==> q(u)
    ensures forall u :: u in ConcatMap(xs, f) ==> q(u)
  {
    forall u | u in ConcatMap(xs, f) ensures q(u) {
      ConcatMapMember(xs, f, u);
    }
  }

  /**
   * When the elements satisfying `q` that an input contributes are `g` of that
   * input if it satisfies `p`, and none otherwise, then the elements of the
   * concatenation satisfying `q` are `g` of the inputs `p` keeps, in list order.
   */
  lemma {:induction false} FilterConcatMapOfOptional<T, U>(xs: seq<T>, f: T -> seq<U>, p: T -> bool, q: U -> bool, g: T -> U)
    requires forall x :: x in xs ==> Filter(f(x), q) == if p(x) then [g(x)] else []
    ensures |Filter(ConcatMap(xs, f), q)| == |Filter(xs, p)|
    ensures forall k :: 0 <= k < |Filter(xs, p)| ==> Filter(ConcatMap(xs, f), q)[k] == g(Filter(xs, p)[k])
  {
    if xs != [] {
      var init, last := xs[..|xs| - 1], xs[|xs| - 1];
      forall x | x in init ensures Filter(f(x), q) == if p(x) then [g(x)] else [] {
        assert x in xs;
      }
      FilterConcatMapOfOptional(init, f, p, q, g);
      var kept, selected := Filter(init, p), Filter(ConcatMap(init, f), q);
      assert ConcatMap(xs, f) == ConcatMap(init, f) + f(last);
      FilterAppend(ConcatMap(init, f), f(last), q);
      assert last in xs;
      assert Filter(ConcatMap(xs, f), q) == selected + (if p(last) then [g(last)] else []);
      assert Filter(xs, p) == kept + (if p(last) then [last] else []);
      MapSnocOptional(selected, kept, g, last, p(last));
    }
  }

  /** Appending `g(x)` and `x` (or nothing to both) keeps one list the map of the other. */
  lemma MapSnocOptional<T, U>(mapped: seq<U>, xs: seq<T>, g: T -> U, x: T, keep: bool)
    requires |mapped| == |xs|
    requires forall k :: 0 <= k < |xs| ==> mapped[k] == g(xs[k])
    ensures var mapped', xs' := mapped + (if keep then [g(x)] else []), xs + (if keep then [x] else []);
      |mapped'| == |xs'| && forall k :: 0 <= k < |xs'| ==> mapped'[k] == g(xs'[k])
  {
  }

  /** Every element `Filter` keeps satisfies the predicate. */
  lemma {:induction false} FilterKeeps<T>(xs: seq<T>, p: T -> bool)
    ensures forall k :: 0 <= k < |Filter(xs, p)| ==> p(Filter(xs, p)[k])
  {
    if xs != [] {
      FilterKeeps(xs[..|xs| - 1], p);
    }
  }

  lemma FilterSingleton<T>(x: T, p: T -> bool)
    ensures Filter([x], p) == if p(x) then [x] else []
  {
    assert [x][..0] == [];
  }

  lemma {:induction false} FilterAppend<T>(a: seq<T>, b: seq<T>, p: T -> bool)
    ensures Filter(a + b, p) == Filter(a, p) + Filter(b, p)
  {
    if b == [] {
      assert a + b == a;
    } else {
      var b' := b[..|b| - 1];
      assert (a + b)[..|a + b| - 1] == a + b';
      FilterAppend(a, b', p);
    }
  }

  lemma {:induction false} FilterNone<T>(xs: seq<T>, p: T -> bool)
    requires forall x :: x in xs ==> !p(x)
    ensures Filter(xs, p) == []
  {
    if xs != [] {
      assert xs[|xs| - 1] in xs;
      assert forall x :: x in xs[..|xs| - 1] ==> x in xs;
      FilterNone(xs[..|xs| - 1], p);
    }
  }
}
