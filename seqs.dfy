/** The array operations the source composes: `filter` followed by `map` (and the
    `forEach` + `push` loops that do the same), `findIndex`, and the ascending order in
    which `Object.entries` lists integer keys. */
module Seqs {
  import opened Js

  function Emitted<U>(o: Option<U>): seq<U>
  {
    if o.Some? then [o.value] else []
  }

  /** The values `emit` produces for the elements of `xs`, in the order of `xs`: one
      output for every element `emit` maps to `Some`, none for the others. */
  function Keep<T, U>(xs: seq<T>, emit: T -> Option<U>): (r: seq<U>)
    ensures |r| <= |xs|
    decreases |xs|
  {
    if xs == [] then [] else Keep(xs[..|xs| - 1], emit) + Emitted(emit(xs[|xs| - 1]))
  }

  /** One more element at the end contributes its output at the end: the step of a
      `forEach` loop that pushes. */
  lemma KeepSnoc<T, U>(xs: seq<T>, x: T, emit: T -> Option<U>)
    ensures Keep(xs + [x], emit) == Keep(xs, emit) + Emitted(emit(x))
  {
    assert (xs + [x])[..|xs|] == xs;
  }

  /** Outputs keep the order of their inputs: `Keep` distributes over concatenation. */
  lemma {:induction false} KeepAppend<T, U>(xs: seq<T>, ys: seq<T>, emit: T -> Option<U>)
    ensures Keep(xs + ys, emit) == Keep(xs, emit) + Keep(ys, emit)
    decreases |ys|
  {
    if ys == [] {
      assert xs + ys == xs;
    } else {
      var init, last := ys[..|ys| - 1], ys[|ys| - 1];
      assert ys == init + [last];
      assert xs + ys == (xs + init) + [last];
      KeepSnoc(xs + init, last, emit);
      KeepSnoc(init, last, emit);
      KeepAppend(xs, init, emit);
    }
  }

  /** A value is an output exactly when some element produces it. */
  lemma {:induction false} KeepMember<T, U>(xs: seq<T>, emit: T -> Option<U>, u: U)
    ensures u in Keep(xs, emit) <==> exists i :: 0 <= i < |xs| && emit(xs[i]) == Some(u)
    decreases |xs|
  {
    if xs != [] {
      var init := xs[..|xs| - 1];
      KeepMember(init, emit, u);
      if exists i :: 0 <= i < |init| && emit(init[i]) == Some(u) {
        var i :| 0 <= i < |init| && emit(init[i]) == Some(u);
        assert xs[i] == init[i];
      }
      if exists i :: 0 <= i < |xs| && emit(xs[i]) == Some(u) {
        var i :| 0 <= i < |xs| && emit(xs[i]) == Some(u);
        if i < |init| {
          assert init[i] == xs[i];
        }
      }
    }
  }

  /** The output is empty exactly when no element produces anything. */
  lemma {:induction false} KeepEmpty<T, U>(xs: seq<T>, emit: T -> Option<U>)
    ensures Keep(xs, emit) == [] <==> forall i :: 0 <= i < |xs| ==> emit(xs[i]).None?
    decreases |xs|
  {
    if xs != [] {
      var init := xs[..|xs| - 1];
      KeepEmpty(init, emit);
      assert forall i :: 0 <= i < |init| ==> init[i] == xs[i];
    }
  }

  /** Every element produces an output exactly when the output is as long as the input. */
  lemma {:induction false} KeepAll<T, U>(xs: seq<T>, emit: T -> Option<U>)
    ensures |Keep(xs, emit)| == |xs| <==> forall i :: 0 <= i < |xs| ==> emit(xs[i]).Some?
    decreases |xs|
  {
    if xs != [] {
      var init := xs[..|xs| - 1];
      KeepAll(init, emit);
      assert forall i :: 0 <= i < |init| ==> init[i] == xs[i];
    }
  }

  /** `xs.filter(p)`. */
  function Filter<T>(xs: seq<T>, p: T -> bool): seq<T>
  {
    Keep(xs, x => if p(x) then Some(x) else None)
  }

  /** The filtered sequence holds exactly the elements that satisfy `p`. */
  lemma FilterMember<T>(xs: seq<T>, p: T -> bool, x: T)
    ensures x in Filter(xs, p) <==> x in xs && p(x)
  {
    KeepMember(xs, y => if p(y) then Some(y) else None, x);
  }

  /** Filtering keeps the order of the original: it distributes over concatenation. */
  lemma FilterAppend<T>(xs: seq<T>, ys: seq<T>, p: T -> bool)
    ensures Filter(xs + ys, p) == Filter(xs, p) + Filter(ys, p)
  {
    KeepAppend(xs, ys, y => if p(y) then Some(y) else None);
  }

  /** The membership of `FilterMember`, for every value at once. */
  lemma FilterMembers<T>(xs: seq<T>, p: T -> bool)
    ensures forall x :: x in Filter(xs, p) <==> x in xs && p(x)
  {
    forall x ensures x in Filter(xs, p) <==> x in xs && p(x) {
      FilterMember(xs, p, x);
    }
  }

  /** An element put in front is kept in front exactly when it satisfies `p`. */
  lemma FilterPrepend<T>(x: T, xs: seq<T>, p: T -> bool)
    ensures Filter([x] + xs, p) == (if p(x) then [x] else []) + Filter(xs, p)
  {
    FilterAppend([x], xs, p);
    assert [x][..0] == [];
  }

  /** Where `xs.slice(0, end)` stops on a sequence of length `n`: a negative `end`
      counts from the back, and the result never passes either end. */
  function SliceEnd(n: nat, end: int): (k: nat)
    ensures k <= n
    ensures 0 <= end <= n ==> k == end
    ensures end > n ==> k == n
    ensures end < 0 ==> k == if n + end < 0 then 0 else n + end
  {
    if end < 0 then (if n + end < 0 then 0 else n + end)
    else if end > n then n
    else end
  }

  /** Filtering with a predicate every element satisfies changes nothing. */
  lemma {:induction false} FilterAllKept<T>(xs: seq<T>, p: T -> bool)
    requires forall i :: 0 <= i < |xs| ==> p(xs[i])
    ensures Filter(xs, p) == xs
    decreases |xs|
  {
    if xs != [] {
      var init := xs[..|xs| - 1];
      FilterAllKept(init, p);
      assert xs == init + [xs[|xs| - 1]];
    }
  }

  /** `xs.map(f)`. */
  function Map<T, U>(xs: seq<T>, f: T -> U): (r: seq<U>)
    ensures |r| == |xs| && forall i :: 0 <= i < |xs| ==> r[i] == f(xs[i])
  {
    seq(|xs|, i requires 0 <= i < |xs| => f(xs[i]))
  }

  /** A `forEach` that pushes `f(x)` for the elements satisfying `p` computes
      `xs.filter(p).map(f)`. */
  lemma {:induction false} KeepAsFilterMap<T, U>(xs: seq<T>, emit: T -> Option<U>, p: T -> bool, f: T -> U)
    requires forall x :: emit(x) == if p(x) then Some(f(x)) else None
    ensures Keep(xs, emit) == Map(Filter(xs, p), f)
    decreases |xs|
  {
    if xs != [] {
      var init, last := xs[..|xs| - 1], xs[|xs| - 1];
      assert xs == init + [last];
      KeepAsFilterMap(init, emit, p, f);
      FilterAppend(init, [last], p);
      assert Filter([last], p) == Emitted(if p(last) then Some(last) else None) by {
        assert [last][..0] == [];
      }
    }
  }

  /** Two emitters that never both produce for one element produce, together, at most
      one output per element. */
  lemma {:induction false} KeepDisjoint<T, U, V>(xs: seq<T>, e1: T -> Option<U>, e2: T -> Option<V>)
    requires forall i :: 0 <= i < |xs| ==> e1(xs[i]).None? || e2(xs[i]).None?
    ensures |Keep(xs, e1)| + |Keep(xs, e2)| <= |xs|
    decreases |xs|
  {
    if xs != [] {
      var init := xs[..|xs| - 1];
      assert forall i :: 0 <= i < |init| ==> init[i] == xs[i];
      KeepDisjoint(init, e1, e2);
    }
  }

  /** Every element passes the filter exactly when nothing is filtered out. */
  lemma FilterAll<T>(xs: seq<T>, p: T -> bool)
    ensures |Filter(xs, p)| == |xs| <==> forall i :: 0 <= i < |xs| ==> p(xs[i])
  {
    KeepAll(xs, x => if p(x) then Some(x) else None);
  }

  /** No element passes the filter exactly when the filtered sequence is empty. */
  lemma FilterNone<T>(xs: seq<T>, p: T -> bool)
    ensures Filter(xs, p) == [] <==> forall i :: 0 <= i < |xs| ==> !p(xs[i])
  {
    KeepEmpty(xs, x => if p(x) then Some(x) else None);
  }

  /** `xs.findIndex(p)`: the first position whose element satisfies `p`, or -1. */
  function FindIndex<T>(xs: seq<T>, p: T -> bool): (r: int)
    ensures -1 <= r < |xs|
    ensures r >= 0 ==> p(xs[r]) && forall j :: 0 <= j < r ==> !p(xs[j])
    ensures r == -1 ==> forall j :: 0 <= j < |xs| ==> !p(xs[j])
    decreases |xs|
  {
    if xs == [] then -1
    else if p(xs[0]) then 0
    else
      var j := FindIndex(xs[1..], p);
      if j < 0 then -1 else j + 1
  }

  /** A set of naturals holding `n` has a least element (by induction on `n`). */
  lemma {:induction false} LeastExists(s: set<nat>, n: nat)
    requires n in s
    ensures exists x :: x in s && forall y :: y in s ==> x <= y
    decreases n
  {
    if exists y :: y in s && y < n {
      var y :| y in s && y < n;
      LeastExists(s, y);
    } else {
      assert forall y :: y in s ==> n <= y;
    }
  }

  function Least(s: set<nat>): (m: nat)
    requires s != {}
    ensures m in s && forall y :: y in s ==> m <= y
  {
    var n :| n in s;
    LeastExists(s, n);
    var x :| x in s && forall y :: y in s ==> x <= y; x
  }

  /** The elements of a set of naturals in strictly ascending order. */
  function Ascending(s: set<nat>): (r: seq<nat>)
    ensures forall i, j :: 0 <= i < j < |r| ==> r[i] < r[j]
    ensures forall x :: x in r <==> x in s
    decreases |s|
  {
    if s == {} then []
    else
      var m := Least(s);
      [m] + Ascending(s - {m})
  }
}
