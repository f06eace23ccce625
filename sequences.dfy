/** List comprehensions over sequences, defined back to front so that each
    matches a loop that appends to a list. */
module Sequences {

  /** `[x for x in xs if keep(x)]`. */
  function Filter<T>(xs: seq<T>, keep: T -> bool): (r: seq<T>)
    ensures |r| <= |xs|
    decreases |xs|
  {
    if xs == [] then []
    else
      var n := |xs| - 1;
      Filter(xs[..n], keep) + (if keep(xs[n]) then [xs[n]] else [])
  }

  /** `[f(x) for x in xs]`. */
  function Map<T, U>(xs: seq<T>, f: T -> U): (r: seq<U>)
    ensures |r| == |xs|
    decreases |xs|
  {
    if xs == [] then [] else Map(xs[..|xs| - 1], f) + [f(xs[|xs| - 1])]
  }

  /** `[y for ys in yss for y in ys]`. */
  function Concat<T>(yss: seq<seq<T>>): seq<T>
    decreases |yss|
  {
    if yss == [] then [] else Concat(yss[..|yss| - 1]) + yss[|yss| - 1]
  }

  /** One more element read by a filtering loop. */
  lemma FilterAppend<T>(xs: seq<T>, x: T, keep: T -> bool)
    ensures Filter(xs + [x], keep) == Filter(xs, keep) + (if keep(x) then [x] else [])
  {
    assert (xs + [x])[..|xs|] == xs;
  }

  lemma MapAppend<T, U>(xs: seq<T>, x: T, f: T -> U)
    ensures Map(xs + [x], f) == Map(xs, f) + [f(x)]
  {
    assert (xs + [x])[..|xs|] == xs;
  }

  /** One more element read by a mapping loop. */
  lemma MapStep<T, U>(xs: seq<T>, i: nat, f: T -> U)
    requires i < |xs|
    ensures Map(xs[..i + 1], f) == Map(xs[..i], f) + [f(xs[i])]
  {
    assert xs[..i + 1] == xs[..i] + [xs[i]];
    MapAppend(xs[..i], xs[i], f);
  }

  /** One more element read by a loop that maps, then filters. */
  lemma FilterMapStep<T, U>(xs: seq<T>, i: nat, f: T -> U, keep: U -> bool)
    requires i < |xs|
    ensures Filter(Map(xs[..i + 1], f), keep)
            == Filter(Map(xs[..i], f), keep) + (if keep(f(xs[i])) then [f(xs[i])] else [])
  {
    assert xs[..i + 1] == xs[..i] + [xs[i]];
    MapAppend(xs[..i], xs[i], f);
    FilterAppend(Map(xs[..i], f), f(xs[i]), keep);
  }

  /** Mapping a concatenation maps each side. */
  lemma {:induction false} MapConcat<T, U>(a: seq<T>, b: seq<T>, f: T -> U)
    ensures Map(a + b, f) == Map(a, f) + Map(b, f)
    decreases |b|
  {
    if b == [] {
      assert a + b == a;
    } else {
      var n := |b| - 1;
      MapConcat(a, b[..n], f);
      assert (a + b)[..|a + b| - 1] == a + b[..n];
    }
  }

  /** The element a map puts at each index. */
  lemma {:induction false} MapIndex<T, U>(xs: seq<T>, f: T -> U, i: nat)
    requires i < |xs|
    ensures Map(xs, f)[i] == f(xs[i])
    decreases |xs|
  {
    var n := |xs| - 1;
    if i < n {
      MapIndex(xs[..n], f, i);
    }
  }

  lemma ConcatAppend<T>(yss: seq<seq<T>>, ys: seq<T>)
    ensures Concat(yss + [ys]) == Concat(yss) + ys
  {
    assert (yss + [ys])[..|yss|] == yss;
  }

  /** Filtering keeps exactly the elements that pass. */
  lemma {:induction false} FilterExactly<T>(xs: seq<T>, keep: T -> bool, x: T)
    ensures x in Filter(xs, keep) <==> x in xs && keep(x)
    decreases |xs|
  {
    if xs != [] {
      var n := |xs| - 1;
      FilterExactly(xs[..n], keep, x);
      assert xs == xs[..n] + [xs[n]];
    }
  }

  /** Filtering a concatenation filters each side. */
  lemma {:induction false} FilterConcat<T>(a: seq<T>, b: seq<T>, keep: T -> bool)
    ensures Filter(a + b, keep) == Filter(a, keep) + Filter(b, keep)
    decreases |b|
  {
    if b == [] {
      assert a + b == a;
    } else {
      var n := |b| - 1;
      FilterConcat(a, b[..n], keep);
      assert (a + b)[..|a + b| - 1] == a + b[..n];
    }
  }

  /** A mapped element comes from some element. */
  lemma {:induction false} MapMember<T, U>(xs: seq<T>, f: T -> U, y: U)
    ensures y in Map(xs, f) <==> exists k :: 0 <= k < |xs| && y == f(xs[k])
    decreases |xs|
  {
    if xs != [] {
      var n := |xs| - 1;
      MapMember(xs[..n], f, y);
      if exists k :: 0 <= k < |xs| && y == f(xs[k]) {
        var k :| 0 <= k < |xs| && y == f(xs[k]);
        if k < n {
          assert xs[..n][k] == xs[k];
        }
      }
      if y in Map(xs[..n], f) {
        var k :| 0 <= k < n && y == f(xs[..n][k]);
        assert xs[k] == xs[..n][k];
      }
    }
  }

  /** Every element of a concatenation lies in one of the parts. */
  lemma {:induction false} ConcatMember<T>(yss: seq<seq<T>>, y: T)
    ensures y in Concat(yss) <==> exists k :: 0 <= k < |yss| && y in yss[k]
    decreases |yss|
  {
    if yss != [] {
      var n := |yss| - 1;
      ConcatMember(yss[..n], y);
      if exists k :: 0 <= k < |yss| && y in yss[k] {
        var k :| 0 <= k < |yss| && y in yss[k];
        if k < n {
          assert yss[..n][k] == yss[k];
        }
      }
      if y in Concat(yss[..n]) {
        var k :| 0 <= k < n && y in yss[..n][k];
        assert yss[k] == yss[..n][k];
      }
    }
  }
}
