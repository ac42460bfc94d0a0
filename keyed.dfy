/** Editing lists of records keyed by id, the way every screen's handlers do it:
    `list.map(x => x.id === id ? {...x, [field]: value} : x)` to update and
    `list.filter(x => x.id !== id)` to delete. */
module Keyed {
  import opened Common

  /** `xs.map(x => sel(x) ? f(x) : x)`: rewrites the selected records and leaves the
      others where and as they are. */
  function MapWhere<T>(xs: seq<T>, sel: T -> bool, f: T -> T): (r: seq<T>)
    ensures |r| == |xs|
    ensures forall i :: 0 <= i < |xs| && sel(xs[i]) ==> r[i] == f(xs[i])
    ensures forall i :: 0 <= i < |xs| && !sel(xs[i]) ==> r[i] == xs[i]
  {
    if xs == [] then []
    else [if sel(xs[0]) then f(xs[0]) else xs[0]] + MapWhere(xs[1..], sel, f)
  }

  /** When no record is selected the map returns the list unchanged. */
  lemma MapWhereNone<T>(xs: seq<T>, sel: T -> bool, f: T -> T)
    requires forall i :: 0 <= i < |xs| ==> !sel(xs[i])
    ensures MapWhere(xs, sel, f) == xs
  {
  }

  /** A rewrite that keeps a record's contribution to a total keeps the total. */
  lemma {:induction false} SumMapWhere<T>(xs: seq<T>, sel: T -> bool, f: T -> T, g: T -> int)
    requires forall x :: sel(x) ==> g(f(x)) == g(x)
    ensures Sum(MapWhere(xs, sel, f), g) == Sum(xs, g)
  {
    if xs != [] {
      SumMapWhere(xs[1..], sel, f, g);
      assert MapWhere(xs, sel, f)[1..] == MapWhere(xs[1..], sel, f);
    }
  }

  lemma {:induction false} SumRMapWhere<T>(xs: seq<T>, sel: T -> bool, f: T -> T, g: T -> real)
    requires forall x :: sel(x) ==> g(f(x)) == g(x)
    ensures SumR(MapWhere(xs, sel, f), g) == SumR(xs, g)
  {
    if xs != [] {
      SumRMapWhere(xs[1..], sel, f, g);
      assert MapWhere(xs, sel, f)[1..] == MapWhere(xs[1..], sel, f);
    }
  }

  /** Deleting the one record `keep` rejects lowers a total by exactly that record's term. */
  lemma {:induction false} SumFilterOne<T>(xs: seq<T>, keep: T -> bool, k: int, g: T -> int)
    requires 0 <= k < |xs| && !keep(xs[k])
    requires forall i :: 0 <= i < |xs| && i != k ==> keep(xs[i])
    ensures Sum(Filter(xs, keep), g) == Sum(xs, g) - g(xs[k])
  {
    var rest := Filter(xs[1..], keep);
    if k == 0 {
      forall x | x in xs[1..] ensures keep(x) {
        var i :| 0 <= i < |xs[1..]| && xs[1..][i] == x;
        assert xs[i + 1] == x;
      }
      FilterAll(xs[1..], keep);
      assert Filter(xs, keep) == xs[1..];
    } else {
      SumFilterOne(xs[1..], keep, k - 1, g);
      assert Filter(xs, keep) == [xs[0]] + rest;
      assert ([xs[0]] + rest)[1..] == rest;
    }
  }

  lemma {:induction false} SumRFilterOne<T>(xs: seq<T>, keep: T -> bool, k: int, g: T -> real)
    requires 0 <= k < |xs| && !keep(xs[k])
    requires forall i :: 0 <= i < |xs| && i != k ==> keep(xs[i])
    ensures SumR(Filter(xs, keep), g) == SumR(xs, g) - g(xs[k])
  {
    var rest := Filter(xs[1..], keep);
    if k == 0 {
      forall x | x in xs[1..] ensures keep(x) {
        var i :| 0 <= i < |xs[1..]| && xs[1..][i] == x;
        assert xs[i + 1] == x;
      }
      FilterAll(xs[1..], keep);
      assert Filter(xs, keep) == xs[1..];
    } else {
      SumRFilterOne(xs[1..], keep, k - 1, g);
      assert Filter(xs, keep) == [xs[0]] + rest;
      assert ([xs[0]] + rest)[1..] == rest;
    }
  }

  /** Appending a record that contributes nothing leaves a total unchanged. */
  lemma SumAppendZero<T>(xs: seq<T>, x: T, g: T -> int)
    requires g(x) == 0
    ensures Sum(xs + [x], g) == Sum(xs, g)
  {
    SumAppend(xs, [x], g);
    assert [x][1..] == [];
  }

  lemma SumRAppendZero<T>(xs: seq<T>, x: T, g: T -> real)
    requires g(x) == 0.0
    ensures SumR(xs + [x], g) == SumR(xs, g)
  {
    SumRAppend(xs, [x], g);
    assert [x][1..] == [];
  }

  /** When the edit takes every selected element out of a filter, filtering the edited
      list is filtering the original and then dropping the selected elements. */
  lemma {:induction false} FilterMapWhereDrops<T>(xs: seq<T>, sel: T -> bool, f: T -> T, p: T -> bool, keep: T -> bool)
    requires forall x :: sel(x) ==> !p(f(x))
    requires forall x :: keep(x) == !sel(x)
    ensures Filter(MapWhere(xs, sel, f), p) == Filter(Filter(xs, p), keep)
  {
    if xs != [] {
      var m := MapWhere(xs, sel, f);
      FilterMapWhereDrops(xs[1..], sel, f, p, keep);
      assert m[1..] == MapWhere(xs[1..], sel, f);
      var head := if p(xs[0]) then [xs[0]] else [];
      assert Filter(xs, p) == head + Filter(xs[1..], p);
      FilterAppend(head, Filter(xs[1..], p), keep);
      if p(xs[0]) {
        FilterSingle(xs[0], keep);
      }
    }
  }

  /** Splitting a list by a predicate and its negation splits its total the same way. */
  lemma {:induction false} SumFilterPartition<T>(xs: seq<T>, p: T -> bool, q: T -> bool, g: T -> int)
    requires forall x :: q(x) == !p(x)
    ensures Sum(Filter(xs, p), g) + Sum(Filter(xs, q), g) == Sum(xs, g)
  {
    if xs != [] {
      SumFilterPartition(xs[1..], p, q, g);
      var hp := if p(xs[0]) then [xs[0]] else [];
      var hq := if q(xs[0]) then [xs[0]] else [];
      SumAppend(hp, Filter(xs[1..], p), g);
      SumAppend(hq, Filter(xs[1..], q), g);
      assert [xs[0]][1..] == [];
    }
  }

  /** A value at two positions of a list occurs at least twice in its multiset. */
  lemma MultisetTwice<T>(s: seq<T>, i: int, j: int)
    requires 0 <= i < j < |s| && s[i] == s[j]
    ensures multiset(s)[s[i]] >= 2
  {
    assert s == s[..j] + s[j..];
    assert s[i] in s[..j];
    assert s[j] in s[j..];
  }
}
