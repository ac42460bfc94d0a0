/** Sorting a list by one column, as the tables do with `Array.prototype.sort`
    and a comparator that returns -1/0/1 from `<` and `>` on the column's value. */
module Sorting {

  /** The value of the column being sorted on: a number or a string. */
  datatype SortValue = Num(n: real) | Str(s: string)

  /** JavaScript `<=` on strings: lexicographic by character, a prefix first. */
  predicate StrLe(a: string, b: string)
  {
    a == [] || (b != [] && (a[0] < b[0] || (a[0] == b[0] && StrLe(a[1..], b[1..]))))
  }

  /** The order the comparator induces on column values. Values of different kinds never
      meet in one sort (each column has one kind); numbers are put first for totality. */
  predicate ValueLe(a: SortValue, b: SortValue)
  {
    match (a, b)
    case (Num(x), Num(y)) => x <= y
    case (Str(x), Str(y)) => StrLe(x, y)
    case (Num(_), Str(_)) => true
    case (Str(_), Num(_)) => false
  }

  lemma {:induction false} StrLeTotal(a: string, b: string)
    ensures StrLe(a, b) || StrLe(b, a)
  {
    if a != [] && b != [] && a[0] == b[0] {
      StrLeTotal(a[1..], b[1..]);
    }
  }

  lemma {:induction false} StrLeTrans(a: string, b: string, c: string)
    requires StrLe(a, b) && StrLe(b, c)
    ensures StrLe(a, c)
  {
    if a != [] && b != [] && c != [] && a[0] == b[0] && b[0] == c[0] {
      StrLeTrans(a[1..], b[1..], c[1..]);
    }
  }

  lemma {:induction false} StrLeAntisym(a: string, b: string)
    requires StrLe(a, b) && StrLe(b, a)
    ensures a == b
  {
    if a != [] && b != [] {
      StrLeAntisym(a[1..], b[1..]);
      assert a == [a[0]] + a[1..] && b == [b[0]] + b[1..];
    }
  }

  lemma ValueLeTotal(a: SortValue, b: SortValue)
    ensures ValueLe(a, b) || ValueLe(b, a)
  {
    if a.Str? && b.Str? {
      StrLeTotal(a.s, b.s);
    }
  }

  lemma ValueLeTrans(a: SortValue, b: SortValue, c: SortValue)
    requires ValueLe(a, b) && ValueLe(b, c)
    ensures ValueLe(a, c)
  {
    if a.Str? && b.Str? && c.Str? {
      StrLeTrans(a.s, b.s, c.s);
    }
  }

  /** `a` may stand before `b`: ascending, or descending when `desc`. */
  predicate InOrder(a: SortValue, b: SortValue, desc: bool)
  {
    if desc then ValueLe(b, a) else ValueLe(a, b)
  }

  /** Every pair of rows is in the requested order of their column values. */
  predicate Ordered<T>(ys: seq<T>, key: T -> SortValue, desc: bool)
  {
    forall i, j :: 0 <= i < j < |ys| ==> InOrder(key(ys[i]), key(ys[j]), desc)
  }

  /** Inserts `x` before the first row it may precede; earlier rows of equal value stay first. */
  function Insert<T>(x: T, ys: seq<T>, key: T -> SortValue, desc: bool): (r: seq<T>)
    ensures multiset(r) == multiset(ys) + multiset{x}
    ensures |r| == |ys| + 1
  {
    if ys == [] then [x]
    else if InOrder(key(x), key(ys[0]), desc) then [x] + ys
    else
      assert ys == [ys[0]] + ys[1..];
      [ys[0]] + Insert(x, ys[1..], key, desc)
  }

  /** The table's rows sorted on one column (an insertion sort; the engine's own
      algorithm is not part of the system, only the comparator is). */
  function SortBy<T>(xs: seq<T>, key: T -> SortValue, desc: bool): (r: seq<T>)
    ensures multiset(r) == multiset(xs)
    ensures |r| == |xs|
  {
    if xs == [] then []
    else
      assert xs == [xs[0]] + xs[1..];
      Insert(xs[0], SortBy(xs[1..], key, desc), key, desc)
  }

  lemma {:induction false} InsertOrdered<T>(x: T, ys: seq<T>, key: T -> SortValue, desc: bool)
    requires Ordered(ys, key, desc)
    ensures Ordered(Insert(x, ys, key, desc), key, desc)
  {
    if ys != [] {
      if InOrder(key(x), key(ys[0]), desc) {
        HeadBeforeRest(x, ys, key, desc);
        OrderedCons(x, ys, key, desc);
      } else {
        InOrderTotal(key(x), key(ys[0]), desc);
        InsertOrdered(x, ys[1..], key, desc);
        var tail := Insert(x, ys[1..], key, desc);
        HeadBeforeInserted(x, ys, tail, key, desc);
        OrderedCons(ys[0], tail, key, desc);
      }
    }
  }

  /** A row that may precede the first row of an ordered table may precede all of them. */
  lemma HeadBeforeRest<T>(x: T, ys: seq<T>, key: T -> SortValue, desc: bool)
    requires Ordered(ys, key, desc) && ys != [] && InOrder(key(x), key(ys[0]), desc)
    ensures forall j :: 0 <= j < |ys| ==> InOrder(key(x), key(ys[j]), desc)
  {
    forall j | 0 < j < |ys| ensures InOrder(key(x), key(ys[j]), desc) {
      InOrderTrans(key(x), key(ys[0]), key(ys[j]), desc);
    }
  }

  /** The first row of an ordered table may precede everything the rest becomes once
      a row it may precede is inserted. */
  lemma HeadBeforeInserted<T>(x: T, ys: seq<T>, tail: seq<T>, key: T -> SortValue, desc: bool)
    requires Ordered(ys, key, desc) && ys != [] && InOrder(key(ys[0]), key(x), desc)
    requires multiset(tail) == multiset(ys[1..]) + multiset{x}
    ensures forall j :: 0 <= j < |tail| ==> InOrder(key(ys[0]), key(tail[j]), desc)
  {
    forall j | 0 <= j < |tail| ensures InOrder(key(ys[0]), key(tail[j]), desc) {
      assert tail[j] in multiset(tail);
      if tail[j] != x {
        assert tail[j] in ys[1..];
        var k :| 0 <= k < |ys[1..]| && ys[1..][k] == tail[j];
        assert ys[k + 1] == tail[j];
      }
    }
  }

  /** A row that may precede every row of an ordered table heads an ordered table. */
  lemma OrderedCons<T>(y: T, ys: seq<T>, key: T -> SortValue, desc: bool)
    requires Ordered(ys, key, desc)
    requires forall j :: 0 <= j < |ys| ==> InOrder(key(y), key(ys[j]), desc)
    ensures Ordered([y] + ys, key, desc)
  {
    var r := [y] + ys;
    forall i, j | 0 <= i < j < |r| ensures InOrder(key(r[i]), key(r[j]), desc) {
      assert r[j] == ys[j - 1];
      if i > 0 { assert r[i] == ys[i - 1]; }
    }
  }

  lemma InOrderTrans(a: SortValue, b: SortValue, c: SortValue, desc: bool)
    requires InOrder(a, b, desc) && InOrder(b, c, desc)
    ensures InOrder(a, c, desc)
  {
    if desc { ValueLeTrans(c, b, a); } else { ValueLeTrans(a, b, c); }
  }

  lemma InOrderTotal(a: SortValue, b: SortValue, desc: bool)
    ensures InOrder(a, b, desc) || InOrder(b, a, desc)
  {
    ValueLeTotal(a, b);
  }

  /** The sorted table is in the requested order: non-decreasing ascending,
      non-increasing descending, and holds exactly the rows it was given. */
  lemma {:induction false} SortByOrdered<T>(xs: seq<T>, key: T -> SortValue, desc: bool)
    ensures Ordered(SortBy(xs, key, desc), key, desc)
    ensures multiset(SortBy(xs, key, desc)) == multiset(xs)
  {
    if xs != [] {
      SortByOrdered(xs[1..], key, desc);
      InsertOrdered(xs[0], SortBy(xs[1..], key, desc), key, desc);
    }
  }
}
