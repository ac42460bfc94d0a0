/** The monthly sales-plan items of a department and their totals, added up over a
    department's months the way `getCumulativeSum` (MockupStandardInfo.tsx) does. */
module MonthTotals {
  import opened Common

  datatype MonthlyItem = MonthlyItem(id: int, plan: string, amount: int)

  function ItemValue(it: MonthlyItem): int { it.amount }

  /** `items.reduce((sum, item) => sum + item.amount, 0)`. */
  function ItemsTotal(xs: seq<MonthlyItem>): int { Sum(xs, ItemValue) }

  /** A non-empty set of months has a member to start from. */
  lemma HasMonth(keys: set<int>)
    requires keys != {}
    ensures exists k :: k in keys
  {
    if forall j :: j !in keys {
      assert false;
    }
  }

  /** The sum of the month totals over the given months of a department's plan. */
  ghost function KeysTotal(months: map<int, seq<MonthlyItem>>, keys: set<int>): int
    requires keys <= months.Keys
    decreases keys
  {
    if keys == {} then 0
    else
      HasMonth(keys);
      var k :| k in keys;
      ItemsTotal(months[k]) + KeysTotal(months, keys - {k})
  }

  /** The sum over every month the department has items for. */
  ghost function MonthsTotal(months: map<int, seq<MonthlyItem>>): int
  {
    KeysTotal(months, months.Keys)
  }

  /** The months may be added up in any order. */
  lemma {:induction false} KeysTotalRemove(months: map<int, seq<MonthlyItem>>, keys: set<int>, k: int)
    requires keys <= months.Keys && k in keys
    ensures KeysTotal(months, keys) == ItemsTotal(months[k]) + KeysTotal(months, keys - {k})
    decreases keys
  {
    var j :| j in keys && KeysTotal(months, keys) == ItemsTotal(months[j]) + KeysTotal(months, keys - {j});
    if j != k {
      KeysTotalRemove(months, keys - {j}, k);
      KeysTotalRemove(months, keys - {k}, j);
      assert keys - {j} - {k} == keys - {k} - {j};
    }
  }

  /** Only the lists of the months summed matter. */
  lemma {:induction false} KeysTotalAgree(m1: map<int, seq<MonthlyItem>>, m2: map<int, seq<MonthlyItem>>, keys: set<int>)
    requires keys <= m1.Keys && keys <= m2.Keys
    requires forall k :: k in keys ==> ItemsTotal(m1[k]) == ItemsTotal(m2[k])
    ensures KeysTotal(m1, keys) == KeysTotal(m2, keys)
    decreases keys
  {
    if keys != {} {
      HasMonth(keys);
      var k :| k in keys;
      KeysTotalRemove(m1, keys, k);
      KeysTotalRemove(m2, keys, k);
      KeysTotalAgree(m1, m2, keys - {k});
    }
  }

}
