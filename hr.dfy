/** The HR screens (MockupHR.tsx): the monthly cost of an employee with its fixed
    overhead, the amount shown in the list, registering and archiving employees, the
    active/archived list with its search and cost total, and the allocation board that
    groups active staff by department. */
module HR {
  import opened Common
  import opened Text
  import opened Keyed
  import opened Sorting
  import opened People

  /** The fixed monthly overhead added to every employee, in won. */
  const CommonCost: int := 850000
  const Domain: string := "frameout.co.kr"

  /** `emp.salaries`, an empty object when the record has none. */
  function SalariesOf(e: Employee): seq<SalaryEntry>
  {
    if e.salaries.Some? then e.salaries.value else []
  }

  /** The monthly basis: a twelfth of the annual salary for regular staff, the latest
      contract's monthly fee for everyone else. */
  function MonthlyBase(e: Employee, year: string): (b: real)
    ensures e.kind == Regular ==> b * 12.0 == AnnualSalary(SalariesOf(e), year) as real
    ensures e.kind != Regular ==> b == LatestContractAmount(e.contracts) as real
  {
    if e.kind == Regular then AnnualSalary(SalariesOf(e), year) as real / 12.0
    else LatestContractAmount(e.contracts) as real
  }

  /** Insurance on top of the basis: 20.4% for regular staff, 5% otherwise. */
  function InsuranceRate(e: Employee): real
  {
    if e.kind == Regular then 0.204 else 0.05
  }

  /** The cost formula on a given basis: basis plus insurance plus overhead, plus 5%. */
  function CostFromBase(base: real, rate: real): int
  {
    Round((base + base * rate + CommonCost as real) * 1.05)
  }

  /** `calculateEmployeeCost(emp)`. */
  function EmployeeCost(e: Employee, year: string): int
  {
    CostFromBase(MonthlyBase(e, year), InsuranceRate(e))
  }

  /** A zero basis still costs the overhead plus 5%: 892,500 won, not 0. */
  lemma ZeroBaseCost(e: Employee, year: string)
    requires MonthlyBase(e, year) == 0.0
    ensures EmployeeCost(e, year) == 892500
  {
  }

  /** A larger basis never costs less, and no non-negative basis costs less than the
      overhead's 892,500 won. */
  lemma CostMonotone(b1: real, b2: real, rate: real)
    requires 0.0 <= b1 <= b2 && rate >= 0.0
    ensures CostFromBase(b1, rate) <= CostFromBase(b2, rate)
    ensures CostFromBase(b1, rate) >= 892500
  {
    assert b1 * rate <= b2 * rate;
    assert b1 * rate >= 0.0;
    RoundMonotone((b1 + b1 * rate + CommonCost as real) * 1.05, (b2 + b2 * rate + CommonCost as real) * 1.05);
    RoundMonotone(CommonCost as real * 1.05, (b1 + b1 * rate + CommonCost as real) * 1.05);
  }

  /** `getDisplayAmount(emp)`: the annual salary for regular staff, the latest monthly
      fee otherwise. */
  function DisplayAmount(e: Employee, year: string): int
  {
    if e.kind == Regular then AnnualSalary(SalariesOf(e), year) else LatestContractAmount(e.contracts)
  }

  /** The list shows what the cost is computed from: twelve times the basis for regular
      staff, the basis itself for everyone else. */
  lemma DisplayAmountIsBasis(e: Employee, year: string)
    ensures e.kind == Regular ==> MonthlyBase(e, year) * 12.0 == DisplayAmount(e, year) as real
    ensures e.kind != Regular ==> MonthlyBase(e, year) == DisplayAmount(e, year) as real
  {
  }

  /** The employee `handleSave` prepends: the form with its generated id and the e-mail
      built from the user name, or no e-mail without one. */
  function NewEmployee(form: Employee, id: string, username: string): (e: Employee)
    ensures e.id == id
    ensures username == "" ==> e.email == ""
    ensures username != "" ==> e.email == username + "@" + Domain
    ensures e.(id := form.id, email := form.email) == form
  {
    form.(id := id, email := if username == "" then "" else username + "@" + Domain)
  }

  /** The list after `handleArchive(id, archive)`. */
  function ArchiveEmployee(es: seq<Employee>, id: string, archive: bool): seq<Employee>
  {
    MapWhere(es, (e: Employee) => e.id == id, (e: Employee) => e.(isArchived := archive))
  }

  /** The matching employees end up with the requested status, everyone else is untouched. */
  lemma ArchiveEmployeeSpec(es: seq<Employee>, id: string, archive: bool)
    ensures |ArchiveEmployee(es, id, archive)| == |es|
    ensures forall i :: 0 <= i < |es| && es[i].id == id ==>
              ArchiveEmployee(es, id, archive)[i] == es[i].(isArchived := archive)
    ensures forall i :: 0 <= i < |es| && es[i].id != id ==> ArchiveEmployee(es, id, archive)[i] == es[i]
  {
  }

  function InStatus(archived: bool): Employee -> bool
  {
    (e: Employee) => e.isArchived == archived
  }

  /** The search: the lower-cased term in the lower-cased name or department. The term
      itself is not trimmed; only the blank test trims. */
  function Matches(term: string): Employee -> bool
  {
    (e: Employee) => Contains(Lower(e.name), Lower(term)) || Contains(Lower(e.dept), Lower(term))
  }

  /** `processedEmployees` for the archive tab (`archived`) or the active tab. */
  function ProcessedEmployees(es: seq<Employee>, archived: bool, term: string): seq<Employee>
  {
    var list := Filter(es, InStatus(archived));
    if IsBlank(term) then list else Filter(list, Matches(term))
  }

  /** An employee is listed exactly when they are on the tab's side and, for a non-blank
      term, match it; the list keeps the employees' order. */
  lemma ProcessedEmployeesSpec(es: seq<Employee>, archived: bool, term: string)
    ensures forall e :: e in ProcessedEmployees(es, archived, term) <==>
              e in es && e.isArchived == archived && (IsBlank(term) || Matches(term)(e))
    ensures Subsequence(ProcessedEmployees(es, archived, term), es)
  {
    var list := Filter(es, InStatus(archived));
    FilterMembers(es, InStatus(archived));
    FilterSubsequence(es, InStatus(archived));
    if !IsBlank(term) {
      FilterMembers(list, Matches(term));
      FilterFilter(es, InStatus(archived), Matches(term),
                   (e: Employee) => e.isArchived == archived && Matches(term)(e));
      FilterSubsequence(es, (e: Employee) => e.isArchived == archived && Matches(term)(e));
    }
  }

  /** A search term in capitals finds the same employees as in lower case. */
  lemma SearchIgnoresCase(es: seq<Employee>, archived: bool, term: string)
    ensures ProcessedEmployees(es, archived, Lower(term)) == ProcessedEmployees(es, archived, term)
  {
    LowerIdempotent(term);
    LowerKeepsBlank(term);
    assert Matches(Lower(term)) == Matches(term);
  }

  /** `totalMonthlyCostSum`. */
  function TotalMonthlyCost(es: seq<Employee>, year: string): int
  {
    Sum(es, (e: Employee) => EmployeeCost(e, year))
  }

  /** Without a search the active and the archive tab's totals add up to the cost of
      every employee. */
  lemma TotalsSplit(es: seq<Employee>, year: string, term: string)
    requires IsBlank(term)
    ensures TotalMonthlyCost(ProcessedEmployees(es, false, term), year)
            + TotalMonthlyCost(ProcessedEmployees(es, true, term), year)
            == TotalMonthlyCost(es, year)
  {
    SumFilterPartition(es, InStatus(false), InStatus(true), (e: Employee) => EmployeeCost(e, year));
  }

  /** One line of an allocation card. */
  datatype Allocation = Allocation(project: string, pct: real, idle: bool)

  /** An allocation board card: the employee, their lines and the used rate. */
  datatype AllocRow = AllocRow(emp: Employee, allocations: seq<Allocation>, usedRate: real)

  function UsedShare(a: Allocation): real { if a.idle then 0.0 else a.pct }

  /** `usedRate`: the shares of every non-idle line. */
  function UsedRate(items: seq<Allocation>): real { SumR(items, UsedShare) }

  /** A card is flagged red when its used rate is above 100%; the rate is not clamped. */
  predicate OverAllocated(r: AllocRow) { r.usedRate > 1.0 }

  /** Idle lines count for nothing, so an idle-only card is at 0%. */
  lemma {:induction false} IdleOnlyUnused(items: seq<Allocation>)
    requires forall i :: 0 <= i < |items| ==> items[i].idle
    ensures UsedRate(items) == 0.0
  {
    if items != [] {
      IdleOnlyUnused(items[1..]);
    }
  }

  /** The demonstration lines the board gives the i-th active employee. */
  function DemoAllocations(i: nat): seq<Allocation>
  {
    if i % 4 == 0 then [Allocation("Project Alpha", 0.7, false), Allocation("Project Beta", 0.3, false)]
    else if i % 4 == 1 then [Allocation("Project Gamma", 1.0, false)]
    else [Allocation("Idle (유휴)", 1.0, true)]
  }

  function ActiveStaff(es: seq<Employee>): seq<Employee> { Filter(es, InStatus(false)) }

  /** `allocationData`: one card per active employee, in list order. */
  function AllocationData(es: seq<Employee>): (rows: seq<AllocRow>)
    ensures |rows| == |ActiveStaff(es)|
    ensures forall i :: 0 <= i < |rows| ==>
              rows[i].emp == ActiveStaff(es)[i] && rows[i].allocations == DemoAllocations(i)
              && rows[i].usedRate == UsedRate(DemoAllocations(i))
  {
    var active := ActiveStaff(es);
    var rows := seq(|active|, i requires 0 <= i < |active| => AllocRow(active[i], DemoAllocations(i), UsedRate(DemoAllocations(i))));
    assert forall i :: 0 <= i < |rows| ==> rows[i] == AllocRow(active[i], DemoAllocations(i), UsedRate(DemoAllocations(i)));
    rows
  }

  /** Archived staff get no card. */
  lemma AllocationSkipsArchived(es: seq<Employee>)
    ensures forall r :: r in AllocationData(es) ==> r.emp in es && !r.emp.isArchived
  {
    var rows, active := AllocationData(es), ActiveStaff(es);
    FilterMembers(es, InStatus(false));
    forall r | r in rows ensures r.emp in es && !r.emp.isArchived {
      var i :| 0 <= i < |rows| && rows[i] == r;
      assert active[i] in active;
    }
  }

  /** The demonstration lines put the first two of every four cards at 100% and the
      other two, idle, at 0%. */
  lemma DemoUsedRate(i: nat)
    ensures UsedRate(DemoAllocations(i)) == if i % 4 < 2 then 1.0 else 0.0
  {
    var items := DemoAllocations(i);
    if i % 4 == 0 {
      assert items[1..] == [items[1]];
      assert [items[1]][1..] == [];
      assert SumR(items[1..], UsedShare) == 0.3;
    } else {
      assert items[1..] == [];
      assert UsedRate(items) == UsedShare(items[0]) + SumR(items[1..], UsedShare);
    }
  }

  /** With the demonstration lines every card is at 100% or 0%, so none is ever red. */
  lemma DemoNeverOverAllocated(es: seq<Employee>)
    ensures forall r :: r in AllocationData(es) ==> r.usedRate == 1.0 || r.usedRate == 0.0
    ensures forall r :: r in AllocationData(es) ==> !OverAllocated(r)
  {
    var rows := AllocationData(es);
    forall r | r in rows ensures r.usedRate == 1.0 || r.usedRate == 0.0 {
      var i :| 0 <= i < |rows| && rows[i] == r;
      DemoUsedRate(i);
    }
  }

  function DeptOf(r: AllocRow): string { r.emp.dept }

  function KeyIs<T>(key: T -> string, k: string): T -> bool
  {
    (x: T) => key(x) == k
  }

  /** The dictionary a `forEach` fills when it pushes each element onto the list under
      its key, creating the list on first use. */
  function GroupBy<T>(xs: seq<T>, key: T -> string): map<string, seq<T>>
  {
    if xs == [] then map[]
    else
      var g := GroupBy(xs[..|xs| - 1], key);
      var k := key(xs[|xs| - 1]);
      g[k := (if k in g then g[k] else []) + [xs[|xs| - 1]]]
  }

  /** The dictionary has a key for exactly the keys that occur. */
  lemma {:induction false} GroupByKeys<T>(xs: seq<T>, key: T -> string)
    ensures forall k :: k in GroupBy(xs, key) <==> exists i :: 0 <= i < |xs| && key(xs[i]) == k
  {
    if xs != [] {
      var init := xs[..|xs| - 1];
      GroupByKeys(init, key);
      forall k | k in GroupBy(init, key) ensures exists i :: 0 <= i < |xs| && key(xs[i]) == k {
        var i :| 0 <= i < |init| && key(init[i]) == k;
        assert xs[i] == init[i];
      }
      forall k | (exists i :: 0 <= i < |xs| && key(xs[i]) == k) ensures k in GroupBy(xs, key) {
        var i :| 0 <= i < |xs| && key(xs[i]) == k;
        if i < |init| {
          assert init[i] == xs[i];
        }
      }
    }
  }

  /** Under each key the dictionary holds exactly the elements with that key, in order. */
  lemma {:induction false} GroupByItems<T>(xs: seq<T>, key: T -> string, k: string)
    requires k in GroupBy(xs, key)
    ensures GroupBy(xs, key)[k] == Filter(xs, KeyIs(key, k))
  {
    var init := xs[..|xs| - 1];
    var r := xs[|xs| - 1];
    assert xs == init + [r];
    FilterAppend(init, [r], KeyIs(key, k));
    FilterSingle(r, KeyIs(key, k));
    if k in GroupBy(init, key) {
      GroupByItems(init, key, k);
    } else {
      GroupByKeys(init, key);
      forall i | 0 <= i < |init| ensures !KeyIs(key, k)(init[i]) {
        assert key(init[i]) != k;
      }
      FilterNone(init, KeyIs(key, k));
    }
  }

  /** One department block of the board. */
  datatype Group = Group(title: string, items: seq<AllocRow>)

  function TitleKey(t: string): SortValue { Str(t) }

  /** The `forEach` of `groupedData`: one pass over the cards, filling the dictionary and
      recording each department the first time it is met. */
  method GatherByDept(rows: seq<AllocRow>) returns (g: map<string, seq<AllocRow>>, keys: seq<string>)
    ensures g == GroupBy(rows, DeptOf)
    ensures forall k :: multiset(keys)[k] == if k in g then 1 else 0
  {
    g := map[];
    keys := [];
    var n := 0;
    while n < |rows|
      invariant 0 <= n <= |rows|
      invariant g == GroupBy(rows[..n], DeptOf)
      invariant forall k :: multiset(keys)[k] == if k in g then 1 else 0
    {
      var key := rows[n].emp.dept;
      assert rows[..n + 1][..n] == rows[..n];
      if key !in g {
        keys := keys + [key];
        g := g[key := []];
      }
      g := g[key := g[key] + [rows[n]]];
      n := n + 1;
    }
    assert rows[..n] == rows;
  }

  /** `groupedData`: the departments in ascending order of their names, each once, each
      with exactly its cards in list order; every card is in a block. */
  method GroupedData(rows: seq<AllocRow>) returns (groups: seq<Group>)
    ensures forall i, j :: 0 <= i < j < |groups| ==> StrLe(groups[i].title, groups[j].title)
    ensures forall i, j :: 0 <= i < j < |groups| ==> groups[i].title != groups[j].title
    ensures forall i :: 0 <= i < |groups| ==> groups[i].items == Filter(rows, KeyIs(DeptOf, groups[i].title))
    ensures forall r :: r in rows <==> exists i :: 0 <= i < |groups| && r in groups[i].items
    ensures forall i :: 0 <= i < |groups| ==> groups[i].items != []
  {
    var g, keys := GatherByDept(rows);
    var titles := SortBy(keys, TitleKey, false);
    SortByOrdered(keys, TitleKey, false);
    TitlesAreKeys(titles, g);
    groups := MakeGroups(titles, g);
    GroupsSpec(rows, titles);
  }

  /** The blocks built from sorted, once-each titles of the dictionary's keys. */
  lemma GroupsSpec(rows: seq<AllocRow>, titles: seq<string>)
    requires Ordered(titles, TitleKey, false)
    requires forall k :: multiset(titles)[k] == if k in GroupBy(rows, DeptOf) then 1 else 0
    requires forall t :: t in titles ==> t in GroupBy(rows, DeptOf)
    ensures var groups := MakeGroups(titles, GroupBy(rows, DeptOf));
            && (forall i, j :: 0 <= i < j < |groups| ==> StrLe(groups[i].title, groups[j].title))
            && (forall i, j :: 0 <= i < j < |groups| ==> groups[i].title != groups[j].title)
            && (forall i :: 0 <= i < |groups| ==> groups[i].items == Filter(rows, KeyIs(DeptOf, groups[i].title)))
            && (forall r :: r in rows <==> exists i :: 0 <= i < |groups| && r in groups[i].items)
            && (forall i :: 0 <= i < |groups| ==> groups[i].items != [])
  {
    var g := GroupBy(rows, DeptOf);
    var groups := MakeGroups(titles, g);
    GroupsOrdered(groups, titles);
    GroupsDistinct(groups, titles, g);
    GroupsItems(rows, groups, titles, g);
    GroupsCover(rows, groups, titles, g);
    GroupsNonEmpty(rows, groups, titles, g);
  }

  /** One block per title, holding the dictionary's cards for it. */
  function MakeGroups(titles: seq<string>, g: map<string, seq<AllocRow>>): (groups: seq<Group>)
    requires forall t :: t in titles ==> t in g
    ensures |groups| == |titles|
    ensures forall i :: 0 <= i < |groups| ==> titles[i] in g && groups[i] == Group(titles[i], g[titles[i]])
    ensures forall i :: 0 <= i < |groups| ==> groups[i].title == titles[i]
  {
    seq(|titles|, i requires 0 <= i < |titles| => Group(titles[i], g[titles[i]]))
  }

  lemma TitlesAreKeys(titles: seq<string>, g: map<string, seq<AllocRow>>)
    requires forall k :: multiset(titles)[k] == if k in g then 1 else 0
    ensures forall t :: t in titles ==> t in g
  {
    forall t | t in titles ensures t in g {
      assert multiset(titles)[t] > 0;
    }
  }

  lemma GroupsOrdered(groups: seq<Group>, titles: seq<string>)
    requires |groups| == |titles| && forall i :: 0 <= i < |groups| ==> groups[i].title == titles[i]
    requires Ordered(titles, TitleKey, false)
    ensures forall i, j :: 0 <= i < j < |groups| ==> StrLe(groups[i].title, groups[j].title)
  {
    forall i, j | 0 <= i < j < |groups| ensures StrLe(groups[i].title, groups[j].title) {
      assert InOrder(TitleKey(titles[i]), TitleKey(titles[j]), false);
    }
  }

  lemma GroupsDistinct(groups: seq<Group>, titles: seq<string>, g: map<string, seq<AllocRow>>)
    requires |groups| == |titles| && forall i :: 0 <= i < |groups| ==> groups[i].title == titles[i]
    requires forall k :: multiset(titles)[k] == if k in g then 1 else 0
    ensures forall i, j :: 0 <= i < j < |groups| ==> groups[i].title != groups[j].title
  {
    forall i, j | 0 <= i < j < |groups| ensures groups[i].title != groups[j].title {
      if titles[i] == titles[j] {
        MultisetTwice(titles, i, j);
      }
    }
  }

  lemma GroupsItems(rows: seq<AllocRow>, groups: seq<Group>, titles: seq<string>, g: map<string, seq<AllocRow>>)
    requires g == GroupBy(rows, DeptOf)
    requires |groups| == |titles| && forall i :: 0 <= i < |groups| ==> titles[i] in g && groups[i] == Group(titles[i], g[titles[i]])
    ensures forall i :: 0 <= i < |groups| ==> groups[i].items == Filter(rows, KeyIs(DeptOf, groups[i].title))
  {
    forall i | 0 <= i < |groups| ensures groups[i].items == Filter(rows, KeyIs(DeptOf, groups[i].title)) {
      GroupByItems(rows, DeptOf, titles[i]);
    }
  }

  lemma GroupsCover(rows: seq<AllocRow>, groups: seq<Group>, titles: seq<string>, g: map<string, seq<AllocRow>>)
    requires g == GroupBy(rows, DeptOf)
    requires forall k :: multiset(titles)[k] == if k in g then 1 else 0
    requires |groups| == |titles| && forall i :: 0 <= i < |groups| ==> titles[i] in g && groups[i] == Group(titles[i], g[titles[i]])
    ensures forall r :: r in rows <==> exists i :: 0 <= i < |groups| && r in groups[i].items
  {
    GroupByKeys(rows, DeptOf);
    forall r | r in rows ensures exists i :: 0 <= i < |groups| && r in groups[i].items {
      var n :| 0 <= n < |rows| && rows[n] == r;
      var k := DeptOf(r);
      assert k in g;
      assert multiset(titles)[k] == 1;
      var i :| 0 <= i < |titles| && titles[i] == k;
      GroupByItems(rows, DeptOf, k);
      FilterMembers(rows, KeyIs(DeptOf, k));
      assert r in groups[i].items;
    }
    forall r | (exists i :: 0 <= i < |groups| && r in groups[i].items) ensures r in rows {
      var i :| 0 <= i < |groups| && r in groups[i].items;
      GroupByItems(rows, DeptOf, titles[i]);
      FilterMembers(rows, KeyIs(DeptOf, titles[i]));
    }
  }

  /** A key is made only when a card is pushed under it, so no block is empty. */
  lemma GroupNonEmpty(rows: seq<AllocRow>, t: string)
    requires t in GroupBy(rows, DeptOf)
    ensures GroupBy(rows, DeptOf)[t] != []
  {
    GroupByKeys(rows, DeptOf);
    var n :| 0 <= n < |rows| && DeptOf(rows[n]) == t;
    GroupByItems(rows, DeptOf, t);
    FilterMembers(rows, KeyIs(DeptOf, t));
    assert KeyIs(DeptOf, t)(rows[n]);
    assert rows[n] in GroupBy(rows, DeptOf)[t];
  }

  lemma GroupsNonEmpty(rows: seq<AllocRow>, groups: seq<Group>, titles: seq<string>, g: map<string, seq<AllocRow>>)
    requires g == GroupBy(rows, DeptOf)
    requires |groups| == |titles| && forall i :: 0 <= i < |groups| ==> titles[i] in g && groups[i] == Group(titles[i], g[titles[i]])
    ensures forall i :: 0 <= i < |groups| ==> groups[i].items != []
  {
    forall i | 0 <= i < |groups| ensures groups[i].items != [] {
      GroupNonEmpty(rows, titles[i]);
    }
  }

  /** The employee list screen's state and its handlers. */
  class HRView {
    var employees: seq<Employee>

    constructor (loaded: seq<Employee>)
      ensures employees == loaded
    {
      employees := loaded;
    }

    /** `handleSave`: refused without a name, otherwise the new employee goes on top. */
    method HandleSave(form: Employee, id: string, username: string)
      modifies this`employees
      ensures form.name == "" ==> employees == old(employees)
      ensures form.name != "" ==> employees == [NewEmployee(form, id, username)] + old(employees)
    {
      if form.name == "" {
        return;
      }
      employees := [NewEmployee(form, id, username)] + employees;
    }

    /** `handleArchive(id, archive)`: no confirmation is asked on this screen. */
    method HandleArchive(id: string, archive: bool)
      modifies this`employees
      ensures employees == ArchiveEmployee(old(employees), id, archive)
    {
      employees := ArchiveEmployee(employees, id, archive);
    }
  }
}
