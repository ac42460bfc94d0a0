/** The standards screen (MockupStandardInfo.tsx): the rate-based monthly labour cost of a
    person, department cost totals, the department list with delete-and-reassign, the
    per-department sales plans (annual sources and monthly items), the cost-standard table
    and the monthly target lock. */
module StandardInfo {
  import opened Common
  import opened Text
  import opened Keyed
  import opened People
  import opened MonthTotals

  datatype SalesSource = SalesSource(id: int, client: string, amount: int)

  /** Rates are percentages. */
  datatype CostStandard = CostStandard(id: int, kind: string, insuranceRate: real,
                                       severanceRate: real, commonCostRate: real, riskBuffer: real)

  /** The two standards the screen starts with. */
  const DefaultStandards: seq<CostStandard> := [
    CostStandard(1, "정규직 (Regular)", 12.0, 8.33, 15.0, 5.0),
    CostStandard(2, "프리랜서 (Freelancer)", 3.5, 0.0, 5.0, 5.0)
  ]

  /** The company-assigned yearly targets the screen starts with. */
  const DefaultAllocations: map<string, int> := map[
    "DX 사업본부" := 5000000000, "플랫폼 개발팀" := 4000000000, "디자인팀" := 1500000000,
    "AI 연구소" := 2000000000, "금융사업 2팀" := 3500000000, "공공사업 1팀" := 3000000000]

  /** The annual sales sources the screen starts with. */
  const DefaultPlans: map<string, seq<SalesSource>> := map[
    "플랫폼 개발팀" := [SalesSource(1, "L전자 GRS 시스템 개편", 1500000000),
                     SalesSource(2, "S물산 운영 유지보수", 800000000)]]

  /** The monthly items the screen starts with, all in October. */
  const DefaultMonthlyItems: map<string, map<int, seq<MonthlyItem>>> := map[
    "플랫폼 개발팀" := map[10 := [MonthlyItem(1, "L전자 GRS 시스템 2차 고도화 수주", 200000000),
                                MonthlyItem(2, "S물산 유지보수 고정 매출", 120000000)]],
    "DX 사업본부" := map[10 := [MonthlyItem(1, "차세대 금융 플랫폼 컨설팅", 450000000)]]]

  // ---------------------------------------------------------------------------------------
  // Monthly labour cost of one person

  /** The standard a person of this kind may use: one naming 정규직 for regular staff,
      one naming 프리랜서 for everybody else. */
  predicate Suits(s: CostStandard, personKind: string)
  {
    if personKind == Regular then Contains(s.kind, Regular) else Contains(s.kind, Freelancer)
  }

  /** `costStandards.find(...)`: the first suitable standard. */
  function FindStandard(stds: seq<CostStandard>, personKind: string): (r: Option<CostStandard>)
    ensures r.None? <==> forall i :: 0 <= i < |stds| ==> !Suits(stds[i], personKind)
    ensures r.Some? ==> (Suits(r.value, personKind)
              && exists i :: 0 <= i < |stds| && stds[i] == r.value && NoneSuitsBefore(stds, personKind, i))
  {
    if stds == [] then None
    else if Suits(stds[0], personKind) then
      assert NoneSuitsBefore(stds, personKind, 0);
      Some(stds[0])
    else
      var r := FindStandard(stds[1..], personKind);
      assert forall i :: 1 <= i < |stds| ==> stds[i] == stds[1..][i - 1];
      if r.None? then r
      else
        var i :| 0 <= i < |stds[1..]| && stds[1..][i] == r.value && NoneSuitsBefore(stds[1..], personKind, i);
        assert NoneSuitsBefore(stds, personKind, i + 1);
        r
  }

  predicate NoneSuitsBefore(stds: seq<CostStandard>, personKind: string, i: int)
    requires 0 <= i <= |stds|
  {
    forall j :: 0 <= j < i ==> !Suits(stds[j], personKind)
  }

  /** `find(...) || costStandards[0]`. */
  function ChosenStandard(stds: seq<CostStandard>, personKind: string): (s: CostStandard)
    requires |stds| > 0
    ensures s in stds
    ensures (exists i :: 0 <= i < |stds| && Suits(stds[i], personKind)) ==> Suits(s, personKind)
    ensures (forall i :: 0 <= i < |stds| ==> !Suits(stds[i], personKind)) ==> s == stds[0]
  {
    var found := FindStandard(stds, personKind);
    if found.Some? then found.value else stds[0]
  }

  /** The cost formula: the monthly salary plus insurance, severance and overhead as
      percentages of it, all raised by the risk buffer, rounded. */
  function RateCost(annual: int, std: CostStandard): int
  {
    var m := annual as real / 12.0;
    var insurance := m * (std.insuranceRate / 100.0);
    var severance := m * (std.severanceRate / 100.0);
    var overhead := m * (std.commonCostRate / 100.0);
    Round((m + insurance + severance + overhead) * (1.0 + std.riskBuffer / 100.0))
  }

  predicate NonNegativeRates(std: CostStandard)
  {
    std.insuranceRate >= 0.0 && std.severanceRate >= 0.0 && std.commonCostRate >= 0.0
    && std.riskBuffer >= 0.0
  }

  /** The multiplier the formula applies to the monthly salary. */
  function Markup(std: CostStandard): real
  {
    (1.0 + std.insuranceRate / 100.0 + std.severanceRate / 100.0 + std.commonCostRate / 100.0)
    * (1.0 + std.riskBuffer / 100.0)
  }

  lemma RateCostIsMarkup(annual: int, std: CostStandard)
    ensures RateCost(annual, std) == Round(annual as real / 12.0 * Markup(std))
  {
    var m := annual as real / 12.0;
    var g := 1.0 + std.insuranceRate / 100.0 + std.severanceRate / 100.0 + std.commonCostRate / 100.0;
    assert m + m * (std.insuranceRate / 100.0) + m * (std.severanceRate / 100.0)
           + m * (std.commonCostRate / 100.0) == m * g;
    assert m * g * (1.0 + std.riskBuffer / 100.0) == m * Markup(std);
  }

  /** With non-negative rates the cost never falls as the salary rises, it is never below
      the rounded monthly salary, and a zero salary costs nothing. */
  lemma RateCostBounds(a1: int, a2: int, std: CostStandard)
    requires NonNegativeRates(std) && 0 <= a1 <= a2
    ensures RateCost(a1, std) <= RateCost(a2, std)
    ensures RateCost(a1, std) >= Round(a1 as real / 12.0)
    ensures RateCost(0, std) == 0
  {
    RateCostMonotone(a1, a2, std);
    RateCostAtLeastSalary(a1, std);
    RateCostIsMarkup(0, std);
    assert 0 as real / 12.0 * Markup(std) == 0.0;
  }

  lemma RateCostMonotone(a1: int, a2: int, std: CostStandard)
    requires NonNegativeRates(std) && 0 <= a1 <= a2
    ensures RateCost(a1, std) <= RateCost(a2, std)
  {
    RateCostIsMarkup(a1, std);
    RateCostIsMarkup(a2, std);
    MarkupAtLeastOne(std);
    RoundMarkupMonotone(a1, a2, Markup(std));
  }

  lemma RoundMarkupMonotone(a1: int, a2: int, k: real)
    requires 0 <= a1 <= a2 && k >= 1.0
    ensures Round(a1 as real / 12.0 * k) <= Round(a2 as real / 12.0 * k)
  {
    var m1 := a1 as real / 12.0;
    var m2 := a2 as real / 12.0;
    assert 0.0 <= m1 <= m2;
    RoundScaled(m1, m2, k);
  }

  lemma RateCostAtLeastSalary(a: int, std: CostStandard)
    requires NonNegativeRates(std) && 0 <= a
    ensures RateCost(a, std) >= Round(a as real / 12.0)
  {
    RateCostIsMarkup(a, std);
    MarkupAtLeastOne(std);
    var m := a as real / 12.0;
    assert 0.0 <= m;
    RoundScaled(m, m, Markup(std));
  }

  lemma MarkupAtLeastOne(std: CostStandard)
    requires NonNegativeRates(std)
    ensures Markup(std) >= 1.0
  {
    var g := 1.0 + std.insuranceRate / 100.0 + std.severanceRate / 100.0 + std.commonCostRate / 100.0;
    var b := 1.0 + std.riskBuffer / 100.0;
    assert g >= 1.0 && b >= 1.0;
    MulAtLeastOne(g, b);
    assert Markup(std) == g * b;
  }

  /** Rounding after scaling by a factor of at least one keeps the order and never
      rounds below the unscaled amount. */
  lemma RoundScaled(x: real, y: real, k: real)
    requires 0.0 <= x <= y && k >= 1.0
    ensures Round(x) <= Round(x * k) <= Round(y * k)
  {
    ScaledBounds(x, y, k);
    RoundMonotone(x, x * k);
    RoundMonotone(x * k, y * k);
  }

  /** Scaling by a factor of at least one keeps the order and never shrinks. */
  lemma ScaledBounds(x: real, y: real, k: real)
    requires 0.0 <= x <= y && k >= 1.0
    ensures x <= x * k <= y * k
  {
    MulGrows(x, k);
    MulMonotone(x, y, k);
  }

  lemma MulAtLeastOne(x: real, y: real)
    requires x >= 1.0 && y >= 1.0
    ensures x * y >= 1.0
  {
  }

  lemma MulMonotone(x: real, y: real, k: real)
    requires x <= y && k >= 0.0
    ensures x * k <= y * k
  {
  }

  lemma MulGrows(x: real, k: real)
    requires x >= 0.0 && k >= 1.0
    ensures x * k >= x
  {
  }

  /** `getCalculatedMonthlyCost(person)`. A person with salaries needs a standard to fall
      back on, so the list of standards must not be empty then. */
  function MonthlyCost(person: Option<Employee>, stds: seq<CostStandard>, year: string): (r: int)
    requires person.Some? && person.value.salaries.Some? ==> |stds| > 0
    ensures person.None? || person.value.salaries.None? ==> r == 0
    ensures person.Some? && person.value.salaries.Some? ==>
              r == RateCost(AnnualSalary(person.value.salaries.value, year),
                            ChosenStandard(stds, person.value.kind))
  {
    if person.None? || person.value.salaries.None? then 0
    else
      var annual := AnnualSalary(person.value.salaries.value, year);
      RateCost(annual, ChosenStandard(stds, person.value.kind))
  }

  /** Appending the blank "New Type" standard changes nobody's cost: it suits no one, and
      the fallback is still the first standard. */
  lemma AddStandardKeepsCosts(person: Employee, stds: seq<CostStandard>, year: string, newId: int)
    requires |stds| > 0
    ensures MonthlyCost(Some(person), StandardsAdd(stds, newId), year) == MonthlyCost(Some(person), stds, year)
  {
    NewStandardSuitsNobody(newId, person.kind);
    FindStandardAppend(stds, NewStandard(newId), person.kind);
    assert ChosenStandard(StandardsAdd(stds, newId), person.kind) == ChosenStandard(stds, person.kind);
  }

  lemma NewStandardSuitsNobody(newId: int, personKind: string)
    ensures !Suits(NewStandard(newId), personKind)
  {
    var k := NewStandard(newId).kind;
    assert k == "New Type";
    assert forall i :: 0 <= i < |k| ==> k[i] < '\U{0100}';
    NotContainsFirstChar(k, Regular);
    NotContainsFirstChar(k, Freelancer);
  }

  lemma {:induction false} FindStandardAppend(stds: seq<CostStandard>, s: CostStandard, personKind: string)
    requires !Suits(s, personKind)
    ensures FindStandard(stds + [s], personKind) == FindStandard(stds, personKind)
  {
    if stds == [] {
      assert [s][1..] == [];
    } else {
      assert (stds + [s])[1..] == stds[1..] + [s];
      FindStandardAppend(stds[1..], s, personKind);
    }
  }

  /** A text lacking the first character of `t` does not contain `t`. */
  lemma NotContainsFirstChar(s: string, t: string)
    requires |t| > 0 && forall i :: 0 <= i < |s| ==> s[i] != t[0]
    ensures !Contains(s, t)
  {
    ContainsAt(s, t);
  }

  // ---------------------------------------------------------------------------------------
  // Department cost

  /** `employees.filter(e => e.dept === name).length > 0`: someone works in the department. */
  predicate Staffed(emps: seq<Employee>, name: string)
  {
    exists i :: 0 <= i < |emps| && emps[i].dept == name
  }

  predicate CostsDefined(emps: seq<Employee>, stds: seq<CostStandard>, dept: string)
  {
    forall i :: 0 <= i < |emps| && emps[i].dept == dept && emps[i].salaries.Some? ==> |stds| > 0
  }

  /** `getDeptTotalCost(dept)`: the costs of the department's employees added up. */
  function DeptTotalCost(emps: seq<Employee>, stds: seq<CostStandard>, year: string, dept: string): int
    requires CostsDefined(emps, stds, dept)
  {
    if emps == [] then 0
    else
      assert CostsDefined(emps[1..], stds, dept) by {
        assert forall i :: 1 <= i < |emps| ==> emps[1..][i - 1] == emps[i];
      }
      (if emps[0].dept == dept then MonthlyCost(Some(emps[0]), stds, year) else 0)
      + DeptTotalCost(emps[1..], stds, year, dept)
  }

  /** The cost `reduce` adds for one employee. A person with salaries but no standard to
      fall back on makes the screen throw; that case never reaches the reduce here. */
  function CostWith(stds: seq<CostStandard>, year: string): Employee -> int
  {
    (e: Employee) => if e.salaries.Some? && stds == [] then 0 else MonthlyCost(Some(e), stds, year)
  }

  function InDept(dept: string): Employee -> bool
  {
    (e: Employee) => e.dept == dept
  }

  /** The department total is the `filter(e => e.dept === dept)` of the employees, then the
      `reduce` of their monthly costs. */
  lemma {:induction false} DeptTotalCostIsFilterSum(emps: seq<Employee>, stds: seq<CostStandard>, year: string, dept: string)
    requires CostsDefined(emps, stds, dept)
    ensures DeptTotalCost(emps, stds, year, dept) == Sum(Filter(emps, InDept(dept)), CostWith(stds, year))
  {
    if emps != [] {
      assert CostsDefined(emps[1..], stds, dept) by {
        assert forall i :: 1 <= i < |emps| ==> emps[1..][i - 1] == emps[i];
      }
      DeptTotalCostIsFilterSum(emps[1..], stds, year, dept);
      var head := if emps[0].dept == dept then [emps[0]] else [];
      assert Filter(emps, InDept(dept)) == head + Filter(emps[1..], InDept(dept));
      SumAppend(head, Filter(emps[1..], InDept(dept)), CostWith(stds, year));
      if emps[0].dept == dept && emps[0].salaries.Some? {
        assert |stds| > 0;
      }
    }
  }

  /** A department without employees costs nothing. */
  lemma {:induction false} DeptTotalCostEmpty(emps: seq<Employee>, stds: seq<CostStandard>, year: string, dept: string)
    requires forall i :: 0 <= i < |emps| ==> emps[i].dept != dept
    ensures DeptTotalCost(emps, stds, year, dept) == 0
  {
    if emps != [] {
      DeptTotalCostEmpty(emps[1..], stds, year, dept);
    }
  }

  // ---------------------------------------------------------------------------------------
  // Department list

  predicate NoDuplicates<T(==)>(s: seq<T>)
  {
    forall i, j :: 0 <= i < j < |s| ==> s[i] != s[j]
  }

  /** The list after `handleAddDept` with this input. */
  function AddDept(depts: seq<string>, input: string): (r: seq<string>)
    ensures !IsBlank(input) && Trim(input) !in depts ==> r == depts + [Trim(input)]
    ensures IsBlank(input) || Trim(input) in depts ==> r == depts
  {
    var name := Trim(input);
    if name != "" && name !in depts then depts + [name] else depts
  }

  /** The two outcomes of `handleAddDept` in the terms its code tests: the trimmed name is
      appended, making the list longer and keeping it duplicate-free, or nothing changes. */
  lemma AddDeptStep(depts: seq<string>, input: string)
    requires NoDuplicates(depts)
    ensures var name := Trim(input);
            if name != "" && name !in depts
            then AddDept(depts, input) == depts + [name] != depts && NoDuplicates(depts + [name])
            else AddDept(depts, input) == depts
  {
    AddDeptSpec(depts, input);
    var name := Trim(input);
    if name != "" && name !in depts {
      assert |depts + [name]| != |depts|;
    }
  }

  /** Adding never creates a duplicate, and a non-blank name is listed afterwards. */
  lemma AddDeptSpec(depts: seq<string>, input: string)
    requires NoDuplicates(depts)
    ensures NoDuplicates(AddDept(depts, input))
    ensures !IsBlank(input) ==> Trim(input) in AddDept(depts, input)
  {
    var r := AddDept(depts, input);
    if r != depts {
      forall i, j | 0 <= i < j < |r| ensures r[i] != r[j] {
        if j == |depts| {
          assert r[i] == depts[i];
        }
      }
    }
  }

  /** `employees.map(...)` in `executeDeleteWithMove`: members of `from` move to `to`. */
  function MoveEmployees(emps: seq<Employee>, from: string, to: string): (r: seq<Employee>)
    ensures |r| == |emps|
    ensures forall i :: 0 <= i < |emps| ==>
              r[i] == if emps[i].dept == from then emps[i].(dept := to) else emps[i]
  {
    MapWhere(emps, (e: Employee) => e.dept == from, (e: Employee) => e.(dept := to))
  }

  /** After the move nobody is left in the deleted department, and the target department's
      cost is what the two departments cost before. */
  lemma {:induction false} MoveEmployeesCost(emps: seq<Employee>, stds: seq<CostStandard>, year: string, from: string, to: string)
    requires from != to && |stds| > 0
    ensures forall i :: 0 <= i < |emps| ==> MoveEmployees(emps, from, to)[i].dept != from
    ensures DeptTotalCost(MoveEmployees(emps, from, to), stds, year, to)
            == DeptTotalCost(emps, stds, year, from) + DeptTotalCost(emps, stds, year, to)
  {
    if emps != [] {
      MoveEmployeesCost(emps[1..], stds, year, from, to);
      var r := MoveEmployees(emps, from, to);
      assert r[1..] == MoveEmployees(emps[1..], from, to);
    }
  }

  /** `departments.filter(d => d !== name)`. */
  function RemoveDept(depts: seq<string>, name: string): (r: seq<string>)
    ensures |r| <= |depts|
  {
    Filter(depts, (d: string) => d != name)
  }

  /** The deleted department is gone, every other one stays, in the same order. */
  lemma RemoveDeptSpec(depts: seq<string>, name: string)
    ensures name !in RemoveDept(depts, name)
    ensures forall d :: d != name ==> (d in RemoveDept(depts, name) <==> d in depts)
    ensures Subsequence(RemoveDept(depts, name), depts)
  {
    FilterMembers(depts, (d: string) => d != name);
    FilterSubsequence(depts, (d: string) => d != name);
  }

  lemma RemoveDeptDistinct(depts: seq<string>, name: string)
    requires NoDuplicates(depts)
    ensures NoDuplicates(RemoveDept(depts, name))
  {
    FilterKeepsDistinct(depts, (d: string) => d != name);
  }

  /** `departments.find(d => d !== name)`. */
  function FirstOther(depts: seq<string>, name: string): (r: Option<string>)
    ensures r.None? <==> forall i :: 0 <= i < |depts| ==> depts[i] == name
    ensures r.Some? ==> r.value in depts && r.value != name
  {
    if depts == [] then None
    else if depts[0] != name then Some(depts[0])
    else
      assert forall i :: 1 <= i < |depts| ==> depts[i] == depts[1..][i - 1];
      FirstOther(depts[1..], name)
  }

  // ---------------------------------------------------------------------------------------
  // Annual sales sources per department

  datatype SalesSourceField = SourceId(id: int) | Client(client: string) | SourceAmount(amount: int)

  /** `{ ...s, [field]: value }`. */
  function SetSourceField(s: SalesSource, f: SalesSourceField): SalesSource
  {
    match f
    case SourceId(v) => s.(id := v)
    case Client(v) => s.(client := v)
    case SourceAmount(v) => s.(amount := v)
  }

  /** `annualPlans[dept] || []`. */
  function SourcesOf(plans: map<string, seq<SalesSource>>, dept: string): seq<SalesSource>
  {
    if dept in plans then plans[dept] else []
  }

  function SourceValue(s: SalesSource): int { s.amount }

  /** `getAnnualGoal(dept)`. */
  function AnnualGoal(plans: map<string, seq<SalesSource>>, dept: string): int
  {
    Sum(SourcesOf(plans, dept), SourceValue)
  }

  function SourcesAdd(plans: map<string, seq<SalesSource>>, dept: string, newId: int): map<string, seq<SalesSource>>
  {
    plans[dept := SourcesOf(plans, dept) + [SalesSource(newId, "", 0)]]
  }

  function SourcesUpdate(plans: map<string, seq<SalesSource>>, dept: string, id: int, f: SalesSourceField): map<string, seq<SalesSource>>
  {
    plans[dept := MapWhere(SourcesOf(plans, dept), (s: SalesSource) => s.id == id,
                           (s: SalesSource) => SetSourceField(s, f))]
  }

  function SourcesDelete(plans: map<string, seq<SalesSource>>, dept: string, id: int): map<string, seq<SalesSource>>
  {
    plans[dept := Filter(SourcesOf(plans, dept), (s: SalesSource) => s.id != id)]
  }

  /** Adding a source appends one blank source to that department and leaves every goal,
      and every other department's list, as it was. */
  lemma SourcesAddSpec(plans: map<string, seq<SalesSource>>, dept: string, newId: int, other: string)
    ensures SourcesOf(SourcesAdd(plans, dept, newId), dept) == SourcesOf(plans, dept) + [SalesSource(newId, "", 0)]
    ensures other != dept ==> SourcesOf(SourcesAdd(plans, dept, newId), other) == SourcesOf(plans, other)
    ensures AnnualGoal(SourcesAdd(plans, dept, newId), other) == AnnualGoal(plans, other)
  {
    SumAppend(SourcesOf(plans, dept), [SalesSource(newId, "", 0)], SourceValue);
  }

  /** Editing a source's client or id leaves the goal alone; no other department changes. */
  lemma SourcesUpdateSpec(plans: map<string, seq<SalesSource>>, dept: string, id: int, f: SalesSourceField, other: string)
    ensures other != dept ==> SourcesOf(SourcesUpdate(plans, dept, id, f), other) == SourcesOf(plans, other)
    ensures !f.SourceAmount? ==> AnnualGoal(SourcesUpdate(plans, dept, id, f), dept) == AnnualGoal(plans, dept)
  {
    if !f.SourceAmount? {
      SumMapWhere(SourcesOf(plans, dept), (s: SalesSource) => s.id == id,
                  (s: SalesSource) => SetSourceField(s, f), SourceValue);
    }
  }

  /** Deleting the one source with the id lowers that department's goal by its amount. */
  lemma SourcesDeleteSpec(plans: map<string, seq<SalesSource>>, dept: string, id: int, k: int, other: string)
    requires 0 <= k < |SourcesOf(plans, dept)| && SourcesOf(plans, dept)[k].id == id
    requires forall i :: 0 <= i < |SourcesOf(plans, dept)| && i != k ==> SourcesOf(plans, dept)[i].id != id
    ensures AnnualGoal(SourcesDelete(plans, dept, id), dept) == AnnualGoal(plans, dept) - SourcesOf(plans, dept)[k].amount
    ensures other != dept ==> SourcesOf(SourcesDelete(plans, dept, id), other) == SourcesOf(plans, other)
  {
    SumFilterOne(SourcesOf(plans, dept), (s: SalesSource) => s.id != id, k, SourceValue);
  }

  // ---------------------------------------------------------------------------------------
  // Monthly items per department and month

  datatype MonthlyItemField = ItemId(id: int) | Plan(plan: string) | ItemAmount(amount: int)

  function SetItemField(it: MonthlyItem, f: MonthlyItemField): MonthlyItem
  {
    match f
    case ItemId(v) => it.(id := v)
    case Plan(v) => it.(plan := v)
    case ItemAmount(v) => it.(amount := v)
  }

  type MonthlyPlans = map<string, map<int, seq<MonthlyItem>>>

  /** `deptMonthlyItems[dept] || {}`. */
  function MonthsOf(items: MonthlyPlans, dept: string): map<int, seq<MonthlyItem>>
  {
    if dept in items then items[dept] else map[]
  }

  /** `deptMonthlyItems[dept]?.[month] || []`. */
  function ItemsOf(items: MonthlyPlans, dept: string, month: int): seq<MonthlyItem>
  {
    if month in MonthsOf(items, dept) then MonthsOf(items, dept)[month] else []
  }

  /** `getDeptMonthlyTotal(dept, month)`. */
  function DeptMonthlyTotal(items: MonthlyPlans, dept: string, month: int): int
  {
    ItemsTotal(ItemsOf(items, dept, month))
  }

  /** `totalTargetRevenue`: the month's totals of every listed department. */
  function TotalTargetRevenue(depts: seq<string>, items: MonthlyPlans, month: int): int
  {
    if depts == [] then 0
    else DeptMonthlyTotal(items, depts[0], month) + TotalTargetRevenue(depts[1..], items, month)
  }

  /** The sample plans: the platform team's sources add up to 2.3 billion won, and its
      October items to 320 million won. */
  lemma SamplePlanTotals()
    ensures AnnualGoal(DefaultPlans, "플랫폼 개발팀") == 2300000000
    ensures DeptMonthlyTotal(DefaultMonthlyItems, "플랫폼 개발팀", 10) == 320000000
    ensures DeptMonthlyTotal(DefaultMonthlyItems, "디자인팀", 10) == 0
  {
    var ss := SourcesOf(DefaultPlans, "플랫폼 개발팀");
    assert ss[1..][1..] == [];
    var its := ItemsOf(DefaultMonthlyItems, "플랫폼 개발팀", 10);
    assert its[1..][1..] == [];
  }

  /** Writes one month's list for one department, keeping its other months. */
  function PutItems(items: MonthlyPlans, dept: string, month: int, xs: seq<MonthlyItem>): MonthlyPlans
  {
    items[dept := MonthsOf(items, dept)[month := xs]]
  }

  function ItemsAdd(items: MonthlyPlans, dept: string, month: int, newId: int): MonthlyPlans
  {
    PutItems(items, dept, month, ItemsOf(items, dept, month) + [MonthlyItem(newId, "", 0)])
  }

  function ItemsUpdate(items: MonthlyPlans, dept: string, month: int, id: int, f: MonthlyItemField): MonthlyPlans
  {
    PutItems(items, dept, month, MapWhere(ItemsOf(items, dept, month), (it: MonthlyItem) => it.id == id,
                                          (it: MonthlyItem) => SetItemField(it, f)))
  }

  function ItemsDelete(items: MonthlyPlans, dept: string, month: int, id: int): MonthlyPlans
  {
    PutItems(items, dept, month, Filter(ItemsOf(items, dept, month), (it: MonthlyItem) => it.id != id))
  }

  /** Writing one cell of the plan leaves every other department and month as it was. */
  lemma PutItemsElsewhere(items: MonthlyPlans, dept: string, month: int, xs: seq<MonthlyItem>, d: string, m: int)
    ensures ItemsOf(PutItems(items, dept, month, xs), d, m) == if d == dept && m == month then xs else ItemsOf(items, d, m)
  {
  }

  /** Adding an item appends one blank item to that month and changes no total. */
  lemma ItemsAddSpec(items: MonthlyPlans, dept: string, month: int, newId: int, d: string, m: int)
    ensures ItemsOf(ItemsAdd(items, dept, month, newId), dept, month) == ItemsOf(items, dept, month) + [MonthlyItem(newId, "", 0)]
    ensures d != dept || m != month ==> ItemsOf(ItemsAdd(items, dept, month, newId), d, m) == ItemsOf(items, d, m)
    ensures DeptMonthlyTotal(ItemsAdd(items, dept, month, newId), d, m) == DeptMonthlyTotal(items, d, m)
  {
    SumAppend(ItemsOf(items, dept, month), [MonthlyItem(newId, "", 0)], ItemValue);
    PutItemsElsewhere(items, dept, month, ItemsOf(items, dept, month) + [MonthlyItem(newId, "", 0)], d, m);
  }

  /** Editing a plan name or id changes no total; no other cell changes. */
  lemma ItemsUpdateSpec(items: MonthlyPlans, dept: string, month: int, id: int, f: MonthlyItemField, d: string, m: int)
    ensures d != dept || m != month ==> ItemsOf(ItemsUpdate(items, dept, month, id, f), d, m) == ItemsOf(items, d, m)
    ensures !f.ItemAmount? ==> DeptMonthlyTotal(ItemsUpdate(items, dept, month, id, f), d, m) == DeptMonthlyTotal(items, d, m)
  {
    var xs := MapWhere(ItemsOf(items, dept, month), (it: MonthlyItem) => it.id == id, (it: MonthlyItem) => SetItemField(it, f));
    PutItemsElsewhere(items, dept, month, xs, d, m);
    if !f.ItemAmount? {
      SumMapWhere(ItemsOf(items, dept, month), (it: MonthlyItem) => it.id == id,
                  (it: MonthlyItem) => SetItemField(it, f), ItemValue);
    }
  }

  /** Deleting the one item with the id lowers that month's total by its amount. */
  lemma ItemsDeleteSpec(items: MonthlyPlans, dept: string, month: int, id: int, k: int, d: string, m: int)
    requires 0 <= k < |ItemsOf(items, dept, month)| && ItemsOf(items, dept, month)[k].id == id
    requires forall i :: 0 <= i < |ItemsOf(items, dept, month)| && i != k ==> ItemsOf(items, dept, month)[i].id != id
    ensures DeptMonthlyTotal(ItemsDelete(items, dept, month, id), dept, month)
            == DeptMonthlyTotal(items, dept, month) - ItemsOf(items, dept, month)[k].amount
    ensures d != dept || m != month ==> ItemsOf(ItemsDelete(items, dept, month, id), d, m) == ItemsOf(items, d, m)
  {
    var xs := Filter(ItemsOf(items, dept, month), (it: MonthlyItem) => it.id != id);
    PutItemsElsewhere(items, dept, month, xs, d, m);
    SumFilterOne(ItemsOf(items, dept, month), (it: MonthlyItem) => it.id != id, k, ItemValue);
  }

  /** Adding an item leaves the month's company-wide target unchanged. */
  lemma {:induction false} ItemsAddKeepsTarget(depts: seq<string>, items: MonthlyPlans, dept: string, month: int, newId: int, m: int)
    ensures TotalTargetRevenue(depts, ItemsAdd(items, dept, month, newId), m) == TotalTargetRevenue(depts, items, m)
  {
    if depts != [] {
      ItemsAddSpec(items, dept, month, newId, depts[0], m);
      ItemsAddKeepsTarget(depts[1..], items, dept, month, newId, m);
    }
  }

  // ---------------------------------------------------------------------------------------
  // Cumulative sum over a department's months

  /** `getCumulativeSum(dept)`: the `forEach` over the department's months. */
  method CumulativeSum(items: MonthlyPlans, dept: string) returns (total: int)
    ensures total == MonthsTotal(MonthsOf(items, dept))
  {
    var months := MonthsOf(items, dept);
    var rest := months.Keys;
    total := 0;
    while rest != {}
      invariant rest <= months.Keys
      invariant total + KeysTotal(months, rest) == MonthsTotal(months)
      decreases rest
    {
      var k :| k in rest;
      KeysTotalRemove(months, rest, k);
      total := total + ItemsTotal(months[k]);
      rest := rest - {k};
    }
  }

  /** Replacing one month's list changes the cumulative sum by the difference of the totals. */
  lemma MonthsTotalPut(months: map<int, seq<MonthlyItem>>, month: int, xs: seq<MonthlyItem>)
    ensures MonthsTotal(months[month := xs])
            == MonthsTotal(months) - (if month in months then ItemsTotal(months[month]) else 0) + ItemsTotal(xs)
  {
    var updated := months[month := xs];
    var others := months.Keys - {month};
    KeysTotalRemove(updated, updated.Keys, month);
    assert updated.Keys - {month} == others;
    KeysTotalAgree(updated, months, others);
    if month in months {
      KeysTotalRemove(months, months.Keys, month);
    } else {
      assert months.Keys == others;
    }
  }

  /** Adding a blank item keeps the department's cumulative sum. */
  lemma ItemsAddKeepsCumulative(items: MonthlyPlans, dept: string, month: int, newId: int)
    ensures MonthsTotal(MonthsOf(ItemsAdd(items, dept, month, newId), dept)) == MonthsTotal(MonthsOf(items, dept))
  {
    var xs := ItemsOf(items, dept, month);
    SumAppend(xs, [MonthlyItem(newId, "", 0)], ItemValue);
    MonthsTotalPut(MonthsOf(items, dept), month, xs + [MonthlyItem(newId, "", 0)]);
  }

  // ---------------------------------------------------------------------------------------
  // Cost standards

  datatype CostStandardField = StdId(id: int) | StdKind(kind: string) | Insurance(rate: real)
                             | Severance(rate: real) | CommonCost(rate: real) | Risk(rate: real)

  function SetStandardField(s: CostStandard, f: CostStandardField): CostStandard
  {
    match f
    case StdId(v) => s.(id := v)
    case StdKind(v) => s.(kind := v)
    case Insurance(v) => s.(insuranceRate := v)
    case Severance(v) => s.(severanceRate := v)
    case CommonCost(v) => s.(commonCostRate := v)
    case Risk(v) => s.(riskBuffer := v)
  }

  /** The row `addCostStandard` appends. */
  function NewStandard(newId: int): CostStandard
  {
    CostStandard(newId, "New Type", 0.0, 0.0, 0.0, 0.0)
  }

  function StandardsAdd(stds: seq<CostStandard>, newId: int): (r: seq<CostStandard>)
    ensures |r| == |stds| + 1 && r[..|stds|] == stds && r[|stds|] == NewStandard(newId)
  {
    stds + [NewStandard(newId)]
  }

  // ---------------------------------------------------------------------------------------
  // Month lock

  /** `lockedMonths` after `handleLockToggle` when the dialog is answered with `confirmed`. */
  function LockToggle(locked: seq<int>, month: int, confirmed: bool): (r: seq<int>)
    ensures !confirmed ==> r == locked
    ensures confirmed ==> (month in r <==> month !in locked)
    ensures forall m :: m != month ==> (m in r <==> m in locked)
  {
    if !confirmed then locked
    else if month in locked then
      FilterMembers(locked, (m: int) => m != month);
      Filter(locked, (m: int) => m != month)
    else locked + [month]
  }

  /** The lock list never holds a month twice, and toggling twice restores the lock state. */
  lemma LockToggleSpec(locked: seq<int>, month: int)
    requires NoDuplicates(locked)
    ensures NoDuplicates(LockToggle(locked, month, true))
    ensures forall m :: m in LockToggle(LockToggle(locked, month, true), month, true) <==> m in locked
  {
    var r := LockToggle(locked, month, true);
    if month in locked {
      FilterKeepsDistinct(locked, (m: int) => m != month);
    } else {
      forall i, j | 0 <= i < j < |r| ensures r[i] != r[j] {
        if j == |locked| {
          assert r[i] == locked[i];
        }
      }
    }
  }

  lemma {:induction false} FilterKeepsDistinct<T>(xs: seq<T>, p: T -> bool)
    requires NoDuplicates(xs)
    ensures NoDuplicates(Filter(xs, p))
  {
    if xs != [] {
      FilterKeepsDistinct(xs[1..], p);
      FilterMembers(xs[1..], p);
      var rest := Filter(xs[1..], p);
      if p(xs[0]) {
        var r := Filter(xs, p);
        assert r == [xs[0]] + rest;
        forall i, j | 0 <= i < j < |r| ensures r[i] != r[j] {
          if i == 0 {
            assert r[j] in rest;
            assert xs[0] !in xs[1..];
          }
        }
      }
    }
  }

  // ---------------------------------------------------------------------------------------
  // The screen's state and handlers

  class StandardInfoView {
    var departments: seq<string>
    var selectedDept: Option<string>
    var newDeptName: string
    var deptToDelete: Option<string>
    var targetDeptForMove: string
    var isDeleteModalOpen: bool
    var employees: seq<Employee>
    var costStandards: seq<CostStandard>
    var companyAllocations: map<string, int>
    var annualPlans: map<string, seq<SalesSource>>
    var deptMonthlyItems: MonthlyPlans
    var lockedMonths: seq<int>
    var selectedMonth: int

    /** The department list never holds a name twice. */
    predicate Valid()
      reads this`departments, this`lockedMonths
    {
      NoDuplicates(departments) && NoDuplicates(lockedMonths)
    }

    constructor (emps: seq<Employee>)
      ensures Valid()
      ensures departments == ["DX 사업본부", "플랫폼 개발팀", "디자인팀", "AI 연구소", "금융사업 2팀", "공공사업 1팀"]
      ensures selectedDept == Some("플랫폼 개발팀") && newDeptName == "" && deptToDelete == None
      ensures targetDeptForMove == "" && !isDeleteModalOpen
      ensures employees == emps && costStandards == DefaultStandards && lockedMonths == [] && selectedMonth == 10
      ensures companyAllocations == DefaultAllocations && annualPlans == DefaultPlans
              && deptMonthlyItems == DefaultMonthlyItems
    {
      departments := ["DX 사업본부", "플랫폼 개발팀", "디자인팀", "AI 연구소", "금융사업 2팀", "공공사업 1팀"];
      selectedDept := Some("플랫폼 개발팀");
      newDeptName := "";
      deptToDelete := None;
      targetDeptForMove := "";
      isDeleteModalOpen := false;
      employees := emps;
      costStandards := DefaultStandards;
      companyAllocations := DefaultAllocations;
      annualPlans := DefaultPlans;
      deptMonthlyItems := DefaultMonthlyItems;
      lockedMonths := [];
      selectedMonth := 10;
    }

    /** `handleAddDept()`: adds the trimmed input unless blank or already listed, then
        clears the input and selects the new department. */
    method HandleAddDept()
      requires Valid()
      modifies this`departments, this`newDeptName, this`selectedDept
      ensures Valid()
      ensures departments == AddDept(old(departments), old(newDeptName))
      ensures departments != old(departments) ==> newDeptName == "" && selectedDept == Some(Trim(old(newDeptName)))
      ensures departments == old(departments) ==> newDeptName == old(newDeptName) && selectedDept == old(selectedDept)
    {
      var name := Trim(newDeptName);
      AddDeptStep(departments, newDeptName);
      if name != "" && name !in departments {
        departments := departments + [name];
        newDeptName := "";
        selectedDept := Some(name);
      }
    }

    /** `handleDeleteDeptRequest(name)`: a department with employees opens the reassignment
        dialog with the first other department preselected; an empty one is removed at once
        when the user confirms. */
    method HandleDeleteDeptRequest(name: string, confirmed: bool)
      requires Valid()
      modifies this`deptToDelete, this`targetDeptForMove, this`isDeleteModalOpen,
               this`departments, this`selectedDept
      ensures Valid()
      ensures Staffed(employees, name) ==>
                deptToDelete == Some(name) && isDeleteModalOpen && departments == old(departments)
                && selectedDept == old(selectedDept)
                && targetDeptForMove == (var f := FirstOther(departments, name);
                                         if f.Some? && f.value != "" then f.value else old(targetDeptForMove))
      ensures !Staffed(employees, name) ==>
                deptToDelete == old(deptToDelete) && isDeleteModalOpen == old(isDeleteModalOpen)
                && targetDeptForMove == old(targetDeptForMove)
                && departments == (if confirmed then RemoveDept(old(departments), name) else old(departments))
                && selectedDept == (if confirmed && old(selectedDept) == Some(name) then None else old(selectedDept))
    {
      if Staffed(employees, name) {
        deptToDelete := Some(name);
        var first := FirstOther(departments, name);
        if first.Some? && first.value != "" {
          targetDeptForMove := first.value;
        }
        isDeleteModalOpen := true;
      } else if confirmed {
        RemoveDeptDistinct(departments, name);
        departments := RemoveDept(departments, name);
        if selectedDept == Some(name) {
          selectedDept := None;
        }
      }
    }

    /** `executeDeleteWithMove()`: does nothing without both names; otherwise moves the
        department's employees to the target, removes the department and, when it was
        selected, selects the target. */
    method ExecuteDeleteWithMove()
      requires Valid()
      modifies this`employees, this`departments, this`selectedDept, this`isDeleteModalOpen, this`deptToDelete
      ensures Valid()
      ensures old(deptToDelete).None? || old(deptToDelete) == Some("") || old(targetDeptForMove) == "" ==>
                employees == old(employees) && departments == old(departments)
                && selectedDept == old(selectedDept) && deptToDelete == old(deptToDelete)
                && isDeleteModalOpen == old(isDeleteModalOpen)
      ensures old(deptToDelete).Some? && old(deptToDelete) != Some("") && targetDeptForMove != "" ==>
                employees == MoveEmployees(old(employees), old(deptToDelete).value, targetDeptForMove)
                && departments == RemoveDept(old(departments), old(deptToDelete).value)
                && selectedDept == (if old(selectedDept) == old(deptToDelete) then Some(targetDeptForMove)
                                    else old(selectedDept))
                && !isDeleteModalOpen && deptToDelete.None?
    {
      if deptToDelete.None? || deptToDelete.value == "" || targetDeptForMove == "" {
        return;
      }
      MoveAndRemove(deptToDelete.value, targetDeptForMove);
      isDeleteModalOpen := false;
      deptToDelete := None;
    }

    /** The reassignment itself: employees first, then the department list and selection. */
    method MoveAndRemove(gone: string, target: string)
      requires Valid()
      modifies this`employees, this`departments, this`selectedDept
      ensures Valid()
      ensures employees == MoveEmployees(old(employees), gone, target)
      ensures departments == RemoveDept(old(departments), gone)
      ensures selectedDept == if old(selectedDept) == Some(gone) then Some(target) else old(selectedDept)
    {
      employees := MoveEmployees(employees, gone, target);
      RemoveDeptDistinct(departments, gone);
      departments := RemoveDept(departments, gone);
      if selectedDept == Some(gone) {
        selectedDept := Some(target);
      }
    }

    method AddSalesSource(dept: string, newId: int)
      modifies this`annualPlans
      ensures annualPlans == SourcesAdd(old(annualPlans), dept, newId)
    {
      annualPlans := annualPlans[dept := SourcesOf(annualPlans, dept) + [SalesSource(newId, "", 0)]];
    }

    method UpdateSalesSource(dept: string, id: int, f: SalesSourceField)
      modifies this`annualPlans
      ensures annualPlans == SourcesUpdate(old(annualPlans), dept, id, f)
    {
      annualPlans := SourcesUpdate(annualPlans, dept, id, f);
    }

    method DeleteSalesSource(dept: string, id: int)
      modifies this`annualPlans
      ensures annualPlans == SourcesDelete(old(annualPlans), dept, id)
    {
      annualPlans := SourcesDelete(annualPlans, dept, id);
    }

    method AddMonthlyItem(dept: string, month: int, newId: int)
      modifies this`deptMonthlyItems
      ensures deptMonthlyItems == ItemsAdd(old(deptMonthlyItems), dept, month, newId)
    {
      deptMonthlyItems := ItemsAdd(deptMonthlyItems, dept, month, newId);
    }

    method UpdateMonthlyItem(dept: string, month: int, id: int, f: MonthlyItemField)
      modifies this`deptMonthlyItems
      ensures deptMonthlyItems == ItemsUpdate(old(deptMonthlyItems), dept, month, id, f)
    {
      deptMonthlyItems := ItemsUpdate(deptMonthlyItems, dept, month, id, f);
    }

    method DeleteMonthlyItem(dept: string, month: int, id: int)
      modifies this`deptMonthlyItems
      ensures deptMonthlyItems == ItemsDelete(old(deptMonthlyItems), dept, month, id)
    {
      deptMonthlyItems := ItemsDelete(deptMonthlyItems, dept, month, id);
    }

    method AddCostStandard(newId: int)
      modifies this`costStandards
      ensures costStandards == StandardsAdd(old(costStandards), newId)
    {
      costStandards := costStandards + [NewStandard(newId)];
    }

    method UpdateCostStandard(id: int, f: CostStandardField)
      modifies this`costStandards
      ensures costStandards == MapWhere(old(costStandards), (s: CostStandard) => s.id == id,
                                        (s: CostStandard) => SetStandardField(s, f))
    {
      costStandards := MapWhere(costStandards, (s: CostStandard) => s.id == id,
                                (s: CostStandard) => SetStandardField(s, f));
    }

    method DeleteCostStandard(id: int)
      modifies this`costStandards
      ensures costStandards == Filter(old(costStandards), (s: CostStandard) => s.id != id)
    {
      costStandards := Filter(costStandards, (s: CostStandard) => s.id != id);
    }

    method UpdateCompanyAllocation(dept: string, amount: int)
      modifies this`companyAllocations
      ensures companyAllocations == old(companyAllocations)[dept := amount]
    {
      companyAllocations := companyAllocations[dept := amount];
    }

    /** The new-department input box. */
    method SetNewDeptName(text: string)
      modifies this`newDeptName
      ensures newDeptName == text
    {
      newDeptName := text;
    }

    /** A click on a department in the list. */
    method SelectDept(dept: string)
      modifies this`selectedDept
      ensures selectedDept == Some(dept)
    {
      selectedDept := Some(dept);
    }

    /** A click on a month tab. */
    method SelectMonth(month: int)
      modifies this`selectedMonth
      ensures selectedMonth == month
    {
      selectedMonth := month;
    }

    /** The move-target select of the delete dialog. */
    method SetTargetDeptForMove(dept: string)
      modifies this`targetDeptForMove
      ensures targetDeptForMove == dept
    {
      targetDeptForMove := dept;
    }

    /** The delete dialog's cancel button: the dialog closes and nothing is deleted. */
    method CancelDelete()
      modifies this`isDeleteModalOpen, this`deptToDelete
      ensures !isDeleteModalOpen && deptToDelete.None?
    {
      isDeleteModalOpen := false;
      deptToDelete := None;
    }

    /** `handleLockToggle()` with the user's answer to the confirmation dialog. */
    method HandleLockToggle(confirmed: bool)
      requires Valid()
      modifies this`lockedMonths
      ensures Valid()
      ensures lockedMonths == LockToggle(old(lockedMonths), selectedMonth, confirmed)
    {
      var month := selectedMonth;
      LockToggleSpec(lockedMonths, month);
      if month in lockedMonths {
        if confirmed {
          lockedMonths := Filter(lockedMonths, (m: int) => m != month);
        }
      } else if confirmed {
        lockedMonths := lockedMonths + [month];
      }
    }
  }
}
