/** The project profitability sheet (ProfitabilityView.tsx): the execution amount, the cost
    tables (outsourcing and expenses), the estimate and the resource plan, the totals, the
    projected profit and margin, and the add/update/remove handlers of the four tables. */
module Profitability {
  import opened Common
  import opened Keyed

  datatype CostItem = CostItem(id: int, name: string, amount: int)

  datatype EstimateRow = EstimateRow(id: int, role: string, grade: string, mm: real, unitPrice: int)

  datatype ResourceRow = ResourceRow(
    id: int, role: string, dept: string, name: string, grade: string, kind: string,
    monthlyCost: int, startDate: string, endDate: string, mm: real, memo: string)

  const ContractAmount: int := 732000000
  /** Percent of the contract the team executes. */
  const ExecutionRate: real := 90.0
  /** The margin, in percent, the badge turns green at. */
  const TargetMargin: real := 20.0

  /** `contractAmount * (executionRate / 100)`. */
  function ExecutionAmount(contract: int, rate: real): (e: real)
    ensures e * 100.0 == contract as real * rate
    ensures rate == 100.0 ==> e == contract as real
  {
    contract as real * (rate / 100.0)
  }

  /** A rate between 0 and 100 executes between nothing and the whole contract. */
  lemma ExecutionAmountBounds(contract: int, rate: real)
    requires contract >= 0 && 0.0 <= rate <= 100.0
    ensures 0.0 <= ExecutionAmount(contract, rate) <= contract as real
  {
    var c := contract as real;
    var e := ExecutionAmount(contract, rate);
    assert c * (100.0 - rate) >= 0.0;
    assert c * rate >= 0.0;
    assert e * 100.0 == c * rate <= c * 100.0;
  }

  lemma ExecutionAmountOfContract()
    ensures ExecutionAmount(ContractAmount, ExecutionRate) == 658800000.0
  {
  }

  function CostValue(c: CostItem): int { c.amount }
  function EstimateValue(r: EstimateRow): real { r.mm * r.unitPrice as real }
  function EstimateMM(r: EstimateRow): real { r.mm }
  function LaborValue(r: ResourceRow): real { r.monthlyCost as real * r.mm }
  function ResourceMM(r: ResourceRow): real { r.mm }

  /** `totalOutsourcing` and `totalExpenses`. */
  function CostTotal(xs: seq<CostItem>): int { Sum(xs, CostValue) }

  /** `totalEstimateRevenue`: man-months times unit price, over the estimate. */
  function TotalEstimateRevenue(rows: seq<EstimateRow>): real { SumR(rows, EstimateValue) }

  function TotalEstimateMM(rows: seq<EstimateRow>): real { SumR(rows, EstimateMM) }

  /** `totalActualLaborCost`: monthly cost times man-months, over the resource plan. */
  function TotalActualLaborCost(rows: seq<ResourceRow>): real { SumR(rows, LaborValue) }

  function TotalActualMM(rows: seq<ResourceRow>): real { SumR(rows, ResourceMM) }

  /** The whole sheet: the four tables the handlers edit. */
  datatype Sheet = Sheet(outsourcing: seq<CostItem>, expenses: seq<CostItem>,
                         estimate: seq<EstimateRow>, resources: seq<ResourceRow>)

  /** `totalCostManagement`. */
  function TotalCostManagement(s: Sheet): int
  {
    CostTotal(s.outsourcing) + CostTotal(s.expenses)
  }

  /** `totalProjectCost`. */
  function TotalProjectCost(s: Sheet): real
  {
    TotalActualLaborCost(s.resources) + TotalCostManagement(s) as real
  }

  /** `projectedProfit`. */
  function ProjectedProfit(s: Sheet, execution: real): real
  {
    execution - TotalProjectCost(s)
  }

  /** `profitMargin`: the profit as a percentage of the execution amount, 0 without one. */
  function ProfitMargin(s: Sheet, execution: real): (m: real)
    ensures execution <= 0.0 ==> m == 0.0
    ensures execution > 0.0 ==> m * execution == ProjectedProfit(s, execution) * 100.0
  {
    if execution > 0.0 then ProjectedProfit(s, execution) / execution * 100.0 else 0.0
  }

  /** The margin badge is green. */
  predicate OnTarget(margin: real)
  {
    margin >= TargetMargin
  }

  /** With an execution amount the badge is green exactly when the profit is at least a
      fifth of it; without one the margin is 0 and the badge is red. */
  lemma OnTargetMeansFifth(s: Sheet, execution: real)
    ensures execution > 0.0 ==>
              (OnTarget(ProfitMargin(s, execution)) <==> ProjectedProfit(s, execution) * 5.0 >= execution)
    ensures execution <= 0.0 ==> !OnTarget(ProfitMargin(s, execution))
  {
    if execution > 0.0 {
      ScaledAtLeastTarget(ProfitMargin(s, execution), execution, ProjectedProfit(s, execution));
    }
  }

  /** The arithmetic behind the badge: a percentage of a positive whole is at least 20
      exactly when the part is at least a fifth of the whole. */
  lemma ScaledAtLeastTarget(m: real, e: real, p: real)
    requires e > 0.0 && m * e == p * 100.0
    ensures m >= TargetMargin <==> p * 5.0 >= e
  {
    if m >= TargetMargin {
      assert (m - TargetMargin) * e >= 0.0;
    } else {
      assert (TargetMargin - m) * e > 0.0;
    }
  }

  // The rows the add handlers append.

  function NewCostItem(newId: int): CostItem { CostItem(newId, "", 0) }

  function NewEstimateRow(newId: int): EstimateRow { EstimateRow(newId, "New Role", "중급", 0.0, 0) }

  function NewResourceRow(newId: int): ResourceRow
  {
    ResourceRow(newId, "New Role", "부서선택", "", "중급", "정규직", 0, "", "", 0.0, "")
  }

  /** Every blank row contributes nothing, so an add handler changes no total, hence
      neither the profit nor the margin. */
  lemma AddKeepsTotals(s: Sheet, newId: int, execution: real)
    ensures CostTotal(s.outsourcing + [NewCostItem(newId)]) == CostTotal(s.outsourcing)
    ensures CostTotal(s.expenses + [NewCostItem(newId)]) == CostTotal(s.expenses)
    ensures TotalEstimateRevenue(s.estimate + [NewEstimateRow(newId)]) == TotalEstimateRevenue(s.estimate)
    ensures TotalEstimateMM(s.estimate + [NewEstimateRow(newId)]) == TotalEstimateMM(s.estimate)
    ensures TotalActualLaborCost(s.resources + [NewResourceRow(newId)]) == TotalActualLaborCost(s.resources)
    ensures TotalActualMM(s.resources + [NewResourceRow(newId)]) == TotalActualMM(s.resources)
    ensures ProfitMargin(s.(resources := s.resources + [NewResourceRow(newId)]), execution)
            == ProfitMargin(s, execution)
    ensures ProfitMargin(s.(outsourcing := s.outsourcing + [NewCostItem(newId)]), execution)
            == ProfitMargin(s, execution)
    ensures ProfitMargin(s.(expenses := s.expenses + [NewCostItem(newId)]), execution)
            == ProfitMargin(s, execution)
  {
    SumAppendZero(s.outsourcing, NewCostItem(newId), CostValue);
    SumAppendZero(s.expenses, NewCostItem(newId), CostValue);
    SumRAppendZero(s.estimate, NewEstimateRow(newId), EstimateValue);
    SumRAppendZero(s.estimate, NewEstimateRow(newId), EstimateMM);
    SumRAppendZero(s.resources, NewResourceRow(newId), LaborValue);
    SumRAppendZero(s.resources, NewResourceRow(newId), ResourceMM);
  }

  datatype CostItemField = CostId(id: int) | CostName(name: string) | CostAmount(amount: int)

  function SetCostField(c: CostItem, f: CostItemField): CostItem
  {
    match f
    case CostId(v) => c.(id := v)
    case CostName(v) => c.(name := v)
    case CostAmount(v) => c.(amount := v)
  }

  datatype EstimateField = EstId(id: int) | EstRole(role: string) | EstGrade(grade: string)
                         | EstMM(mm: real) | EstUnitPrice(unitPrice: int)

  function SetEstimateField(r: EstimateRow, f: EstimateField): EstimateRow
  {
    match f
    case EstId(v) => r.(id := v)
    case EstRole(v) => r.(role := v)
    case EstGrade(v) => r.(grade := v)
    case EstMM(v) => r.(mm := v)
    case EstUnitPrice(v) => r.(unitPrice := v)
  }

  datatype ResourceField = ResId(id: int) | ResRole(role: string) | ResDept(dept: string)
                         | ResName(name: string) | ResGrade(grade: string) | ResKind(kind: string)
                         | ResMonthlyCost(monthlyCost: int) | ResStart(startDate: string)
                         | ResEnd(endDate: string) | ResMM(mm: real) | ResMemo(memo: string)

  function SetResourceField(r: ResourceRow, f: ResourceField): ResourceRow
  {
    match f
    case ResId(v) => r.(id := v)
    case ResRole(v) => r.(role := v)
    case ResDept(v) => r.(dept := v)
    case ResName(v) => r.(name := v)
    case ResGrade(v) => r.(grade := v)
    case ResKind(v) => r.(kind := v)
    case ResMonthlyCost(v) => r.(monthlyCost := v)
    case ResStart(v) => r.(startDate := v)
    case ResEnd(v) => r.(endDate := v)
    case ResMM(v) => r.(mm := v)
    case ResMemo(v) => r.(memo := v)
  }

  /** Editing a text field of a resource row never moves the labour cost. */
  lemma UpdateResourceTextKeepsCost(rows: seq<ResourceRow>, id: int, f: ResourceField)
    requires !f.ResMonthlyCost? && !f.ResMM?
    ensures TotalActualLaborCost(MapWhere(rows, (r: ResourceRow) => r.id == id,
                                          (r: ResourceRow) => SetResourceField(r, f)))
            == TotalActualLaborCost(rows)
  {
    SumRMapWhere(rows, (r: ResourceRow) => r.id == id, (r: ResourceRow) => SetResourceField(r, f), LaborValue);
  }

  /** Editing a cost item's name keeps the cost table's total. */
  lemma UpdateCostNameKeepsTotal(xs: seq<CostItem>, id: int, f: CostItemField)
    requires !f.CostAmount?
    ensures CostTotal(MapWhere(xs, (c: CostItem) => c.id == id, (c: CostItem) => SetCostField(c, f)))
            == CostTotal(xs)
  {
    SumMapWhere(xs, (c: CostItem) => c.id == id, (c: CostItem) => SetCostField(c, f), CostValue);
  }

  /** With unique ids, removing a cost item lowers its table's total by exactly its amount. */
  lemma RemoveCostLowersTotal(xs: seq<CostItem>, id: int, i: int)
    requires 0 <= i < |xs| && xs[i].id == id
    requires forall n :: 0 <= n < |xs| && n != i ==> xs[n].id != id
    ensures CostTotal(Filter(xs, (c: CostItem) => c.id != id)) == CostTotal(xs) - xs[i].amount
  {
    SumFilterOne(xs, (c: CostItem) => c.id != id, i, CostValue);
  }

  /** Removing a resource row lowers the labour cost by exactly that row's cost. */
  lemma RemoveResourceLowersCost(rows: seq<ResourceRow>, id: int, j: int)
    requires 0 <= j < |rows| && rows[j].id == id
    requires forall n :: 0 <= n < |rows| && n != j ==> rows[n].id != id
    ensures TotalActualLaborCost(Filter(rows, (r: ResourceRow) => r.id != id))
            == TotalActualLaborCost(rows) - LaborValue(rows[j])
  {
    SumRFilterOne(rows, (r: ResourceRow) => r.id != id, j, LaborValue);
  }

  /** Removing an estimate row lowers the estimated revenue by exactly that row's revenue. */
  lemma RemoveEstimateLowersRevenue(est: seq<EstimateRow>, id: int, k: int)
    requires 0 <= k < |est| && est[k].id == id
    requires forall n :: 0 <= n < |est| && n != k ==> est[n].id != id
    ensures TotalEstimateRevenue(Filter(est, (r: EstimateRow) => r.id != id))
            == TotalEstimateRevenue(est) - EstimateValue(est[k])
  {
    SumRFilterOne(est, (r: EstimateRow) => r.id != id, k, EstimateValue);
  }

  /** The sheet the screen starts from. */
  const SampleOutsourcing: seq<CostItem> :=
    [CostItem(1, "디자인 외주 용역", 22000000), CostItem(2, "퍼블리싱 외주", 12000000)]
  const SampleExpenses: seq<CostItem> :=
    [CostItem(1, "S/W 라이선스 (Jira/Confluence)", 3500000), CostItem(2, "서버 임대료 (AWS)", 1500000)]
  const SampleEstimate: seq<EstimateRow> := [
    EstimateRow(1, "Project Manager", "특급", 6.0, 11075000),
    EstimateRow(2, "UX Leading", "고급", 6.0, 9926000),
    EstimateRow(3, "UX 설계", "고급", 5.0, 9926000),
    EstimateRow(4, "Design/PL", "고급", 6.0, 9926000),
    EstimateRow(5, "Design", "중급", 4.0, 8545000),
    EstimateRow(6, "Programming", "고급", 6.0, 10886000)]
  const SampleResources: seq<ResourceRow> := [
    ResourceRow(1, "Project Manager", "DX 사업본부", "김철수", "특급", "정규직", 5500000, "2024-01-01", "2024-06-30", 6.0, ""),
    ResourceRow(2, "UX Leading", "DX 사업본부", "박지민", "고급", "정규직", 4500000, "2024-01-01", "2024-06-30", 6.0, ""),
    ResourceRow(3, "UX 설계", "플랫폼 개발", "홍길동", "고급", "정규직", 8000000, "2024-01-15", "2024-06-30", 5.5, ""),
    ResourceRow(4, "Design/PL", "디자인팀", "전지현", "고급", "정규직", 4500000, "2024-01-01", "2024-06-30", 6.0, ""),
    ResourceRow(5, "Design", "외주", "", "중급", "정규직", 0, "", "", 0.0, ""),
    ResourceRow(6, "Programming", "DX 사업본부", "김철수", "고급", "정규직", 5500000, "2024-01-01", "2024-06-30", 6.0, "")]

  function SampleSheet(): Sheet
  {
    Sheet(SampleOutsourcing, SampleExpenses, SampleEstimate, SampleResources)
  }

  /** On the sample: 39,000,000 of outsourcing and expenses, 164,000,000 of labour over
      29.5 man-months, an estimate of 334,688,000 over 33 man-months, and a projected
      profit of 455,800,000 on the execution amount, so the badge is green. */
  lemma SampleSheetTotals()
    ensures TotalCostManagement(SampleSheet()) == 39000000
    ensures TotalActualLaborCost(SampleResources) == 164000000.0
    ensures TotalActualMM(SampleResources) == 29.5
    ensures TotalEstimateRevenue(SampleEstimate) == 334688000.0
    ensures TotalEstimateMM(SampleEstimate) == 33.0
    ensures ProjectedProfit(SampleSheet(), ExecutionAmount(ContractAmount, ExecutionRate)) == 455800000.0
    ensures OnTarget(ProfitMargin(SampleSheet(), ExecutionAmount(ContractAmount, ExecutionRate)))
  {
    ExecutionAmountOfContract();
    OnTargetMeansFifth(SampleSheet(), ExecutionAmount(ContractAmount, ExecutionRate));
  }

  /** The sheet's state and its twelve handlers. */
  class ProfitabilityView {
    var outsourcingCosts: seq<CostItem>
    var expenses: seq<CostItem>
    var estimateRows: seq<EstimateRow>
    var resourceRows: seq<ResourceRow>

    constructor ()
      ensures State() == SampleSheet()
    {
      outsourcingCosts := SampleOutsourcing;
      expenses := SampleExpenses;
      estimateRows := SampleEstimate;
      resourceRows := SampleResources;
    }

    function State(): Sheet
      reads this
    {
      Sheet(outsourcingCosts, expenses, estimateRows, resourceRows)
    }

    method AddOutsourcing(newId: int)
      modifies this`outsourcingCosts
      ensures outsourcingCosts == old(outsourcingCosts) + [NewCostItem(newId)]
      ensures CostTotal(outsourcingCosts) == CostTotal(old(outsourcingCosts))
    {
      SumAppendZero(outsourcingCosts, NewCostItem(newId), CostValue);
      outsourcingCosts := outsourcingCosts + [NewCostItem(newId)];
    }

    method UpdateOutsourcing(id: int, f: CostItemField)
      modifies this`outsourcingCosts
      ensures outsourcingCosts == MapWhere(old(outsourcingCosts), (c: CostItem) => c.id == id,
                                           (c: CostItem) => SetCostField(c, f))
    {
      outsourcingCosts := MapWhere(outsourcingCosts, (c: CostItem) => c.id == id,
                                   (c: CostItem) => SetCostField(c, f));
    }

    method RemoveOutsourcing(id: int)
      modifies this`outsourcingCosts
      ensures outsourcingCosts == Filter(old(outsourcingCosts), (c: CostItem) => c.id != id)
    {
      outsourcingCosts := Filter(outsourcingCosts, (c: CostItem) => c.id != id);
    }

    method AddExpense(newId: int)
      modifies this`expenses
      ensures expenses == old(expenses) + [NewCostItem(newId)]
      ensures CostTotal(expenses) == CostTotal(old(expenses))
    {
      SumAppendZero(expenses, NewCostItem(newId), CostValue);
      expenses := expenses + [NewCostItem(newId)];
    }

    method UpdateExpense(id: int, f: CostItemField)
      modifies this`expenses
      ensures expenses == MapWhere(old(expenses), (c: CostItem) => c.id == id,
                                   (c: CostItem) => SetCostField(c, f))
    {
      expenses := MapWhere(expenses, (c: CostItem) => c.id == id, (c: CostItem) => SetCostField(c, f));
    }

    method RemoveExpense(id: int)
      modifies this`expenses
      ensures expenses == Filter(old(expenses), (c: CostItem) => c.id != id)
    {
      expenses := Filter(expenses, (c: CostItem) => c.id != id);
    }

    method AddEstimateRow(newId: int)
      modifies this`estimateRows
      ensures estimateRows == old(estimateRows) + [NewEstimateRow(newId)]
      ensures TotalEstimateRevenue(estimateRows) == TotalEstimateRevenue(old(estimateRows))
    {
      SumRAppendZero(estimateRows, NewEstimateRow(newId), EstimateValue);
      estimateRows := estimateRows + [NewEstimateRow(newId)];
    }

    method UpdateEstimateRow(id: int, f: EstimateField)
      modifies this`estimateRows
      ensures estimateRows == MapWhere(old(estimateRows), (r: EstimateRow) => r.id == id,
                                       (r: EstimateRow) => SetEstimateField(r, f))
    {
      estimateRows := MapWhere(estimateRows, (r: EstimateRow) => r.id == id,
                               (r: EstimateRow) => SetEstimateField(r, f));
    }

    method RemoveEstimateRow(id: int)
      modifies this`estimateRows
      ensures estimateRows == Filter(old(estimateRows), (r: EstimateRow) => r.id != id)
    {
      estimateRows := Filter(estimateRows, (r: EstimateRow) => r.id != id);
    }

    method AddResourceRow(newId: int)
      modifies this`resourceRows
      ensures resourceRows == old(resourceRows) + [NewResourceRow(newId)]
      ensures TotalActualLaborCost(resourceRows) == TotalActualLaborCost(old(resourceRows))
    {
      SumRAppendZero(resourceRows, NewResourceRow(newId), LaborValue);
      resourceRows := resourceRows + [NewResourceRow(newId)];
    }

    method UpdateResourceRow(id: int, f: ResourceField)
      modifies this`resourceRows
      ensures resourceRows == MapWhere(old(resourceRows), (r: ResourceRow) => r.id == id,
                                       (r: ResourceRow) => SetResourceField(r, f))
    {
      resourceRows := MapWhere(resourceRows, (r: ResourceRow) => r.id == id,
                               (r: ResourceRow) => SetResourceField(r, f));
    }

    method RemoveResourceRow(id: int)
      modifies this`resourceRows
      ensures resourceRows == Filter(old(resourceRows), (r: ResourceRow) => r.id != id)
    {
      resourceRows := Filter(resourceRows, (r: ResourceRow) => r.id != id);
    }
  }
}
