/** The department profit-and-loss report (MockupReport.tsx): per-department rows derived
    from revenue, direct cost and shared cost, the S/A/B/C grade, the global totals and
    footer, and the sortable table with its ascending/descending header toggle. */
module Report {
  import opened Common
  import opened Sorting

  /** One department's monthly figures, as the report receives them. */
  datatype Dept = Dept(name: string, reg: nat, free: nat, rev: real, cost: real, common: real)

  datatype Grade = S | A | B | C

  /** The rank the grade column sorts by: S=4, A=3, B=2, C=1. */
  function GradeRank(g: Grade): (n: int)
    ensures 1 <= n <= 4
  {
    match g
    case S => 4
    case A => 3
    case B => 2
    case C => 1
  }

  /** `getGrade(margin, contribution)`: the first rule that matches wins, every bound is
      inclusive. Stated by rank: the rank reaches each level exactly when its threshold is met. */
  function GetGrade(margin: real, contribution: real): (g: Grade)
    ensures GradeRank(g) >= 2 <==> margin >= 5.0
    ensures GradeRank(g) >= 3 <==> margin >= 15.0
    ensures GradeRank(g) == 4 <==> margin >= 25.0 && contribution >= 15.0
  {
    if margin >= 25.0 && contribution >= 15.0 then S
    else if margin >= 15.0 then A
    else if margin >= 5.0 then B
    else C
  }

  /** A better margin or a larger contribution never lowers the grade. */
  lemma GradeMonotone(m1: real, c1: real, m2: real, c2: real)
    requires m1 <= m2 && c1 <= c2
    ensures GradeRank(GetGrade(m1, c1)) <= GradeRank(GetGrade(m2, c2))
  {
  }

  /** A high margin is not enough for S: a small contribution caps the grade at A. */
  lemma GradeNeedsContribution(m: real, c: real)
    requires m >= 25.0 && c < 15.0
    ensures GetGrade(m, c) == A
  {
  }

  /** A derived table row: the department plus the computed columns. */
  datatype Row = Row(dept: Dept, profit: real, totalCost: real, rate: real,
                     contribution: real, grade: Grade, totalCount: int)

  function DeptProfit(d: Dept): real { d.rev - d.cost - d.common }

  function TotalRev(ds: seq<Dept>): real { SumR(ds, (d: Dept) => d.rev) }

  function TotalProfit(ds: seq<Dept>): real { SumR(ds, DeptProfit) }

  /** `totalMargin`: profit as a percentage of revenue, and 0 when there is no revenue. */
  function TotalMargin(ds: seq<Dept>): (m: real)
    ensures TotalRev(ds) <= 0.0 ==> m == 0.0
    ensures TotalRev(ds) > 0.0 ==> m * TotalRev(ds) == TotalProfit(ds) * 100.0
  {
    if TotalRev(ds) > 0.0 then TotalProfit(ds) / TotalRev(ds) * 100.0 else 0.0
  }

  function TotalReg(ds: seq<Dept>): int { Sum(ds, (d: Dept) => d.reg) }

  function TotalFree(ds: seq<Dept>): int { Sum(ds, (d: Dept) => d.free) }

  /** One row of `processedData` before sorting, given the global total profit. */
  function Derive(d: Dept, totalProfit: real): (r: Row)
    ensures r.dept == d
    ensures r.totalCost == d.cost + d.common && r.profit == d.rev - r.totalCost
    ensures d.rev <= 0.0 ==> r.rate == 0.0
    ensures d.rev > 0.0 ==> r.rate * d.rev == r.profit * 100.0
    ensures totalProfit <= 0.0 ==> r.contribution == 0.0
    ensures totalProfit > 0.0 ==> r.contribution * totalProfit == r.profit * 100.0
    ensures r.grade == GetGrade(r.rate, r.contribution)
    ensures r.totalCount == d.reg + d.free
  {
    var profit := d.rev - d.cost - d.common;
    var rate := if d.rev > 0.0 then profit / d.rev * 100.0 else 0.0;
    var contribution := if totalProfit > 0.0 then profit / totalProfit * 100.0 else 0.0;
    Row(d, profit, d.cost + d.common, rate, contribution, GetGrade(rate, contribution), d.reg + d.free)
  }

  /** `reportData.map(...)`: one derived row per department, in the same order. */
  function DeriveAll(ds: seq<Dept>, totalProfit: real): (rs: seq<Row>)
    ensures |rs| == |ds|
    ensures forall i :: 0 <= i < |ds| ==> rs[i] == Derive(ds[i], totalProfit)
  {
    if ds == [] then [] else [Derive(ds[0], totalProfit)] + DeriveAll(ds[1..], totalProfit)
  }

  function RowProfit(r: Row): real { r.profit }
  function RowContribution(r: Row): real { r.contribution }
  function RowCount(r: Row): int { r.totalCount }

  /** The rows' profits add up to the global total profit. */
  lemma {:induction false} RowProfitsSum(ds: seq<Dept>, tp: real)
    ensures SumR(DeriveAll(ds, tp), RowProfit) == TotalProfit(ds)
  {
    if ds != [] {
      RowProfitsSum(ds[1..], tp);
      assert DeriveAll(ds, tp)[1..] == DeriveAll(ds[1..], tp);
    }
  }

  /** Scaled by a positive total, the contributions add up to a hundred times the profits. */
  lemma ContributionsScaled(ds: seq<Dept>, tp: real)
    requires tp > 0.0
    ensures SumR(DeriveAll(ds, tp), RowContribution) * tp == TotalProfit(ds) * 100.0
  {
    RowProfitsSum(ds, tp);
    DerivedShares(ds, tp);
    ScaledSum(DeriveAll(ds, tp), tp);
  }

  /** Every row's contribution is its profit's share of `tp`. */
  predicate SharesOf(rs: seq<Row>, tp: real)
  {
    forall i :: 0 <= i < |rs| ==> rs[i].contribution * tp == rs[i].profit * 100.0
  }

  lemma {:induction false} DerivedShares(ds: seq<Dept>, tp: real)
    requires tp > 0.0
    ensures SharesOf(DeriveAll(ds, tp), tp)
  {
    if ds != [] {
      DerivedShares(ds[1..], tp);
      DeriveShare(ds[0], tp);
      SharesCons(Derive(ds[0], tp), DeriveAll(ds[1..], tp), tp);
    }
  }

  lemma SharesCons(r: Row, rs: seq<Row>, tp: real)
    requires r.contribution * tp == r.profit * 100.0 && SharesOf(rs, tp)
    ensures SharesOf([r] + rs, tp)
  {
    var t := [r] + rs;
    forall i | 0 <= i < |t| ensures t[i].contribution * tp == t[i].profit * 100.0 {
      if i > 0 { assert t[i] == rs[i - 1]; }
    }
  }

  /** One derived row's contribution is its profit's share of `tp`. */
  lemma DeriveShare(d: Dept, tp: real)
    requires tp > 0.0
    ensures Derive(d, tp).contribution * tp == Derive(d, tp).profit * 100.0
  {
  }

  /** Rows whose contributions are their profits' shares of `tp` have contributions adding
      up to the total profit's share. */
  lemma {:induction false} ScaledSum(rs: seq<Row>, tp: real)
    requires SharesOf(rs, tp)
    ensures SumR(rs, RowContribution) * tp == SumR(rs, RowProfit) * 100.0
  {
    if rs != [] {
      assert forall i :: 0 <= i < |rs[1..]| ==> rs[1..][i] == rs[i + 1];
      ScaledSum(rs[1..], tp);
      AddScaled(rs[0].contribution, SumR(rs[1..], RowContribution), tp,
                rs[0].profit, SumR(rs[1..], RowProfit));
    }
  }

  /** Two shares of the same whole add up: the sum of the percentages is the percentage
      of the sum. */
  lemma AddScaled(a: real, b: real, t: real, x: real, y: real)
    requires a * t == x * 100.0 && b * t == y * 100.0
    ensures (a + b) * t == (x + y) * 100.0
  {
  }

  /** When the company makes a profit the contribution column adds up to 100%, the figure
      the footer prints; loss-making departments contribute negative shares. */
  lemma ContributionsSumTo100(ds: seq<Dept>)
    requires TotalProfit(ds) > 0.0
    ensures SumR(DeriveAll(ds, TotalProfit(ds)), RowContribution) == 100.0
  {
    var tp := TotalProfit(ds);
    var s := SumR(DeriveAll(ds, tp), RowContribution);
    ContributionsScaled(ds, tp);
    assert (s - 100.0) * tp == 0.0;
    ZeroProduct(s - 100.0, tp);
  }

  lemma ZeroProduct(x: real, y: real)
    requires y > 0.0 && x * y == 0.0
    ensures x == 0.0
  {
  }

  /** The footer's head counts are the sums of the rows' `totalCount` column. */
  lemma {:induction false} FooterCounts(ds: seq<Dept>, tp: real)
    ensures Sum(DeriveAll(ds, tp), RowCount) == TotalReg(ds) + TotalFree(ds)
  {
    if ds != [] {
      FooterCounts(ds[1..], tp);
      assert DeriveAll(ds, tp)[1..] == DeriveAll(ds[1..], tp);
    }
  }

  /** The sortable header columns. */
  datatype Column = Name | TotalCount | Rev | TotalCost | Profit | Rate | Contribution | GradeCol

  datatype Direction = Asc | Desc

  datatype SortConfig = SortConfig(key: Column, direction: Direction)

  /** The value the comparator reads from a row for a column; grades compare by rank. */
  function Key(r: Row, c: Column): SortValue
  {
    match c
    case Name => Str(r.dept.name)
    case TotalCount => Num(r.totalCount as real)
    case Rev => Num(r.dept.rev)
    case TotalCost => Num(r.totalCost)
    case Profit => Num(r.profit)
    case Rate => Num(r.rate)
    case Contribution => Num(r.contribution)
    case GradeCol => Num(GradeRank(r.grade) as real)
  }

  /** `processedData`: the derived rows, sorted on the configured column when there is one. */
  function ProcessedData(ds: seq<Dept>, config: Option<SortConfig>): seq<Row>
  {
    var rows := DeriveAll(ds, TotalProfit(ds));
    match config
    case None => rows
    case Some(c) => SortBy(rows, (r: Row) => Key(r, c.key), c.direction == Desc)
  }

  /** The table holds exactly the derived rows; unsorted it keeps the departments' order,
      sorted it is non-decreasing (ascending) or non-increasing (descending) on the column. */
  lemma ProcessedDataSpec(ds: seq<Dept>, config: Option<SortConfig>)
    ensures multiset(ProcessedData(ds, config)) == multiset(DeriveAll(ds, TotalProfit(ds)))
    ensures config.None? ==> ProcessedData(ds, config) == DeriveAll(ds, TotalProfit(ds))
    ensures config.Some? ==>
              Ordered(ProcessedData(ds, config), (r: Row) => Key(r, config.value.key),
                      config.value.direction == Desc)
  {
    if config.Some? {
      SortByOrdered(DeriveAll(ds, TotalProfit(ds)), (r: Row) => Key(r, config.value.key),
                    config.value.direction == Desc);
    }
  }

  /** The configuration a header click produces: descending only on a second click of the
      column that is currently ascending, ascending on the clicked column otherwise. */
  function NextSort(config: Option<SortConfig>, key: Column): (r: SortConfig)
    ensures r.key == key
    ensures r.direction == Desc <==> config == Some(SortConfig(key, Asc))
  {
    if config.Some? && config.value.key == key && config.value.direction == Asc
    then SortConfig(key, Desc)
    else SortConfig(key, Asc)
  }

  /** Clicking the same header over and over alternates ascending and descending. */
  lemma SortClicksAlternate(config: Option<SortConfig>, key: Column)
    ensures NextSort(Some(NextSort(Some(NextSort(config, key)), key)), key) == NextSort(config, key)
  {
  }

  /** The report screen's sort state. */
  class ReportView {
    var sortConfig: Option<SortConfig>

    constructor ()
      ensures sortConfig == None
    {
      sortConfig := None;
    }

    /** `handleSort(key)`. */
    method HandleSort(key: Column)
      modifies this
      ensures sortConfig == Some(NextSort(old(sortConfig), key))
      ensures sortConfig.value.direction == Desc <==> old(sortConfig) == Some(SortConfig(key, Asc))
    {
      var direction := Asc;
      if sortConfig.Some? && sortConfig.value.key == key && sortConfig.value.direction == Asc {
        direction := Desc;
      }
      sortConfig := Some(SortConfig(key, direction));
    }
  }
}
