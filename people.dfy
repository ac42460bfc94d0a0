/** The employee record shared by the HR screen and the standards screen, and the salary
    lookup both of them use: `salaries[year] || Object.values(salaries)[0] || 0`. */
module People {
  import opened Common

  /** One `"year": amount` pair of the `salaries` object, in the object's value order. */
  datatype SalaryEntry = SalaryEntry(year: string, amount: int)

  /** One freelancer contract period with its monthly fee. */
  datatype Contract = Contract(id: int, seqNo: int, startDate: string, endDate: string, monthlyAmount: int)

  /** An employee; a missing `isArchived` reads as false, missing lists as `None`. */
  datatype Employee = Employee(
    id: string, name: string, email: string, dept: string, rank: string,
    techGrade: string, hireYear: string, kind: string,
    salaries: Option<seq<SalaryEntry>>, contracts: Option<seq<Contract>>, isArchived: bool)

  const Regular: string := "정규직"
  const Freelancer: string := "프리랜서"

  /** `salaries[year]`: the amount recorded for the year, if any. */
  function SalaryFor(salaries: seq<SalaryEntry>, year: string): (r: Option<int>)
    ensures r.None? <==> forall i :: 0 <= i < |salaries| ==> salaries[i].year != year
    ensures r.Some? ==> SalaryEntry(year, r.value) in salaries
  {
    if salaries == [] then None
    else if salaries[0].year == year then Some(salaries[0].amount)
    else
      assert forall i :: 1 <= i < |salaries| ==> salaries[i] == salaries[1..][i - 1];
      SalaryFor(salaries[1..], year)
  }

  /** The annual salary both screens use: this year's amount unless it is missing or zero,
      then the first recorded amount, then 0. */
  function AnnualSalary(salaries: seq<SalaryEntry>, year: string): (a: int)
    ensures SalaryFor(salaries, year).Some? && SalaryFor(salaries, year).value != 0 ==>
              a == SalaryFor(salaries, year).value
    ensures (SalaryFor(salaries, year).None? || SalaryFor(salaries, year).value == 0) ==>
              a == (if salaries == [] then 0 else salaries[0].amount)
  {
    var current := SalaryFor(salaries, year);
    if current.Some? && current.value != 0 then current.value
    else if salaries != [] && salaries[0].amount != 0 then salaries[0].amount
    else 0
  }

  /** The salary picked is always one of the recorded amounts, or 0 when there is none. */
  lemma AnnualSalaryRecorded(salaries: seq<SalaryEntry>, year: string)
    ensures AnnualSalary(salaries, year) == 0
            || exists i :: 0 <= i < |salaries| && salaries[i].amount == AnnualSalary(salaries, year)
  {
    var a := AnnualSalary(salaries, year);
    var current := SalaryFor(salaries, year);
    if current.Some? && current.value != 0 {
      var i :| 0 <= i < |salaries| && salaries[i] == SalaryEntry(year, current.value);
    } else if a != 0 {
      assert salaries[0].amount == a;
    }
  }

  /** `contracts[contracts.length - 1].monthlyAmount`, or 0 without contracts. */
  function LatestContractAmount(contracts: Option<seq<Contract>>): (a: int)
    ensures contracts.None? || contracts.value == [] ==> a == 0
    ensures contracts.Some? && contracts.value != [] ==>
              a == contracts.value[|contracts.value| - 1].monthlyAmount
  {
    if contracts.Some? && |contracts.value| > 0
    then contracts.value[|contracts.value| - 1].monthlyAmount
    else 0
  }
}
