/** The expense ledger (MockupCost.tsx): the month tabs, the month's records filtered by a
    search term, the month's total, and the record a spreadsheet upload prepends. */
module Cost {
  import opened Common
  import opened Text

  datatype CostRecord = CostRecord(id: int, date: string, month: int, pj: string, kind: string,
                                   vendor: string, desc: string, amt: int)

  const UploadProject: string := "엑셀 업로드 프로젝트"
  const UploadKind: string := "기타경비"
  const UploadVendor: string := "파일 파싱 거래처"
  const UploadDesc: string := "엑셀 대량 등록 테스트"
  const UploadAmount: int := 2500000

  /** `months`: the tabs 1 to 12. */
  function Months(): (ms: seq<int>)
    ensures |ms| == 12
    ensures forall i :: 0 <= i < 12 ==> ms[i] == i + 1
  {
    seq(12, i => i + 1)
  }

  /** The tabs are exactly the twelve months, in order. */
  lemma MonthsAreTheYear()
    ensures forall m :: m in Months() <==> 1 <= m <= 12
  {
    var ms := Months();
    forall m | 1 <= m <= 12 ensures m in ms {
      assert ms[m - 1] == m;
    }
  }

  /** The record passes the search: the lower-cased term inside the lower-cased project,
      vendor or type. There is no blank test here; the empty term passes everything. */
  predicate MatchesTerm(c: CostRecord, term: string)
  {
    Contains(Lower(c.pj), Lower(term)) || Contains(Lower(c.vendor), Lower(term))
    || Contains(Lower(c.kind), Lower(term))
  }

  function InMonthMatching(month: int, term: string): CostRecord -> bool
  {
    (c: CostRecord) => c.month == month && MatchesTerm(c, term)
  }

  /** `filteredCosts`. */
  function FilteredCosts(cs: seq<CostRecord>, month: int, term: string): seq<CostRecord>
  {
    Filter(cs, InMonthMatching(month, term))
  }

  /** A record is shown exactly when it is of the month and passes the search; the
      ledger's order is kept. */
  lemma FilteredCostsSpec(cs: seq<CostRecord>, month: int, term: string)
    ensures forall c :: c in FilteredCosts(cs, month, term) <==> c in cs && c.month == month && MatchesTerm(c, term)
    ensures Subsequence(FilteredCosts(cs, month, term), cs)
  {
    FilterMembers(cs, InMonthMatching(month, term));
    FilterSubsequence(cs, InMonthMatching(month, term));
  }

  /** Without a term the tab shows the whole month. */
  lemma EmptyTermShowsMonth(cs: seq<CostRecord>, month: int)
    ensures FilteredCosts(cs, month, "") == Filter(cs, (c: CostRecord) => c.month == month)
  {
    assert Lower("") == "";
    forall c: CostRecord ensures MatchesTerm(c, "") {
      EmptyContained(Lower(c.pj));
    }
    FilterCongruent(cs, InMonthMatching(month, ""), (c: CostRecord) => c.month == month);
  }

  function Amount(c: CostRecord): int { c.amt }

  /** `totalMonthlySpend`. */
  function TotalMonthlySpend(cs: seq<CostRecord>, month: int, term: string): int
  {
    Sum(FilteredCosts(cs, month, term), Amount)
  }

  /** `month.toString().padStart(2, '0')`. */
  function Pad2(s: string): (r: string)
    ensures |s| >= 2 ==> r == s
    ensures |s| < 2 ==> |r| == 2 && r[2 - |s|..] == s
    decreases 2 - |s|
  {
    if |s| >= 2 then s else Pad2("0" + s)
  }

  /** The date the uploaded record gets: the first of the month in 2024. */
  function UploadDate(month: int): string
  {
    "2024-" + Pad2(IntToString(month)) + "-01"
  }

  /** For a real month the date is ten characters long and its month digits read back
      as the month. */
  lemma UploadDateReadsBack(month: int)
    requires 1 <= month <= 12
    ensures var d := UploadDate(month);
            |d| == 10 && d[..5] == "2024-" && d[7..] == "-01" && IsDigit(d[5]) && IsDigit(d[6])
            && (d[5] as int - '0' as int) * 10 + (d[6] as int - '0' as int) == month
  {
    var s := IntToString(month);
    if month < 10 {
      assert s == [DigitChar(month)];
      assert Pad2(s) == "0" + s;
    } else {
      assert s == NatToDecimal(month / 10) + [DigitChar(month % 10)];
      assert NatToDecimal(month / 10) == [DigitChar(1)];
    }
  }

  /** The record an upload adds; its id comes from the clock. */
  function UploadedRecord(id: int, month: int): CostRecord
  {
    CostRecord(id, UploadDate(month), month, UploadProject, UploadKind, UploadVendor, UploadDesc, UploadAmount)
  }

  /** With no search term, an upload raises the month's total by exactly 2,500,000 won
      and leaves every other month's total as it was. */
  lemma UploadRaisesOnlyItsMonth(cs: seq<CostRecord>, id: int, month: int, other: int)
    requires other != month
    ensures TotalMonthlySpend([UploadedRecord(id, month)] + cs, month, "")
            == TotalMonthlySpend(cs, month, "") + UploadAmount
    ensures TotalMonthlySpend([UploadedRecord(id, month)] + cs, other, "")
            == TotalMonthlySpend(cs, other, "")
  {
    var r := UploadedRecord(id, month);
    EmptyContained(Lower(r.pj));
    FilterAppend([r], cs, InMonthMatching(month, ""));
    FilterSingle(r, InMonthMatching(month, ""));
    SumAppend([r], FilteredCosts(cs, month, ""), Amount);
    FilterAppend([r], cs, InMonthMatching(other, ""));
    FilterSingle(r, InMonthMatching(other, ""));
    assert [] + FilteredCosts(cs, other, "") == FilteredCosts(cs, other, "");
  }

  /** The ledger screen's state and its handlers. */
  class CostView {
    var costs: seq<CostRecord>
    var selectedMonth: int
    var searchTerm: string

    constructor (loaded: seq<CostRecord>)
      ensures costs == loaded && selectedMonth == 10 && searchTerm == ""
    {
      costs := loaded;
      selectedMonth := 10;
      searchTerm := "";
    }

    method SelectMonth(month: int)
      modifies this`selectedMonth
      ensures selectedMonth == month
    {
      selectedMonth := month;
    }

    method SetSearchTerm(term: string)
      modifies this`searchTerm
      ensures searchTerm == term
    {
      searchTerm := term;
    }

    /** The prepend step of `handleFileUpload`: with a file chosen and the import
        confirmed, the record goes to the top of the ledger. */
    method HandleFileUpload(fileChosen: bool, confirmed: bool, id: int)
      modifies this`costs
      ensures fileChosen && confirmed ==> costs == [UploadedRecord(id, selectedMonth)] + old(costs)
      ensures !(fileChosen && confirmed) ==> costs == old(costs)
    {
      if fileChosen && confirmed {
        costs := [UploadedRecord(id, selectedMonth)] + costs;
      }
    }
  }
}
