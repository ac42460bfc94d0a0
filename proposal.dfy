/** The proposal review screen (MockupProposalReview.tsx): the selected proposal, field
    edits, the staffing allocations with their per-man-month cost, the comment thread,
    archiving, and the allocation total. */
module Proposal {
  import opened Common
  import opened Text
  import opened Keyed
  import opened People

  datatype AllocKind = Internal | External

  /** One staffing line: an employee (`personId`) or an outside party (`externalName`). */
  datatype Allocation = Allocation(id: int, kind: AllocKind, personId: string, externalName: string,
                                   mm: real, cost: int)

  datatype Feedback = Feedback(id: int, user: string, content: string, date: string)

  datatype Proposal = Proposal(
    id: int, title: string, client: string, overview: string, budget: int, deadline: string,
    salesDept: string, execDept: string, rfpFiles: seq<string>,
    allocations: seq<Allocation>, feedbacks: seq<Feedback>, isArchived: bool)

  const Reviewer: string := "김철수"
  /** The monthly rate charged for one man-month of a regular employee, and of anyone else. */
  const RegularMonthlyRate: int := 5500000
  const OtherMonthlyRate: int := 8000000

  /** `proposals.find(p => p.id === selectedId) || proposals[0]`. */
  function Selected(ps: seq<Proposal>, selectedId: int): (p: Proposal)
    requires ps != []
    ensures p in ps
    ensures (exists i :: 0 <= i < |ps| && ps[i].id == selectedId) ==> p.id == selectedId
    ensures (forall i :: 0 <= i < |ps| ==> ps[i].id != selectedId) ==> p == ps[0]
  {
    var i := FirstWithId(ps, selectedId, 0);
    if i < |ps| then ps[i] else ps[0]
  }

  /** The position of the first proposal with the id at or after `from`, or `|ps|`. */
  function FirstWithId(ps: seq<Proposal>, id: int, from: nat): (i: nat)
    requires from <= |ps|
    ensures from <= i <= |ps|
    ensures i < |ps| ==> ps[i].id == id
    ensures forall j :: from <= j < i ==> ps[j].id != id
    decreases |ps| - from
  {
    if from == |ps| then from
    else if ps[from].id == id then from
    else FirstWithId(ps, id, from + 1)
  }

  datatype ProposalField =
    | Title(title: string) | Client(client: string) | Overview(overview: string) | Budget(budget: int)
    | Deadline(deadline: string) | SalesDept(salesDept: string) | ExecDept(execDept: string)
    | RfpFiles(rfpFiles: seq<string>) | Allocations(allocations: seq<Allocation>)
    | Feedbacks(feedbacks: seq<Feedback>) | Archived(isArchived: bool)

  function SetProposalField(p: Proposal, f: ProposalField): Proposal
  {
    match f
    case Title(v) => p.(title := v)
    case Client(v) => p.(client := v)
    case Overview(v) => p.(overview := v)
    case Budget(v) => p.(budget := v)
    case Deadline(v) => p.(deadline := v)
    case SalesDept(v) => p.(salesDept := v)
    case ExecDept(v) => p.(execDept := v)
    case RfpFiles(v) => p.(rfpFiles := v)
    case Allocations(v) => p.(allocations := v)
    case Feedbacks(v) => p.(feedbacks := v)
    case Archived(v) => p.(isArchived := v)
  }

  /** `handleUpdateProposal(id, field, value)`. */
  function UpdateProposal(ps: seq<Proposal>, id: int, f: ProposalField): seq<Proposal>
  {
    MapWhere(ps, (p: Proposal) => p.id == id, (p: Proposal) => SetProposalField(p, f))
  }

  /** Only the proposals with the id change, and only in the named field. */
  lemma UpdateProposalSpec(ps: seq<Proposal>, id: int, f: ProposalField)
    ensures |UpdateProposal(ps, id, f)| == |ps|
    ensures forall i :: 0 <= i < |ps| && ps[i].id != id ==> UpdateProposal(ps, id, f)[i] == ps[i]
    ensures forall i :: 0 <= i < |ps| && ps[i].id == id ==>
              UpdateProposal(ps, id, f)[i] == SetProposalField(ps[i], f)
    ensures forall i :: 0 <= i < |ps| && ps[i].id == id && !f.Allocations? ==>
              UpdateProposal(ps, id, f)[i].allocations == ps[i].allocations
    ensures forall i :: 0 <= i < |ps| && ps[i].id == id && !f.Feedbacks? ==>
              UpdateProposal(ps, id, f)[i].feedbacks == ps[i].feedbacks
  {
  }

  /** The blank line `handleAddAllocation` appends: one man-month, no cost yet. */
  function NewAllocation(allocId: int, kind: AllocKind): Allocation
  {
    Allocation(allocId, kind, "0", "", 1.0, 0)
  }

  function AllocCost(a: Allocation): int { a.cost }

  /** `totalAllocationCost`. */
  function TotalAllocationCost(allocs: seq<Allocation>): int { Sum(allocs, AllocCost) }

  /** Adding a line leaves the total as it was. */
  lemma AddAllocationKeepsTotal(allocs: seq<Allocation>, allocId: int, kind: AllocKind)
    ensures TotalAllocationCost(allocs + [NewAllocation(allocId, kind)]) == TotalAllocationCost(allocs)
  {
    SumAppendZero(allocs, NewAllocation(allocId, kind), AllocCost);
  }

  /** `employees.find(e => e.id === personId)`. */
  function FindPerson(es: seq<Employee>, personId: string): (r: Option<Employee>)
    ensures r.Some? ==> r.value in es && r.value.id == personId
    ensures r.None? <==> forall i :: 0 <= i < |es| ==> es[i].id != personId
  {
    if es == [] then None
    else if es[0].id == personId then Some(es[0])
    else
      assert forall i :: 1 <= i < |es| ==> es[i] == es[1..][i - 1];
      FindPerson(es[1..], personId)
  }

  /** The monthly rate for a person: regular staff are charged less than anyone else. */
  function MonthlyRate(person: Employee): int
  {
    if person.kind == Regular then RegularMonthlyRate else OtherMonthlyRate
  }

  datatype AllocField =
    | AllocId(id: int) | Kind(kind: AllocKind) | PersonId(personId: string)
    | ExternalName(externalName: string) | MM(mm: real) | Cost(cost: int)

  function SetAllocField(a: Allocation, f: AllocField): Allocation
  {
    match f
    case AllocId(v) => a.(id := v)
    case Kind(v) => a.(kind := v)
    case PersonId(v) => a.(personId := v)
    case ExternalName(v) => a.(externalName := v)
    case MM(v) => a.(mm := v)
    case Cost(v) => a.(cost := v)
  }

  /** One line after an edit: the field is set, then an internal line whose person is
      known gets its cost recomputed from the man-months. */
  function EditAllocation(a: Allocation, f: AllocField, es: seq<Employee>): (r: Allocation)
    ensures r.(cost := 0) == SetAllocField(a, f).(cost := 0)
    ensures var u := SetAllocField(a, f);
            u.kind == External || FindPerson(es, u.personId).None? ==> r == u
    ensures var u := SetAllocField(a, f);
            u.kind == Internal && FindPerson(es, u.personId).Some? ==>
              r.cost == StaffCost(FindPerson(es, u.personId).value, u.mm)
  {
    var updated := SetAllocField(a, f);
    if updated.kind == Internal then
      var person := FindPerson(es, updated.personId);
      if person.Some? then updated.(cost := StaffCost(person.value, updated.mm))
      else updated
    else updated
  }

  /** `Math.round(baseCost * mm)`: the person's monthly rate for the man-months. */
  function StaffCost(person: Employee, mm: real): int
  {
    Round(MonthlyRate(person) as real * mm)
  }

  /** A staffed internal line is always priced from its man-months: typing a cost into
      it has no effect. */
  lemma InternalCostIgnoresTypedCost(a: Allocation, v: int, es: seq<Employee>)
    requires a.kind == Internal && FindPerson(es, a.personId).Some?
    ensures EditAllocation(a, Cost(v), es) == EditAllocation(a, Cost(a.cost), es)
  {
  }

  /** For the same man-months a regular employee never costs more than anyone else, and
      more man-months never cost less. */
  lemma InternalCostOrder(mm1: real, mm2: real)
    requires 0.0 <= mm1 <= mm2
    ensures Round(RegularMonthlyRate as real * mm1) <= Round(OtherMonthlyRate as real * mm1)
    ensures Round(RegularMonthlyRate as real * mm1) <= Round(RegularMonthlyRate as real * mm2)
    ensures Round(OtherMonthlyRate as real * mm1) <= Round(OtherMonthlyRate as real * mm2)
  {
    RoundMonotone(RegularMonthlyRate as real * mm1, OtherMonthlyRate as real * mm1);
    RoundMonotone(RegularMonthlyRate as real * mm1, RegularMonthlyRate as real * mm2);
    RoundMonotone(OtherMonthlyRate as real * mm1, OtherMonthlyRate as real * mm2);
  }

  /** `updateAllocation`'s new list: only the line with the id is edited. */
  function UpdateAllocation(allocs: seq<Allocation>, allocId: int, f: AllocField, es: seq<Employee>): seq<Allocation>
  {
    MapWhere(allocs, (a: Allocation) => a.id == allocId, (a: Allocation) => EditAllocation(a, f, es))
  }

  /** `removeAllocation`'s new list. */
  function RemoveAllocation(allocs: seq<Allocation>, allocId: int): seq<Allocation>
  {
    Filter(allocs, (a: Allocation) => a.id != allocId)
  }

  /** Removing a line keeps the others in order, drops every line with the id and, with
      unique ids, lowers the total by exactly that line's cost. */
  lemma RemoveAllocationSpec(allocs: seq<Allocation>, allocId: int)
    ensures forall a :: a in RemoveAllocation(allocs, allocId) <==> a in allocs && a.id != allocId
    ensures Subsequence(RemoveAllocation(allocs, allocId), allocs)
  {
    FilterMembers(allocs, (a: Allocation) => a.id != allocId);
    FilterSubsequence(allocs, (a: Allocation) => a.id != allocId);
  }

  lemma RemoveAllocationLowersTotal(allocs: seq<Allocation>, k: int)
    requires 0 <= k < |allocs|
    requires forall i :: 0 <= i < |allocs| && i != k ==> allocs[i].id != allocs[k].id
    ensures TotalAllocationCost(RemoveAllocation(allocs, allocs[k].id))
            == TotalAllocationCost(allocs) - allocs[k].cost
  {
    SumFilterOne(allocs, (a: Allocation) => a.id != allocs[k].id, k, AllocCost);
  }

  /** The proposals of the chosen side: the archive (`filterArchived`) or the open ones. */
  function VisibleProposals(ps: seq<Proposal>, filterArchived: bool): seq<Proposal>
  {
    Filter(ps, (p: Proposal) => p.isArchived == filterArchived)
  }

  /** The two sides split the proposals between them. */
  lemma VisibleProposalsSplit(ps: seq<Proposal>)
    ensures |VisibleProposals(ps, false)| + |VisibleProposals(ps, true)| == |ps|
    ensures forall p :: p in VisibleProposals(ps, true) <==> p in ps && p.isArchived
    ensures forall p :: p in VisibleProposals(ps, false) <==> p in ps && !p.isArchived
  {
    FilterPartition(ps, (p: Proposal) => p.isArchived == false, (p: Proposal) => p.isArchived == true);
    FilterMembers(ps, (p: Proposal) => p.isArchived == false);
    FilterMembers(ps, (p: Proposal) => p.isArchived == true);
  }

  /** The list the screen starts from: one open proposal with an internal and an external
      staffing line and one reviewer comment. */
  const SampleProposals: seq<Proposal> := [
    Proposal(1, "현대자동차 차세대 SCM 컨설팅 제안", "현대자동차",
             "현대자동차 SCM 체계 고도화 및 데이터 통합 플랫폼 구축 기술 제안",
             450000000, "2024-11-15", "DX 사업본부", "플랫폼 개발팀", ["RFP_SCM_2024.pdf"],
             [Allocation(1, Internal, "EMP-2020-045", "", 0.5, 2750000),
              Allocation(2, External, "", "디자인 외주(A사)", 1.0, 4500000)],
             [Feedback(1, "김철수", "예산 대비 내부 투입 인력 조정이 필요해 보입니다.", "2024-10-25")],
             false)]

  /** On the sample the screen shows proposal 1, whose two lines cost 7,250,000. */
  lemma SampleProposalTotals()
    ensures Selected(SampleProposals, 1) == SampleProposals[0]
    ensures TotalAllocationCost(Selected(SampleProposals, 1).allocations) == 7250000
  {
    var allocs := SampleProposals[0].allocations;
    assert allocs == [allocs[0]] + [allocs[1]];
    SumAppend([allocs[0]], [allocs[1]], AllocCost);
  }

  /** The proposal screen's state and its handlers. The allocation and comment handlers
      read the selected proposal's lists and write to the proposal with the given id. */
  class ProposalView {
    var proposals: seq<Proposal>
    var employees: seq<Employee>
    var selectedId: int
    var filterArchived: bool
    var newComment: string

    /** The list is never empty: it starts from the one-proposal sample, and no handler
        removes a proposal. */
    predicate Valid()
      reads this
    {
      proposals != []
    }

    /** The loaded staff list is a parameter. */
    constructor (staff: seq<Employee>)
      ensures proposals == SampleProposals && employees == staff
      ensures selectedId == 1 && !filterArchived && newComment == ""
      ensures Valid()
    {
      proposals := SampleProposals;
      employees := staff;
      selectedId := 1;
      filterArchived := false;
      newComment := "";
    }

    method HandleUpdateProposal(id: int, f: ProposalField)
      modifies this`proposals
      ensures |proposals| == |old(proposals)|
      ensures proposals == UpdateProposal(old(proposals), id, f)
    {
      proposals := UpdateProposal(proposals, id, f);
    }

    /** `handleAddAllocation(id, type)`; the line's id comes from the clock. */
    method HandleAddAllocation(id: int, allocId: int, kind: AllocKind)
      requires Valid()
      modifies this`proposals
      ensures |proposals| == |old(proposals)|
      ensures proposals == UpdateProposal(old(proposals), id,
                 Allocations(Selected(old(proposals), selectedId).allocations + [NewAllocation(allocId, kind)]))
    {
      var allocs := Selected(proposals, selectedId).allocations;
      proposals := UpdateProposal(proposals, id, Allocations(allocs + [NewAllocation(allocId, kind)]));
    }

    /** `updateAllocation(id, allocId, field, value)`. */
    method HandleUpdateAllocation(id: int, allocId: int, f: AllocField)
      requires Valid()
      modifies this`proposals
      ensures |proposals| == |old(proposals)|
      ensures proposals == UpdateProposal(old(proposals), id,
                 Allocations(UpdateAllocation(Selected(old(proposals), selectedId).allocations, allocId, f, employees)))
    {
      var allocs := Selected(proposals, selectedId).allocations;
      proposals := UpdateProposal(proposals, id, Allocations(UpdateAllocation(allocs, allocId, f, employees)));
    }

    /** `removeAllocation(id, allocId)`. */
    method HandleRemoveAllocation(id: int, allocId: int)
      requires Valid()
      modifies this`proposals
      ensures |proposals| == |old(proposals)|
      ensures proposals == UpdateProposal(old(proposals), id,
                 Allocations(RemoveAllocation(Selected(old(proposals), selectedId).allocations, allocId)))
    {
      var allocs := Selected(proposals, selectedId).allocations;
      proposals := UpdateProposal(proposals, id, Allocations(RemoveAllocation(allocs, allocId)));
    }

    /** `handleArchive(id, archive)`; `confirmed` answers the dialog archiving asks. */
    method HandleArchive(id: int, archive: bool, confirmed: bool)
      modifies this`proposals
      ensures |proposals| == |old(proposals)|
      ensures archive && !confirmed ==> proposals == old(proposals)
      ensures !archive || confirmed ==> proposals == UpdateProposal(old(proposals), id, Archived(archive))
    {
      if archive && !confirmed {
        return;
      }
      proposals := UpdateProposal(proposals, id, Archived(archive));
    }

    method SetNewComment(text: string)
      modifies this`newComment
      ensures newComment == text
    {
      newComment := text;
    }

    /** `handleAddComment`: ignored when blank, otherwise the comment goes at the end of
        the selected proposal's thread and the box is cleared. */
    method HandleAddComment(feedbackId: int, date: string)
      requires Valid()
      modifies this`proposals, this`newComment
      ensures |proposals| == |old(proposals)|
      ensures IsBlank(old(newComment)) ==> proposals == old(proposals) && newComment == old(newComment)
      ensures !IsBlank(old(newComment)) ==> newComment == ""
      ensures !IsBlank(old(newComment)) ==>
                proposals == UpdateProposal(old(proposals), selectedId,
                  Feedbacks(Selected(old(proposals), selectedId).feedbacks
                            + [Feedback(feedbackId, Reviewer, old(newComment), date)]))
    {
      if IsBlank(newComment) {
        return;
      }
      var feedback := Feedback(feedbackId, Reviewer, newComment, date);
      proposals := UpdateProposal(proposals, selectedId, Feedbacks(Selected(proposals, selectedId).feedbacks + [feedback]));
      newComment := "";
    }
  }

  /** When the selected proposal is in the list, a non-blank comment grows its thread by
      exactly that comment and leaves every other proposal alone. */
  lemma CommentGoesToSelected(ps: seq<Proposal>, k: int, fb: Feedback)
    requires 0 <= k < |ps|
    requires forall i :: 0 <= i < |ps| && i != k ==> ps[i].id != ps[k].id
    ensures var r := UpdateProposal(ps, ps[k].id, Feedbacks(Selected(ps, ps[k].id).feedbacks + [fb]));
            |r| == |ps| && r[k].feedbacks == ps[k].feedbacks + [fb]
            && forall i :: 0 <= i < |ps| && i != k ==> r[i] == ps[i]
  {
    assert Selected(ps, ps[k].id) == ps[k];
  }
}
