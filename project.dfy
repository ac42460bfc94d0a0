/** The project list (MockupProject.tsx): registering a project, archiving and restoring,
    the per-project issue thread, the status tabs with their counts, the sort options and
    the revenue split between the sales and the executing department. */
module Project {
  import opened Common
  import opened Text
  import opened Keyed
  import opened Sorting

  /** What `Number(x)` yields: a finite number or NaN. */
  datatype JsNumber = Finite(x: real) | NotANumber

  /** `Number(x) || fallback`: NaN and 0 are falsy. */
  function OrElse(n: JsNumber, fallback: real): (r: real)
    ensures n.NotANumber? || n.x == 0.0 ==> r == fallback
    ensures n.Finite? && n.x != 0.0 ==> r == n.x
  {
    if n.Finite? && n.x != 0.0 then n.x else fallback
  }

  datatype IssueKind = IssueEntry | Reply

  datatype Issue = Issue(id: int, user: string, content: string, date: string, kind: IssueKind)

  /** A project record; `issues` is missing on records saved before issues existed. */
  datatype Project = Project(
    id: int, code: string, name: string, client: string, period: string,
    amt: real, execAmt: real, status: string,
    salesDept: string, salesRate: real, execDept: string, execRate: real,
    profit: int, profitRate: int, isArchived: bool, issues: Option<seq<Issue>>)

  /** The registration form; the amounts are what `Number` makes of the typed text. */
  datatype ProjectForm = ProjectForm(
    name: string, client: string, salesDept: string, salesRate: real,
    execDept: string, execRate: real, amt: JsNumber, execAmt: JsNumber)

  const Waiting: string := "진행대기"
  const InProgress: string := "진행중"
  const Done: string := "완료"
  const ArchiveTab: string := "보관함"
  const AllTab: string := "ALL"
  const DefaultName: string := "새 프로젝트"
  const CurrentUser: string := "김철수"

  /** `calculateRevenue(amount, rate)`: the department's share of the amount, rounded,
      and 0 when the amount is 0 or not a number. */
  function CalculateRevenue(amount: JsNumber, rate: real): (r: int)
    ensures amount.NotANumber? || amount.x == 0.0 ==> r == 0
    ensures amount.Finite? && amount.x != 0.0 ==>
              r as real - 0.5 <= amount.x * (rate / 100.0) < r as real + 0.5
  {
    if amount.NotANumber? || amount.x == 0.0 then 0 else Round(amount.x * (rate / 100.0))
  }

  /** When the two departments' rates add up to 100, their rounded revenues add up to
      the amount to within one won either way. */
  lemma RevenueSharesAddUp(amount: real, salesRate: real, execRate: real)
    requires amount != 0.0 && salesRate + execRate == 100.0
    ensures var total := CalculateRevenue(Finite(amount), salesRate)
                         + CalculateRevenue(Finite(amount), execRate);
            amount - 1.0 < total as real <= amount + 1.0
  {
    var s := amount * (salesRate / 100.0);
    var e := amount * (execRate / 100.0);
    assert s + e == amount * ((salesRate + execRate) / 100.0);
    assert s + e == amount;
  }

  /** A larger amount never earns a department less at a non-negative rate. */
  lemma RevenueMonotone(a: real, b: real, rate: real)
    requires 0.0 <= a <= b && rate >= 0.0
    ensures CalculateRevenue(Finite(a), rate) <= CalculateRevenue(Finite(b), rate)
  {
    if a == 0.0 {
      assert 0.0 <= b * (rate / 100.0);
      RoundMonotone(0.0, b * (rate / 100.0));
    } else {
      assert a * (rate / 100.0) <= b * (rate / 100.0);
      RoundMonotone(a * (rate / 100.0), b * (rate / 100.0));
    }
  }

  /** The contract period every new project is given. */
  const DefaultPeriod: string := "2024.11 ~ 2025.04"

  /** The record `handleSaveProject` prepends; `id` and `code` come from the clock and
      the random generator. */
  function NewProject(id: int, code: string, f: ProjectForm): (p: Project)
    ensures p.id == id && p.code == code && p.client == f.client && p.period == DefaultPeriod
    ensures p.name == if f.name == "" then DefaultName else f.name
    ensures p.amt == OrElse(f.amt, 0.0) && p.execAmt == OrElse(f.execAmt, 0.0)
    ensures p.status == Waiting && !p.isArchived && p.issues == Some([])
    ensures p.profit == 0 && p.profitRate == 0
    ensures p.salesDept == f.salesDept && p.salesRate == f.salesRate
    ensures p.execDept == f.execDept && p.execRate == f.execRate
  {
    Project(id, code, if f.name == "" then DefaultName else f.name, f.client, DefaultPeriod,
            OrElse(f.amt, 0.0), OrElse(f.execAmt, 0.0), Waiting,
            f.salesDept, f.salesRate, f.execDept, f.execRate, 0, 0, false, Some([]))
  }

  /** The list after `handleArchive` went ahead. */
  function Archive(ps: seq<Project>, id: int, archive: bool): seq<Project>
  {
    MapWhere(ps, (p: Project) => p.id == id, (p: Project) => p.(isArchived := archive))
  }

  function IsActive(p: Project): bool { !p.isArchived }
  function IsArchived(p: Project): bool { p.isArchived }
  function HasOtherId(id: int): Project -> bool { (p: Project) => p.id != id }

  function Active(ps: seq<Project>): seq<Project> { Filter(ps, IsActive) }
  function Archived(ps: seq<Project>): seq<Project> { Filter(ps, IsArchived) }

  /** Archiving takes exactly the projects with that id off the active list, leaving the
      others there in their order. */
  lemma ArchiveLeavesActive(ps: seq<Project>, id: int)
    ensures Active(Archive(ps, id, true)) == Filter(Active(ps), HasOtherId(id))
  {
    FilterMapWhereDrops(ps, (p: Project) => p.id == id, (p: Project) => p.(isArchived := true),
                        IsActive, HasOtherId(id));
  }

  /** Restoring takes exactly the projects with that id out of the archive, leaving the
      others there in their order. */
  lemma RestoreLeavesArchive(ps: seq<Project>, id: int)
    ensures Archived(Archive(ps, id, false)) == Filter(Archived(ps), HasOtherId(id))
  {
    FilterMapWhereDrops(ps, (p: Project) => p.id == id, (p: Project) => p.(isArchived := false),
                        IsArchived, HasOtherId(id));
  }

  /** `p.issues || []`. */
  function IssuesOf(p: Project): seq<Issue>
  {
    if p.issues.Some? then p.issues.value else []
  }

  /** The list after `handleAddIssue`: nothing for blank input, otherwise the reply is
      appended to the thread of every project with that id. */
  function AddIssue(ps: seq<Project>, projectId: int, input: string, issueId: int, date: string): seq<Project>
  {
    if IsBlank(input) then ps
    else
      var issue := Issue(issueId, CurrentUser, input, date, Reply);
      MapWhere(ps, (p: Project) => p.id == projectId, (p: Project) => p.(issues := Some(IssuesOf(p) + [issue])))
  }

  function IssueCount(p: Project): int { |IssuesOf(p)| }

  function HasId(id: int): Project -> bool { (p: Project) => p.id == id }

  /** A non-blank reply adds one issue per project with that id (one, when ids are unique)
      and the input text is kept as written, not trimmed; a blank one adds none. */
  lemma {:induction false} AddIssueCount(ps: seq<Project>, projectId: int, input: string, issueId: int, date: string)
    ensures IsBlank(input) ==> AddIssue(ps, projectId, input, issueId, date) == ps
    ensures !IsBlank(input) ==>
              Sum(AddIssue(ps, projectId, input, issueId, date), IssueCount)
              == Sum(ps, IssueCount) + |Filter(ps, HasId(projectId))|
    ensures !IsBlank(input) ==>
              var a := AddIssue(ps, projectId, input, issueId, date);
              |a| == |ps|
              && (forall i :: 0 <= i < |ps| && ps[i].id == projectId ==> IssueCount(a[i]) == IssueCount(ps[i]) + 1)
              && (forall i :: 0 <= i < |ps| && ps[i].id != projectId ==> a[i] == ps[i])
  {
    if !IsBlank(input) {
      AddIssueEach(ps, projectId, input, issueId, date);
    }
    if !IsBlank(input) && ps != [] {
      AddIssueCount(ps[1..], projectId, input, issueId, date);
      var a := AddIssue(ps, projectId, input, issueId, date);
      assert a[1..] == AddIssue(ps[1..], projectId, input, issueId, date);
    }
  }

  /** Position by position: each project with the id has one more issue, the others are
      untouched. */
  lemma AddIssueEach(ps: seq<Project>, projectId: int, input: string, issueId: int, date: string)
    requires !IsBlank(input)
    ensures var a := AddIssue(ps, projectId, input, issueId, date);
            |a| == |ps|
            && (forall i :: 0 <= i < |ps| && ps[i].id == projectId ==> IssueCount(a[i]) == IssueCount(ps[i]) + 1)
            && (forall i :: 0 <= i < |ps| && ps[i].id != projectId ==> a[i] == ps[i])
  {
    var a := AddIssue(ps, projectId, input, issueId, date);
    forall i | 0 <= i < |ps| && ps[i].id == projectId
      ensures IssueCount(a[i]) == IssueCount(ps[i]) + 1
    {
      assert IssuesOf(a[i]) == IssuesOf(ps[i]) + [Issue(issueId, CurrentUser, input, date, Reply)];
    }
  }

  /** With unique ids, the thread of the project gets exactly the new reply at its end. */
  lemma AddIssueAppends(ps: seq<Project>, k: int, input: string, issueId: int, date: string)
    requires 0 <= k < |ps| && !IsBlank(input)
    ensures var a := AddIssue(ps, ps[k].id, input, issueId, date);
            |a| == |ps| && IssuesOf(a[k]) == IssuesOf(ps[k]) + [Issue(issueId, CurrentUser, input, date, Reply)]
            && forall i :: 0 <= i < |ps| && ps[i].id != ps[k].id ==> a[i] == ps[i]
  {
  }

  function HasStatus(status: string): Project -> bool { (p: Project) => p.status == status }

  /** `counts`: the active total, each status among the active, and the archive. */
  datatype Counts = Counts(all: int, inProgress: int, waiting: int, done: int, archived: int)

  function CountsOf(ps: seq<Project>): Counts
  {
    var active := Active(ps);
    Counts(|active|, |Filter(active, HasStatus(InProgress))|, |Filter(active, HasStatus(Waiting))|,
           |Filter(active, HasStatus(Done))|, |Archived(ps)|)
  }

  /** The active and the archived tabs split the list between them, and no status tab
      counts more than the active tab; the three statuses together neither. */
  lemma CountsPartition(ps: seq<Project>)
    ensures CountsOf(ps).all + CountsOf(ps).archived == |ps|
    ensures CountsOf(ps).inProgress <= CountsOf(ps).all
    ensures CountsOf(ps).waiting <= CountsOf(ps).all
    ensures CountsOf(ps).done <= CountsOf(ps).all
    ensures CountsOf(ps).inProgress + CountsOf(ps).waiting + CountsOf(ps).done <= CountsOf(ps).all
  {
    FilterPartition(ps, IsActive, IsArchived);
    StatusesDisjoint(Active(ps));
  }

  lemma {:induction false} StatusesDisjoint(xs: seq<Project>)
    ensures |Filter(xs, HasStatus(InProgress))| + |Filter(xs, HasStatus(Waiting))|
            + |Filter(xs, HasStatus(Done))| <= |xs|
  {
    if xs != [] {
      StatusesDisjoint(xs[1..]);
    }
  }

  /** `filteredProjects` for the selected tab. */
  function FilteredProjects(ps: seq<Project>, tab: string): seq<Project>
  {
    if tab == ArchiveTab then Archived(ps)
    else Filter(Active(ps), InTab(tab))
  }

  function InTab(tab: string): Project -> bool
  {
    (p: Project) => tab == AllTab || p.status == tab
  }

  function ActiveInTab(tab: string): Project -> bool
  {
    (p: Project) => !p.isArchived && (tab == AllTab || p.status == tab)
  }

  /** The archive tab shows exactly the archived projects; any other tab shows the active
      ones with its status ("ALL": every active one). The list order is kept. */
  lemma FilteredProjectsSpec(ps: seq<Project>, tab: string)
    ensures tab == ArchiveTab ==> forall p :: p in FilteredProjects(ps, tab) <==> p in ps && p.isArchived
    ensures tab != ArchiveTab ==> FilteredProjects(ps, tab) == Filter(ps, ActiveInTab(tab))
    ensures Subsequence(FilteredProjects(ps, tab), ps)
  {
    if tab == ArchiveTab {
      FilterMembers(ps, IsArchived);
      FilterSubsequence(ps, IsArchived);
    } else {
      FilterFilter(ps, IsActive, InTab(tab), ActiveInTab(tab));
      FilterSubsequence(ps, ActiveInTab(tab));
    }
  }

  /** The members of any tab other than the archive. */
  lemma ActiveTabMembers(ps: seq<Project>, tab: string)
    requires tab != ArchiveTab
    ensures forall p :: p in FilteredProjects(ps, tab) <==>
              p in ps && !p.isArchived && (tab == AllTab || p.status == tab)
  {
    FilteredProjectsSpec(ps, tab);
    FilterMembers(ps, ActiveInTab(tab));
  }

  function CodeKey(p: Project): SortValue { Str(p.code) }
  function DeptKey(p: Project): SortValue { Str(p.execDept) }
  function AmountKey(p: Project): SortValue { Num(p.amt) }

  /** `sortedProjects`: newest code first, executing department A to Z, largest amount
      first, or the list order for any other option. */
  function SortedProjects(ps: seq<Project>, sortBy: string): seq<Project>
  {
    if sortBy == "latest" then SortBy(ps, CodeKey, true)
    else if sortBy == "dept" then SortBy(ps, DeptKey, false)
    else if sortBy == "amount" then SortBy(ps, AmountKey, true)
    else ps
  }

  /** Sorting only reorders, and each option orders by its column. */
  lemma SortedProjectsSpec(ps: seq<Project>, sortBy: string)
    ensures multiset(SortedProjects(ps, sortBy)) == multiset(ps)
    ensures sortBy == "latest" ==> Ordered(SortedProjects(ps, sortBy), CodeKey, true)
    ensures sortBy == "dept" ==> Ordered(SortedProjects(ps, sortBy), DeptKey, false)
    ensures sortBy == "amount" ==>
              forall i, j :: 0 <= i < j < |ps| ==> SortedProjects(ps, sortBy)[i].amt >= SortedProjects(ps, sortBy)[j].amt
    ensures sortBy !in {"latest", "dept", "amount"} ==> SortedProjects(ps, sortBy) == ps
  {
    SortByOrdered(ps, CodeKey, true);
    SortByOrdered(ps, DeptKey, false);
    SortByOrdered(ps, AmountKey, true);
    if sortBy == "amount" {
      var r := SortedProjects(ps, sortBy);
      forall i, j | 0 <= i < j < |ps| ensures r[i].amt >= r[j].amt {
        assert InOrder(AmountKey(r[i]), AmountKey(r[j]), true);
      }
    }
  }

  /** The issue panel after clicking a project's issue button. */
  function NextExpanded(expanded: Option<int>, projectId: int): (r: Option<int>)
    ensures r == None <==> expanded == Some(projectId)
    ensures r != None ==> r == Some(projectId)
  {
    if expanded == Some(projectId) then None else Some(projectId)
  }

  /** Clicking the same project twice closes the panel it opened. */
  lemma ToggleTwiceCloses(projectId: int, other: Option<int>)
    requires other != Some(projectId)
    ensures NextExpanded(NextExpanded(other, projectId), projectId) == None
  {
  }

  /** The project screen's state and its handlers. */
  class ProjectView {
    var projects: seq<Project>
    var expandedIssueId: Option<int>
    var issueInput: string

    constructor (loaded: seq<Project>)
      ensures projects == loaded && expandedIssueId == None && issueInput == ""
    {
      projects := loaded;
      expandedIssueId := None;
      issueInput := "";
    }

    /** `handleSaveProject`: the new project goes to the top of the list. */
    method HandleSaveProject(id: int, code: string, form: ProjectForm)
      modifies this`projects
      ensures projects == [NewProject(id, code, form)] + old(projects)
      ensures Active(projects) == [NewProject(id, code, form)] + Active(old(projects))
    {
      projects := [NewProject(id, code, form)] + projects;
      assert projects[1..] == old(projects);
    }

    /** `handleArchive(project, archive)`; `confirmed` is the answer to the confirmation
        dialog, which only archiving asks. */
    method HandleArchive(id: int, archive: bool, confirmed: bool)
      modifies this`projects
      ensures archive && !confirmed ==> projects == old(projects)
      ensures !archive || confirmed ==> projects == Archive(old(projects), id, archive)
    {
      if archive && !confirmed {
        return;
      }
      projects := Archive(projects, id, archive);
    }

    /** `toggleIssuePanel(projectId)`. */
    method ToggleIssuePanel(projectId: int)
      modifies this`expandedIssueId, this`issueInput
      ensures expandedIssueId == NextExpanded(old(expandedIssueId), projectId)
      ensures issueInput == ""
    {
      if expandedIssueId == Some(projectId) {
        expandedIssueId := None;
      } else {
        expandedIssueId := Some(projectId);
      }
      issueInput := "";
    }

    /** Typing into the issue box. */
    method SetIssueInput(text: string)
      modifies this`issueInput
      ensures issueInput == text
    {
      issueInput := text;
    }

    /** `handleAddIssue(projectId)`; the reply's id and timestamp are parameters. */
    method HandleAddIssue(projectId: int, issueId: int, date: string)
      modifies this`projects, this`issueInput
      ensures projects == AddIssue(old(projects), projectId, old(issueInput), issueId, date)
      ensures issueInput == if IsBlank(old(issueInput)) then old(issueInput) else ""
    {
      if IsBlank(issueInput) {
        return;
      }
      projects := AddIssue(projects, projectId, issueInput, issueId, date);
      issueInput := "";
    }
  }
}
