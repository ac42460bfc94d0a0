# FrameInsight business logic in Dafny

FrameInsight is a React mockup of a project-profitability back office. Beneath its
screens it carries a small amount of real business logic:

- thousands-separator formatting of amounts, and the comma-stripping parse at the input boxes;
- the department profit-and-loss report, with its S/A/B/C grading and sortable columns;
- three labour-cost calculators: rate-based on the standards screen, fixed-overhead on the
  HR screen, and a per-man-month rate on the proposal screen;
- list editing keyed by id: departments, cost standards, sales sources, monthly plan items,
  projects and their issue threads, employees, proposal allocations and comments, the four
  tables of the profitability sheet, and the expense ledger;
- filtering and grouping: active and archived partitions, status tabs, case-insensitive
  search, and the allocation board grouped by department;
- the presentation carousel's wrap-around slide index.

This project models that logic and proves what the screens promise about it. Money is an
`int` (won). Rates, man-months and fractions are `real`. JavaScript's `Math.round(x)` is
`Floor(x + 0.5)` (`Common.Round`). Each screen's state is a `class` whose fields are the
screen's state lists, and its handlers are methods. The computations are functions, with
lemmas about them.

Modules, one per source file, plus shared helpers:

| module | file | models |
|---|---|---|
| `Common`, `Text`, `Sorting`, `Keyed` | helpers | sums, filter, subsequences, lower-casing, trimming, substring search, insertion sort by a column, update-by-predicate |
| `Format` | format.dfy | `formatNumber` (utils.ts) |
| `Report` | report.dfy | MockupReport.tsx |
| `People` | people.dfy | the employee record and salary lookup shared by MockupStandardInfo.tsx and MockupHR.tsx |
| `MonthTotals` | month_totals.dfy | the month-by-month totals of a department's sales plan |
| `StandardInfo` | standard_info.dfy | MockupStandardInfo.tsx |
| `Profitability` | profitability.dfy | ProfitabilityView.tsx |
| `Project` | project.dfy | MockupProject.tsx |
| `HR` | hr.dfy | MockupHR.tsx (employee list and allocation board) |
| `Proposal` | proposal.dfy | MockupProposalReview.tsx |
| `Cost` | cost.dfy | MockupCost.tsx |
| `Slides` | slides.dfy | App.tsx |

## Model

| member | source | states |
|---|---|---|
| Format.DigitsOf | utils.ts:3 | Deleting every non-digit leaves only ASCII digits and never lengthens the text. |
| Format.DropCommas | MockupStandardInfo.tsx:454 | The comma-stripping parse keeps every character except commas and never lengthens the text. |
| Format.GroupFromIsThousands | utils.ts:3 | The left-to-right scan of the regular expression `\B(?=(\d{3})+(?!\d))` inserts commas exactly as the reference grouping does: the last three digits form a group, and the rest is grouped the same way. |
| Format.ThousandsShape | utils.ts:3 | Grouping a digit string gives digits and commas only. There is no leading or trailing comma, every comma opens a group of exactly three digits, the first group has one to three digits, and the output is empty only for empty input. |
| Format.ThousandsDigits | utils.ts:3 | Removing the commas (or all non-digits) from the grouped text gives back exactly the digit string. |
| Format.FormatNumber | utils.ts:1-4 | `formatNumber`: "" for falsy arguments other than 0, and otherwise the digits of `toString()` with a comma before every full group of three from the right. Its contract is stated by FormatNumberSpec, FormatNumberIdempotent and FormatParseRoundTrip. |
| Format.FormatNumberSpec | utils.ts:1-4 | The empty string, NaN, null and undefined give "", but 0 does not. Every output is made of digits and commas, is well grouped, and without its commas equals the digits of the argument's `toString()`. |
| Format.FormatNumberIdempotent | utils.ts:1-4 | Formatting an already formatted string changes nothing. |
| Format.FormatParseRoundTrip | MockupStandardInfo.tsx:454 | For every integer amount, stripping the commas from its formatted text yields a digit string whose decimal value is the amount's magnitude. |
| Format.FormatNegativeExample | utils.ts:3 | -1500 is shown as "1,500": the sign is dropped. |
| Format.FormatDecimalPointExample | utils.ts:3 | "12.5" is shown as "125": the decimal point is dropped. |
| Format.FormatFalsyExamples | utils.ts:2 | 0 gives "0". "", NaN, null and undefined give "". |
| Report.GetGrade | MockupReport.tsx:75-80 | The grade is in rank order: at least B iff margin ≥ 5, at least A iff margin ≥ 15, and S iff margin ≥ 25 and contribution ≥ 15. The first matching rule wins and every bound is inclusive. |
| Report.GradeRank | MockupReport.tsx:127-129 | The grade column sorts by a rank from 1 (C) to 4 (S). |
| Report.GradeMonotone | MockupReport.tsx:75-80 | A higher margin or contribution never lowers the grade's rank. |
| Report.GradeNeedsContribution | MockupReport.tsx:76-77 | Margin ≥ 25 with contribution < 15 grades A, not S. |
| Report.TotalRev | MockupReport.tsx:62 | `totalRev`: the rows' revenues added up. TotalMargin states the margin computed from it. |
| Report.TotalProfit | MockupReport.tsx:63 | `totalProfit`: revenue minus cost minus common cost, added up over the rows. RowProfitsSum and ContributionsSumTo100 state its relation to the rows. |
| Report.TotalMargin | MockupReport.tsx:64 | The total margin is 0 when total revenue ≤ 0, and otherwise profit/revenue·100. |
| Report.Derive | MockupReport.tsx:101-117 | A row's total cost is cost + common and its profit is revenue − total cost. Its rate is 0 without revenue, else profit/revenue·100. Its contribution is 0 when total profit ≤ 0, else profit/total·100, signed and not clamped. Its grade comes from rate and contribution, and its head count is reg + free. |
| Report.DeriveAll | MockupReport.tsx:101 | There is one derived row per department, in department order. |
| Report.RowProfitsSum | MockupReport.tsx:63 | The rows' profits add up to `totalProfit`. |
| Report.ContributionsScaled | MockupReport.tsx:105 | For a positive total, the contributions times the total add up to 100 times the total profit. |
| Report.ContributionsSumTo100 | MockupReport.tsx:343 | When the company makes a profit, the contribution column sums to exactly 100%, the footer's fixed figure. |
| Report.TotalReg | MockupReport.tsx:66 | `totalReg`: the regular head counts added up. FooterCounts states the footer total built from it. |
| Report.TotalFree | MockupReport.tsx:67 | `totalFree`: the freelancer head counts added up. FooterCounts states the footer total built from it. |
| Report.FooterCounts | MockupReport.tsx:66-67 | The rows' head counts add up to `totalReg + totalFree`. |
| Report.ProcessedData | MockupReport.tsx:100-137 | `processedData`: the derived rows, sorted on the configured column when there is a configuration. ProcessedDataSpec states its properties. |
| Report.ProcessedDataSpec | MockupReport.tsx:120-137 | The table is a permutation of the derived rows. Without a sort configuration it keeps department order; with one it is ordered on the column, ascending or descending. |
| Report.NextSort | MockupReport.tsx:92-98 | A click sorts on the clicked column, descending exactly when that column was already sorted ascending. |
| Report.SortClicksAlternate | MockupReport.tsx:92-98 | Clicking the same header repeatedly alternates between two states. |
| Report.ReportView.HandleSort | MockupReport.tsx:92-98 | The new sort state is `NextSort` of the old one. |
| Sorting.SortBy | MockupReport.tsx:121-135 | Sorting by a column is a permutation of its input. |
| Sorting.SortByOrdered | MockupReport.tsx:132-134 | The sorted list is non-decreasing on the column (non-increasing for descending). |
| People.SalaryFor | MockupStandardInfo.tsx:119 | `salaries[year]` is absent exactly when no entry has that year. When present it is that entry's amount. |
| People.AnnualSalary | MockupStandardInfo.tsx:119 | The salary is this year's amount unless missing or zero, else the first recorded amount, else 0. |
| People.AnnualSalaryRecorded | MockupHR.tsx:73 | The salary used is always one of the recorded amounts, or 0. |
| People.LatestContractAmount | MockupHR.tsx:76-77 | The amount is the last contract's monthly amount, or 0 without contracts. |
| StandardInfo.FindStandard | MockupStandardInfo.tsx:123-125 | The search finds nothing iff no standard suits the person. Otherwise it finds a suitable standard with no suitable one before it: one naming 정규직 for regular staff, 프리랜서 for anyone else. |
| StandardInfo.ChosenStandard | MockupStandardInfo.tsx:123-126 | The standard used is in the list. It suits the person whenever some standard does, and otherwise it is the first. |
| StandardInfo.RateCost | MockupStandardInfo.tsx:129-136 | The monthly salary plus insurance, severance and overhead at the standard's rates, times the risk buffer, rounded. RateCostIsMarkup and RateCostBounds state its properties. |
| StandardInfo.RateCostIsMarkup | MockupStandardInfo.tsx:129-136 | The cost is `round(monthly·(1+ins/100+sev/100+common/100)·(1+risk/100))`. |
| StandardInfo.RateCostBounds | MockupStandardInfo.tsx:129-136 | With non-negative rates the cost never falls as salary rises. It is never below the rounded monthly salary, and it is 0 for a zero salary. |
| StandardInfo.MonthlyCost | MockupStandardInfo.tsx:115-137 | A missing person, or one without salaries, costs 0. Anyone else costs the rate formula on their annual salary and chosen standard. |
| StandardInfo.AddStandardKeepsCosts | MockupStandardInfo.tsx:273-275 | Appending the blank "New Type" standard changes no one's cost. |
| StandardInfo.FindStandardAppend | MockupStandardInfo.tsx:123-125 | Appending a standard that suits nobody leaves the search result unchanged. |
| StandardInfo.DeptTotalCostEmpty | MockupStandardInfo.tsx:140-143 | A department without employees costs 0. |
| StandardInfo.DeptTotalCost | MockupStandardInfo.tsx:140-143 | `getDeptTotalCost`: the monthly costs of the department's employees added up, in list order. DeptTotalCostIsFilterSum and MoveEmployeesCost state its properties. |
| StandardInfo.DeptTotalCostIsFilterSum | MockupStandardInfo.tsx:140-143 | The department total equals the `reduce` over `employees.filter(e => e.dept === dept)` of each employee's monthly cost. |
| StandardInfo.AddDept | MockupStandardInfo.tsx:151-157 | The trimmed name is appended exactly when it is non-blank and not already listed; otherwise the list is unchanged. |
| StandardInfo.AddDeptSpec | MockupStandardInfo.tsx:151-157 | Adding never creates a duplicate, and a non-blank name is listed afterwards. |
| StandardInfo.MoveEmployees | MockupStandardInfo.tsx:181-183 | The list keeps its length. Exactly the members of the deleted department move to the target; everyone else is unchanged. |
| StandardInfo.MoveEmployeesCost | MockupStandardInfo.tsx:178-190 | After the move no one is left in the deleted department, and the target's cost is the sum of both departments' costs before. |
| StandardInfo.RemoveDept | MockupStandardInfo.tsx:187 | Removing a department never lengthens the list. |
| StandardInfo.RemoveDeptSpec | MockupStandardInfo.tsx:187 | The deleted department is gone, every other department stays, and order is kept. |
| StandardInfo.RemoveDeptDistinct | MockupStandardInfo.tsx:187 | Removing keeps the list duplicate-free. |
| StandardInfo.FirstOther | MockupStandardInfo.tsx:166 | The search finds nothing iff every department is the deleted one. Otherwise it finds a listed department other than that one. |
| StandardInfo.AnnualGoal | MockupStandardInfo.tsx:259-261 | `getAnnualGoal`: the amounts of the department's sources added up, or 0 without sources. SourcesAddSpec, SourcesUpdateSpec and SourcesDeleteSpec state how the handlers move it. |
| StandardInfo.SourcesAdd | MockupStandardInfo.tsx:197-203 | The plans after that sales-source handler. SourcesAddSpec states what changes and what the annual goal does. |
| StandardInfo.SourcesAddSpec | MockupStandardInfo.tsx:197-203 | Adding appends one blank source with amount 0 to that department. No other department changes, and no annual goal moves. |
| StandardInfo.SourcesUpdate | MockupStandardInfo.tsx:205-210 | The plans after that sales-source handler. SourcesUpdateSpec states what changes and what the annual goal does. |
| StandardInfo.SourcesUpdateSpec | MockupStandardInfo.tsx:205-210 | Other departments are unchanged. Editing a client or id leaves the goal as it was. |
| StandardInfo.SourcesDelete | MockupStandardInfo.tsx:212-217 | The plans after that sales-source handler. SourcesDeleteSpec states what changes and what the annual goal does. |
| StandardInfo.SourcesDeleteSpec | MockupStandardInfo.tsx:212-217 | With unique ids, deleting lowers the goal by exactly the source's amount. Other departments are unchanged. (also MockupStandardInfo.tsx:259-261) |
| StandardInfo.PutItemsElsewhere | MockupStandardInfo.tsx:221-227 | Writing one department-month cell leaves every other cell as it was. |
| StandardInfo.DeptMonthlyTotal | MockupStandardInfo.tsx:250-253 | `getDeptMonthlyTotal`: the amounts of the department's items for the month, or 0 without items. ItemsAddSpec, ItemsUpdateSpec and ItemsDeleteSpec state how the handlers move it. |
| StandardInfo.TotalTargetRevenue | MockupStandardInfo.tsx:255-257 | `totalTargetRevenue`: the month's totals of every listed department added up. ItemsAddKeepsTarget states that adding an item leaves it unchanged. |
| StandardInfo.SamplePlanTotals | MockupStandardInfo.tsx:72-91 | With the sample plans, 플랫폼 개발팀's sources add up to 2,300,000,000 and its October items to 320,000,000; a department without items totals 0. |
| StandardInfo.ItemsAdd | MockupStandardInfo.tsx:219-228 | The monthly items after that item handler. ItemsAddSpec states which cell changes and what the month's total does. ItemsAddKeepsTarget and ItemsAddKeepsCumulative add that no target or cumulative figure moves. |
| StandardInfo.ItemsAddSpec | MockupStandardInfo.tsx:219-228 | Adding appends one blank item to that month. No other cell changes, and no monthly total moves. |
| StandardInfo.ItemsUpdate | MockupStandardInfo.tsx:230-238 | The monthly items after that item handler. ItemsUpdateSpec states which cell changes and what the month's total does. |
| StandardInfo.ItemsUpdateSpec | MockupStandardInfo.tsx:230-238 | Other cells are unchanged. Editing a plan name or id changes no total. |
| StandardInfo.ItemsDelete | MockupStandardInfo.tsx:240-253 | The monthly items after that item handler. ItemsDeleteSpec states which cell changes and what the month's total does. |
| StandardInfo.ItemsDeleteSpec | MockupStandardInfo.tsx:240-253 | With unique ids, deleting lowers the month's total by exactly the item's amount. Other cells are unchanged. |
| StandardInfo.ItemsAddKeepsTarget | MockupStandardInfo.tsx:255-257 | Adding an item leaves the company-wide target of every month unchanged. |
| StandardInfo.CumulativeSum | MockupStandardInfo.tsx:263-270 | The `forEach` accumulation equals the sum of the department's month totals, over every month it has items for. |
| StandardInfo.MonthsTotalPut | MockupStandardInfo.tsx:263-270 | Replacing one month's list changes the cumulative sum by the difference of that month's totals. |
| StandardInfo.ItemsAddKeepsCumulative | MockupStandardInfo.tsx:219-228 | Adding a blank item keeps the department's cumulative sum. (also MockupStandardInfo.tsx:263-270) |
| StandardInfo.StandardsAdd | MockupStandardInfo.tsx:273-275 | Adding keeps the old standards as a prefix and appends the zero-rate "New Type" standard. |
| StandardInfo.LockToggle | MockupStandardInfo.tsx:288-299 | Cancelling changes nothing. Confirming flips whether the selected month is locked, and every other month keeps its lock state. |
| StandardInfo.LockToggleSpec | MockupStandardInfo.tsx:288-299 | Locking never creates a duplicate, and toggling twice restores the set of locked months. |
| MonthTotals.KeysTotalRemove | MockupStandardInfo.tsx:266-268 | The per-month totals may be added up in any order. |
| MonthTotals.KeysTotalAgree | MockupStandardInfo.tsx:266-268 | The sum depends only on the totals of the months summed. |
| StandardInfo.StandardInfoView.constructor | MockupStandardInfo.tsx:37-91 | The screen starts with six departments, 플랫폼 개발팀 selected, an empty input, no deletion pending, the dialog closed with an empty target, month 10, nothing locked, the two default standards, and the sample targets, sources and monthly items. |
| StandardInfo.StandardInfoView.HandleAddDept | MockupStandardInfo.tsx:151-157 | The departments become `AddDept` of the input. On success the input is cleared and the new name selected; otherwise nothing changes. The list stays duplicate-free. |
| StandardInfo.StandardInfoView.HandleDeleteDeptRequest | MockupStandardInfo.tsx:160-176 | A department with employees opens the dialog with the first other department preselected (an earlier target stays when there is none), and keeps the list and the selection. An empty department is removed on confirmation, and if it was selected the selection is cleared; the dialog, the pending deletion and the target are untouched. |
| StandardInfo.StandardInfoView.ExecuteDeleteWithMove | MockupStandardInfo.tsx:178-195 | Without both names nothing changes, the dialog included. Otherwise employees move to the target, the department is removed, a selection on it moves to the target, and the dialog closes. |
| StandardInfo.StandardInfoView.MoveAndRemove | MockupStandardInfo.tsx:181-190 | The moved employees, the shortened list and the moved selection. |
| StandardInfo.StandardInfoView.AddSalesSource | MockupStandardInfo.tsx:197-203 | The plans become `SourcesAdd` of the old plans. |
| StandardInfo.StandardInfoView.UpdateSalesSource | MockupStandardInfo.tsx:205-210 | The plans become `SourcesUpdate` of the old plans. |
| StandardInfo.StandardInfoView.DeleteSalesSource | MockupStandardInfo.tsx:212-217 | The plans become `SourcesDelete` of the old plans. |
| StandardInfo.StandardInfoView.AddMonthlyItem | MockupStandardInfo.tsx:219-228 | The items become `ItemsAdd` of the old items. |
| StandardInfo.StandardInfoView.UpdateMonthlyItem | MockupStandardInfo.tsx:230-238 | The items become `ItemsUpdate` of the old items. |
| StandardInfo.StandardInfoView.DeleteMonthlyItem | MockupStandardInfo.tsx:240-248 | The items become `ItemsDelete` of the old items. |
| StandardInfo.StandardInfoView.AddCostStandard | MockupStandardInfo.tsx:273-275 | The blank standard is appended. |
| StandardInfo.StandardInfoView.UpdateCostStandard | MockupStandardInfo.tsx:276-278 | Only standards with the id get the field. |
| StandardInfo.StandardInfoView.DeleteCostStandard | MockupStandardInfo.tsx:279-281 | Standards with the id are dropped and the rest keep their order. |
| StandardInfo.StandardInfoView.UpdateCompanyAllocation | MockupStandardInfo.tsx:284-286 | Only that department's assigned target changes. |
| StandardInfo.StandardInfoView.HandleLockToggle | MockupStandardInfo.tsx:288-299 | The lock list becomes `LockToggle` of the old list and stays duplicate-free. |
| StandardInfo.StandardInfoView.SetNewDeptName | MockupStandardInfo.tsx:773 | The new-department box holds the typed text, which HandleAddDept then reads. |
| StandardInfo.StandardInfoView.SelectDept | MockupStandardInfo.tsx:782 | A click on a department makes it the selected one. |
| StandardInfo.StandardInfoView.SelectMonth | MockupStandardInfo.tsx:583 | A month tab makes that month the one HandleLockToggle and the item handlers act on. |
| StandardInfo.StandardInfoView.SetTargetDeptForMove | MockupStandardInfo.tsx:337 | The dialog's select sets the department ExecuteDeleteWithMove moves the employees to. |
| StandardInfo.StandardInfoView.CancelDelete | MockupStandardInfo.tsx:348 | Cancel closes the dialog and forgets the department to delete; nothing else changes. |
| Profitability.ExecutionAmount | ProfitabilityView.tsx:36-38 | The execution amount times 100 equals contract × rate; at 100% it is the whole contract. |
| Profitability.ExecutionAmountBounds | ProfitabilityView.tsx:38 | A rate in [0, 100] executes between nothing and the whole contract. |
| Profitability.ExecutionAmountOfContract | ProfitabilityView.tsx:36-38 | 732,000,000 at 90% executes 658,800,000. |
| Profitability.CostTotal | ProfitabilityView.tsx:73-74 | `totalOutsourcing` and `totalExpenses`: a table's amounts added up. AddKeepsTotals, RemoveCostLowersTotal and UpdateCostNameKeepsTotal state how the handlers move it. |
| Profitability.TotalCostManagement | ProfitabilityView.tsx:75 | `totalCostManagement`: outsourcing plus expenses. SampleSheetTotals gives its starting value. |
| Profitability.TotalEstimateRevenue | ProfitabilityView.tsx:77 | `totalEstimateRevenue`: man-months × unit price over the estimate. AddKeepsTotals and RemoveEstimateLowersRevenue state how the handlers move it. |
| Profitability.TotalEstimateMM | ProfitabilityView.tsx:78 | `totalEstimateMM`: the estimate's man-months added up. AddKeepsTotals states that a blank row keeps it. |
| Profitability.TotalActualLaborCost | ProfitabilityView.tsx:80 | `totalActualLaborCost`: monthly cost × man-months over the resource plan. AddKeepsTotals, UpdateResourceTextKeepsCost and RemoveResourceLowersCost state how the handlers move it. |
| Profitability.TotalActualMM | ProfitabilityView.tsx:81 | `totalActualMM`: the resource plan's man-months added up. AddKeepsTotals states that a blank row keeps it. |
| Profitability.TotalProjectCost | ProfitabilityView.tsx:83 | `totalProjectCost`: the labour cost plus outsourcing and expenses. AddKeepsTotals and the Remove… lemmas state how the handlers move its parts. |
| Profitability.ProjectedProfit | ProfitabilityView.tsx:84 | `projectedProfit`: the execution amount minus the total project cost. OnTargetMeansFifth states how it decides the badge. |
| Profitability.ProfitMargin | ProfitabilityView.tsx:84-85 | The margin is 0 without a positive execution amount, and otherwise profit/execution·100, with profit = execution − (labour + outsourcing + expenses). |
| Profitability.OnTargetMeansFifth | ProfitabilityView.tsx:86 | With a positive execution amount the badge is green iff the profit is at least a fifth of it. Without one the badge is red. (also ProfitabilityView.tsx:160) |
| Profitability.AddKeepsTotals | ProfitabilityView.tsx:89-101 | Each add handler's blank row changes no total and no margin. |
| Profitability.UpdateResourceTextKeepsCost | ProfitabilityView.tsx:102 | Editing a resource row field other than monthly cost or man-months keeps the labour cost. |
| Profitability.UpdateCostNameKeepsTotal | ProfitabilityView.tsx:90 | Editing a cost item's name or id keeps its table's total. (also ProfitabilityView.tsx:94) |
| Profitability.RemoveCostLowersTotal | ProfitabilityView.tsx:91 | With unique ids, removing a cost item lowers its table's total by exactly its amount. (also ProfitabilityView.tsx:95) |
| Profitability.RemoveResourceLowersCost | ProfitabilityView.tsx:103 | With unique ids, removing a resource row lowers the labour cost by exactly its monthly cost × man-months. |
| Profitability.RemoveEstimateLowersRevenue | ProfitabilityView.tsx:99 | With unique ids, removing an estimate row lowers the estimated revenue by exactly its man-months × unit price. |
| Profitability.SampleSheetTotals | ProfitabilityView.tsx:41-86 | On the starting sheet: 39,000,000 of outsourcing and expenses, 164,000,000 of labour over 29.5 man-months, an estimate of 334,688,000 over 33 man-months, a projected profit of 455,800,000 and a green badge. |
| Profitability.ProfitabilityView.constructor | ProfitabilityView.tsx:41-68 | The four tables start as the sample sheet of the source. |
| Profitability.ProfitabilityView.AddOutsourcing | ProfitabilityView.tsx:89 | Appends the blank item; the table's total is unchanged. |
| Profitability.ProfitabilityView.UpdateOutsourcing | ProfitabilityView.tsx:90 | Only items with the id get the field. |
| Profitability.ProfitabilityView.RemoveOutsourcing | ProfitabilityView.tsx:91 | Items with the id are dropped and the rest keep their order. |
| Profitability.ProfitabilityView.AddExpense | ProfitabilityView.tsx:93 | Appends the blank item; the table's total is unchanged. |
| Profitability.ProfitabilityView.UpdateExpense | ProfitabilityView.tsx:94 | Only items with the id get the field. |
| Profitability.ProfitabilityView.RemoveExpense | ProfitabilityView.tsx:95 | Items with the id are dropped and the rest keep their order. |
| Profitability.ProfitabilityView.AddEstimateRow | ProfitabilityView.tsx:97 | Appends the blank "New Role" row; the estimated revenue is unchanged. |
| Profitability.ProfitabilityView.UpdateEstimateRow | ProfitabilityView.tsx:98 | Only rows with the id get the field. |
| Profitability.ProfitabilityView.RemoveEstimateRow | ProfitabilityView.tsx:99 | Rows with the id are dropped and the rest keep their order. |
| Profitability.ProfitabilityView.AddResourceRow | ProfitabilityView.tsx:101 | Appends the blank row; the labour cost is unchanged. |
| Profitability.ProfitabilityView.UpdateResourceRow | ProfitabilityView.tsx:102 | Only rows with the id get the field. |
| Profitability.ProfitabilityView.RemoveResourceRow | ProfitabilityView.tsx:103 | Rows with the id are dropped and the rest keep their order. |
| Keyed.MapWhere | ProfitabilityView.tsx:90 | Update-by-id keeps the length. Matching elements are transformed and all others are unchanged. |
| Keyed.FilterMapWhereDrops | MockupProject.tsx:75 | An update that turns every selected element into one the filter rejects leaves exactly the unselected elements the filter kept. (also MockupProject.tsx:162) |
| Project.OrElse | MockupProject.tsx:47-48 | `Number(x) \|\| 0`: NaN and 0 give the fallback, and any other number is kept. |
| Project.CalculateRevenue | MockupProject.tsx:122-125 | The revenue is 0 for a zero or non-numeric amount, and otherwise `round(amount·rate/100)`. |
| Project.RevenueSharesAddUp | MockupProject.tsx:122-125 | When the two departments' rates add up to 100, their rounded shares add up to the amount within one won either way. |
| Project.RevenueMonotone | MockupProject.tsx:122-125 | A larger non-negative amount never earns less at a non-negative rate. |
| Project.NewProject | MockupProject.tsx:41-58 | The new project has the given id and code, the period 2024.11 ~ 2025.04, and the form's client, departments and rates. Its name defaults to 새 프로젝트, and its amounts are `Number(x) \|\| 0`. It starts with status 진행대기, not archived, empty issues and zero profit. |
| Project.Archive | MockupProject.tsx:75 | `handleArchive`'s list: the flag set on every project with the id. ArchiveLeavesActive and RestoreLeavesArchive state which projects leave which tab. |
| Project.ArchiveLeavesActive | MockupProject.tsx:75 | Archiving takes exactly the projects with that id off the active list and keeps its order. (also MockupProject.tsx:162) |
| Project.RestoreLeavesArchive | MockupProject.tsx:75 | Restoring takes exactly the projects with that id out of the archive and keeps its order. (also MockupProject.tsx:163) |
| Project.AddIssue | MockupProject.tsx:93-110 | `handleAddIssue`'s list: blank input changes nothing; otherwise each project with the id gets the reply appended to its issues. AddIssueCount and AddIssueAppends state its properties. |
| Project.AddIssueCount | MockupProject.tsx:93-110 | Blank input changes nothing. Otherwise the list keeps its length, each project with the id gets exactly one more issue (missing issues read as empty), and every other project is unchanged. |
| Project.AddIssueEach | MockupProject.tsx:93-110 | For a non-blank reply, position by position: the length is kept, each project with the id has one more issue and every other project is unchanged. |
| Project.AddIssueAppends | MockupProject.tsx:104-108 | The matching project's thread becomes its old thread plus the new reply by 김철수. |
| Project.CountsOf | MockupProject.tsx:165-171 | `counts`: the active list's length, its three status counts and the archive's length. CountsPartition and StatusesDisjoint state their properties. |
| Project.CountsPartition | MockupProject.tsx:162-171 | The active and archived counts add up to the list's length. Each status count, and the three together, are at most the active count. |
| Project.StatusesDisjoint | MockupProject.tsx:167-169 | The three status filters pick disjoint projects. |
| Project.FilteredProjects | MockupProject.tsx:173-175 | `filteredProjects`: the archive on the archive tab, and otherwise the active projects of the tab's status (all of them for ALL). FilteredProjectsSpec and ActiveTabMembers state its properties. |
| Project.FilteredProjectsSpec | MockupProject.tsx:173-175 | The archive tab shows exactly the archived projects; any other tab filters the active ones. The list's order is kept. |
| Project.ActiveTabMembers | MockupProject.tsx:173-175 | On "ALL" a project is listed iff it is active; on a status tab, iff it is active and has that status. |
| Project.SortedProjects | MockupProject.tsx:177-182 | `sortedProjects`: code descending for latest, executing department ascending for dept, amount descending for amount, and the list as it is otherwise. SortedProjectsSpec states its properties. |
| Project.SortedProjectsSpec | MockupProject.tsx:177-182 | Sorting is a permutation. "latest" gives non-increasing code, "dept" non-decreasing executing department, "amount" non-increasing amount, and any other option keeps the order. |
| Project.NextExpanded | MockupProject.tsx:84-89 | The panel closes iff the clicked project's panel was open; otherwise it opens that project. |
| Project.ToggleTwiceCloses | MockupProject.tsx:84-91 | Clicking the same project twice closes the panel it opened. |
| Project.ProjectView.HandleSaveProject | MockupProject.tsx:40-61 | The new project goes on top and heads the active list. |
| Project.ProjectView.HandleArchive | MockupProject.tsx:72-77 | Declining the archive dialog changes nothing. Otherwise exactly the projects with the id get the flag. |
| Project.ProjectView.ToggleIssuePanel | MockupProject.tsx:84-91 | The panel follows `NextExpanded` and the input is cleared. |
| Project.ProjectView.SetIssueInput | MockupProject.tsx:93 | The input holds the typed text. |
| Project.ProjectView.HandleAddIssue | MockupProject.tsx:93-115 | The list becomes `AddIssue` of the input. The input is cleared unless it was blank. |
| HR.MonthlyBase | MockupHR.tsx:71-78 | Regular staff: a twelfth of the annual salary. Anyone else: the last contract's monthly amount, or 0. |
| HR.EmployeeCost | MockupHR.tsx:69-81 | `calculateEmployeeCost`: (basis + insurance at 20.4% for 정규직 or 5% otherwise + 850,000) × 1.05, rounded. ZeroBaseCost and CostMonotone state its properties. |
| HR.ZeroBaseCost | MockupHR.tsx:79-80 | A zero basis still costs 892,500 won, not 0. |
| HR.CostMonotone | MockupHR.tsx:79-80 | A larger basis never costs less, and nothing costs less than 892,500. |
| HR.DisplayAmount | MockupHR.tsx:83-90 | `getDisplayAmount`: the amount in the list's pay column. DisplayAmountIsBasis states it is twelve times the cost basis for regular staff and the basis itself otherwise. |
| HR.DisplayAmountIsBasis | MockupHR.tsx:83-90 | The amount shown is twelve times the monthly basis for regular staff, and the basis itself for anyone else. |
| HR.NewEmployee | MockupHR.tsx:94 | The form with the generated id, and the e-mail `username@frameout.co.kr`, or "" without a username. Nothing else changes. |
| HR.ArchiveEmployee | MockupHR.tsx:103-104 | `handleArchive`'s list: the flag set on every employee with the id. ArchiveEmployeeSpec states that the length is kept, the matches get the flag and everyone else is untouched. |
| HR.ArchiveEmployeeSpec | MockupHR.tsx:103-104 | The length is unchanged, matching employees get the status, and everyone else is untouched. |
| HR.ProcessedEmployees | MockupHR.tsx:112-119 | `processedEmployees`: the tab's side of the list, then, for a non-blank term, the lower-cased search on name or department. ProcessedEmployeesSpec and SearchIgnoresCase state its properties. |
| HR.ProcessedEmployeesSpec | MockupHR.tsx:112-119 | An employee is listed iff they are on the tab's side and either the search is blank or the lower-cased term is in their lower-cased name or department. List order is kept. |
| HR.SearchIgnoresCase | MockupHR.tsx:115-116 | A term in capitals finds the same employees as in lower case. |
| HR.TotalMonthlyCost | MockupHR.tsx:121 | `totalMonthlyCostSum`: every listed employee's cost added up. TotalsSplit states how the two tabs' totals relate. |
| HR.TotalsSplit | MockupHR.tsx:113 | Without a search, the active and archive tabs' totals add up to the cost of everyone. (also MockupHR.tsx:121) |
| HR.IdleOnlyUnused | MockupHR.tsx:216 | Idle lines count for nothing, so an idle-only card is at 0%. |
| HR.AllocationData | MockupHR.tsx:209-219 | There is one card per active employee, in list order, each with its demonstration lines and their used rate. |
| HR.AllocationSkipsArchived | MockupHR.tsx:211 | Archived staff get no card. |
| HR.DemoUsedRate | MockupHR.tsx:213-216 | The demonstration lines put the first two of every four cards at 100% and the others at 0%. |
| HR.DemoNeverOverAllocated | MockupHR.tsx:213-216 | With the demonstration lines no card is ever flagged over-allocated. (also MockupHR.tsx:238) |
| HR.GroupByKeys | MockupHR.tsx:223 | The dictionary has a key for exactly the departments that occur. |
| HR.GroupByItems | MockupHR.tsx:223 | Under each key are exactly the cards with that department, in input order. |
| HR.GatherByDept | MockupHR.tsx:222-224 | The loop builds that dictionary, together with its key list, each key listed once. |
| HR.GroupedData | MockupHR.tsx:221-225 | Group titles are strictly ascending and distinct. Each group holds exactly its department's cards in input order, and every card is in a group. No group is empty, so every title is the department of some card. |
| HR.GroupNonEmpty | MockupHR.tsx:222-224 | A department key exists only once a card has been pushed under it, so its list is never empty. |
| HR.HRView.HandleSave | MockupHR.tsx:92-96 | An empty name leaves the list unchanged; otherwise the new employee goes on top. |
| HR.HRView.HandleArchive | MockupHR.tsx:103-105 | The list becomes `ArchiveEmployee` of the old list. |
| Proposal.Selected | MockupProposalReview.tsx:75 | The selected proposal is in the list. It has the selected id if one does, and otherwise it is the first proposal. |
| Proposal.FirstWithId | MockupProposalReview.tsx:75 | The position found is the first proposal with the id, or the end of the list. |
| Proposal.UpdateProposal | MockupProposalReview.tsx:77-79 | `handleUpdateProposal`'s list: the field is set on every proposal with the id. UpdateProposalSpec states its properties. |
| Proposal.UpdateProposalSpec | MockupProposalReview.tsx:77-79 | Only proposals with the id change, and only in the named field. |
| Proposal.TotalAllocationCost | MockupProposalReview.tsx:118 | `totalAllocationCost`: the lines' costs added up. AddAllocationKeepsTotal, RemoveAllocationLowersTotal and SampleProposalTotals state how it moves and its starting value. |
| Proposal.AddAllocationKeepsTotal | MockupProposalReview.tsx:81-84 | The blank line (1.0 M/M, cost 0, person "0") leaves the total cost unchanged. (also MockupProposalReview.tsx:118) |
| Proposal.FindPerson | MockupProposalReview.tsx:91 | The search finds nothing iff no employee has the id; a found employee has it. |
| Proposal.EditAllocation | MockupProposalReview.tsx:88-97 | Only the named field and the cost change. A staffed internal line's cost is `round(rate·mm)`, with 5,500,000 for 정규직 and 8,000,000 otherwise. External lines and unknown persons keep the stored cost. |
| Proposal.InternalCostIgnoresTypedCost | MockupProposalReview.tsx:89-95 | A cost typed into a staffed internal line is overwritten. |
| Proposal.InternalCostOrder | MockupProposalReview.tsx:93-94 | For the same man-months a regular employee never costs more than anyone else, and more man-months never cost less. |
| Proposal.UpdateAllocation | MockupProposalReview.tsx:86-100 | `updateAllocation`'s lines: every line with the id is edited by EditAllocation, the others are kept. EditAllocation and InternalCostIgnoresTypedCost state the edit. |
| Proposal.RemoveAllocation | MockupProposalReview.tsx:102-104 | `removeAllocation`'s list: the lines without that id. RemoveAllocationSpec and RemoveAllocationLowersTotal state its members, order and total. |
| Proposal.RemoveAllocationSpec | MockupProposalReview.tsx:102-104 | Exactly the lines with the id are dropped and order is kept. |
| Proposal.RemoveAllocationLowersTotal | MockupProposalReview.tsx:102-104 | With unique ids, the total falls by exactly the removed line's cost. (also MockupProposalReview.tsx:118) |
| Proposal.VisibleProposals | MockupProposalReview.tsx:119 | The proposals on the chosen side, open or archived. VisibleProposalsSplit states each side's members and that the two sides split the list. |
| Proposal.VisibleProposalsSplit | MockupProposalReview.tsx:119 | Each side shows exactly its proposals, and the two sides split the list. |
| Proposal.CommentGoesToSelected | MockupProposalReview.tsx:111-116 | A comment grows the selected proposal's thread by exactly that entry at its end. |
| Proposal.SampleProposalTotals | MockupProposalReview.tsx:41-61 | On the starting list the screen shows proposal 1, whose two staffing lines cost 7,250,000. (also MockupProposalReview.tsx:75) |
| Proposal.ProposalView.constructor | MockupProposalReview.tsx:40-65 | The screen starts from the one-proposal sample list, on proposal 1, open proposals and an empty comment box, so the list is non-empty (`Valid`). The loaded staff list is a parameter. |
| Proposal.ProposalView.HandleUpdateProposal | MockupProposalReview.tsx:77-79 | The list becomes `UpdateProposal` of the old list. The list keeps its length, so it stays non-empty. |
| Proposal.ProposalView.HandleAddAllocation | MockupProposalReview.tsx:81-84 | The proposal gets the selected proposal's lines plus the blank line. The list keeps its length, so it stays non-empty. |
| Proposal.ProposalView.HandleUpdateAllocation | MockupProposalReview.tsx:86-100 | The proposal gets the selected proposal's lines with that line edited. The list keeps its length, so it stays non-empty. |
| Proposal.ProposalView.HandleRemoveAllocation | MockupProposalReview.tsx:102-104 | The proposal gets the selected proposal's lines without that line. The list keeps its length, so it stays non-empty. |
| Proposal.ProposalView.HandleArchive | MockupProposalReview.tsx:106-109 | Declining the dialog changes nothing; otherwise only that proposal's flag changes. The list keeps its length, so it stays non-empty. |
| Proposal.ProposalView.SetNewComment | MockupProposalReview.tsx:115 | The comment box holds the typed text. |
| Proposal.ProposalView.HandleAddComment | MockupProposalReview.tsx:111-116 | A blank comment changes nothing. Otherwise the selected proposal's thread grows by one entry by 김철수, and the box is cleared. The list keeps its length, so it stays non-empty. |
| Cost.Months | MockupCost.tsx:32 | The twelve tabs are months 1 to 12, in order. |
| Cost.MonthsAreTheYear | MockupCost.tsx:32 | A month is a tab iff it is between 1 and 12. |
| Cost.FilteredCosts | MockupCost.tsx:34-39 | `filteredCosts`: the month's records passing the lower-cased search. FilteredCostsSpec and EmptyTermShowsMonth state its properties. |
| Cost.TotalMonthlySpend | MockupCost.tsx:41 | `totalMonthlySpend`: the shown records' amounts added up. UploadRaisesOnlyItsMonth states how an upload moves it. |
| Cost.FilteredCostsSpec | MockupCost.tsx:34-39 | A record is shown iff it is of the month and its lower-cased project, vendor or type contains the lower-cased term. The ledger's order is kept. |
| Cost.EmptyTermShowsMonth | MockupCost.tsx:36-38 | An empty term shows the whole month. |
| Cost.Pad2 | MockupCost.tsx:49 | Texts of two or more characters are kept; shorter ones are left-padded with zeros to two. |
| Cost.UploadDate | MockupCost.tsx:49 | The uploaded record's date, the first of the month in 2024. UploadDateReadsBack states its shape and that the month reads back. |
| Cost.UploadDateReadsBack | MockupCost.tsx:49 | For months 1 to 12 the date is "2024-MM-01", and its two month digits read back as the month. |
| Cost.UploadedRecord | MockupCost.tsx:47-56 | The record an upload prepends, with the fixed project, type, vendor, text and 2,500,000. UploadRaisesOnlyItsMonth states how it moves the month totals. |
| Cost.UploadRaisesOnlyItsMonth | MockupCost.tsx:47-59 | With no term, an upload raises its month's total by exactly 2,500,000 and leaves every other month's total alone. (also MockupCost.tsx:41) |
| Cost.CostView.SelectMonth | MockupCost.tsx:32 | The tab becomes the month. |
| Cost.CostView.SetSearchTerm | MockupCost.tsx:36 | The term becomes the typed text. |
| Cost.CostView.HandleFileUpload | MockupCost.tsx:43-61 | With a file and a confirmation, one record for the selected month goes on top and the rest are unchanged. Otherwise nothing changes. |
| Slides.JsRem | App.tsx:54-55 | JavaScript `%` by the slide count: a non-negative dividend gives a remainder in [0, 10). |
| Slides.Next | App.tsx:54 | `nextSlide`: `(prev + 1) % slides.length`. StepsStayInRange, NextPrevInverse and FullTourReturns state its properties. |
| Slides.Prev | App.tsx:55 | `prevSlide`: `(prev - 1 + slides.length) % slides.length`. StepsStayInRange and NextPrevInverse state its properties. |
| Slides.StepsStayInRange | App.tsx:54-55 | From a valid slide, next and previous land on valid slides, one step round the ring. |
| Slides.NextPrevInverse | App.tsx:54-55 | Previous undoes next, and next undoes previous. |
| Slides.NextTimesMoves | App.tsx:54 | k presses move k places round the ring. |
| Slides.FullTourReturns | App.tsx:54 | Ten presses of next return to the starting slide. |
| Slides.FilteredScreens | App.tsx:80 | `filteredScreens`: every screen for "ALL", otherwise those whose access list has the role. FilteredScreensSpec states its exact members and order. |
| Slides.FilteredScreensSpec | App.tsx:80 | "ALL" lists every screen. Any other role lists exactly the screens granting it, in order. |
| Slides.Carousel.constructor | App.tsx:36 | The carousel starts on slide 1. |
| Slides.Carousel.NextSlide | App.tsx:54 | The slide becomes `Next` of the old slide and stays valid. |
| Slides.Carousel.PrevSlide | App.tsx:55 | The slide becomes `Prev` of the old slide and stays valid. |
| Slides.Carousel.OpenProfile | App.tsx:88 | The profile card jumps to slide 9, the profile screen. |
| Text.TrimSpec | MockupStandardInfo.tsx:152 | The trimmed text has no white space at either end. It is empty iff the input is all white space, and trimming twice is trimming once. |
| Text.EmptyContained | MockupCost.tsx:36-38 | Every text contains the empty string. |
| Text.LowerIdempotent | MockupHR.tsx:115 | Lower-casing twice is lower-casing once. |

## Left out

- Storage and network: loading and saving through `localStorage` and `fetch` is not modelled. Loaded lists are constructor parameters, and `(costs \|\| [])` reads as the list itself.
- Timers and asynchrony: the toasts, the delayed upload callback and the `useEffect` loaders are not modelled. Each handler is one atomic state change. Stale closures over old state are not modelled either.
- Dialogs: `window.confirm` is a boolean parameter (`confirmed`), and `alert` is dropped.
- Clock and randomness: `Date.now()` ids, `Math.random()` codes and `new Date()` years are parameters.
- IEEE-754 arithmetic, `toFixed` and the exponent form of huge numbers are not modelled. Amounts are unbounded `int` and rates `real`.
- Rendering: JSX, colour pickers, tooltips, icons and click-outside listeners.
- The report's simulated year-to-date multipliers and the sample rows: the processing is modelled over arbitrary rows.
- Text.Lower: `toLowerCase` is modelled for ASCII A–Z only; other scripts are left as they are.
- Sorting.StrLe: `localeCompare` and JavaScript's string `<` are modelled as code-point lexicographic order.
- Sorting.SortBy: the model states a permutation that is ordered on the column. It does not state the stability of JavaScript's sort, and is an insertion sort rather than the engine's algorithm.
- Report.ProcessedDataSpec: `data.sort` sorts a freshly derived array in place. The model returns the sorted copy as a value.
- StandardInfo.MonthlyCost: after every cost standard has been deleted, `find(...) || costStandards[0]` is `undefined`, and reading its rates throws while the screen renders. The model does not follow that error: MonthlyCost, ChosenStandard and DeptTotalCost require a non-empty list of standards whenever a salaried person is costed.
- HR.SalariesOf: a regular employee without a `salaries` object makes the HR screen throw. The model reads the missing object as empty, giving basis 0.
- HR: the `sortConfig` state of the HR screen is declared but never used, so no sort is modelled there.
- StandardInfo.CumulativeSum: `Object.values` order is not modelled. The total is stated as an order-free sum over the months present, which the loop reaches in any order.
- People.AnnualSalary: `Object.values(salaries)[0]` is the first entry of the sequence that models the object.
- The `year` parameter stands for `new Date().getFullYear()`.
- Proposal: the allocation handlers read `selected.allocations` but write to the proposal named by `id`. This is modelled as written, and the screen always passes the selected proposal's id.
- Data tables (data.ts, types.ts), the login, dashboard, profile and style-guide screens, and the person selector widget are not part of this model. They hold static figures, presentation or DOM-event handling only.
