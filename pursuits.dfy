/**
 * The pursuits board: a kanban of six status columns onto which project
 * cards are dragged. A drop is resolved to a target status, checked against
 * the project's five dimension statuses, possibly held for a confirmation
 * dialog, and then applied to the local list before it is sent to the
 * backend. The dimension lookup and the backend's answer are inputs.
 */
module Pursuits {
  import opened Wrappers
  import opened Text
  import opened Types
  import Lists

  /** The board's columns, in display order. */
  const KanbanStatuses: seq<string> := [Open, Preanalysis, EngineeringReview, InValidation, Execution, Cancelled]

  /** The dimensions whose statuses guard a move, in lookup order. */
  const DimOrder: seq<string> := ["team", "plan", "process", "qa", "gut"]

  /** Why a move was refused. */
  datatype Refusal = SomeDimensionBad | ValidationFailed

  /** The toast shown for a refusal. */
  function Message(r: Refusal): string {
    match r
    case SomeDimensionBad => "Cannot move to EXECUTION: at least one dimension is Bad."
    case ValidationFailed => "Could not validate dimensions. Please try again later."
  }

  predicate IsKanban(s: string) {
    s in KanbanStatuses
  }

  /** The board's statuses are their own trims. */
  lemma StatusTrimmed(s: string)
    requires IsKanban(s)
    ensures Trim(s) == s
  {
    StatusesTrimmed();
  }

  lemma StatusesTrimmed()
    ensures forall s :: s in KanbanStatuses ==> Trim(s) == s
  {
    forall i | 0 <= i < |KanbanStatuses| ensures Trim(KanbanStatuses[i]) == KanbanStatuses[i] {
      TrimFixed(KanbanStatuses[i]);
    }
  }

  lemma StatusesDistinct()
    ensures forall i, j :: 0 <= i < j < |KanbanStatuses| ==> KanbanStatuses[i] != KanbanStatuses[j]
  {
    forall i, j | 0 <= i < j < |KanbanStatuses| ensures KanbanStatuses[i] != KanbanStatuses[j] {
      if i == 4 && j == 5 {
        assert Execution[0] != Cancelled[0];
      } else {
        assert |KanbanStatuses[i]| != |KanbanStatuses[j]|;
      }
    }
  }


  function ProjectId(p: Project): string {
    p.id
  }

  /** `projects.find((p) => p.id === id)`. */
  function FindProject(ps: seq<Project>, id: string): Option<Project> {
    Lists.FindFirst(ps, ProjectId, id)
  }

  /** `projects.find((p) => p.id === id)`: nothing when no project has the id, else a project with it. */
  lemma FindProjectById(ps: seq<Project>, id: string)
    ensures FindProject(ps, id).None? <==> forall p :: p in ps ==> p.id != id
    ensures FindProject(ps, id).Some? ==> FindProject(ps, id).value in ps && FindProject(ps, id).value.id == id
  {
  }

  // ---------------------------------------------------------------------------
  // Loading, searching and grouping

  predicate OnBoard(p: Project) {
    IsKanban(Trim(p.status))
  }

  /** The load filter: only projects whose trimmed status is a column are kept. */
  function KanbanOnly(data: seq<Project>): (r: seq<Project>)
    ensures forall p :: p in r <==> p in data && IsKanban(Trim(p.status))
  {
    Lists.Filter(data, OnBoard)
  }

  predicate MatchesSearch(p: Project, searchName: string, searchBuOwner: string) {
    && Contains(ToLower(p.name), ToLower(searchName))
    && Contains(ToLower(p.account.buOwner.name), ToLower(searchBuOwner))
  }

  /** `filteredProjects`: name and BU owner both contain their search text, case-insensitively. */
  function FilteredProjects(ps: seq<Project>, searchName: string, searchBuOwner: string): (r: seq<Project>)
    ensures forall p :: p in r <==> p in ps && MatchesSearch(p, searchName, searchBuOwner)
  {
    Lists.Filter(ps, p => MatchesSearch(p, searchName, searchBuOwner))
  }

  /** With both search boxes empty the board shows every loaded project. */
  lemma EmptySearchShowsAll(ps: seq<Project>)
    ensures FilteredProjects(ps, "", "") == ps
  {
    forall i | 0 <= i < |ps| ensures MatchesSearch(ps[i], "", "") {
      ContainsEmpty(ToLower(ps[i].name));
      ContainsEmpty(ToLower(ps[i].account.buOwner.name));
    }
    Lists.FilterKeepsAll(ps, p => MatchesSearch(p, "", ""));
  }

  /** The column a visible project is drawn in: its trimmed status, or Open when that is not a column. */
  function ColumnOf(p: Project): (s: string)
    ensures IsKanban(s)
  {
    var t := Trim(p.status);
    if IsKanban(t) then t else Open
  }

  /** The membership test of column `s`. */
  function InColumn(s: string): Project -> bool {
    p => ColumnOf(p) == s
  }

  /** The contents of column `s`: the projects drawn there, in their list order. */
  function ColumnMembers(ps: seq<Project>, s: string): seq<Project>
  {
    Lists.Filter(ps, InColumn(s))
  }

  /** Extending the scanned prefix by one project extends at most its own column. */
  lemma ColumnMembersStep(ps: seq<Project>, i: nat, s: string)
    requires i < |ps|
    ensures ColumnMembers(ps[..i + 1], s) == ColumnMembers(ps[..i], s) + (if ColumnOf(ps[i]) == s then [ps[i]] else [])
  {
    assert ps[..i + 1] == ps[..i] + [ps[i]];
    Lists.FilterAppend(ps[..i], [ps[i]], InColumn(s));
    Lists.FilterSingleton(ps[i], InColumn(s));
  }

  /** Each column lists its projects in the order of the underlying list. */
  lemma ColumnsKeepOrder(xs: seq<Project>, ys: seq<Project>, s: string)
    ensures ColumnMembers(xs + ys, s) == ColumnMembers(xs, s) + ColumnMembers(ys, s)
  {
    Lists.FilterAppend(xs, ys, InColumn(s));
  }

  /**
   * `columnsData`: start with six empty columns and push every visible
   * project onto the column of its trimmed status, or onto Open.
   */
  method ColumnsData(visible: seq<Project>) returns (columns: map<string, seq<Project>>)
    ensures forall s :: s in columns <==> IsKanban(s)
    ensures forall s :: s in columns ==> columns[s] == ColumnMembers(visible, s)
  {
    columns := map s | s in KanbanStatuses :: [];
    for i := 0 to |visible|
      invariant forall s :: s in columns <==> IsKanban(s)
      invariant forall s :: s in columns ==> columns[s] == ColumnMembers(visible[..i], s)
    {
      var p := visible[i];
      var s := Trim(p.status);
      var key := if s in columns then s else Open;
      PushOntoColumn(columns, visible, i, key);
      columns := columns[key := columns[key] + [p]];
    }
    assert visible[..|visible|] == visible;
  }

  /** One step of the grouping: pushing project `i` onto its own column extends the grouping of the prefix. */
  lemma PushOntoColumn(columns: map<string, seq<Project>>, ps: seq<Project>, i: nat, key: string)
    requires i < |ps| && key in columns
    requires key == ColumnOf(ps[i])
    requires forall s :: s in columns ==> columns[s] == ColumnMembers(ps[..i], s)
    ensures var next := columns[key := columns[key] + [ps[i]]];
            forall s :: s in next ==> next[s] == ColumnMembers(ps[..i + 1], s)
  {
    var next := columns[key := columns[key] + [ps[i]]];
    forall t | t in next ensures next[t] == ColumnMembers(ps[..i + 1], t) {
      ColumnMembersStep(ps, i, t);
    }
  }

  /** How many of the columns in `cols` the projects of `ps` fill, counted with multiplicity. */
  function CountInColumns(ps: seq<Project>, cols: seq<string>): nat {
    if cols == [] then 0 else |ColumnMembers(ps, cols[0])| + CountInColumns(ps, cols[1..])
  }

  function Occurrences(cols: seq<string>, s: string): nat {
    if cols == [] then 0 else (if cols[0] == s then 1 else 0) + Occurrences(cols[1..], s)
  }

  lemma {:induction false} OccurrencesDistinct(cols: seq<string>, s: string)
    requires s in cols
    requires forall i, j :: 0 <= i < j < |cols| ==> cols[i] != cols[j]
    ensures Occurrences(cols, s) == 1
  {
    if cols[0] == s {
      OccurrencesAbsent(cols[1..], s);
    } else {
      OccurrencesDistinct(cols[1..], s);
    }
  }

  lemma {:induction false} OccurrencesAbsent(cols: seq<string>, s: string)
    requires s !in cols
    ensures Occurrences(cols, s) == 0
  {
    if cols != [] {
      OccurrencesAbsent(cols[1..], s);
    }
  }

  lemma {:induction false} CountInColumnsEmpty(cols: seq<string>)
    ensures CountInColumns([], cols) == 0
  {
    if cols != [] {
      CountInColumnsEmpty(cols[1..]);
    }
  }

  lemma {:induction false} CountInColumnsCons(p: Project, ps: seq<Project>, cols: seq<string>)
    ensures CountInColumns([p] + ps, cols) == CountInColumns(ps, cols) + Occurrences(cols, ColumnOf(p))
  {
    if cols != [] {
      var c := cols[0];
      Lists.FilterAppend([p], ps, InColumn(c));
      Lists.FilterSingleton(p, InColumn(c));
      assert |ColumnMembers([p] + ps, c)| == (if ColumnOf(p) == c then 1 else 0) + |ColumnMembers(ps, c)|;
      CountInColumnsCons(p, ps, cols[1..]);
    }
  }

  /**
   * The grouping is a partition, by count: every visible project is drawn in
   * exactly one column, so the six columns hold as many cards as there are
   * visible projects.
   */
  lemma {:induction false} ColumnsPartition(ps: seq<Project>)
    ensures CountInColumns(ps, KanbanStatuses) == |ps|
  {
    if ps == [] {
      CountInColumnsEmpty(KanbanStatuses);
    } else {
      var c := ColumnOf(ps[0]);
      assert Occurrences(KanbanStatuses, c) == 1 by {
        StatusesDistinct();
        OccurrencesDistinct(KanbanStatuses, c);
      }
      assert CountInColumns(ps, KanbanStatuses) == CountInColumns(ps[1..], KanbanStatuses) + 1 by {
        CountInColumnsCons(ps[0], ps[1..], KanbanStatuses);
        assert [ps[0]] + ps[1..] == ps;
      }
      ColumnsPartition(ps[1..]);
    }
  }

  /** The grouping is a partition, by membership: a project is in a column exactly when that column is its own. */
  lemma ColumnMembership(ps: seq<Project>, p: Project, s: string)
    requires p in ps && IsKanban(s)
    ensures p in ColumnMembers(ps, s) <==> s == ColumnOf(p)
  {
  }

  // ---------------------------------------------------------------------------
  // The transition guard

  /** `someBad`: `dims.includes("Bad")`. */
  predicate SomeBad(dims: seq<string>) {
    Bad in dims
  }

  /** `noneBad`. */
  predicate NoneBad(dims: seq<string>) {
    !SomeBad(dims)
  }

  /** The lookup that guards a move: the five dimension statuses in order, as the provider returns them. */
  function FetchAllDimensionStatuses(provider: (string, string) -> string, projectId: string): (r: Option<seq<string>>)
    ensures r.Some? && |r.value| == |DimOrder|
    ensures forall i :: 0 <= i < |DimOrder| ==> r.value[i] == provider(projectId, DimOrder[i])
  {
    Some(seq(|DimOrder|, i requires 0 <= i < |DimOrder| => provider(projectId, DimOrder[i])))
  }

  datatype Verdict = Allow | Deny(reason: Refusal) | Confirm

  /**
   * The business rules for a move to `target`, given the dimension lookup
   * (`None` when it was rejected): Execution is refused while some dimension
   * is Bad; Cancelled needs confirmation unless some dimension is Bad; a
   * failed lookup refuses; every other target is allowed without a lookup.
   */
  function Guard(target: string, dims: Option<seq<string>>): (v: Verdict)
    ensures target != Execution && target != Cancelled ==> v == Allow
    ensures target == Execution ==> (v == Allow <==> dims.Some? && NoneBad(dims.value))
    ensures target == Execution && v != Allow ==>
              v == Deny(if dims.None? then ValidationFailed else SomeDimensionBad)
    ensures target == Cancelled ==> (v == Confirm <==> dims.Some? && NoneBad(dims.value))
    ensures target == Cancelled ==> (v == Allow <==> dims.Some? && SomeBad(dims.value))
    ensures target == Cancelled && dims.None? ==> v == Deny(ValidationFailed)
  {
    if target == Execution || target == Cancelled then
      match dims
      case None => Deny(ValidationFailed)
      case Some(d) =>
        if target == Execution && SomeBad(d) then Deny(SomeDimensionBad)
        else if target == Cancelled && NoneBad(d) then Confirm
        else Allow
    else Allow
  }

  // ---------------------------------------------------------------------------
  // Resolving a drop

  /**
   * The target status of a drop on `overId`: the trimmed id itself when it is
   * a column, otherwise the trimmed status of the project with that id, and
   * nothing when neither exists.
   */
  function ResolveTarget(ps: seq<Project>, overId: string): (r: Option<string>)
    ensures IsKanban(Trim(overId)) ==> r == Some(Trim(overId))
    ensures r.None? <==> !IsKanban(Trim(overId)) && forall i :: 0 <= i < |ps| ==> ps[i].id != Trim(overId)
    ensures r.Some? && !IsKanban(Trim(overId)) ==>
              exists i :: 0 <= i < |ps| && ps[i].id == Trim(overId) && r.value == Trim(ps[i].status) &&
                          forall j :: 0 <= j < i ==> ps[j].id != Trim(overId)
  {
    var t := Trim(overId);
    if IsKanban(t) then Some(t)
    else match FindProject(ps, t)
      case Some(q) => Some(Trim(q.status))
      case None => None
  }

  /** What a drag end does, before any persistence. */
  datatype Step =
    | Ignore                        // no drop target, same stage, unknown card or target
    | Block(reason: Refusal)        // refused by the guard
    | AskConfirm(project: Project)  // the cancellation dialog opens for this project
    | Apply(updated: Project)       // the project with its new status replaces the old one

  /** The decision `handleDragEnd` reaches for dragged card `activeId` dropped on `overId`. */
  function PlanDragEnd(ps: seq<Project>, activeId: string, overId: Option<string>, dims: Option<seq<string>>): Step {
    if overId.None? || activeId == overId.value then Ignore
    else
      match FindProject(ps, activeId)
      case None => Ignore
      case Some(ap) =>
        match ResolveTarget(ps, overId.value)
        case None => Ignore
        case Some(target) => PlanMove(ap, target, dims)
  }

  /** The decision once the dragged project `ap` and the target status are known. */
  function PlanMove(ap: Project, target: string, dims: Option<seq<string>>): Step {
    if Trim(ap.status) == target then Ignore
    else
      match Guard(target, dims)
      case Deny(reason) => Block(reason)
      case Confirm => AskConfirm(ap)
      case Allow => Apply(ap.(status := target))
  }

  /** A resolved drop: the dragged project and the status it is dropped onto. */
  datatype Move = Move(project: Project, target: string)

  /**
   * The drop as far as resolution goes: nothing for no target, the card
   * itself, an unknown card or an unknown target; otherwise the dragged
   * project and its target status.
   */
  function DragTarget(ps: seq<Project>, activeId: string, overId: Option<string>): (m: Option<Move>)
    ensures m.Some? ==> overId.Some? && activeId != overId.value && FindProject(ps, activeId) == Some(m.value.project)
                        && ResolveTarget(ps, overId.value) == Some(m.value.target)
    ensures m.None? <==> overId.None? || activeId == overId.value || FindProject(ps, activeId).None?
                         || ResolveTarget(ps, overId.value).None?
  {
    if overId.None? || activeId == overId.value then None
    else
      match FindProject(ps, activeId)
      case None => None
      case Some(ap) =>
        match ResolveTarget(ps, overId.value)
        case None => None
        case Some(target) => Some(Move(ap, target))
  }

  /** The decision is `PlanMove`'s on a resolved drop and `Ignore` on any other. */
  lemma PlanViaTarget(ps: seq<Project>, activeId: string, overId: Option<string>, dims: Option<seq<string>>)
    ensures DragTarget(ps, activeId, overId).None? ==> PlanDragEnd(ps, activeId, overId, dims) == Ignore
    ensures DragTarget(ps, activeId, overId).Some? ==>
              PlanDragEnd(ps, activeId, overId, dims) ==
              PlanMove(DragTarget(ps, activeId, overId).value.project, DragTarget(ps, activeId, overId).value.target, dims)
  {
  }

  /** Each outcome of a resolved move, read back as the guard verdict that produced it. */
  lemma PlanMoveVerdict(ap: Project, target: string, dims: Option<seq<string>>)
    ensures PlanMove(ap, target, dims).Ignore? <==> Trim(ap.status) == target
    ensures PlanMove(ap, target, dims).Block? ==>
              Guard(target, dims) == Deny(PlanMove(ap, target, dims).reason)
    ensures PlanMove(ap, target, dims).AskConfirm? ==>
              Guard(target, dims) == Confirm && PlanMove(ap, target, dims).project == ap
    ensures PlanMove(ap, target, dims).Apply? ==>
              Guard(target, dims) == Allow && PlanMove(ap, target, dims).updated == ap.(status := target)
  {
    if Trim(ap.status) != target {
      match Guard(target, dims)
      case Deny(r) =>
      case Confirm =>
      case Allow =>
    }
  }

  /** Once the dragged card and the drop target are resolved, the decision is `PlanMove`'s. */
  lemma PlanResolved(ps: seq<Project>, activeId: string, overId: string, dims: Option<seq<string>>)
    requires activeId != overId && FindProject(ps, activeId).Some? && ResolveTarget(ps, overId).Some?
    ensures PlanDragEnd(ps, activeId, Some(overId), dims)
            == PlanMove(FindProject(ps, activeId).value, ResolveTarget(ps, overId).value, dims)
  {
  }

  /** A real move follows the guard's verdict. */
  lemma PlanMoveOfVerdict(ap: Project, target: string, dims: Option<seq<string>>)
    requires Trim(ap.status) != target
    ensures Guard(target, dims) == Allow ==> PlanMove(ap, target, dims) == Apply(ap.(status := target))
    ensures Guard(target, dims) == Confirm ==> PlanMove(ap, target, dims) == AskConfirm(ap)
    ensures Guard(target, dims).Deny? ==> PlanMove(ap, target, dims) == Block(Guard(target, dims).reason)
  {
  }

  /** Whether `handleDragEnd` reaches the dimension lookup at all. */
  predicate LooksUpDimensions(ps: seq<Project>, activeId: string, overId: Option<string>) {
    && overId.Some? && activeId != overId.value
    && FindProject(ps, activeId).Some?
    && ResolveTarget(ps, overId.value).Some?
    && var target := ResolveTarget(ps, overId.value).value;
       Trim(FindProject(ps, activeId).value.status) != target && (target == Execution || target == Cancelled)
  }

  /** `prev.map((p) => (p.id === id ? updated : p))`. */
  function ReplaceById(ps: seq<Project>, id: string, updated: Project): (r: seq<Project>)
    ensures |r| == |ps|
    ensures forall i :: 0 <= i < |ps| ==> r[i] == if ps[i].id == id then updated else ps[i]
  {
    if ps == [] then []
    else [if ps[0].id == id then updated else ps[0]] + ReplaceById(ps[1..], id, updated)
  }

  // Properties of the decision.

  /** A drop with no target, or on the dragged card itself, is ignored (and no lookup is made). */
  lemma DropOnNothingOrSelfIgnored(ps: seq<Project>, activeId: string, overId: Option<string>, dims: Option<seq<string>>)
    requires overId.None? || overId.value == activeId
    ensures PlanDragEnd(ps, activeId, overId, dims) == Ignore
    ensures !LooksUpDimensions(ps, activeId, overId)
  {
  }

  /** A drop that resolves to the card's own trimmed status is ignored, whatever the dimensions are. */
  lemma SameStageIgnored(ps: seq<Project>, activeId: string, overId: string, dims: Option<seq<string>>)
    requires FindProject(ps, activeId).Some?
    requires ResolveTarget(ps, overId) == Some(Trim(FindProject(ps, activeId).value.status))
    ensures PlanDragEnd(ps, activeId, Some(overId), dims) == Ignore
    ensures !LooksUpDimensions(ps, activeId, Some(overId))
  {
  }

  /** An unknown dragged card or an unresolvable drop target is ignored. */
  lemma UnresolvedIgnored(ps: seq<Project>, activeId: string, overId: string, dims: Option<seq<string>>)
    requires (forall i :: 0 <= i < |ps| ==> ps[i].id != activeId) ||
             (!IsKanban(Trim(overId)) && forall i :: 0 <= i < |ps| ==> ps[i].id != Trim(overId))
    ensures PlanDragEnd(ps, activeId, Some(overId), dims) == Ignore
  {
  }

  /** Dimensions are consulted only on a real move to Execution or Cancelled: otherwise they cannot matter. */
  lemma {:induction false} LookupOnlyWhenGuarded(ps: seq<Project>, activeId: string, overId: Option<string>,
                                                 dims1: Option<seq<string>>, dims2: Option<seq<string>>)
    requires !LooksUpDimensions(ps, activeId, overId)
    ensures PlanDragEnd(ps, activeId, overId, dims1) == PlanDragEnd(ps, activeId, overId, dims2)
  {
    if overId.Some? && activeId != overId.value && FindProject(ps, activeId).Some? && ResolveTarget(ps, overId.value).Some? {
      var ap := FindProject(ps, activeId).value;
      var target := ResolveTarget(ps, overId.value).value;
      PlanResolved(ps, activeId, overId.value, dims1);
      PlanResolved(ps, activeId, overId.value, dims2);
      if Trim(ap.status) != target {
        assert Guard(target, dims1) == Allow && Guard(target, dims2) == Allow;
        PlanMoveOfVerdict(ap, target, dims1);
        PlanMoveOfVerdict(ap, target, dims2);
      }
    }
  }

  /** A real move to Execution is applied exactly when the lookup succeeded with no Bad dimension. */
  lemma ExecutionRule(ps: seq<Project>, activeId: string, overId: string, dims: Option<seq<string>>)
    requires activeId != overId && FindProject(ps, activeId).Some?
    requires ResolveTarget(ps, overId) == Some(Execution)
    requires Trim(FindProject(ps, activeId).value.status) != Execution
    ensures var step := PlanDragEnd(ps, activeId, Some(overId), dims);
            && (step.Apply? <==> dims.Some? && NoneBad(dims.value))
            && (step.Apply? ==> step.updated == FindProject(ps, activeId).value.(status := Execution))
            && (!step.Apply? ==> step.Block?)
  {
    PlanResolved(ps, activeId, overId, dims);
    PlanMoveOfVerdict(FindProject(ps, activeId).value, Execution, dims);
  }

  /**
   * A real move to Cancelled opens the confirmation for the dragged project
   * when no dimension is Bad, is applied at once when some dimension is Bad,
   * and is refused when the lookup failed.
   */
  lemma CancelRule(ps: seq<Project>, activeId: string, overId: string, dims: Option<seq<string>>)
    requires activeId != overId && FindProject(ps, activeId).Some?
    requires ResolveTarget(ps, overId) == Some(Cancelled)
    requires Trim(FindProject(ps, activeId).value.status) != Cancelled
    ensures var step := PlanDragEnd(ps, activeId, Some(overId), dims);
            var ap := FindProject(ps, activeId).value;
            && (dims.Some? && NoneBad(dims.value) ==> step == AskConfirm(ap))
            && (dims.Some? && SomeBad(dims.value) ==> step == Apply(ap.(status := Cancelled)))
            && (dims.None? ==> step == Block(ValidationFailed))
  {
    PlanResolved(ps, activeId, overId, dims);
    PlanMoveOfVerdict(FindProject(ps, activeId).value, Cancelled, dims);
  }

  /** With the real provider, which always answers, the "could not validate" branch is unreachable. */
  lemma ValidationFailureUnreachable(ps: seq<Project>, activeId: string, overId: Option<string>,
                                     provider: (string, string) -> string)
    ensures PlanDragEnd(ps, activeId, overId, FetchAllDimensionStatuses(provider, activeId)) != Block(ValidationFailed)
  {
    if overId.Some? && activeId != overId.value && FindProject(ps, activeId).Some? && ResolveTarget(ps, overId.value).Some? {
      PlanMoveVerdict(FindProject(ps, activeId).value, ResolveTarget(ps, overId.value).value,
                      FetchAllDimensionStatuses(provider, activeId));
    }
  }

  /**
   * An applied move is the dragged project, found by id, with its status set
   * to the resolved target, which differs from its current trimmed status.
   */
  lemma AppliedIsResolvedMove(ps: seq<Project>, activeId: string, overId: Option<string>, dims: Option<seq<string>>)
    requires PlanDragEnd(ps, activeId, overId, dims).Apply?
    ensures overId.Some? && FindProject(ps, activeId).Some?
    ensures var u := PlanDragEnd(ps, activeId, overId, dims).updated;
            var ap := FindProject(ps, activeId).value;
            && ResolveTarget(ps, overId.value) == Some(u.status)
            && u == ap.(status := u.status)
            && Trim(ap.status) != u.status
  {
    var ap := FindProject(ps, activeId).value;
    var t := ResolveTarget(ps, overId.value).value;
    assert PlanDragEnd(ps, activeId, overId, dims) == PlanMove(ap, t, dims);
    PlanMoveVerdict(ap, t, dims);
  }
  /** On a board whose cards all sit on columns, an applied move puts the card on a column. */
  lemma AppliedStaysOnBoard(ps: seq<Project>, activeId: string, overId: Option<string>, dims: Option<seq<string>>)
    requires forall p :: p in ps ==> OnBoard(p)
    requires PlanDragEnd(ps, activeId, overId, dims).Apply?
    ensures OnBoard(PlanDragEnd(ps, activeId, overId, dims).updated)
  {
    AppliedIsResolvedMove(ps, activeId, overId, dims);
    var u := PlanDragEnd(ps, activeId, overId, dims).updated;
    if !IsKanban(Trim(overId.value)) {
      var i :| 0 <= i < |ps| && ps[i].id == Trim(overId.value) && u.status == Trim(ps[i].status);
      assert OnBoard(ps[i]);
    }
    StatusTrimmed(u.status);
  }

  /** The confirmed cancellation's record sits on the Cancelled column. */
  lemma CancelledOnBoard(p: Project)
    ensures OnBoard(p.(status := Cancelled))
  {
    StatusTrimmed(Cancelled);
  }

  /** Replacing cards by one that sits on a column keeps every card on a column. */
  lemma ReplaceKeepsOnBoard(ps: seq<Project>, id: string, q: Project)
    requires forall p :: p in ps ==> OnBoard(p)
    requires OnBoard(q)
    ensures forall p :: p in ReplaceById(ps, id, q) ==> OnBoard(p)
  {
    var r := ReplaceById(ps, id, q);
    forall p | p in r
      ensures OnBoard(p)
    {
      var k :| 0 <= k < |r| && r[k] == p;
      assert ps[k] in ps;
    }
  }


  /** With unique ids, looking a project's id up finds that project. */
  lemma {:induction false} FindUnique(ps: seq<Project>, k: nat)
    requires k < |ps|
    requires forall i, j :: 0 <= i < j < |ps| ==> ps[i].id != ps[j].id
    ensures FindProject(ps, ps[k].id) == Some(ps[k])
  {
    var found := FindProject(ps, ps[k].id);
    var i :| 0 <= i < |ps| && ps[i] == found.value && ps[i].id == ps[k].id &&
             forall j :: 0 <= j < i ==> ps[j].id != ps[k].id;
    assert i == k;
  }

  /** With unique ids, replacing by id is a single-position update. */
  lemma ReplaceByIdUnique(ps: seq<Project>, k: nat, u: Project)
    requires k < |ps|
    requires forall i, j :: 0 <= i < j < |ps| ==> ps[i].id != ps[j].id
    ensures ReplaceById(ps, ps[k].id, u) == ps[k := u]
  {
  }

  /**
   * An applied move changes only the dragged project, only in its status;
   * with unique ids the new list is the old one with position `k` replaced.
   */
  lemma ApplyChangesOnlyDragged(ps: seq<Project>, activeId: string, overId: Option<string>,
                                dims: Option<seq<string>>, k: nat)
    requires PlanDragEnd(ps, activeId, overId, dims).Apply?
    requires k < |ps| && ps[k].id == activeId
    requires forall i, j :: 0 <= i < j < |ps| ==> ps[i].id != ps[j].id
    ensures var u := PlanDragEnd(ps, activeId, overId, dims).updated;
            && u == ps[k].(status := u.status)
            && ReplaceById(ps, activeId, u) == ps[k := u]
  {
    AppliedIsResolvedMove(ps, activeId, overId, dims);
    FindUnique(ps, k);
    ReplaceByIdUnique(ps, k, PlanDragEnd(ps, activeId, overId, dims).updated);
  }

  /** A drop on a column header targets that column. */
  lemma PlanOnColumn(ps: seq<Project>, activeId: string, column: string, dims: Option<seq<string>>, ap: Project)
    requires IsKanban(column) && activeId != column
    requires FindProject(ps, activeId) == Some(ap)
    ensures PlanDragEnd(ps, activeId, Some(column), dims) == PlanMove(ap, column, dims)
  {
    StatusTrimmed(column);
    assert ResolveTarget(ps, column) == Some(column);
  }

  // Scenario checks on the decision.

  function SampleProject(id: string, status: string): Project {
    var owner := BuOwner("bu1", "Owner");
    var account := Account("acc1", "Account", owner, Portfolio("pf1", "Portfolio"), "Activo",
                           None, None, None, None, None, None);
    Project(id, account, "Pursuit " + id, None, None, None, None, None, None, None, None, None,
            None, None, None, None, None, None, status, None, None, None, None, None)
  }

  /** Open project, all dimensions Good, dropped on the Execution column: applied. */
  lemma ScenarioExecutionAllowed()
    ensures var p1 := SampleProject("p1", Open);
            PlanDragEnd([p1], "p1", Some(Execution), Some([Good, Good, Good, Good, Good]))
              == Apply(p1.(status := Execution))
  {
    var p1 := SampleProject("p1", Open);
    var dims := Some([Good, Good, Good, Good, Good]);
    calc {
      PlanDragEnd([p1], "p1", Some(Execution), dims);
    == { PlanOnColumn([p1], "p1", Execution, dims, p1); }
      PlanMove(p1, Execution, dims);
    == { StatusTrimmed(Open);
         assert |Open| != |Execution|;
         assert Bad != Good by { assert |Bad| != |Good|; }
         assert Guard(Execution, dims) == Allow; }
      Apply(p1.(status := Execution));
    }
  }

  /** In Validation project with a Bad team dimension, dropped on Execution: blocked. */
  lemma ScenarioExecutionDenied()
    ensures var p2 := SampleProject("p2", InValidation);
            PlanDragEnd([p2], "p2", Some(Execution), Some([Bad, Good, Good, Good, Good]))
              == Block(SomeDimensionBad)
  {
    var p2 := SampleProject("p2", InValidation);
    var dims := Some([Bad, Good, Good, Good, Good]);
    calc {
      PlanDragEnd([p2], "p2", Some(Execution), dims);
    == { PlanOnColumn([p2], "p2", Execution, dims, p2); }
      PlanMove(p2, Execution, dims);
    == { StatusTrimmed(InValidation);
         assert |InValidation| != |Execution|;
         assert dims.value[0] == Bad;
         assert Guard(Execution, dims) == Deny(SomeDimensionBad); }
      Block(SomeDimensionBad);
    }
  }

  /** Engineering Review project, all dimensions Not Defined, dropped on Cancelled: confirmation. */
  lemma ScenarioCancelConfirm()
    ensures var p3 := SampleProject("p3", EngineeringReview);
            PlanDragEnd([p3], "p3", Some(Cancelled), Some([NotDefined, NotDefined, NotDefined, NotDefined, NotDefined]))
              == AskConfirm(p3)
  {
    var p3 := SampleProject("p3", EngineeringReview);
    var dims := Some([NotDefined, NotDefined, NotDefined, NotDefined, NotDefined]);
    calc {
      PlanDragEnd([p3], "p3", Some(Cancelled), dims);
    == { PlanOnColumn([p3], "p3", Cancelled, dims, p3); }
      PlanMove(p3, Cancelled, dims);
    == { StatusTrimmed(EngineeringReview);
         assert |EngineeringReview| != |Cancelled|;
         assert Bad != NotDefined by { assert |Bad| != |NotDefined|; }
         assert Guard(Cancelled, dims) == Confirm; }
      AskConfirm(p3);
    }
  }

  /** Preanalysis project with a Bad QA dimension, dropped on Cancelled: applied without a prompt. */
  lemma ScenarioCancelWithBad()
    ensures var p4 := SampleProject("p4", Preanalysis);
            PlanDragEnd([p4], "p4", Some(Cancelled), Some([Good, Good, Good, Bad, Good]))
              == Apply(p4.(status := Cancelled))
  {
    var p4 := SampleProject("p4", Preanalysis);
    var dims := Some([Good, Good, Good, Bad, Good]);
    calc {
      PlanDragEnd([p4], "p4", Some(Cancelled), dims);
    == { PlanOnColumn([p4], "p4", Cancelled, dims, p4); }
      PlanMove(p4, Cancelled, dims);
    == { StatusTrimmed(Preanalysis);
         assert |Preanalysis| != |Cancelled|;
         assert dims.value[3] == Bad;
         assert Guard(Cancelled, dims) == Allow; }
      Apply(p4.(status := Cancelled));
    }
  }

  /**
   * The first half of `handleDragEnd`: give up on a drop with no target or
   * on the card itself, or when the dragged card is unknown; take the
   * trimmed drop id when it names a column, else the trimmed status of the
   * card it names, and give up when there is no such card.
   */
  method ResolveDrop(projects: seq<Project>, active: string, over: Option<string>) returns (move: Option<Move>)
    ensures move == DragTarget(projects, active, over)
  {
    if over.None? || active == over.value {
      return None;
    }
    var found := FindProject(projects, active);
    if found.None? {
      return None;
    }
    var newStatus: string;
    var overId := Trim(over.value);
    if overId in KanbanStatuses {
      newStatus := overId;
    } else {
      var overProject := FindProject(projects, overId);
      if overProject.None? {
        return None;
      }
      newStatus := Trim(overProject.value.status);
    }
    assert ResolveTarget(projects, over.value) == Some(newStatus);
    return Some(Move(found.value, newStatus));
  }

  /**
   * The second half of `handleDragEnd`, on a resolved drop: a drop onto the
   * card's own trimmed status does nothing; a move to Execution or Cancelled
   * consults the dimensions, where a Bad one blocks Execution, no Bad one
   * turns Cancelled into a confirmation request, and a failed lookup blocks
   * either; whatever survives is allowed and becomes the updated project.
   */
  method GuardDrop(move: Move, dims: Option<seq<string>>) returns (step: Step)
    ensures step == PlanMove(move.project, move.target, dims)
  {
    var activeProject := move.project;
    var newStatus := move.target;
    PlanMoveVerdict(activeProject, newStatus, dims);
    if Trim(activeProject.status) == newStatus {
      return Ignore;
    }
    var allowed := true;
    if newStatus == Execution || newStatus == Cancelled {
      match dims {
        case None =>
          allowed := false;
          step := Block(ValidationFailed);
          assert Guard(newStatus, dims) == Deny(ValidationFailed);
        case Some(d) =>
          if newStatus == Execution && SomeBad(d) {
            allowed := false;
            step := Block(SomeDimensionBad);
            assert Guard(newStatus, dims) == Deny(SomeDimensionBad);
          }
          if newStatus == Cancelled && NoneBad(d) {
            assert Guard(newStatus, dims) == Confirm;
            return AskConfirm(activeProject);
          }
      }
    }
    if !allowed {
      return;
    }
    assert Guard(newStatus, dims) == Allow;
    return Apply(activeProject.(status := newStatus));
  }

  /** `handleDragEnd`'s decision, computed the way the handler does: resolve the drop, then guard it. */
  method Decide(ps: seq<Project>, active: string, over: Option<string>, dims: Option<seq<string>>) returns (step: Step)
    ensures step == PlanDragEnd(ps, active, over, dims)
  {
    var move := ResolveDrop(ps, active, over);
    PlanViaTarget(ps, active, over, dims);
    if move.None? {
      return Ignore;
    }
    step := GuardDrop(move.value, dims);
  }

  // ---------------------------------------------------------------------------
  // The board's state and handlers

  class Board {
    /** The loaded projects, in backend order. */
    var projects: seq<Project>
    /** The card being dragged, if any. */
    var activeId: Option<string>
    /** `confirmCancelProject`: the project the cancellation dialog is asking about. */
    var pending: Option<Project>

    constructor ()
      ensures projects == [] && activeId == None && pending == None
    {
      projects := [];
      activeId := None;
      pending := None;
    }

    /** `activeProject`: the project of the card being dragged, shown in the drag overlay. */
    function DraggedProject(): (r: Option<Project>)
      reads this
      ensures activeId.None? ==> r.None?
      ensures r.Some? ==> exists i :: 0 <= i < |projects| && projects[i] == r.value && r.value.id == activeId.value &&
                                      forall j :: 0 <= j < i ==> projects[j].id != activeId.value
      ensures activeId.Some? && r.None? ==> forall i :: 0 <= i < |projects| ==> projects[i].id != activeId.value
    {
      if activeId.None? then None else FindProject(projects, activeId.value)
    }

    /** The load effect; `None` is a failed fetch, which leaves the list as it was. */
    method Load(fetched: Option<seq<Project>>)
      modifies this`projects
      ensures projects == if fetched.Some? then KanbanOnly(fetched.value) else old(projects)
    {
      if fetched.Some? {
        projects := KanbanOnly(fetched.value);
      }
    }

    /** `handleDragStart`. */
    method DragStart(id: string)
      modifies this`activeId
      ensures activeId == Some(id)
    {
      activeId := Some(id);
    }

    /**
     * `handleDragEnd` as one step: `dims` is what the dimension lookup would
     * yield and `saveOk` is whether `updateProject` succeeds. The drag marker
     * is cleared first, on every path. Only an applied move changes the list,
     * and a failed save does not undo it. A confirmation request replaces any
     * pending one.
     */
    method DragEnd(active: string, over: Option<string>, dims: Option<seq<string>>, saveOk: bool)
      returns (step: Step, saveFailed: bool)
      modifies this
      ensures activeId == None
      ensures step == PlanDragEnd(old(projects), active, over, dims)
      ensures projects == if step.Apply? then ReplaceById(old(projects), active, step.updated) else old(projects)
      ensures pending == if step.AskConfirm? then Some(step.project) else old(pending)
      ensures saveFailed == (step.Apply? && !saveOk)
    {
      activeId := None;
      step := Decide(projects, active, over, dims);
      saveFailed := Commit(step, active, saveOk);
    }

    /** The second half of `handleDragEnd`: act on the decided step. */
    method Commit(step: Step, active: string, saveOk: bool) returns (saveFailed: bool)
      modifies this`projects, this`pending
      ensures projects == if step.Apply? then ReplaceById(old(projects), active, step.updated) else old(projects)
      ensures pending == if step.AskConfirm? then Some(step.project) else old(pending)
      ensures saveFailed == (step.Apply? && !saveOk)
    {
      saveFailed := false;
      if step.AskConfirm? {
        pending := Some(step.project);
      } else if step.Apply? {
        projects := ReplaceById(projects, active, step.updated);
        // updateProject(updated): a rejection is only reported; the local change stays.
        saveFailed := !saveOk;
      }
    }

    /**
     * `handleConfirmCancel`: with a pending project, set its status to
     * Cancelled in the list and send it; the dialog closes after the save,
     * whether it succeeded or not. Without one, nothing happens.
     */
    method ConfirmCancel(saveOk: bool) returns (sent: Option<Project>, saveFailed: bool)
      modifies this`projects, this`pending
      ensures old(pending).None? ==> sent == None && projects == old(projects) && pending == None
      ensures old(pending).Some? ==>
                && sent == Some(old(pending).value.(status := Cancelled))
                && projects == ReplaceById(old(projects), old(pending).value.id, sent.value)
                && pending == None
      ensures saveFailed == (sent.Some? && !saveOk)
    {
      sent, saveFailed := None, false;
      if pending.None? {
        return;
      }
      var updated := pending.value.(status := Cancelled);
      projects := ReplaceById(projects, updated.id, updated);
      sent := Some(updated);
      // updateProject(updated): a rejection is only reported.
      saveFailed := !saveOk;
      pending := None;
    }

    /** `handleAbortCancel`: close the dialog; the list is untouched. */
    method AbortCancel()
      modifies this`pending
      ensures pending == None
    {
      pending := None;
    }
  }

  lemma OpenCancelAsksConfirm(p: Project)
    requires p.status == Open
    ensures PlanMove(p, Cancelled, Some([Good, Good, Good, Good, Good])) == AskConfirm(p)
  {
    StatusTrimmed(Open);
    assert |Open| != |Cancelled|;
    assert Bad != Good by { assert |Bad| != |Good|; }
    assert Guard(Cancelled, Some([Good, Good, Good, Good, Good])) == Confirm;
  }

  function SampleA(): Project { SampleProject("a", Open) }
  function SampleB(): Project { SampleProject("b", Open) }
  function AllGood(): Option<seq<string>> { Some([Good, Good, Good, Good, Good]) }

  /** Both sample projects are on the board after loading. */
  lemma ScenarioLoadKeepsBoth()
    ensures KanbanOnly([SampleA(), SampleB()]) == [SampleA(), SampleB()]
  {
    StatusTrimmed(Open);
    Lists.FilterKeepsAll([SampleA(), SampleB()], OnBoard);
  }

  /** Dropping the first Open project on Cancelled, with no Bad dimension, asks for confirmation. */
  lemma ScenarioFirstCancelRequest()
    ensures PlanDragEnd([SampleA(), SampleB()], "a", Some(Cancelled), AllGood()) == AskConfirm(SampleA())
  {
    var a, b := SampleA(), SampleB();
    calc {
      PlanDragEnd([a, b], "a", Some(Cancelled), AllGood());
    == { assert FindProject([a, b], "a") == Some(a);
         PlanOnColumn([a, b], "a", Cancelled, AllGood(), a); }
      PlanMove(a, Cancelled, AllGood());
    == { OpenCancelAsksConfirm(a); }
      AskConfirm(a);
    }
  }

  /** So does dropping the second one. */
  lemma ScenarioSecondCancelRequest()
    ensures PlanDragEnd([SampleA(), SampleB()], "b", Some(Cancelled), AllGood()) == AskConfirm(SampleB())
  {
    var a, b := SampleA(), SampleB();
    calc {
      PlanDragEnd([a, b], "b", Some(Cancelled), AllGood());
    == { SamplesUnique();
         FindUnique([a, b], 1);
         PlanOnColumn([a, b], "b", Cancelled, AllGood(), b); }
      PlanMove(b, Cancelled, AllGood());
    == { OpenCancelAsksConfirm(b); }
      AskConfirm(b);
    }
  }

  /** Confirming the second request rewrites only the second project. */
  lemma ScenarioConfirmSecond()
    ensures ReplaceById([SampleA(), SampleB()], "b", SampleB().(status := Cancelled))
            == [SampleA(), SampleB().(status := Cancelled)]
  {
    SamplesUnique();
    ReplaceByIdUnique([SampleA(), SampleB()], 1, SampleB().(status := Cancelled));
  }

  lemma SamplesUnique()
    ensures forall i, j :: 0 <= i < j < |[SampleA(), SampleB()]| ==> [SampleA(), SampleB()][i].id != [SampleA(), SampleB()][j].id
    ensures SampleB().id == "b"
  {
    assert "a"[0] != "b"[0];
  }

  /**
   * The same two requests on a board: the second silently replaces the
   * first, and confirming cancels only the second project.
   */
  method PendingIsOverwritten() {
    var a, b, dims := SampleA(), SampleB(), AllGood();
    ScenarioLoadKeepsBoth();
    ScenarioFirstCancelRequest();
    ScenarioSecondCancelRequest();
    ScenarioConfirmSecond();
    SamplesUnique();
    var board := new Board();
    board.Load(Some([a, b]));
    var s1, _ := board.DragEnd("a", Some(Cancelled), dims, true);
    assert s1 == AskConfirm(a) && board.pending == Some(a);
    var s2, _ := board.DragEnd("b", Some(Cancelled), dims, true);
    assert s2 == AskConfirm(b) && board.pending == Some(b);
    var sent, failed := board.ConfirmCancel(false);
    assert sent == Some(b.(status := Cancelled)) && failed;
    assert board.projects == [a, b.(status := Cancelled)];
    assert board.pending == None;
  }
}
