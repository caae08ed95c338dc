/**
 * The edit wizard's container: it holds the form state of every step, loads
 * the project named in the route into the details state, derives the active
 * tab from the location and chooses the route a tab click navigates to.
 */
module EditPursuitContainer {
  import opened Wrappers
  import opened Text
  import opened Types
  import opened TagCodec

  // The other steps' form records, as the container initialises them.
  datatype TeamData = TeamData(composition: string, teamConfiguration: string, englishLevel: string,
                               deployDate: string, status: string, observations: string)
  datatype PlanData = PlanData(backlogResponsible: string, roadMap: string, deliverables: string,
                               status: string, observations: string)
  datatype ProcessData = ProcessData(stack: string, methodology: string, frequencyToDeploy: string,
                                     latamInfluence: string, accountabilityLevel: string,
                                     observations: string, status: string)
  datatype QAData = QAData(currentStatus: string, testTools: string, automationLevel: string,
                           manualProcess: bool, automatedProcess: bool, observations: string, status: string)
  datatype GutDimension = GutDimension(id: string, observations: string, status: string)

  /** The container's state: the project id and the form record of every step. */
  datatype ContainerState = ContainerState(projectId: Option<string>, details: DetailsData, team: TeamData,
                                           plan: PlanData, process: ProcessData, qa: QAData, gut: GutDimension)

  /** JavaScript's `x || ""` on an optional string. */
  function OrEmpty(o: Option<string>): string {
    match o
    case Some(v) => v
    case None => ""
  }

  /** `routeProjectId || null`: the empty route parameter counts as no id. */
  function OrNull(o: Option<string>): (r: Option<string>)
    ensures r.Some? <==> o.Some? && o.value != ""
    ensures r.Some? ==> r == o
  {
    if o.Some? && o.value != "" then o else None
  }

  /** `!!projectId`: the tabs are shown only for a non-empty project id. */
  predicate ShowTabs(projectId: Option<string>) {
    projectId.Some? && projectId.value != ""
  }

  /** The state before anything is loaded: blank details, every dimension "Not Defined". */
  function Initial(routeProjectId: Option<string>): (s: ContainerState)
    ensures s.projectId == OrNull(routeProjectId)
    ensures forall f :: FieldValue(s.details, f) == ""
    ensures s.team.status == NotDefined && s.plan.status == NotDefined && s.process.status == NotDefined
    ensures s.qa.status == NotDefined && s.gut.status == NotDefined
    ensures !s.qa.manualProcess && !s.qa.automatedProcess
  {
    ContainerState(
      OrNull(routeProjectId),
      DetailsData("", "", "", "", "", "", "", "", "", "", "", "", "", "", "", "", "", "", "", "", "", ""),
      TeamData("", "", "", "", NotDefined, ""),
      PlanData("", "", "", NotDefined, ""),
      ProcessData("", "", "", "", "", "", NotDefined),
      QAData("", "", "", false, false, "", NotDefined),
      GutDimension("", "", NotDefined))
  }

  /**
   * The load effect's details record: name and status verbatim, account and
   * BU ids and names verbatim, every optional string field `|| ""`, the
   * responsibles joined with ", ", and the two fields a project does not
   * carry left blank.
   */
  function ToDetails(p: Project): (d: DetailsData)
    ensures d.pursuitName == p.name && d.status == p.status
    ensures d.accountId == p.account.id && d.accountName == p.account.name
    ensures d.buOwnerId == p.account.buOwner.id && d.buOwnerName == p.account.buOwner.name
    ensures d.primarySalesBU == "" && d.pursuitKind == ""
    ensures p.responsibleFromLatam.None? ==> d.responsibleFromLatam == ""
    ensures p.responsibleFromLatam.Some? ==> d.responsibleFromLatam == Encode(p.responsibleFromLatam.value)
    ensures p.gmPercentage.None? ==> d.gmPercentage == ""
    ensures p.totalSOW.None? ==> d.totalSOW == ""
    ensures p.contractType.None? ==> d.contractType == ""
    ensures p.usaPointOfContact.None? ==> d.usaPointOfContact == ""
    ensures p.pursuitStartDate.None? ==> d.pursuitStartDate == ""
    ensures p.pursuitEndDate.None? ==> d.pursuitEndDate == ""
    ensures p.additionalBackground.None? ==> d.additionalBackground == ""
    ensures p.onboardingProcess.None? ==> d.onboardingProcess == ""
    ensures p.servicesScope.None? ==> d.servicesScope == ""
    ensures p.levelOfAccount.None? ==> d.levelOfAccount == ""
    ensures p.fullTimeEmployees.None? ==> d.fullTimeEmployees == ""
    ensures p.averageBillingRate.None? ==> d.averageBillingRate == ""
    ensures p.totalHours.None? ==> d.totalHours == ""
  {
    DetailsData(
      pursuitName := p.name,
      gmPercentage := OrEmpty(p.gmPercentage),
      totalSOW := OrEmpty(p.totalSOW),
      primarySalesBU := "",
      accountId := p.account.id,
      accountName := p.account.name,
      buOwnerId := p.account.buOwner.id,
      buOwnerName := p.account.buOwner.name,
      contractType := OrEmpty(p.contractType),
      usaPointOfContact := OrEmpty(p.usaPointOfContact),
      pursuitStartDate := OrEmpty(p.pursuitStartDate),
      pursuitEndDate := OrEmpty(p.pursuitEndDate),
      additionalBackground := OrEmpty(p.additionalBackground),
      onboardingProcess := OrEmpty(p.onboardingProcess),
      servicesScope := OrEmpty(p.servicesScope),
      levelOfAccount := OrEmpty(p.levelOfAccount),
      fullTimeEmployees := OrEmpty(p.fullTimeEmployees),
      averageBillingRate := OrEmpty(p.averageBillingRate),
      totalHours := OrEmpty(p.totalHours),
      responsibleFromLatam := Encode(p.responsibleFromLatam.GetOr([])),
      pursuitKind := "",
      status := p.status)
  }

  /**
   * The load effect: it runs only for a non-empty route id; a fetched
   * project sets the id and the details, a failed fetch changes nothing.
   * The other steps' records are never touched.
   */
  function AfterLoad(s: ContainerState, routeProjectId: Option<string>, fetched: Option<Project>): (t: ContainerState)
    ensures t.team == s.team && t.plan == s.plan && t.process == s.process && t.qa == s.qa && t.gut == s.gut
    ensures OrNull(routeProjectId).None? || fetched.None? ==> t == s
    ensures OrNull(routeProjectId).Some? && fetched.Some? ==>
              t.projectId == Some(fetched.value.id) && t.details == ToDetails(fetched.value)
  {
    if OrNull(routeProjectId).Some? && fetched.Some? then
      s.(projectId := Some(fetched.value.id), details := ToDetails(fetched.value))
    else s
  }

  /** Loading a project shows the tabs exactly when the project's id is non-empty. */
  lemma LoadShowsTabs(s: ContainerState, routeProjectId: string, p: Project)
    requires routeProjectId != ""
    ensures ShowTabs(AfterLoad(s, Some(routeProjectId), Some(p)).projectId) <==> p.id != ""
  {
  }

  const DefaultTab := "details"
  const EditRoutePrefix := "/pursuits/edit/"

  /**
   * `currentTab`: the last "/"-separated segment of the path, or "details"
   * when that segment is empty. Either way it is non-empty, and a segment
   * that is used is a suffix of the path.
   */
  function CurrentTab(pathname: string): (tab: string)
    ensures tab != ""
    ensures tab == DefaultTab || (|tab| <= |pathname| && pathname[|pathname| - |tab|..] == tab)
  {
    SplitLastIsSuffix(pathname, "/");
    var parts := Split(pathname, "/");
    var last := parts[|parts| - 1];
    if last != "" then last else DefaultTab
  }

  /** A path ending in "/" (the empty path as well) shows the details tab. */
  lemma TrailingSlashShowsDetails(x: string)
    ensures CurrentTab(x + "/") == DefaultTab
    ensures CurrentTab("") == DefaultTab
  {
    NotContainsChar("", '/');
    SplitLastPiece(x, "/", "");
    assert x + "/" + "" == x + "/";
  }

  /** Where a tab click goes: the route to navigate to, whether it replaces history, and the state passed. */
  datatype Navigation = Navigation(path: string, replace: bool, state: Option<string>)

  /** A template literal's rendering of `useParams`' `string | undefined`. */
  function RouteParam(routeProjectId: Option<string>): string {
    match routeProjectId
    case Some(id) => id
    case None => "undefined"
  }

  /**
   * `handleTabClick`: without a project id, replace the location with the
   * details route of the route's id; with one, push the clicked tab's route
   * of that project id and pass the id along as state.
   */
  function TabClick(routeProjectId: Option<string>, projectId: Option<string>, tab: string): (nav: Navigation)
    ensures !ShowTabs(projectId) ==>
              nav == Navigation(EditRoutePrefix + RouteParam(routeProjectId) + "/" + DefaultTab, true, None)
    ensures ShowTabs(projectId) ==>
              nav == Navigation(EditRoutePrefix + projectId.value + "/" + tab, false, projectId)
  {
    if !ShowTabs(projectId) then
      Navigation(EditRoutePrefix + RouteParam(routeProjectId) + "/" + DefaultTab, true, None)
    else
      Navigation(EditRoutePrefix + projectId.value + "/" + tab, false, projectId)
  }

  /** A path whose last segment is a non-empty name without "/" shows that name as its tab. */
  lemma LastSegmentIsTab(x: string, tab: string)
    requires tab != "" && '/' !in tab
    ensures CurrentTab(x + "/" + tab) == tab
  {
    NotContainsChar(tab, '/');
    SplitLastPiece(x, "/", tab);
  }

  /**
   * After a tab click the derived tab is the clicked one when the tabs are
   * shown (for a non-empty tab name without "/"), and "details" otherwise.
   */
  lemma TabClickReadBack(routeProjectId: Option<string>, projectId: Option<string>, tab: string)
    requires tab != "" && '/' !in tab
    ensures ShowTabs(projectId) ==> CurrentTab(TabClick(routeProjectId, projectId, tab).path) == tab
    ensures !ShowTabs(projectId) ==> CurrentTab(TabClick(routeProjectId, projectId, tab).path) == DefaultTab
  {
    if ShowTabs(projectId) {
      LastSegmentIsTab(EditRoutePrefix + projectId.value, tab);
    } else {
      assert '/' !in DefaultTab;
      LastSegmentIsTab(EditRoutePrefix + RouteParam(routeProjectId), DefaultTab);
    }
  }
}
