/**
  The decisions the organization team list view makes when it renders: which
  projects appear under each team and in what order, whether a team shows its
  project rows or the "no projects" prompt, which of three empty-state messages
  appears when the viewer is in no team, when the team-settings link appears,
  the request a bookmark toggle or a "leave team" click sends, and the chart
  points drawn for a project's stats.

  The render tree is modelled by the choices it encodes (datatype constructors)
  and the URLs it links to; markup, styling and translation are not. Translated
  messages are identified by their constructor (or, for notifications, by their
  message key). Outbound calls are returned as request values instead of being sent.
 */
module ExpandedTeamList {
  import opened Wrappers
  import opened SequenceOps

  datatype Team = Team(slug: string)

  /** One stats entry: a `[timestamp, count]` pair. */
  type StatPoint = (int, int)

  datatype Project = Project(
    slug: string,
    name: string,
    isBookmarked: bool,
    teams: seq<Team>,
    stats: Option<seq<StatPoint>>)

  datatype Organization = Organization(slug: string)

  /** The view's props; `hasTeams` is optional and an absent value reads as false. */
  datatype Props = Props(
    access: set<string>,
    organization: Organization,
    teamList: seq<Team>,
    projectList: seq<Project>,
    hasTeams: bool)

  /** The payload sent to the project-update endpoint. */
  datatype ProjectUpdateRequest = ProjectUpdateRequest(orgId: string, projectId: string, isBookmarked: bool)

  /** The identifiers sent to the leave-team endpoint. */
  datatype LeaveTeamRequest = LeaveTeamRequest(orgId: string, teamId: string)

  datatype CallOutcome = Succeeded | Failed

  /** An entry of the process-wide indicator queue: a message key and a severity. */
  datatype Notification = Notification(message: string, level: string)

  datatype ChartPoint = ChartPoint(x: int, y: int)

  /** One project row: the bookmark icon state, the request its toggle sends, its link and its chart. */
  datatype ProjectRow = ProjectRow(
    bookmarked: bool,
    onToggleBookmark: ProjectUpdateRequest,
    link: string,
    chart: Option<seq<ChartPoint>>)

  datatype TeamBody =
    | ProjectRows(rows: seq<ProjectRow>)
    | NoProjects(createProjectLink: string)

  /** One team box, keyed by the team slug. */
  datatype TeamNode = TeamNode(
    key: string,
    onLeave: LeaveTeamRequest,
    settingsLink: Option<string>,
    body: TeamBody)

  /** The three empty-state messages with the links interpolated into them. */
  datatype EmptyState =
    | CreateFirstTeam(createLink: string)
    | JoinOrCreate(joinLink: string, createLink: string)
    | JoinOnly(joinLink: string)

  datatype View =
    | TeamNodes(nodes: seq<TeamNode>)
    | Empty(message: EmptyState)

  const TeamWrite := "team:write"
  const ProjectWrite := "project:write"
  const LeaveTeamErrorMessage := "There was an error while trying to leave the team."

  // ---------------------------------------------------------------- URLs

  function UrlPrefix(org: Organization): string
  {
    "/organizations/" + org.slug
  }

  /** Link of the "no projects" prompt: project creation pre-filled with the team. */
  function NewProjectUrl(org: Organization, team: Team): string
  {
    UrlPrefix(org) + "/projects/new/?team=" + team.slug
  }

  function TeamSettingsUrl(org: Organization, team: Team): string
  {
    "/organizations/" + org.slug + "/teams/" + team.slug + "/settings/"
  }

  function NewTeamUrl(org: Organization): string
  {
    UrlPrefix(org) + "/teams/new/"
  }

  function AllTeamsUrl(org: Organization): string
  {
    "/organizations/" + org.slug + "/teams/all-teams/"
  }

  function ProjectUrl(org: Organization, project: Project): string
  {
    "/" + org.slug + "/" + project.slug + "/"
  }

  lemma InfixCancel(p: string, a: string, b: string, q: string)
    requires p + a + q == p + b + q
    ensures a == b
  {
    assert |a| == |b|;
    assert a == (p + a + q)[|p|..|p| + |a|];
    assert b == (p + b + q)[|p|..|p| + |b|];
  }

  /** Within one organization the project-creation prompt identifies its team. */
  lemma NewProjectUrlIdentifiesTeam(org: Organization, a: Team, b: Team)
    ensures NewProjectUrl(org, a) == NewProjectUrl(org, b) <==> a == b
  {
    if NewProjectUrl(org, a) == NewProjectUrl(org, b) {
      InfixCancel(UrlPrefix(org) + "/projects/new/?team=", a.slug, b.slug, "");
    }
  }

  /** Within one organization the settings link identifies its team. */
  lemma TeamSettingsUrlIdentifiesTeam(org: Organization, a: Team, b: Team)
    ensures TeamSettingsUrl(org, a) == TeamSettingsUrl(org, b) <==> a == b
  {
    if TeamSettingsUrl(org, a) == TeamSettingsUrl(org, b) {
      InfixCancel("/organizations/" + org.slug + "/teams/", a.slug, b.slug, "/settings/");
    }
  }

  // ---------------------------------------------------------------- projects of a team

  /** `teams.find(t1 => t1.slug == slug)`: the first team with that slug, if any. */
  function FindTeamBySlug(teams: seq<Team>, slug: string): (r: Option<Team>)
    ensures r.Some? <==> exists t :: t in teams && t.slug == slug
    ensures r.Some? ==> r.value.slug == slug
    ensures r.Some? ==>
      exists i :: 0 <= i < |teams| && teams[i] == r.value &&
        forall k :: 0 <= k < i ==> teams[k].slug != slug
  {
    if teams == [] then None
    else if teams[0].slug == slug then Some(teams[0])
    else
      var r := FindTeamBySlug(teams[1..], slug);
      assert forall t :: t in teams[1..] ==> t in teams;
      assert teams == [teams[0]] + teams[1..];
      if r.Some? then
        var i :| 0 <= i < |teams[1..]| && teams[1..][i] == r.value && forall k :: 0 <= k < i ==> teams[1..][k].slug != slug;
        assert teams[i + 1] == r.value;
        r
      else r
  }

  /** A project belongs to a team iff one of its teams carries the team's slug. */
  predicate BelongsTo(project: Project, team: Team)
  {
    FindTeamBySlug(project.teams, team.slug).Some?
  }

  function ProjectName(project: Project): string
  {
    project.name
  }

  /**
    `getProjectsForTeam`: the projects of `projectList` that belong to `team`,
    each as often as it occurs there, ordered ascending by name.
   */
  function ProjectsForTeam(projectList: seq<Project>, team: Team): (r: seq<Project>)
    ensures forall p :: p in r <==> p in projectList && exists t :: t in p.teams && t.slug == team.slug
    ensures forall p :: multiset(r)[p] == if BelongsTo(p, team) then multiset(projectList)[p] else 0
    ensures SortedBy(r, ProjectName)
  {
    var kept := Filter(projectList, (p: Project) => BelongsTo(p, team));
    var sorted := SortBy(kept, ProjectName);
    assert forall p :: p in sorted <==> p in kept by {
      forall p ensures p in sorted <==> p in kept {
        assert p in sorted <==> p in multiset(sorted);
        assert p in kept <==> p in multiset(kept);
      }
    }
    sorted
  }

  // ---------------------------------------------------------------- per-project row

  /** `toggleBookmark`: the update request for a project, built from it and never changing it. */
  function ToggleBookmark(org: Organization, project: Project): (req: ProjectUpdateRequest)
    ensures req.orgId == org.slug && req.projectId == project.slug
    ensures req.isBookmarked != project.isBookmarked
  {
    ProjectUpdateRequest(org.slug, project.slug, !project.isBookmarked)
  }

  /** Mapping a stats entry to a chart point; its positions become `x` and `y`. */
  function ToChartPoint(point: StatPoint): ChartPoint
  {
    ChartPoint(point.0, point.1)
  }

  function FromChartPoint(point: ChartPoint): StatPoint
  {
    (point.x, point.y)
  }

  /** `project.stats && project.stats.map(...)`: present iff the stats are, one point per entry. */
  function ChartData(stats: Option<seq<StatPoint>>): (chart: Option<seq<ChartPoint>>)
    ensures chart.Some? <==> stats.Some?
    ensures chart.Some? ==> |chart.value| == |stats.value|
    ensures chart.Some? ==>
      forall i :: 0 <= i < |stats.value| ==>
        chart.value[i].x == stats.value[i].0 && chart.value[i].y == stats.value[i].1
  {
    match stats
    case None => None
    case Some(points) => Some(Map(points, ToChartPoint))
  }

  /** The chart points carry the stats unchanged: reading them back gives the stats again. */
  lemma ChartDataRoundTrip(stats: seq<StatPoint>)
    ensures ChartData(Some(stats)).Some?
    ensures Map(ChartData(Some(stats)).value, FromChartPoint) == stats
  {
  }

  function RenderProject(org: Organization, project: Project): (row: ProjectRow)
    ensures row.bookmarked == project.isBookmarked
    ensures row.onToggleBookmark.isBookmarked == !project.isBookmarked
    ensures row.onToggleBookmark.projectId == project.slug
    ensures row.chart.Some? <==> project.stats.Some?
    ensures row.chart == ChartData(project.stats)
    ensures row.onToggleBookmark == ToggleBookmark(org, project)
    ensures row.link == ProjectUrl(org, project)
  {
    ProjectRow(project.isBookmarked, ToggleBookmark(org, project), ProjectUrl(org, project), ChartData(project.stats))
  }

  // ---------------------------------------------------------------- team node

  /** `leaveTeam`: the identifiers of the leave-team request. */
  function LeaveTeam(org: Organization, team: Team): (req: LeaveTeamRequest)
    ensures req.orgId == org.slug && req.teamId == team.slug
  {
    LeaveTeamRequest(org.slug, team.slug)
  }

  /**
    The indicator queue after a leave-team request finishes: a failure appends
    exactly one `error` entry and leaves the existing entries alone; a success
    changes nothing.
   */
  function AfterLeaveTeam(outcome: CallOutcome, queue: seq<Notification>): (r: seq<Notification>)
    ensures |r| == |queue| + (if outcome.Failed? then 1 else 0)
    ensures r[..|queue|] == queue
    ensures outcome.Failed? ==> r[|queue|].level == "error" && r[|queue|].message == LeaveTeamErrorMessage
  {
    match outcome
    case Succeeded => queue
    case Failed => queue + [Notification(LeaveTeamErrorMessage, "error")]
  }

  /**
    `renderTeamNode`: the settings link appears iff the access set grants
    `team:write`; the body lists the team's projects in order when it has any,
    and otherwise prompts to create one for the team.
   */
  function RenderTeamNode(props: Props, team: Team): (node: TeamNode)
    ensures node.key == team.slug
    ensures node.onLeave == LeaveTeamRequest(props.organization.slug, team.slug)
    ensures node.settingsLink.Some? <==> TeamWrite in props.access
    ensures node.settingsLink.Some? ==> node.settingsLink.value == TeamSettingsUrl(props.organization, team)
    ensures node.body.ProjectRows? <==> exists p :: p in props.projectList && BelongsTo(p, team)
    ensures node.body.ProjectRows? ==>
      var projects := ProjectsForTeam(props.projectList, team);
      |node.body.rows| == |projects| &&
      forall i :: 0 <= i < |projects| ==> node.body.rows[i] == RenderProject(props.organization, projects[i])
    ensures node.body.NoProjects? ==> node.body.createProjectLink == NewProjectUrl(props.organization, team)
  {
    var org := props.organization;
    var projects := ProjectsForTeam(props.projectList, team);
    var settings := if TeamWrite in props.access then Some(TeamSettingsUrl(org, team)) else None;
    var body :=
      if |projects| > 0 then
        ProjectRows(Map(projects, (p: Project) => RenderProject(org, p)))
      else
        assert forall p :: p in props.projectList && BelongsTo(p, team) ==> p in projects;
        NoProjects(NewProjectUrl(org, team));
    TeamNode(team.slug, LeaveTeam(org, team), settings, body)
  }

  // ---------------------------------------------------------------- whole view

  /**
    `renderEmpty`: with no team in the organization, invite the viewer to create
    the first one; otherwise invite them to join one, and also to create one when
    the access set grants `project:write`.
   */
  function RenderEmpty(props: Props): (msg: EmptyState)
    ensures msg.CreateFirstTeam? <==> !props.hasTeams
    ensures msg.JoinOrCreate? <==> props.hasTeams && ProjectWrite in props.access
    ensures msg.JoinOnly? <==> props.hasTeams && ProjectWrite !in props.access
    ensures !msg.CreateFirstTeam? ==> msg.joinLink == AllTeamsUrl(props.organization)
    ensures !msg.JoinOnly? ==> msg.createLink == NewTeamUrl(props.organization)
  {
    var org := props.organization;
    if props.hasTeams then
      if ProjectWrite in props.access then JoinOrCreate(AllTeamsUrl(org), NewTeamUrl(org))
      else JoinOnly(AllTeamsUrl(org))
    else
      CreateFirstTeam(NewTeamUrl(org))
  }

  /**
    `render`: one team node per team of `teamList`, in that order, when the list
    is non-empty; the empty state otherwise.
   */
  function Render(props: Props): (v: View)
    ensures v.TeamNodes? <==> |props.teamList| > 0
    ensures v.TeamNodes? ==>
      |v.nodes| == |props.teamList| &&
      forall i :: 0 <= i < |props.teamList| ==>
        v.nodes[i] == RenderTeamNode(props, props.teamList[i]) && v.nodes[i].key == props.teamList[i].slug
    ensures v.Empty? ==> v.message == RenderEmpty(props)
  {
    if |props.teamList| > 0 then
      TeamNodes(Map(props.teamList, (team: Team) => RenderTeamNode(props, team)))
    else
      Empty(RenderEmpty(props))
  }
}
