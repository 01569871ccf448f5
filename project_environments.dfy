/**
  The project environments endpoint: list the environments of one project,
  ordered by environment name, narrowed by the `visibility` query parameter.
  The parameter defaults to `visible`; a value outside the table of filters
  is answered with status 400 and a `detail` message instead of a list.
 */
module ProjectEnvironments {
  import opened Wrappers
  import opened SequenceOps

  /**
    A row linking an environment to a project. `isHidden` is a nullable
    boolean column: `None` is a row whose flag was never set.
   */
  datatype EnvironmentProject = EnvironmentProject(projectId: int, environmentName: string, isHidden: Option<bool>)

  /** The entries of the filter table. */
  datatype Visibility = All | Hidden | Visible

  datatype ResponseBody =
    | Environments(environments: seq<EnvironmentProject>)
    | Detail(detail: string)

  datatype Response = Response(status: int, body: ResponseBody)

  const DefaultVisibility := "visible"

  /** The table's keys, listed in the order they are declared. */
  const ValidValuesRepr := "['all', 'hidden', 'visible']"

  const InvalidVisibilityDetail := "Invalid value for 'visibility', valid values are: " + ValidValuesRepr

  /** The key under which a filter is registered in the table. */
  function VisibilityName(v: Visibility): string
  {
    match v
    case All => "all"
    case Hidden => "hidden"
    case Visible => "visible"
  }

  /** Membership in the table and lookup of the filter it names. */
  function LookupVisibility(name: string): (r: Option<Visibility>)
    ensures r.Some? <==> name in {"all", "hidden", "visible"}
    ensures r.Some? ==> VisibilityName(r.value) == name
  {
    if name == "all" then Some(All)
    else if name == "hidden" then Some(Hidden)
    else if name == "visible" then Some(Visible)
    else None
  }

  /** Every table key looks up the filter registered under it. */
  lemma LookupVisibilityName(v: Visibility)
    ensures LookupVisibility(VisibilityName(v)) == Some(v)
  {
  }

  /** `request.GET.get('visibility', 'visible')` followed by the membership check. */
  function ParseVisibility(param: Option<string>): (r: Result<Visibility, string>)
    ensures param.None? ==> r == Success(Visible)
    ensures param.Some? ==> (r.Success? <==> param.value in {"all", "hidden", "visible"})
    ensures param.Some? && r.Success? ==> VisibilityName(r.value) == param.value
    ensures r.Failure? ==> r.error == InvalidVisibilityDetail
  {
    var name := match param case None => DefaultVisibility case Some(s) => s;
    match LookupVisibility(name)
    case None => Failure(InvalidVisibilityDetail)
    case Some(v) => Success(v)
  }

  predicate IsHidden(e: EnvironmentProject)
  {
    e.isHidden == Some(true)
  }

  predicate IsNotHidden(e: EnvironmentProject)
  {
    !IsHidden(e)
  }

  /** `filter(is_hidden=True)`: exactly the rows whose flag is true, in order. */
  function HiddenOnly(qs: seq<EnvironmentProject>): (r: seq<EnvironmentProject>)
    ensures forall e :: multiset(r)[e] == if e.isHidden == Some(true) then multiset(qs)[e] else 0
    ensures IsSubsequence(r, qs)
  {
    Filter(qs, IsHidden)
  }

  /** `exclude(is_hidden=True)`: exactly the rows whose flag is false or unset, in order. */
  function VisibleOnly(qs: seq<EnvironmentProject>): (r: seq<EnvironmentProject>)
    ensures forall e :: multiset(r)[e] == if e.isHidden != Some(true) then multiset(qs)[e] else 0
    ensures IsSubsequence(r, qs)
  {
    Filter(qs, IsNotHidden)
  }

  /** Applies the filter the table registers for `v`. */
  function ApplyVisibility(v: Visibility, qs: seq<EnvironmentProject>): (r: seq<EnvironmentProject>)
    ensures v.All? ==> r == qs
    ensures v.Hidden? ==> r == HiddenOnly(qs)
    ensures v.Visible? ==> r == VisibleOnly(qs)
    ensures IsSubsequence(r, qs)
  {
    match v
    case All => SubsequenceReflexive(qs); qs
    case Hidden => HiddenOnly(qs)
    case Visible => VisibleOnly(qs)
  }

  function EnvironmentName(e: EnvironmentProject): string
  {
    e.environmentName
  }

  /** The project's rows, ordered by environment name (the queryset before any visibility filter). */
  function ProjectQueryset(rows: seq<EnvironmentProject>, projectId: int): (qs: seq<EnvironmentProject>)
    ensures forall e :: multiset(qs)[e] == if e.projectId == projectId then multiset(rows)[e] else 0
    ensures SortedBy(qs, EnvironmentName)
  {
    SortBy(Filter(rows, (e: EnvironmentProject) => e.projectId == projectId), EnvironmentName)
  }

  /** `ProjectEnvironmentsEndpoint.get` on the stored rows, the project and the query parameter. */
  function Get(rows: seq<EnvironmentProject>, projectId: int, visibility: Option<string>): (resp: Response)
    ensures resp.status == 400 <==> ParseVisibility(visibility).Failure?
    ensures resp.status == 400 ==> resp.body == Detail(InvalidVisibilityDetail)
    ensures resp.status != 400 ==> resp.status == 200 && resp.body.Environments?
    ensures resp.body.Environments? ==>
      resp.body.environments == ApplyVisibility(ParseVisibility(visibility).value, ProjectQueryset(rows, projectId))
  {
    match ParseVisibility(visibility)
    case Failure(detail) => Response(400, Detail(detail))
    case Success(v) => Response(200, Environments(ApplyVisibility(v, ProjectQueryset(rows, projectId))))
  }

  /** `hidden` and `visible` split the rows between them: every row lands in exactly one. */
  lemma {:induction false} HiddenVisiblePartition(qs: seq<EnvironmentProject>)
    ensures multiset(HiddenOnly(qs)) + multiset(VisibleOnly(qs)) == multiset(qs)
    ensures |HiddenOnly(qs)| + |VisibleOnly(qs)| == |qs|
  {
    var h, v := multiset(HiddenOnly(qs)), multiset(VisibleOnly(qs));
    forall e ensures (h + v)[e] == multiset(qs)[e] {
    }
    assert h + v == multiset(qs);
    assert |h + v| == |h| + |v|;
  }

  /** Every filter keeps the name order of the queryset it is applied to. */
  lemma VisibilityKeepsOrder(v: Visibility, qs: seq<EnvironmentProject>)
    requires SortedBy(qs, EnvironmentName)
    ensures SortedBy(ApplyVisibility(v, qs), EnvironmentName)
  {
    SubsequenceKeepsOrder(ApplyVisibility(v, qs), qs, EnvironmentName);
  }

  /**
    What a successful response lists: rows of the requested project only,
    ordered by environment name, each selected by the requested visibility.
   */
  lemma GetListsProjectRowsInNameOrder(rows: seq<EnvironmentProject>, projectId: int, visibility: Option<string>)
    requires Get(rows, projectId, visibility).status == 200
    ensures forall e :: e in Get(rows, projectId, visibility).body.environments ==>
      e.projectId == projectId && e in rows
    ensures SortedBy(Get(rows, projectId, visibility).body.environments, EnvironmentName)
  {
    var qs := ProjectQueryset(rows, projectId);
    var out := Get(rows, projectId, visibility).body.environments;
    VisibilityKeepsOrder(ParseVisibility(visibility).value, qs);
    SubsequenceMembers(out, qs);
    forall e | e in out ensures e.projectId == projectId && e in rows {
      assert e in qs;
      assert multiset(qs)[e] > 0;
    }
  }

  /** With the parameter absent, a project's rows are listed without the hidden ones. */
  lemma GetDefaultsToVisible(rows: seq<EnvironmentProject>, projectId: int)
    ensures Get(rows, projectId, None) == Response(200, Environments(VisibleOnly(ProjectQueryset(rows, projectId))))
  {
  }
}
