# Team list and environment visibility, modelled in Dafny

This project models two small pieces of selection logic from Sentry:

- **The organization team list view** (`ExpandedTeamList`). Given the props `teamList`,
  `projectList`, `access`, `organization` and `hasTeams`, the view decides:
  - which projects appear under each team, in what order;
  - whether a team box lists project rows or prompts to create the first project;
  - which of three empty-state messages appears when the viewer is in no team;
  - when the team-settings link appears;
  - what request a bookmark toggle or a "leave team" click sends;
  - what the indicator queue holds after a failed leave;
  - which chart points are drawn for a project's stats.

  The render tree is modelled as datatypes that record these choices and the URLs they link to.
- **The project environments endpoint** (`ProjectEnvironments`). It lists a project's
  environment rows ordered by name. The `visibility` query parameter selects `all`, `hidden`
  or `visible` rows and defaults to `visible`. Any other value gets status 400 with a
  `detail` message.

Both source files are pure selection logic, so the model uses datatypes, functions and lemmas.
Shared sequence operations live in `SequenceOps`: map, filter, sorting ascending by a string
key, and the character-lexicographic order on strings. Optional values and results live in
`Wrappers`.

The name sort is delegated to the `sortArray` utility, which is not part of this model.
So `SequenceOps.SortBy` promises only an ordered permutation and says nothing about how
ties are ordered.

## Model

| member | source | states |
|---|---|---|
| `SequenceOps.Filter` | src/sentry/static/sentry/app/views/organizationTeams/expandedTeamList.jsx:69 | keeps exactly the elements satisfying the predicate, each as often as in the input, as a subsequence (relative order kept) |
| `SequenceOps.SortBy` | src/sentry/static/sentry/app/views/organizationTeams/expandedTeamList.jsx:68-73 | the result is ordered ascending by the key and is a permutation of the input |
| `SequenceOps.Map` | src/sentry/static/sentry/app/views/organizationTeams/expandedTeamList.jsx:76-78 | one result per element, in the same order, each the function applied to the element at that index |
| `SequenceOps.SubsequenceKeepsOrder` | src/sentry/api/endpoints/project_environments.py:19-21 | any subsequence of a sequence ordered by a key is still ordered by that key |
| `ExpandedTeamList.FindTeamBySlug` | src/sentry/static/sentry/app/views/organizationTeams/expandedTeamList.jsx:69 | `find` succeeds iff some team carries the slug; what it returns carries the slug and is the first such team |
| `ExpandedTeamList.ProjectsForTeam` | src/sentry/static/sentry/app/views/organizationTeams/expandedTeamList.jsx:67-74 | a project is returned iff it is in `projectList` and one of its teams has the team's slug; multiplicities equal those in `projectList` (nothing added or dropped); the result is ordered by name |
| `ExpandedTeamList.NewProjectUrlIdentifiesTeam` | src/sentry/static/sentry/app/views/organizationTeams/expandedTeamList.jsx:62-65 | within one organization, two teams get the same "create project" prompt link iff they are the same team |
| `ExpandedTeamList.TeamSettingsUrlIdentifiesTeam` | src/sentry/static/sentry/app/views/organizationTeams/expandedTeamList.jsx:113-120 | within one organization, two teams get the same settings link iff they are the same team |
| `ExpandedTeamList.ToggleBookmark` | src/sentry/static/sentry/app/views/organizationTeams/expandedTeamList.jsx:135-143 | the request names the organization and project slugs, and its `isBookmarked` is the negation of the project's |
| `ExpandedTeamList.ChartData` | src/sentry/static/sentry/app/views/organizationTeams/expandedTeamList.jsx:147-151 | chart data exists iff stats exist; it has one point per stats entry, with `x` the entry's first position and `y` its second |
| `ExpandedTeamList.ChartDataRoundTrip` | src/sentry/static/sentry/app/views/organizationTeams/expandedTeamList.jsx:149-151 | reading the chart points back as pairs gives the stats unchanged |
| `ExpandedTeamList.RenderProject` | src/sentry/static/sentry/app/views/organizationTeams/expandedTeamList.jsx:145-182 | the row's bookmark icon reflects `isBookmarked`; its toggle sends `ToggleBookmark` for this organization and project (the negated flag); it links to `/{org}/{project}/`; its chart is exactly `ChartData` of the project's stats, present iff stats exist |
| `ExpandedTeamList.LeaveTeam` | src/sentry/static/sentry/app/views/organizationTeams/expandedTeamList.jsx:43-50 | the leave request names the organization slug and the team slug |
| `ExpandedTeamList.AfterLeaveTeam` | src/sentry/static/sentry/app/views/organizationTeams/expandedTeamList.jsx:51-59 | a failed leave appends exactly one `error` notification and keeps the earlier entries; a successful one changes nothing |
| `ExpandedTeamList.RenderTeamNode` | src/sentry/static/sentry/app/views/organizationTeams/expandedTeamList.jsx:101-133 | the node is keyed by the team slug; the settings link is present iff access has `team:write` and points to the team's settings; the body lists rows iff some project in `projectList` belongs to the team, one row per project of `ProjectsForTeam` in its order; otherwise it links to `/organizations/{org}/projects/new/?team={team}` |
| `ExpandedTeamList.RenderEmpty` | src/sentry/static/sentry/app/views/organizationTeams/expandedTeamList.jsx:184-221 | exactly one of three messages: "create your first team" iff `hasTeams` is false; "join or create" iff `hasTeams` and `project:write` are both present; "join" iff `hasTeams` holds without `project:write`; join links go to `/teams/all-teams/` and create links to `/teams/new/` |
| `ExpandedTeamList.Render` | src/sentry/static/sentry/app/views/organizationTeams/expandedTeamList.jsx:223-233 | team nodes are shown iff `teamList` is non-empty, one per team in `teamList` order and keyed by its slug; otherwise the empty state is shown |
| `ProjectEnvironments.LookupVisibility` | src/sentry/api/endpoints/project_environments.py:10-14 | a name is in the filter table iff it is `all`, `hidden` or `visible`; the filter found is the one registered under that name |
| `ProjectEnvironments.LookupVisibilityName` | src/sentry/api/endpoints/project_environments.py:10-14 | every filter is found under its own table key |
| `ProjectEnvironments.ParseVisibility` | src/sentry/api/endpoints/project_environments.py:23-29 | an absent parameter means `visible`; a present one is accepted iff it is a table key, and then it selects the filter with that name; a rejection carries the invalid-value detail |
| `ProjectEnvironments.HiddenOnly` | src/sentry/api/endpoints/project_environments.py:12 | keeps exactly the rows whose `is_hidden` is true, with their multiplicities, in order |
| `ProjectEnvironments.VisibleOnly` | src/sentry/api/endpoints/project_environments.py:13 | keeps exactly the rows whose `is_hidden` is not true (false or unset), with their multiplicities, in order |
| `ProjectEnvironments.ApplyVisibility` | src/sentry/api/endpoints/project_environments.py:31-32 | `all` returns the queryset unchanged, `hidden` applies `HiddenOnly` and `visible` applies `VisibleOnly`; every filter returns a subsequence of it |
| `ProjectEnvironments.ProjectQueryset` | src/sentry/api/endpoints/project_environments.py:19-21 | holds exactly the requested project's rows, with their multiplicities, ordered by environment name |
| `ProjectEnvironments.Get` | src/sentry/api/endpoints/project_environments.py:18-34 | status 400 with the detail message iff the parameter is invalid, with no list; otherwise status 200 with the selected filter applied to the project's name-ordered rows |
| `ProjectEnvironments.HiddenVisiblePartition` | src/sentry/api/endpoints/project_environments.py:12-13 | `hidden` and `visible` together hold every row exactly once: their multisets add up to the input's |
| `ProjectEnvironments.VisibilityKeepsOrder` | src/sentry/api/endpoints/project_environments.py:31-32 | every filter keeps the environment-name order of its input |
| `ProjectEnvironments.GetListsProjectRowsInNameOrder` | src/sentry/api/endpoints/project_environments.py:19-32 | a successful response lists only stored rows of the requested project, ordered by environment name |
| `ProjectEnvironments.GetDefaultsToVisible` | src/sentry/api/endpoints/project_environments.py:23 | without the parameter the response is status 200 with the project's rows minus the hidden ones |

## Left out

- `SequenceOps.SortBy` does not fix the order of projects (or environments) with equal names. The `sortArray` helper is not part of this model, and the database's `order_by` promises nothing about ties.
- String order is modelled as character-by-character lexicographic order. The database collation behind `order_by` may order any text differently, ASCII included: a locale collation weighs case and punctuation differently, so it puts "a" before "B" where the model puts "B" first. JavaScript string comparison may differ from the model for text outside the Basic Multilingual Plane.
- `ProjectEnvironments.Get`: the 400 detail lists the table keys in declaration order. Python 2 prints `dict.keys()` in hash order, which is not modelled.
- Markup, CSS classes, `LazyLoad`/`BarChart` rendering, `ProjectLabel`, the bookmark tooltip (`TooltipMixin`) and the React row key (`project.id`) are presentation only.
- The network calls through `ApiMixin`, `projectUpdate` and `leaveTeam` are not performed. The model returns them as request values (`ToggleBookmark`, `LeaveTeam`). The request outcome is a parameter of `AfterLeaveTeam`. The source has no failure path for a bookmark toggle.
- The process-wide `IndicatorStore` queue is passed in and returned as a sequence value.
- `t`/`tct` translation is not modelled: each message is identified by its `EmptyState` constructor or its message key.
- The Django ORM (`select_related`, query evaluation), `serialize`, `Response` rendering and `request.user` are left out. The stored rows are a sequence of records. The serialized output is the list of selected rows.
- `hasTeams` is optional in the source, and an absent value is falsy. It is modelled as a boolean that is false when absent.
- Slugs are compared with JavaScript `==`. They are modelled as strings, for which `==` is plain equality.
- Stats entries are modelled as pairs. An entry with fewer than two positions, which would yield `undefined` coordinates, is not modelled.
- The unused `urlPrefix` parameter of `renderTeamNode` and the teams' display names play no part in any decision.
