// The project tracker widget: a list of projects filtered by status and by
// a case-insensitive name search, status counts for the stats bar, adding
// a project at the front and changing a project's status. ProjectBoard
// holds the `projects` state cell.
module ProjectTracker {
  import opened Basics
  import opened Text

  datatype Status = Live | Building | Idea | Paused

  datatype Priority = High | Medium | Low

  /** The status filter buttons: 'all' or one status. */
  datatype StatusFilter = AllStatuses | OnlyStatus(status: Status)

  datatype Project = Project(
    id: string,
    name: string,
    status: Status,
    priority: Priority,
    revenue: string,
    url: Option<string>,
    repo: Option<string>,
    nextAction: Option<string>,
    lastUpdated: Option<string>)

  // ---------------------------------------------------------------------
  // The filtered list

  predicate StatusMatches(p: Project, filter: StatusFilter) {
    filter == AllStatuses || p.status == filter.status
  }

  /** The name search: the lower-cased name includes the lower-cased search. */
  predicate NameMatches(p: Project, search: string) {
    Contains(Lower(p.name), Lower(search))
  }

  function StatusPass(filter: StatusFilter): Project -> bool {
    (p: Project) => StatusMatches(p, filter)
  }

  function SearchPass(search: string): Project -> bool {
    (p: Project) => NameMatches(p, search)
  }

  /** filteredProjects: by status first, then by name. */
  function FilteredProjects(projects: seq<Project>, filter: StatusFilter, search: string): seq<Project> {
    Filter(Filter(projects, StatusPass(filter)), SearchPass(search))
  }

  /** The view keeps the list order and shows a project exactly when its
      status passes the filter and its name matches the search. */
  lemma FilteredProjectsSpec(projects: seq<Project>, filter: StatusFilter, search: string)
    ensures IsSubsequence(FilteredProjects(projects, filter, search), projects)
    ensures forall i :: 0 <= i < |projects| ==>
      (projects[i] in FilteredProjects(projects, filter, search) <==>
       StatusMatches(projects[i], filter) && NameMatches(projects[i], search))
  {
    var p := StatusPass(filter);
    var q := SearchPass(search);
    FilterFilter(projects, p, q);
    FilterIsSubsequence(projects, Both(p, q));
  }

  /** A project that is shown is shown as many times as it occurs in the list. */
  lemma FilteredProjectsCounts(projects: seq<Project>, filter: StatusFilter, search: string)
    ensures forall x :: multiset(FilteredProjects(projects, filter, search))[x]
                        == if StatusMatches(x, filter) && NameMatches(x, search) then multiset(projects)[x] else 0
  {
    var p := StatusPass(filter);
    var q := SearchPass(search);
    FilterMultiset(projects, p);
    FilterMultiset(Filter(projects, p), q);
  }

  /** Every name contains the empty search. */
  lemma EmptySearchMatches(p: Project)
    ensures NameMatches(p, "")
  {
    assert OccursAt(Lower(p.name), "", 0);
  }

  /** With status 'all' and an empty search box every project is listed. */
  lemma {:induction false} UnfilteredShowsAll(projects: seq<Project>)
    ensures FilteredProjects(projects, AllStatuses, "") == projects
  {
    FilterKeepsAll(projects, StatusPass(AllStatuses));
    forall i | 0 <= i < |projects| ensures SearchPass("")(projects[i]) {
      EmptySearchMatches(projects[i]);
    }
    FilterKeepsAll(projects, SearchPass(""));
  }

  /** Two searches with the same lower-case form list the same projects. */
  lemma {:induction false} SearchIgnoresCase(projects: seq<Project>, filter: StatusFilter, a: string, b: string)
    requires Lower(a) == Lower(b)
    ensures FilteredProjects(projects, filter, a) == FilteredProjects(projects, filter, b)
  {
    var inner := Filter(projects, StatusPass(filter));
    FilterCongruent(inner, SearchPass(a), SearchPass(b));
  }

  /** In particular typing the search in capitals changes nothing. */
  lemma UpperCaseSearch(projects: seq<Project>, filter: StatusFilter, search: string)
    ensures FilteredProjects(projects, filter, Upper(search)) == FilteredProjects(projects, filter, search)
  {
    LowerOfUpper(search);
    SearchIgnoresCase(projects, filter, Upper(search), search);
  }

  // ---------------------------------------------------------------------
  // The stats bar

  datatype Stats = Stats(live: nat, building: nat, ideas: nat, total: nat)

  predicate IsLive(p: Project) { p.status == Live }
  predicate IsBuilding(p: Project) { p.status == Building }
  predicate IsIdea(p: Project) { p.status == Idea }
  predicate IsPaused(p: Project) { p.status == Paused }

  function ProjectStats(projects: seq<Project>): (s: Stats)
    ensures s.live <= s.total && s.building <= s.total && s.ideas <= s.total
    ensures s.total == |projects|
  {
    Stats(|Filter(projects, IsLive)|, |Filter(projects, IsBuilding)|, |Filter(projects, IsIdea)|, |projects|)
  }

  /** Every project has one of the four statuses, so the three counted ones
      and the paused ones add up to the total. */
  lemma {:induction false} StatsAccounting(projects: seq<Project>)
    ensures var s := ProjectStats(projects);
      s.live + s.building + s.ideas + |Filter(projects, IsPaused)| == s.total
  {
    if projects != [] {
      StatsAccounting(projects[1..]);
    }
  }

  /** The three counted statuses never exceed the total. */
  lemma StatsBounded(projects: seq<Project>)
    ensures var s := ProjectStats(projects);
      s.live + s.building + s.ideas <= s.total
  {
    StatsAccounting(projects);
  }

  // ---------------------------------------------------------------------
  // List updates

  /** addProject: a blank name changes nothing; otherwise a new project with
      the name as typed, revenue "-" and today's date goes in front. */
  function WithProjectAdded(projects: seq<Project>, name: string, status: Status, priority: Priority,
                            id: string, now: string): (r: seq<Project>)
    ensures AllSpace(name) ==> r == projects
    ensures !AllSpace(name) ==>
      && |r| == |projects| + 1 && r[1..] == projects
      && r[0].id == id && r[0].name == name && r[0].status == status && r[0].priority == priority
      && r[0].revenue == "-" && r[0].lastUpdated == Some(IsoDate(now))
      && r[0].url.None? && r[0].repo.None? && r[0].nextAction.None?
  {
    TrimEmptyIff(name);
    if Trim(name) == "" then projects
    else [Project(id, name, status, priority, "-", None, None, None, Some(IsoDate(now)))] + projects
  }

  /** Adding a project counts it once more under its status and in the total. */
  lemma {:induction false} AddProjectStats(projects: seq<Project>, name: string, status: Status,
                                           priority: Priority, id: string, now: string)
    requires !AllSpace(name)
    ensures var s, t := ProjectStats(projects), ProjectStats(WithProjectAdded(projects, name, status, priority, id, now));
      && t.total == s.total + 1
      && t.live == s.live + (if status == Live then 1 else 0)
      && t.building == s.building + (if status == Building then 1 else 0)
      && t.ideas == s.ideas + (if status == Idea then 1 else 0)
  {
    var r := WithProjectAdded(projects, name, status, priority, id, now);
    assert r == [r[0]] + projects;
    FilterAppend([r[0]], projects, IsLive);
    FilterAppend([r[0]], projects, IsBuilding);
    FilterAppend([r[0]], projects, IsIdea);
  }

  /** updateStatus: projects with the id get the status and today's date. */
  function StatusUpdated(projects: seq<Project>, id: string, status: Status, today: string): (r: seq<Project>)
    ensures |r| == |projects|
    ensures forall i :: 0 <= i < |projects| && projects[i].id != id ==> r[i] == projects[i]
    ensures forall i :: 0 <= i < |projects| && projects[i].id == id ==>
      r[i].status == status && r[i].lastUpdated == Some(today)
  {
    seq(|projects|, i requires 0 <= i < |projects| =>
      if projects[i].id == id then projects[i].(status := status, lastUpdated := Some(today))
      else projects[i])
  }

  /** The other fields of an updated project are kept. */
  lemma StatusUpdateKeepsFields(projects: seq<Project>, id: string, status: Status, today: string)
    ensures var r := StatusUpdated(projects, id, status, today);
      forall i :: 0 <= i < |projects| ==>
        r[i] == projects[i].(status := r[i].status, lastUpdated := r[i].lastUpdated)
  {
  }

  /** Repeating a status change on the same day changes nothing more. */
  lemma StatusUpdateIdempotent(projects: seq<Project>, id: string, status: Status, today: string)
    ensures var r := StatusUpdated(projects, id, status, today);
      StatusUpdated(r, id, status, today) == r
  {
  }

  /** After the change every project with the id is listed under its new status. */
  lemma StatusUpdateShownUnderFilter(projects: seq<Project>, id: string, status: Status, today: string)
    ensures var r := StatusUpdated(projects, id, status, today);
      forall i :: 0 <= i < |r| && r[i].id == id ==> r[i] in FilteredProjects(r, OnlyStatus(status), "")
  {
    var r := StatusUpdated(projects, id, status, today);
    FilteredProjectsSpec(r, OnlyStatus(status), "");
    forall i | 0 <= i < |r| && r[i].id == id
      ensures r[i] in FilteredProjects(r, OnlyStatus(status), "")
    {
      EmptySearchMatches(r[i]);
    }
  }

  // ---------------------------------------------------------------------
  // The widget's state

  class ProjectBoard {
    var projects: seq<Project>

    constructor (initial: seq<Project>)
      ensures projects == initial
    {
      projects := initial;
    }

    method AddProject(name: string, status: Status, priority: Priority, id: string, now: string)
      modifies this
      ensures projects == WithProjectAdded(old(projects), name, status, priority, id, now)
    {
      if Trim(name) == "" {
        return;
      }
      var project := Project(id, name, status, priority, "-", None, None, None, Some(IsoDate(now)));
      projects := [project] + projects;
    }

    method UpdateStatus(id: string, status: Status, now: string)
      modifies this
      ensures projects == StatusUpdated(old(projects), id, status, IsoDate(now))
    {
      projects := StatusUpdated(projects, id, status, IsoDate(now));
    }
  }
}
