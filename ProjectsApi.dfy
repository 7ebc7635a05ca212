// The projects API: GET reads the stored project list (reporting whether
// the key was ever written), POST replaces the whole list, and PATCH finds
// one project by id and merges a partial update into it, always stamping
// today's date. The key-value store is a `stored` field holding the list,
// or None when the key is absent.
module ProjectsApi {
  import opened Basics
  import opened Text
  import ProjectTracker

  datatype ProjectType = App | Game | Website

  datatype StoredProject = StoredProject(
    id: string,
    name: string,
    kind: ProjectType,
    description: string,
    status: ProjectTracker.Status,
    priority: ProjectTracker.Priority,
    revenue: string,
    url: Option<string>,
    repo: Option<string>,
    localPath: Option<string>,
    nextAction: Option<string>,
    lastUpdated: Option<string>)

  /** The fields a PATCH body's `updates` object carries: None for a key the
      object does not have. An optional field may be present with the value
      null, which clears it (Some(None)). */
  datatype ProjectPatch = ProjectPatch(
    id: Option<string>,
    name: Option<string>,
    kind: Option<ProjectType>,
    description: Option<string>,
    status: Option<ProjectTracker.Status>,
    priority: Option<ProjectTracker.Priority>,
    revenue: Option<string>,
    url: Option<Option<string>>,
    repo: Option<Option<string>>,
    localPath: Option<Option<string>>,
    nextAction: Option<Option<string>>,
    lastUpdated: Option<Option<string>>)

  const EmptyPatch: ProjectPatch :=
    ProjectPatch(None, None, None, None, None, None, None, None, None, None, None, None)

  /** A PATCH body: `id` is None when missing, null or otherwise falsy, and so
      is `updates`. */
  datatype PatchRequest = PatchRequest(id: Option<string>, updates: Option<ProjectPatch>)

  datatype PatchResponse = PatchOk(project: StoredProject) | MissingIdOrUpdates | ProjectNotFound

  datatype PostResponse = Saved(count: nat) | InvalidData

  datatype ListResponse = ListResponse(projects: seq<StoredProject>, initialized: bool)

  /** The HTTP status of a PATCH answer. */
  function PatchStatus(r: PatchResponse): (code: int)
    ensures code == 200 <==> r.PatchOk?
    ensures code == 400 <==> r.MissingIdOrUpdates?
    ensures code == 404 <==> r.ProjectNotFound?
  {
    match r
    case PatchOk(_) => 200
    case MissingIdOrUpdates => 400
    case ProjectNotFound => 404
  }

  /** The HTTP status of a POST answer. */
  function PostStatus(r: PostResponse): (code: int)
    ensures code == 200 <==> r.Saved?
    ensures code == 400 <==> r.InvalidData?
  {
    match r
    case Saved(_) => 200
    case InvalidData => 400
  }

  // ---------------------------------------------------------------------
  // The merge

  /** The value after spreading: a key present in the update wins. */
  function Override<T>(current: T, update: Option<T>): T {
    update.GetOr(current)
  }

  /** `{...project, ...updates, lastUpdated: today}`. */
  function Merge(p: StoredProject, u: ProjectPatch, today: string): (r: StoredProject)
    ensures r.lastUpdated == Some(today)
  {
    StoredProject(
      Override(p.id, u.id), Override(p.name, u.name), Override(p.kind, u.kind),
      Override(p.description, u.description), Override(p.status, u.status),
      Override(p.priority, u.priority), Override(p.revenue, u.revenue),
      Override(p.url, u.url), Override(p.repo, u.repo), Override(p.localPath, u.localPath),
      Override(p.nextAction, u.nextAction), Some(today))
  }

  /** Every field the update carries replaces the stored one (the id
      included), every other field keeps its value, and the date is today's
      whatever the update says. */
  lemma MergeFields(p: StoredProject, u: ProjectPatch, today: string)
    ensures var r := Merge(p, u, today);
      && (u.id.Some? ==> r.id == u.id.value) && (u.id.None? ==> r.id == p.id)
      && (u.name.Some? ==> r.name == u.name.value) && (u.name.None? ==> r.name == p.name)
      && (u.kind.Some? ==> r.kind == u.kind.value) && (u.kind.None? ==> r.kind == p.kind)
      && (u.description.Some? ==> r.description == u.description.value)
      && (u.description.None? ==> r.description == p.description)
      && (u.status.Some? ==> r.status == u.status.value) && (u.status.None? ==> r.status == p.status)
      && (u.priority.Some? ==> r.priority == u.priority.value)
      && (u.priority.None? ==> r.priority == p.priority)
      && (u.revenue.Some? ==> r.revenue == u.revenue.value) && (u.revenue.None? ==> r.revenue == p.revenue)
      && (u.url.Some? ==> r.url == u.url.value) && (u.url.None? ==> r.url == p.url)
      && (u.repo.Some? ==> r.repo == u.repo.value) && (u.repo.None? ==> r.repo == p.repo)
      && (u.localPath.Some? ==> r.localPath == u.localPath.value)
      && (u.localPath.None? ==> r.localPath == p.localPath)
      && (u.nextAction.Some? ==> r.nextAction == u.nextAction.value)
      && (u.nextAction.None? ==> r.nextAction == p.nextAction)
      && r.lastUpdated == Some(today)
  {
  }

  /** An empty `updates` object only stamps the date. */
  lemma MergeEmpty(p: StoredProject, today: string)
    ensures Merge(p, EmptyPatch, today) == p.(lastUpdated := Some(today))
  {
  }

  /** Sending the same update twice on one day has the effect of sending it once. */
  lemma MergeIdempotent(p: StoredProject, u: ProjectPatch, today: string)
    ensures Merge(Merge(p, u, today), u, today) == Merge(p, u, today)
  {
  }

  /** The key of two objects spread one after the other: the later one wins. */
  function Later<T>(first: Option<T>, second: Option<T>): Option<T> {
    if second.Some? then second else first
  }

  /** The update equivalent to `first` followed by `second`. */
  function Then(first: ProjectPatch, second: ProjectPatch): ProjectPatch {
    ProjectPatch(
      Later(first.id, second.id), Later(first.name, second.name),
      Later(first.kind, second.kind), Later(first.description, second.description),
      Later(first.status, second.status), Later(first.priority, second.priority),
      Later(first.revenue, second.revenue), Later(first.url, second.url),
      Later(first.repo, second.repo), Later(first.localPath, second.localPath),
      Later(first.nextAction, second.nextAction), Later(first.lastUpdated, second.lastUpdated))
  }

  /** Two merges in a row are one merge with the combined update. */
  lemma MergeCompose(p: StoredProject, u: ProjectPatch, v: ProjectPatch, today: string, later: string)
    ensures Merge(Merge(p, u, today), v, later) == Merge(p, Then(u, v), later)
  {
  }

  // ---------------------------------------------------------------------
  // The list update

  predicate HasId(p: StoredProject, id: string) { p.id == id }

  function IdPass(id: string): StoredProject -> bool {
    (p: StoredProject) => HasId(p, id)
  }

  /** findIndex then `projects[index] = merged`: None when no project has the
      id; otherwise only the first project with the id is merged. */
  function PatchedList(projects: seq<StoredProject>, id: string, u: ProjectPatch, today: string)
    : (r: Option<seq<StoredProject>>)
    ensures r.None? <==> forall i :: 0 <= i < |projects| ==> projects[i].id != id
    ensures r.Some? ==> |r.value| == |projects|
    ensures r.Some? ==>
      (exists i :: 0 <= i < |projects| && projects[i].id == id &&
         (forall j :: 0 <= j < i ==> projects[j].id != id) &&
         r.value[i] == Merge(projects[i], u, today) &&
         (forall j :: 0 <= j < |projects| && j != i ==> r.value[j] == projects[j]))
  {
    match FirstIndex(projects, IdPass(id))
    case None => None
    case Some(i) => Some(projects[i := Merge(projects[i], u, today)])
  }

  /** A project that is not the first with the id comes through a PATCH as it was. */
  lemma PatchOnlyFirstMatch(projects: seq<StoredProject>, id: string, u: ProjectPatch, today: string, j: nat)
    requires j < |projects|
    requires exists k :: 0 <= k < j && projects[k].id == id
    ensures var r := PatchedList(projects, id, u, today);
      r.Some? && r.value[j] == projects[j]
  {
  }

  /** GET's answer for what the store holds. */
  function ListOf(stored: Option<seq<StoredProject>>): (r: ListResponse)
    ensures r.initialized <==> stored.Some?
    ensures stored.None? ==> r.projects == []
    ensures stored.Some? ==> r.projects == stored.value
  {
    match stored
    case None => ListResponse([], false)
    case Some(ps) => ListResponse(ps, true)
  }

  // ---------------------------------------------------------------------
  // The store

  class ProjectStore {
    var stored: Option<seq<StoredProject>>

    constructor (initial: Option<seq<StoredProject>>)
      ensures stored == initial
    {
      stored := initial;
    }

    /** GET: the stored list and whether the key has ever been written. */
    function Get(): (r: ListResponse)
      reads this
      ensures r.initialized <==> stored.Some?
      ensures stored.None? ==> r.projects == []
      ensures stored.Some? ==> r.projects == stored.value
    {
      ListOf(stored)
    }

    /** POST: `projects` is None when the body's value is not an array. */
    method Post(projects: Option<seq<StoredProject>>) returns (r: PostResponse)
      modifies this
      ensures projects.None? ==> r == InvalidData && stored == old(stored)
      ensures projects.Some? ==> r == Saved(|projects.value|) && stored == projects
    {
      if projects.None? {
        return InvalidData;
      }
      stored := projects;
      r := Saved(|projects.value|);
    }

    /** PATCH at the instant `now`. */
    method Patch(request: PatchRequest, now: string) returns (r: PatchResponse)
      modifies this
      ensures request.id.None? || request.id == Some("") || request.updates.None? ==>
        r == MissingIdOrUpdates && stored == old(stored)
      ensures request.id.Some? && request.id != Some("") && request.updates.Some? ==>
        var result := PatchedList(old(stored).GetOr([]), request.id.value, request.updates.value, IsoDate(now));
        && (result.None? ==> r == ProjectNotFound && stored == old(stored))
        && (result.Some? ==>
              (var i := FirstIndex(old(stored).GetOr([]), IdPass(request.id.value)).value;
               stored == result && r == PatchOk(result.value[i]) &&
               result.value[i] == Merge(old(stored).GetOr([])[i], request.updates.value, IsoDate(now))))
    {
      if request.id.None? || request.id == Some("") || request.updates.None? {
        return MissingIdOrUpdates;
      }
      var id, updates := request.id.value, request.updates.value;
      var projects := stored.GetOr([]);
      var index := FirstIndex(projects, IdPass(id));
      if index.None? {
        return ProjectNotFound;
      }
      var i := index.value;
      projects := projects[i := Merge(projects[i], updates, IsoDate(now))];
      stored := Some(projects);
      r := PatchOk(projects[i]);
    }
  }
}
