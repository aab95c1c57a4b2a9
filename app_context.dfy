/**
 * The per-user application state of the dashboard: a newest-first project list,
 * usage counters and a three-state plan, kept in memory by `AppProvider` and
 * written to a key/value store after every change.
 *
 * Units: timestamps are milliseconds supplied by the caller (they stand for
 * `Date.now()`); storage amounts are whole tenths of a gigabyte, so the default
 * 2.3 GB is 23 and `incrementUsage('storage', 0.1)` adds 1.
 */
module AppContext {
  import opened Wrappers
  import opened Seqs

  datatype Plan = Free | Pro | Enterprise

  datatype Status = Completed | Processing | Failed

  /** One documentation project as the registry stores it. */
  datatype Project = Project(
    id: string,
    name: string,
    language: string,
    createdAt: int,
    lastModified: int,
    status: Status,
    fileCount: int,
    size: string,
    documentation: Option<string>)

  /** What a caller hands to `addProject`: a project without its id and creation time. */
  datatype ProjectDraft = ProjectDraft(
    name: string,
    language: string,
    lastModified: int,
    status: Status,
    fileCount: int,
    size: string,
    documentation: Option<string>)

  /** A partial project for `updateProject`: `None` means the field is not in the update. */
  datatype ProjectPatch = ProjectPatch(
    id: Option<string>,
    name: Option<string>,
    language: Option<string>,
    createdAt: Option<int>,
    lastModified: Option<int>,
    status: Option<Status>,
    fileCount: Option<int>,
    size: Option<string>,
    documentation: Option<string>)

  const NoChanges := ProjectPatch(None, None, None, None, None, None, None, None, None)

  datatype UsageStats = UsageStats(
    apiCalls: int,
    maxApiCalls: int,
    storage: int,
    maxStorage: int,
    projects: int,
    documentsGenerated: int)

  datatype UsageKind = ApiCalls | Storage

  const TenthsPerGB := 10

  /** The counters a provider starts with before anything is loaded. */
  const DefaultUsage := UsageStats(23, 50, 23, 10 * TenthsPerGB, 4, 12)

  /** The three state cells of the provider, as one value. */
  datatype AppData = AppData(projects: seq<Project>, plan: Plan, usage: UsageStats)

  /** The state of a freshly mounted provider. */
  const Initial := AppData([], Free, DefaultUsage)

  function Max(a: int, b: int): int
  {
    if a < b then b else a
  }

  // ---------------------------------------------------------------------------
  // Plan table

  /** The API-call quota of each plan. */
  function ApiCallLimit(plan: Plan): int
  {
    match plan
    case Free => 50
    case Pro => 5000
    case Enterprise => 999999
  }

  /** The storage quota of each plan, in tenths of a gigabyte. */
  function StorageLimit(plan: Plan): int
  {
    match plan
    case Free => 10 * TenthsPerGB
    case Pro => 50 * TenthsPerGB
    case Enterprise => 500 * TenthsPerGB
  }

  /** The limits shown beside the counters are the table values for the current plan. */
  ghost predicate LimitsMatch(s: AppData)
  {
    s.usage.maxApiCalls == ApiCallLimit(s.plan) && s.usage.maxStorage == StorageLimit(s.plan)
  }

  // ---------------------------------------------------------------------------
  // The updaters handed to the state setters

  /** `{ ...draft, id, createdAt: now }`. */
  function NewProject(d: ProjectDraft, id: string, now: int): Project
  {
    Project(id, d.name, d.language, now, d.lastModified, d.status, d.fileCount, d.size, d.documentation)
  }

  /** `{ ...project, ...updates, lastModified: now }`: supplied fields win, then the time is forced. */
  function Merge(p: Project, patch: ProjectPatch, now: int): (r: Project)
    ensures r.lastModified == now
    ensures r.id == patch.id.GetOr(p.id) && r.name == patch.name.GetOr(p.name)
    ensures r.language == patch.language.GetOr(p.language)
    ensures r.createdAt == patch.createdAt.GetOr(p.createdAt)
    ensures r.status == patch.status.GetOr(p.status) && r.fileCount == patch.fileCount.GetOr(p.fileCount)
    ensures r.size == patch.size.GetOr(p.size)
    ensures r.documentation == (if patch.documentation.Some? then patch.documentation else p.documentation)
  {
    Project(
      patch.id.GetOr(p.id),
      patch.name.GetOr(p.name),
      patch.language.GetOr(p.language),
      patch.createdAt.GetOr(p.createdAt),
      now,
      patch.status.GetOr(p.status),
      patch.fileCount.GetOr(p.fileCount),
      patch.size.GetOr(p.size),
      if patch.documentation.Some? then patch.documentation else p.documentation)
  }

  /** `prev.map(project => project.id === id ? Merge(project) : project)`. */
  function UpdateById(ps: seq<Project>, id: string, patch: ProjectPatch, now: int): (r: seq<Project>)
    ensures |r| == |ps|
    ensures forall i :: 0 <= i < |ps| && ps[i].id == id ==> r[i] == Merge(ps[i], patch, now)
    ensures forall i :: 0 <= i < |ps| && ps[i].id != id ==> r[i] == ps[i]
  {
    if ps == [] then []
    else
      var head := if ps[0].id == id then Merge(ps[0], patch, now) else ps[0];
      var r := [head] + UpdateById(ps[1..], id, patch, now);
      assert forall i :: 1 <= i < |ps| ==> r[i] == UpdateById(ps[1..], id, patch, now)[i - 1];
      r
  }

  /** The filter predicate of `deleteProject`. */
  function OtherId(id: string): Project -> bool
  {
    (p: Project) => p.id != id
  }

  /** `prev.filter(project => project.id !== id)`. */
  function RemoveById(ps: seq<Project>, id: string): (r: seq<Project>)
    ensures forall i :: 0 <= i < |r| ==> r[i].id != id
    ensures forall i :: 0 <= i < |ps| && ps[i].id != id ==> ps[i] in r
    ensures IsSubseq(r, ps)
    ensures |r| == Count(ps, OtherId(id))
  {
    var r := Filter(ps, OtherId(id));
    assert forall i :: 0 <= i < |r| ==> OtherId(id)(r[i]);
    r
  }

  function UsageAfterAdd(u: UsageStats): UsageStats
  {
    u.(projects := u.projects + 1, documentsGenerated := u.documentsGenerated + 1)
  }

  function UsageAfterDelete(u: UsageStats): UsageStats
  {
    u.(projects := Max(0, u.projects - 1))
  }

  function UsageIncremented(u: UsageStats, kind: UsageKind, amount: int): UsageStats
  {
    match kind
    case ApiCalls => u.(apiCalls := u.apiCalls + amount)
    case Storage => u.(storage := u.storage + amount)
  }

  function UsageWithLimits(u: UsageStats, plan: Plan): UsageStats
  {
    u.(maxApiCalls := ApiCallLimit(plan), maxStorage := StorageLimit(plan))
  }

  // ---------------------------------------------------------------------------
  // The five operations, as functions of the whole state

  /** `addProject`: the new record goes in front, and two counters go up by one. */
  function AfterAdd(s: AppData, d: ProjectDraft, id: string, now: int): (r: AppData)
    ensures |r.projects| == |s.projects| + 1
    ensures r.projects[0] == NewProject(d, id, now) && r.projects[1..] == s.projects
    ensures r.plan == s.plan
    ensures r.usage.projects == s.usage.projects + 1
    ensures r.usage.documentsGenerated == s.usage.documentsGenerated + 1
    ensures r.usage.(projects := s.usage.projects, documentsGenerated := s.usage.documentsGenerated) == s.usage
  {
    AppData([NewProject(d, id, now)] + s.projects, s.plan, UsageAfterAdd(s.usage))
  }

  /** `updateProject`: only records with the id change; an absent id changes nothing. */
  function AfterUpdate(s: AppData, id: string, patch: ProjectPatch, now: int): (r: AppData)
    ensures |r.projects| == |s.projects|
    ensures forall i :: 0 <= i < |s.projects| && s.projects[i].id == id ==>
      r.projects[i] == Merge(s.projects[i], patch, now)
    ensures forall i :: 0 <= i < |s.projects| && s.projects[i].id != id ==> r.projects[i] == s.projects[i]
    ensures r.plan == s.plan && r.usage == s.usage
  {
    AppData(UpdateById(s.projects, id, patch, now), s.plan, s.usage)
  }

  /** `deleteProject`: every record with the id goes, and the counter drops by one, floored at zero. */
  function AfterDelete(s: AppData, id: string): (r: AppData)
    ensures forall i :: 0 <= i < |r.projects| ==> r.projects[i].id != id
    ensures forall i :: 0 <= i < |s.projects| && s.projects[i].id != id ==> s.projects[i] in r.projects
    ensures IsSubseq(r.projects, s.projects)
    ensures |r.projects| == Count(s.projects, OtherId(id))
    ensures r.usage == s.usage.(projects := if s.usage.projects > 0 then s.usage.projects - 1 else 0)
    ensures r.plan == s.plan
  {
    AppData(RemoveById(s.projects, id), s.plan, UsageAfterDelete(s.usage))
  }

  /** `incrementUsage`: the named counter grows by `amount`, with no clamp against its limit. */
  function AfterIncrement(s: AppData, kind: UsageKind, amount: int): (r: AppData)
    ensures kind == ApiCalls ==> r.usage == s.usage.(apiCalls := s.usage.apiCalls + amount)
    ensures kind == Storage ==> r.usage == s.usage.(storage := s.usage.storage + amount)
    ensures r.projects == s.projects && r.plan == s.plan
  {
    AppData(s.projects, s.plan, UsageIncremented(s.usage, kind, amount))
  }

  /** `upgradePlan`: the plan and both limits come from the table; the counters stay. */
  function AfterUpgrade(s: AppData, plan: Plan): (r: AppData)
    ensures r.plan == plan && LimitsMatch(r)
    ensures r.usage.(maxApiCalls := s.usage.maxApiCalls, maxStorage := s.usage.maxStorage) == s.usage
    ensures r.projects == s.projects
  {
    AppData(s.projects, plan, UsageWithLimits(s.usage, plan))
  }

  // ---------------------------------------------------------------------------
  // Properties of single operations

  /** Merging the same update twice at the same time gives the same record as merging once. */
  lemma MergeIdempotent(p: Project, patch: ProjectPatch, now: int)
    ensures Merge(Merge(p, patch, now), patch, now) == Merge(p, patch, now)
  {
  }

  /** A status-only update changes the status and the modification time and nothing else. */
  lemma StatusUpdateKeepsCreation(p: Project, st: Status, now: int)
    ensures Merge(p, NoChanges.(status := Some(st)), now) == p.(status := st, lastModified := now)
  {
  }

  /** Updating an id that no record carries leaves the whole list as it was. */
  lemma UpdateAbsentId(s: AppData, id: string, patch: ProjectPatch, now: int)
    requires forall i :: 0 <= i < |s.projects| ==> s.projects[i].id != id
    ensures AfterUpdate(s, id, patch, now) == s
  {
    assert AfterUpdate(s, id, patch, now).projects == s.projects;
  }

  /** `projects.map(p => p.language)`. */
  function Languages(ps: seq<Project>): (r: seq<string>)
    ensures |r| == |ps| && forall i :: 0 <= i < |ps| ==> r[i] == ps[i].language
  {
    seq(|ps|, i requires 0 <= i < |ps| => ps[i].language)
  }

  /** The ids of a project list. */
  function Ids(ps: seq<Project>): set<string>
  {
    set i | 0 <= i < |ps| :: ps[i].id
  }

  /** Deleting an absent id keeps the list but still lowers the counter. */
  lemma DeleteAbsentId(s: AppData, id: string)
    requires id !in Ids(s.projects)
    ensures AfterDelete(s, id).projects == s.projects
    ensures AfterDelete(s, id).usage.projects == Max(0, s.usage.projects - 1)
  {
    forall i | 0 <= i < |s.projects| ensures OtherId(id)(s.projects[i]) {
      assert s.projects[i].id in Ids(s.projects);
    }
    FilterKeepsAll(s.projects, OtherId(id));
  }

  /** Raising the API-call counter past its limit is allowed: the limit is advisory. */
  lemma IncrementCanExceedLimit(s: AppData, amount: int)
    requires amount > s.usage.maxApiCalls - s.usage.apiCalls
    ensures AfterIncrement(s, ApiCalls, amount).usage.apiCalls > AfterIncrement(s, ApiCalls, amount).usage.maxApiCalls
  {
  }

  /** Upgrading twice to the same plan is the same as upgrading once. */
  lemma UpgradeIdempotent(s: AppData, plan: Plan)
    ensures AfterUpgrade(AfterUpgrade(s, plan), plan) == AfterUpgrade(s, plan)
  {
  }

  /** The state after an upgrade does not depend on the plan or limits before it. */
  lemma UpgradeForgetsPreviousPlan(s: AppData, before: Plan, maxApi: int, maxStore: int, plan: Plan)
    ensures AfterUpgrade(s.(plan := before, usage := s.usage.(maxApiCalls := maxApi, maxStorage := maxStore)), plan)
         == AfterUpgrade(s, plan)
  {
  }

  /** Upgrading a free account with 23 calls to pro raises the quota and keeps the 23 calls. */
  lemma UpgradeFreeToPro()
    ensures AfterUpgrade(Initial, Pro).usage.maxApiCalls == 5000
    ensures AfterUpgrade(Initial, Pro).usage.apiCalls == 23
  {
  }

  /** Downgrading an enterprise account with 200 calls to free leaves it over quota. */
  lemma DowngradeKeepsOverQuota(s: AppData)
    requires s.plan == Enterprise && s.usage.apiCalls == 200
    ensures AfterUpgrade(s, Free).usage.maxApiCalls == 50
    ensures AfterUpgrade(s, Free).usage.apiCalls == 200
  {
  }

  // ---------------------------------------------------------------------------
  // Sequences of operations

  datatype Op =
    | Add(draft: ProjectDraft, newId: string, at: int)
    | Update(id: string, patch: ProjectPatch, at: int)
    | Delete(id: string)
    | Increment(kind: UsageKind, amount: int)
    | Upgrade(plan: Plan)

  function Step(s: AppData, op: Op): AppData
  {
    match op
    case Add(d, newId, at) => AfterAdd(s, d, newId, at)
    case Update(id, patch, at) => AfterUpdate(s, id, patch, at)
    case Delete(id) => AfterDelete(s, id)
    case Increment(kind, amount) => AfterIncrement(s, kind, amount)
    case Upgrade(plan) => AfterUpgrade(s, plan)
  }

  function Run(s: AppData, ops: seq<Op>): AppData
    decreases |ops|
  {
    if ops == [] then s else Run(Step(s, ops[0]), ops[1..])
  }

  /** Every operation keeps the limits equal to the table value for the plan. */
  lemma StepKeepsLimits(s: AppData, op: Op)
    requires LimitsMatch(s)
    ensures LimitsMatch(Step(s, op))
  {
  }

  /** Starting from limits that match the plan, no sequence of operations makes them disagree. */
  lemma {:induction false} RunKeepsLimits(s: AppData, ops: seq<Op>)
    requires LimitsMatch(s)
    ensures LimitsMatch(Run(s, ops))
    decreases |ops|
  {
    if ops != [] {
      StepKeepsLimits(s, ops[0]);
      RunKeepsLimits(Step(s, ops[0]), ops[1..]);
    }
  }

  /** No two records share an id. */
  ghost predicate IdsUnique(ps: seq<Project>)
  {
    forall i, j :: 0 <= i < j < |ps| ==> ps[i].id != ps[j].id
  }

  /** The project counter equals the length of the list. */
  ghost predicate CounterTracks(s: AppData)
  {
    s.usage.projects == |s.projects|
  }

  /** The conditions under which an operation keeps ids unique and the counter exact. */
  ghost predicate Disciplined(s: AppData, op: Op)
  {
    match op
    case Add(_, newId, _) => newId !in Ids(s.projects)
    case Update(_, patch, _) => patch.id.None?
    case Delete(id) => id in Ids(s.projects)
    case Increment(_, _) => true
    case Upgrade(_) => true
  }

  ghost predicate DisciplinedRun(s: AppData, ops: seq<Op>)
    decreases |ops|
  {
    ops == [] || (Disciplined(s, ops[0]) && DisciplinedRun(Step(s, ops[0]), ops[1..]))
  }

  /** Every element of a subsequence is an element of the sequence. */
  lemma {:induction false} SubseqMembers<T>(a: seq<T>, b: seq<T>)
    requires IsSubseq(a, b)
    ensures forall x :: x in a ==> x in b
    decreases |b|
  {
    if a != [] && b != [] {
      if a[0] == b[0] {
        SubseqMembers(a[1..], b[1..]);
        assert forall x :: x in a ==> x == a[0] || x in a[1..];
      } else {
        SubseqMembers(a, b[1..]);
      }
    }
  }

  /** Taking records out of a list with unique ids leaves the ids unique. */
  lemma {:induction false} SubseqKeepsIdsUnique(a: seq<Project>, b: seq<Project>)
    requires IsSubseq(a, b) && IdsUnique(b)
    ensures IdsUnique(a)
    decreases |b|
  {
    if a != [] && b != [] {
      if a[0] == b[0] {
        SubseqKeepsIdsUnique(a[1..], b[1..]);
        SubseqMembers(a[1..], b[1..]);
        forall j | 0 < j < |a| ensures a[0].id != a[j].id {
          assert a[j] == a[1..][j - 1];
          assert a[j] in b[1..];
          var k :| 0 <= k < |b[1..]| && b[1..][k] == a[j];
          assert b[k + 1] == a[j];
        }
        forall i, j | 0 < i < j < |a| ensures a[i].id != a[j].id {
          assert a[i] == a[1..][i - 1] && a[j] == a[1..][j - 1];
        }
      } else {
        SubseqKeepsIdsUnique(a, b[1..]);
      }
    }
  }

  /** A single disciplined operation keeps the ids unique and the counter exact. */
  lemma StepKeepsCounter(s: AppData, op: Op)
    requires CounterTracks(s) && IdsUnique(s.projects) && Disciplined(s, op)
    ensures CounterTracks(Step(s, op)) && IdsUnique(Step(s, op).projects)
  {
    match op
    case Add(d, newId, at) =>
      var r := AfterAdd(s, d, newId, at).projects;
      forall j | 0 < j < |r| ensures r[0].id != r[j].id {
        assert r[j] == s.projects[j - 1];
        assert s.projects[j - 1].id in Ids(s.projects);
      }
      assert forall i, j :: 0 < i < j < |r| ==> r[i] == s.projects[i - 1] && r[j] == s.projects[j - 1];
    case Update(id, patch, at) =>
    case Delete(id) =>
      var k :| 0 <= k < |s.projects| && s.projects[k].id == id;
      CountAllButOne(s.projects, OtherId(id), k);
      SubseqKeepsIdsUnique(RemoveById(s.projects, id), s.projects);
    case Increment(_, _) =>
    case Upgrade(_) =>
  }

  /**
   * The counter stays equal to the list length as long as it starts so, ids start unique,
   * every new id is fresh, no update renames a record and every delete targets a present id.
   */
  lemma {:induction false} DisciplinedRunKeepsCounter(s: AppData, ops: seq<Op>)
    requires CounterTracks(s) && IdsUnique(s.projects) && DisciplinedRun(s, ops)
    ensures CounterTracks(Run(s, ops)) && IdsUnique(Run(s, ops).projects)
    decreases |ops|
  {
    if ops != [] {
      StepKeepsCounter(s, ops[0]);
      DisciplinedRunKeepsCounter(Step(s, ops[0]), ops[1..]);
    }
  }

  /** Deleting an id nobody has, from a non-empty list, makes the counter fall behind the list. */
  lemma DeleteAbsentBreaksCounter(s: AppData, id: string)
    requires CounterTracks(s) && |s.projects| > 0 && id !in Ids(s.projects)
    ensures !CounterTracks(AfterDelete(s, id))
  {
    DeleteAbsentId(s, id);
  }

  /** Two projects created in the same millisecond share an id, and one delete removes both but counts one. */
  lemma SameMillisecondCollision(d: ProjectDraft, now: int)
    ensures var s := Run(AppData([], Free, DefaultUsage.(projects := 0)),
                         [Add(d, "1700000000000", now), Add(d, "1700000000000", now), Delete("1700000000000")]);
            s.projects == [] && s.usage.projects == 1
  {
    var id := "1700000000000";
    var s0 := AppData([], Free, DefaultUsage.(projects := 0));
    var s1 := AfterAdd(s0, d, id, now);
    var s2 := AfterAdd(s1, d, id, now);
    var s3 := AfterDelete(s2, id);
    assert Run(s0, [Add(d, id, now), Add(d, id, now), Delete(id)]) == s3 by {
      assert Run(s2, [Delete(id)]) == Run(s3, []);
      assert [Add(d, id, now), Add(d, id, now), Delete(id)][1..] == [Add(d, id, now), Delete(id)];
      assert [Add(d, id, now), Delete(id)][1..] == [Delete(id)];
    }
    assert s2.projects[1..][1..] == [];
    assert Count(s2.projects, OtherId(id)) == 0;
  }

  // ---------------------------------------------------------------------------
  // Persistence: keys, snapshots, load and save

  function ProjectsKey(user: string): string
  {
    "projects_" + user
  }

  function PlanKey(user: string): string
  {
    "plan_" + user
  }

  function UsageKey(user: string): string
  {
    "usage_" + user
  }

  /** The three keys never collide, for one user or two, and each key names one user. */
  lemma KeysDistinct(u: string, v: string)
    ensures ProjectsKey(u) != PlanKey(v) && ProjectsKey(u) != UsageKey(v) && PlanKey(u) != UsageKey(v)
    ensures ProjectsKey(u) == ProjectsKey(v) ==> u == v
    ensures PlanKey(u) == PlanKey(v) ==> u == v
    ensures UsageKey(u) == UsageKey(v) ==> u == v
  {
    assert ProjectsKey(u)[1] == 'r' && PlanKey(v)[1] == 'l';
    assert ProjectsKey(u)[0] == 'p' && UsageKey(v)[0] == 'u';
    assert PlanKey(u)[0] == 'p' && UsageKey(v)[0] == 'u';
    if ProjectsKey(u) == ProjectsKey(v) {
      assert u == ProjectsKey(u)[9..] && v == ProjectsKey(v)[9..];
    }
    if PlanKey(u) == PlanKey(v) {
      assert u == PlanKey(u)[5..] && v == PlanKey(v)[5..];
    }
    if UsageKey(u) == UsageKey(v) {
      assert u == UsageKey(u)[6..] && v == UsageKey(v)[6..];
    }
  }

  /** A stored value, already decoded from its JSON text. */
  datatype Snapshot =
    | ProjectsSnapshot(projects: seq<Project>)
    | PlanSnapshot(plan: Plan)
    | UsageSnapshot(usage: UsageStats)

  /** The keys of `user` that are present hold snapshots of the matching kind. */
  ghost predicate Decodable(entries: map<string, Snapshot>, user: string)
  {
    && (ProjectsKey(user) in entries ==> entries[ProjectsKey(user)].ProjectsSnapshot?)
    && (PlanKey(user) in entries ==> entries[PlanKey(user)].PlanSnapshot?)
    && (UsageKey(user) in entries ==> entries[UsageKey(user)].UsageSnapshot?)
  }

  const HourMs := 60 * 60 * 1000

  /** The four demonstration projects a first login starts with. */
  function SampleProjects(now: int): (r: seq<Project>)
    ensures |r| == 4 && r[0].id == "1" && r[1].id == "2" && r[2].id == "3" && r[3].id == "4"
    ensures forall i :: 0 <= i < 4 ==>
      r[i].status == Completed && r[i].documentation == None
      && r[i].lastModified == r[i].createdAt <= now - 2 * HourMs
    ensures forall i, j :: 0 <= i < j < 4 ==> r[j].createdAt < r[i].createdAt
  {
    [ Project("1", "E-commerce API", "Python", now - 2 * HourMs, now - 2 * HourMs, Completed, 12, "2.4 MB", None),
      Project("2", "React Dashboard", "JavaScript", now - 5 * HourMs, now - 5 * HourMs, Completed, 8, "1.8 MB", None),
      Project("3", "User Auth Service", "Node.js", now - 24 * HourMs, now - 24 * HourMs, Completed, 6, "1.2 MB", None),
      Project("4", "Data Pipeline", "Python", now - 2 * 24 * HourMs, now - 2 * 24 * HourMs, Completed, 15, "3.1 MB", None) ]
  }

  /**
   * The load effect: saved projects or the sample list; a saved plan and saved usage
   * replace the in-memory ones, and an absent one leaves `current`'s value in place.
   */
  function Restore(entries: map<string, Snapshot>, user: string, now: int, current: AppData): (r: AppData)
    requires Decodable(entries, user)
    ensures ProjectsKey(user) in entries ==> r.projects == entries[ProjectsKey(user)].projects
    ensures ProjectsKey(user) !in entries ==> r.projects == SampleProjects(now)
    ensures PlanKey(user) in entries ==> r.plan == entries[PlanKey(user)].plan
    ensures PlanKey(user) !in entries ==> r.plan == current.plan
    ensures UsageKey(user) in entries ==> r.usage == entries[UsageKey(user)].usage
    ensures UsageKey(user) !in entries ==> r.usage == current.usage
  {
    AppData(
      if ProjectsKey(user) in entries then entries[ProjectsKey(user)].projects else SampleProjects(now),
      if PlanKey(user) in entries then entries[PlanKey(user)].plan else current.plan,
      if UsageKey(user) in entries then entries[UsageKey(user)].usage else current.usage)
  }

  /**
   * The three save effects of `user`, in the order they are declared: afterwards the store
   * holds the state under the user's three keys, and every other key is as it was.
   */
  function SaveAll(entries: map<string, Snapshot>, user: string, s: AppData): (r: map<string, Snapshot>)
    ensures Synced(r, user, s)
    ensures r.Keys == entries.Keys + {ProjectsKey(user), PlanKey(user), UsageKey(user)}
    ensures forall k :: k in entries && k != ProjectsKey(user) && k != PlanKey(user) && k != UsageKey(user) ==>
      r[k] == entries[k]
  {
    KeysDistinct(user, user);
    entries[ProjectsKey(user) := ProjectsSnapshot(s.projects)]
           [PlanKey(user) := PlanSnapshot(s.plan)]
           [UsageKey(user) := UsageSnapshot(s.usage)]
  }

  /** The store holds exactly `s` under the keys of `user`. */
  ghost predicate Synced(entries: map<string, Snapshot>, user: string, s: AppData)
  {
    && ProjectsKey(user) in entries && entries[ProjectsKey(user)] == ProjectsSnapshot(s.projects)
    && PlanKey(user) in entries && entries[PlanKey(user)] == PlanSnapshot(s.plan)
    && UsageKey(user) in entries && entries[UsageKey(user)] == UsageSnapshot(s.usage)
  }

  /** Saving one user's state leaves another user's snapshots as they were. */
  lemma SaveKeepsOtherUsers(entries: map<string, Snapshot>, u: string, v: string, s: AppData, t: AppData)
    requires u != v && Synced(entries, v, t)
    ensures Synced(SaveAll(entries, u, s), v, t)
  {
    KeysDistinct(u, v);
    KeysDistinct(v, u);
  }

  /** Loading what was saved for the same user gives back the saved list, plan and usage. */
  lemma RestoreAfterSave(entries: map<string, Snapshot>, user: string, s: AppData, now: int, current: AppData)
    requires Synced(entries, user, s)
    ensures Decodable(entries, user) && Restore(entries, user, now, current) == s
  {
  }

  /** With no saved list, a load seeds exactly four records, with ids "1" to "4". */
  lemma FirstRunSeeds(entries: map<string, Snapshot>, user: string, now: int, current: AppData)
    requires Decodable(entries, user) && ProjectsKey(user) !in entries
    ensures var ps := Restore(entries, user, now, current).projects;
      |ps| == 4 && ps[0].id == "1" && ps[1].id == "2" && ps[2].id == "3" && ps[3].id == "4"
      && IdsUnique(ps)
  {
  }

  /**
   * A load that finds no plan and no usage keeps the in-memory ones: the defaults on a fresh
   * mount, or whatever the previous user of the same provider left behind.
   */
  lemma AbsentKeysKeepCurrent(entries: map<string, Snapshot>, user: string, now: int, current: AppData)
    requires Decodable(entries, user) && PlanKey(user) !in entries && UsageKey(user) !in entries
    ensures Restore(entries, user, now, current).plan == current.plan
    ensures Restore(entries, user, now, current).usage == current.usage
  {
  }

  /** A first login on a freshly mounted provider starts free, with the default counters, consistently. */
  lemma FirstLogin(user: string, now: int)
    ensures Restore(map[], user, now, Initial) == AppData(SampleProjects(now), Free, DefaultUsage)
    ensures var s := Restore(map[], user, now, Initial);
      LimitsMatch(s) && CounterTracks(s) && IdsUnique(s.projects)
  {
  }

  /** A saved plan without saved usage keeps the default limits beside the saved plan. */
  lemma SavedPlanWithoutUsage(user: string, now: int)
    ensures var s := Restore(map[PlanKey(user) := PlanSnapshot(Pro)], user, now, Initial);
      s.plan == Pro && s.usage.maxApiCalls == 50 && !LimitsMatch(s)
  {
    KeysDistinct(user, user);
  }

  // ---------------------------------------------------------------------------
  // The provider

  /** The browser's key/value store. */
  class LocalStore {
    var entries: map<string, Snapshot>

    constructor (entries: map<string, Snapshot>)
      ensures this.entries == entries
    {
      this.entries := entries;
    }
  }

  /** The state handle shared by every page: three state cells, the signed-in user and the store. */
  class AppProvider {
    var user: Option<string>
    var projects: seq<Project>
    var currentPlan: Plan
    var usageStats: UsageStats
    const storage: LocalStore

    function Data(): AppData
      reads this
    {
      AppData(projects, currentPlan, usageStats)
    }

    /** While a user is signed in, the store holds the in-memory state under that user's keys. */
    ghost predicate Valid()
      reads this, storage
    {
      user.Some? ==> Synced(storage.entries, user.value, Data())
    }

    constructor (storage: LocalStore)
      ensures this.storage == storage && user == None && Data() == Initial && Valid()
    {
      this.storage := storage;
      user := None;
      projects := [];
      currentPlan := Free;
      usageStats := DefaultUsage;
    }

    /** The save effect for the project list. */
    method SaveProjects()
      modifies storage
      ensures storage.entries == if user.Some?
        then old(storage.entries)[ProjectsKey(user.value) := ProjectsSnapshot(projects)]
        else old(storage.entries)
    {
      if user.Some? {
        storage.entries := storage.entries[ProjectsKey(user.value) := ProjectsSnapshot(projects)];
      }
    }

    /** The save effect for the plan. */
    method SavePlan()
      modifies storage
      ensures storage.entries == if user.Some?
        then old(storage.entries)[PlanKey(user.value) := PlanSnapshot(currentPlan)]
        else old(storage.entries)
    {
      if user.Some? {
        storage.entries := storage.entries[PlanKey(user.value) := PlanSnapshot(currentPlan)];
      }
    }

    /** The save effect for the usage counters. */
    method SaveUsage()
      modifies storage
      ensures storage.entries == if user.Some?
        then old(storage.entries)[UsageKey(user.value) := UsageSnapshot(usageStats)]
        else old(storage.entries)
    {
      if user.Some? {
        storage.entries := storage.entries[UsageKey(user.value) := UsageSnapshot(usageStats)];
      }
    }

    /**
     * The signed-in user changes. For a user, the load effect runs and then all three save
     * effects fire, since each depends on the user; signing out changes nothing else.
     */
    method OnUserChange(u: Option<string>, now: int)
      requires u.Some? ==> Decodable(storage.entries, u.value)
      modifies this, storage
      ensures user == u && Valid()
      ensures u.None? ==> Data() == old(Data()) && storage.entries == old(storage.entries)
      ensures u.Some? ==> Data() == Restore(old(storage.entries), u.value, now, old(Data()))
      ensures u.Some? ==> storage.entries == SaveAll(old(storage.entries), u.value, Data())
    {
      user := u;
      if u.Some? {
        var id := u.value;
        var saved := storage.entries;
        if ProjectsKey(id) in saved {
          projects := saved[ProjectsKey(id)].projects;
        } else {
          projects := SampleProjects(now);
        }
        if PlanKey(id) in saved {
          currentPlan := saved[PlanKey(id)].plan;
        }
        if UsageKey(id) in saved {
          usageStats := saved[UsageKey(id)].usage;
        }
        SaveProjects();
        SavePlan();
        SaveUsage();
      }
    }

    /** `addProject`, with the id and the time supplied by the caller. */
    method AddProject(draft: ProjectDraft, id: string, now: int)
      requires Valid()
      modifies this, storage
      ensures Valid() && user == old(user)
      ensures Data() == AfterAdd(old(Data()), draft, id, now)
      ensures storage.entries == if user.Some?
        then old(storage.entries)[ProjectsKey(user.value) := ProjectsSnapshot(projects)]
                                 [UsageKey(user.value) := UsageSnapshot(usageStats)]
        else old(storage.entries)
    {
      projects := [NewProject(draft, id, now)] + projects;
      usageStats := UsageAfterAdd(usageStats);
      SaveProjects();
      SaveUsage();
      if user.Some? {
        KeysDistinct(user.value, user.value);
      }
    }

    /** `updateProject`. */
    method UpdateProject(id: string, patch: ProjectPatch, now: int)
      requires Valid()
      modifies this, storage
      ensures Valid() && user == old(user)
      ensures Data() == AfterUpdate(old(Data()), id, patch, now)
      ensures storage.entries == if user.Some?
        then old(storage.entries)[ProjectsKey(user.value) := ProjectsSnapshot(projects)]
        else old(storage.entries)
    {
      projects := UpdateById(projects, id, patch, now);
      SaveProjects();
      if user.Some? {
        KeysDistinct(user.value, user.value);
      }
    }

    /** `deleteProject`. */
    method DeleteProject(id: string)
      requires Valid()
      modifies this, storage
      ensures Valid() && user == old(user)
      ensures Data() == AfterDelete(old(Data()), id)
      ensures storage.entries == if user.Some?
        then old(storage.entries)[ProjectsKey(user.value) := ProjectsSnapshot(projects)]
                                 [UsageKey(user.value) := UsageSnapshot(usageStats)]
        else old(storage.entries)
    {
      projects := RemoveById(projects, id);
      usageStats := UsageAfterDelete(usageStats);
      SaveProjects();
      SaveUsage();
      if user.Some? {
        KeysDistinct(user.value, user.value);
      }
    }

    /** `incrementUsage`. */
    method IncrementUsage(kind: UsageKind, amount: int)
      requires Valid()
      modifies this, storage
      ensures Valid() && user == old(user)
      ensures Data() == AfterIncrement(old(Data()), kind, amount)
      ensures storage.entries == if user.Some?
        then old(storage.entries)[UsageKey(user.value) := UsageSnapshot(usageStats)]
        else old(storage.entries)
    {
      usageStats := UsageIncremented(usageStats, kind, amount);
      SaveUsage();
      if user.Some? {
        KeysDistinct(user.value, user.value);
      }
    }

    /** `upgradePlan`. */
    method UpgradePlan(plan: Plan)
      requires Valid()
      modifies this, storage
      ensures Valid() && user == old(user)
      ensures Data() == AfterUpgrade(old(Data()), plan)
      ensures storage.entries == if user.Some?
        then old(storage.entries)[PlanKey(user.value) := PlanSnapshot(currentPlan)]
                                 [UsageKey(user.value) := UsageSnapshot(usageStats)]
        else old(storage.entries)
    {
      currentPlan := plan;
      usageStats := UsageWithLimits(usageStats, plan);
      SavePlan();
      SaveUsage();
      if user.Some? {
        KeysDistinct(user.value, user.value);
      }
    }
  }

  /**
   * Mounting a new provider over the same store and signing in as the same user
   * reproduces the list, the plan and the counters.
   */
  method ReloadSession(app: AppProvider, now: int) returns (reloaded: AppProvider)
    requires app.Valid() && app.user.Some?
    modifies app.storage
    ensures reloaded.storage == app.storage && reloaded.user == app.user
    ensures reloaded.Data() == app.Data() && reloaded.Valid()
    ensures app.storage.entries == old(app.storage.entries)
  {
    reloaded := new AppProvider(app.storage);
    RestoreAfterSave(app.storage.entries, app.user.value, app.Data(), now, reloaded.Data());
    reloaded.OnUserChange(app.user, now);
  }
}
