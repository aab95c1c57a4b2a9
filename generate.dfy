/**
 * The generate page: the input guards of `generateDocumentation`, the state its
 * completion commits to the shared provider, and the project name taken from a
 * dropped file. The delay before completion is not modelled: completion is one step.
 */
module GeneratePage {
  import opened Wrappers
  import opened Strings
  import opened AppContext

  /** A dropped file: its name and the size text the page derives from its byte count. */
  datatype SourceFile = SourceFile(name: string, sizeLabel: string)

  datatype InputError = MissingCode | MissingProjectName

  /** The two guards, code first: blank code, then a blank project name, abort generation. */
  function CheckInput(code: string, projectName: string): (r: Option<InputError>)
    ensures r == Some(MissingCode) <==> AllSpace(code)
    ensures r == Some(MissingProjectName) <==> !AllSpace(code) && AllSpace(projectName)
    ensures r == None <==> !AllSpace(code) && !AllSpace(projectName)
  {
    TrimEmptyIffAllSpace(code);
    TrimEmptyIffAllSpace(projectName);
    if Trim(code) == [] then Some(MissingCode)
    else if Trim(projectName) == [] then Some(MissingProjectName)
    else None
  }

  /** Storage charged per generation: 0.1 GB, in tenths. */
  const GenerationStorage := 1

  /** The draft handed to `addProject` when generation completes. */
  function CompletedDraft(projectName: string, language: string, files: seq<SourceFile>, now: int, documentation: string): (d: ProjectDraft)
    ensures d.name == projectName && d.language == language && d.status == Completed
    ensures d.fileCount >= 1 && (d.fileCount == |files| || (|files| == 0 && d.fileCount == 1))
    ensures d.size == (if |files| > 0 then files[0].sizeLabel else "0.5 MB")
    ensures d.lastModified == now && d.documentation == Some(documentation)
  {
    ProjectDraft(
      projectName,
      language,
      now,
      Completed,
      if |files| == 0 then 1 else |files|,
      if |files| > 0 then files[0].sizeLabel else "0.5 MB",
      Some(documentation))
  }

  /**
   * The completion: add the project, then charge one API call and 0.1 GB of storage. The net
   * effect is one completed project in front; the project, document and API-call counters go up
   * by one and storage by a tenth; the plan and both limits stay.
   */
  function AfterGeneration(s: AppData, projectName: string, language: string, files: seq<SourceFile>,
                           id: string, now: int, documentation: string): (r: AppData)
    ensures |r.projects| == |s.projects| + 1 && r.projects[1..] == s.projects
    ensures r.projects[0].id == id && r.projects[0].name == projectName && r.projects[0].language == language
    ensures r.projects[0].status == Completed && r.projects[0].fileCount >= 1
    ensures r.projects[0].createdAt == now && r.projects[0].lastModified == now
    ensures r.projects[0].documentation == Some(documentation)
    ensures r.projects[0] == NewProject(CompletedDraft(projectName, language, files, now, documentation), id, now)
    ensures r.projects[0].fileCount == (if |files| == 0 then 1 else |files|)
    ensures r.usage == s.usage.(projects := s.usage.projects + 1,
                                documentsGenerated := s.usage.documentsGenerated + 1,
                                apiCalls := s.usage.apiCalls + 1,
                                storage := s.usage.storage + GenerationStorage)
    ensures r.plan == s.plan
    ensures LimitsMatch(s) ==> LimitsMatch(r)
  {
    var added := AfterAdd(s, CompletedDraft(projectName, language, files, now, documentation), id, now);
    AfterIncrement(AfterIncrement(added, ApiCalls, 1), Storage, GenerationStorage)
  }

  /**
   * `generateDocumentation` with its completion callback run at once: a rejected input
   * changes nothing; an accepted one commits `AfterGeneration` and saves it.
   */
  method GenerateDocumentation(app: AppProvider, code: string, language: string, projectName: string,
                               files: seq<SourceFile>, id: string, now: int, documentation: string)
    returns (error: Option<InputError>)
    requires app.Valid()
    modifies app, app.storage
    ensures app.Valid() && app.user == old(app.user)
    ensures error == CheckInput(code, projectName)
    ensures error.Some? ==> app.Data() == old(app.Data()) && app.storage.entries == old(app.storage.entries)
    ensures error.None? ==>
      app.Data() == AfterGeneration(old(app.Data()), projectName, language, files, id, now, documentation)
    ensures error.None? ==>
      app.storage.entries == if app.user.Some?
        then old(app.storage.entries)[ProjectsKey(app.user.value) := ProjectsSnapshot(app.projects)]
                                     [UsageKey(app.user.value) := UsageSnapshot(app.usageStats)]
        else old(app.storage.entries)
    ensures app.user.Some? ==>
      KeptExcept(app.storage.entries, old(app.storage.entries), ProjectsKey(app.user.value), UsageKey(app.user.value))
  {
    error := CheckInput(code, projectName);
    if error.Some? {
      return;
    }
    ghost var before := app.storage.entries;
    CommitGeneration(app, projectName, language, files, id, now, documentation);
    if app.user.Some? {
      OtherKeysKept(before, ProjectsKey(app.user.value), UsageKey(app.user.value),
                    ProjectsSnapshot(app.projects), UsageSnapshot(app.usageStats));
    }
  }

  /** The completion callback: add the finished project, then charge one API call and the storage. */
  method CommitGeneration(app: AppProvider, projectName: string, language: string, files: seq<SourceFile>,
                          id: string, now: int, documentation: string)
    requires app.Valid()
    modifies app, app.storage
    ensures app.Valid() && app.user == old(app.user)
    ensures app.Data() == AfterGeneration(old(app.Data()), projectName, language, files, id, now, documentation)
    ensures app.storage.entries == if app.user.Some?
        then old(app.storage.entries)[ProjectsKey(app.user.value) := ProjectsSnapshot(app.projects)]
                                     [UsageKey(app.user.value) := UsageSnapshot(app.usageStats)]
        else old(app.storage.entries)
  {
    ghost var before := app.storage.entries;
    app.AddProject(CompletedDraft(projectName, language, files, now, documentation), id, now);
    ghost var added := app.storage.entries;
    app.IncrementUsage(ApiCalls, 1);
    ghost var charged := app.storage.entries;
    app.IncrementUsage(Storage, GenerationStorage);
    if app.user.Some? {
      var u := app.user.value;
      var projectsSaved := before[ProjectsKey(u) := ProjectsSnapshot(app.projects)];
      assert added == projectsSaved[UsageKey(u) := added[UsageKey(u)]];
      assert app.storage.entries == projectsSaved[UsageKey(u) := added[UsageKey(u)]]
                                                 [UsageKey(u) := charged[UsageKey(u)]]
                                                 [UsageKey(u) := UsageSnapshot(app.usageStats)];
      LastWriteWins(projectsSaved, UsageKey(u), added[UsageKey(u)], charged[UsageKey(u)], UsageSnapshot(app.usageStats));
    }
  }

  /** Every key of `before` other than `a` and `b` is still in `after`, with the same value. */
  ghost predicate KeptExcept<K, V>(after: map<K, V>, before: map<K, V>, a: K, b: K)
  {
    forall k :: k in before && k != a && k != b ==> k in after && after[k] == before[k]
  }

  /** Two writes leave every other key of the map as it was. */
  lemma OtherKeysKept<K, V>(m: map<K, V>, a: K, b: K, va: V, vb: V)
    ensures KeptExcept(m[a := va][b := vb], m, a, b)
  {
  }

  /** Of three writes to one key, only the last one is seen. */
  lemma LastWriteWins<K, V>(m: map<K, V>, k: K, a: V, b: V, c: V)
    ensures m[k := a][k := b][k := c] == m[k := c]
  {
  }

  /** `onDrop`: with a file, the project name becomes its name up to the first '.'; without, it stays. */
  function NameAfterDrop(files: seq<SourceFile>, current: string): (r: string)
    ensures |files| == 0 ==> r == current
    ensures |files| > 0 ==> '.' !in r && |r| <= |files[0].name| && r == files[0].name[..|r|]
    ensures |files| > 0 ==> |r| == |files[0].name| || files[0].name[|r|] == '.'
  {
    if |files| > 0 then Stem(files[0].name) else current
  }
}
