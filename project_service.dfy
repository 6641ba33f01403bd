/** Projects on the ScanLedger service and their bookkeeping in the active
    profile (app/core/project/services.py). */
module ProjectService {
  import opened Common
  import opened Options
  import opened ProfileService

  /** `Project` as the service returns it. */
  datatype Project = Project(projectName: string, id: string, users: seq<string>)

  /** How a project operation fails: the request raised (`RuntimeError`), the
      body did not validate as a `Project`, the profile did not load
      (`ValueError`), or a bare-id entry was asked for its `project_id`
      (`AttributeError`). */
  datatype ProjectFailure =
    | RequestRaised(message: string)
    | InvalidProject
    | ProfileFailed(error: ProfileError)
    | NotARecord

  /** The project of an answer with the expected status, None for any other
      status. */
  function ProjectOnStatus(reply: Reply<Project>, expected: int): (r: Result<Option<Project>, ProjectFailure>)
    ensures reply.Raised? ==> r == Err(RequestRaised(reply.message))
    ensures reply.Answered? && reply.status != expected ==> r == Ok(None)
    ensures reply.Answered? && reply.status == expected ==>
      r == if reply.body.Some? then Ok(Some(reply.body.value)) else Err(InvalidProject)
  {
    match reply
    case Raised(message) => Err(RequestRaised(message))
    case Answered(status, body) =>
      if status != expected then Ok(None)
      else if body.None? then Err(InvalidProject)
      else Ok(Some(body.value))
  }

  /** `create_project`: a project only on 201. */
  function CreateProject(reply: Reply<Project>): (r: Result<Option<Project>, ProjectFailure>)
    ensures r.Ok? && r.value.Some? <==> reply.Answered? && reply.status == 201 && reply.body.Some?
    ensures r.Ok? && r.value.Some? ==> r.value.value == reply.body.value
    ensures r == Ok(None) <==> reply.Answered? && reply.status != 201
  {
    ProjectOnStatus(reply, 201)
  }

  /** `get_project`: a project only on 200. */
  function GetProject(reply: Reply<Project>): (r: Result<Option<Project>, ProjectFailure>)
    ensures r.Ok? && r.value.Some? <==> reply.Answered? && reply.status == 200 && reply.body.Some?
    ensures r.Ok? && r.value.Some? ==> r.value.value == reply.body.value
    ensures r == Ok(None) <==> reply.Answered? && reply.status != 200
  {
    ProjectOnStatus(reply, 200)
  }

  /** Python truthiness of a saved entry: a record is always true, a bare
      id when it is not empty. */
  predicate Truthy(e: ProjectEntry) {
    e.ProjectRecord? || e.id != []
  }

  /** Every entry is a record, so `p.project_id` can be read on each. */
  predicate AllRecords(ps: seq<ProjectEntry>) {
    forall k :: 0 <= k < |ps| ==> ps[k].ProjectRecord?
  }

  /** The entries whose id differs from `projectId` (the comprehension's
      filter, on records). */
  function KeepSlots(ps: seq<ProjectEntry>, projectId: string): (slots: seq<Option<ProjectEntry>>)
    requires AllRecords(ps)
    ensures |slots| == |ps|
  {
    seq(|ps|, k requires 0 <= k < |ps| => if ps[k].projectId != projectId then Some(ps[k]) else None)
  }

  /** The profile after the in-memory edit of `delete_project`: every saved
      project with the id removed, and the current project cleared when it
      is that project. */
  function Pruned(p: FalcoriaProfile, projectId: string): (r: Result<FalcoriaProfile, ProjectFailure>)
    ensures r.Err? <==> !AllRecords(p.projects) || (p.currentProject.Some? && p.currentProject.value.BareId? && Truthy(p.currentProject.value))
    ensures r.Err? ==> r.error == NotARecord
    ensures r.Ok? ==> r.value.scanledgerBaseUrl == p.scanledgerBaseUrl && r.value.taskerBaseUrl == p.taskerBaseUrl && r.value.token == p.token
  {
    if !AllRecords(p.projects) then Err(NotARecord)
    else
      var kept := Present(KeepSlots(p.projects, projectId));
      match p.currentProject
      case None => Ok(p.(projects := kept))
      case Some(c) =>
        if !Truthy(c) then Ok(p.(projects := kept))
        else if c.BareId? then Err(NotARecord)
        else if c.projectId == projectId then Ok(p.(projects := kept, currentProject := None))
        else Ok(p.(projects := kept))
  }

  /** Deleting removes every saved project with the id and keeps every
      other entry. */
  lemma PrunedProjects(p: FalcoriaProfile, projectId: string, e: ProjectEntry)
    requires Pruned(p, projectId).Ok?
    ensures e in Pruned(p, projectId).value.projects <==> e in p.projects && e.projectId != projectId
  {
    var slots := KeepSlots(p.projects, projectId);
    PresentMember(slots, e);
    if e in p.projects && e.projectId != projectId {
      var k :| 0 <= k < |p.projects| && p.projects[k] == e;
      assert slots[k] == Some(e);
    }
  }

  /** The kept projects stay in their saved order. */
  lemma PrunedOrder(p: FalcoriaProfile, projectId: string, i: nat, j: nat)
    requires Pruned(p, projectId).Ok?
    requires i < j < |p.projects| && p.projects[i].projectId != projectId && p.projects[j].projectId != projectId
    ensures var kept := Pruned(p, projectId).value.projects;
      exists a, b :: 0 <= a < b < |kept| && kept[a] == p.projects[i] && kept[b] == p.projects[j]
  {
    var slots := KeepSlots(p.projects, projectId);
    PresentOrder(slots, i, j);
    var a, b := Rank(slots, i), Rank(slots, j);
    RankAt(slots, j);
  }

  /** The current project is cleared exactly when it is a record with the id. */
  lemma PrunedCurrent(p: FalcoriaProfile, projectId: string)
    requires Pruned(p, projectId).Ok?
    ensures Pruned(p, projectId).value.currentProject ==
      if p.currentProject.Some? && p.currentProject.value.ProjectRecord? && p.currentProject.value.projectId == projectId
      then None else p.currentProject
  {
  }

  /** On a profile that loaded (so every saved entry is a bare string),
      the edit succeeds only when no project is saved and the current
      project is absent or empty: any other entry raises when asked for its
      `project_id`. */
  lemma {:induction false} PrunedOnLoadedProfile(p: FalcoriaProfile, projectId: string)
    requires Conforms(p)
    ensures Pruned(p, projectId).Ok? <==> p.projects == [] && (p.currentProject.None? || p.currentProject.value == BareId([]))
  {
    if p.projects != [] {
      assert p.projects[0].BareId?;
    }
  }

  /** The answer to the DELETE request says the project was deleted. */
  predicate Deleted(reply: Reply<()>) {
    reply.Answered? && reply.status == 204
  }

  /** `delete_project`: on 204 the active profile (when its name is not
      empty) is pruned and saved, and the result is true; any other status
      is false and touches nothing. */
  method DeleteProject(store: ProfileStore, projectId: string, reply: Reply<()>) returns (r: Result<bool, ProjectFailure>)
    modifies store
    ensures !Deleted(reply) ==> store.active == old(store.active) && store.files == old(store.files)
    ensures !Deleted(reply) ==> r == if reply.Raised? then Err(RequestRaised(reply.message)) else Ok(false)
    ensures Deleted(reply) ==> store.active == ActiveAfterRead(old(store.active))
    ensures Deleted(reply) ==>
      var name := ActiveName(old(store.active));
      var loaded := old(store.LoadProfile(name));
      var pruned := if loaded.Ok? then Pruned(loaded.value, projectId) else Err(NotARecord);
      if name == [] then r == Ok(true) && store.files == old(store.files)
      else if loaded.Err? then r == Err(ProfileFailed(loaded.error)) && store.files == old(store.files)
      else if pruned.Err? then r == Err(pruned.error) && store.files == old(store.files)
      else r == Ok(true) && store.files == old(store.files)[ProfilePath(store.dir, name) := Stored(pruned.value)]
  {
    if reply.Raised? {
      return Err(RequestRaised(reply.message));
    }
    if reply.status != 204 {
      return Ok(false);
    }
    var name := store.GetActiveProfileName();
    if name != [] {
      var loaded := store.LoadProfile(name);
      if loaded.Err? {
        return Err(ProfileFailed(loaded.error));
      }
      var pruned := Pruned(loaded.value, projectId);
      if pruned.Err? {
        return Err(pruned.error);
      }
      store.SaveProfile(name, pruned.value);
    }
    r := Ok(true);
  }

  /** The project id `get_saved_project_id` reads off a loaded profile. */
  function CurrentProjectId(p: FalcoriaProfile): (r: Result<Option<string>, ProjectFailure>)
    ensures r == Ok(None) <==> p.currentProject.None? || !Truthy(p.currentProject.value)
    ensures r.Ok? && r.value.Some? <==> p.currentProject.Some? && p.currentProject.value.ProjectRecord?
    ensures r.Ok? && r.value.Some? ==> r.value.value == p.currentProject.value.projectId
  {
    match p.currentProject
    case None => Ok(None)
    case Some(c) =>
      if !Truthy(c) then Ok(None)
      else if c.BareId? then Err(NotARecord)
      else Ok(Some(c.projectId))
  }

  /** On a profile that loaded, the current project is never a record: the
      read gives None, or raises for a non-empty bare id. */
  lemma CurrentProjectIdOfLoadedProfile(p: FalcoriaProfile)
    requires Conforms(p)
    ensures CurrentProjectId(p).Ok? ==> CurrentProjectId(p) == Ok(None)
    ensures CurrentProjectId(p).Err? <==> p.currentProject.Some? && p.currentProject.value.id != []
  {
  }

  /** `get_saved_project_id`: None without an active profile name, else the
      id of the active profile's current project. */
  method GetSavedProjectId(store: ProfileStore) returns (r: Result<Option<string>, ProjectFailure>)
    modifies store
    ensures store.active == ActiveAfterRead(old(store.active)) && store.files == old(store.files)
    ensures var name := ActiveName(old(store.active));
      var loaded := old(store.LoadProfile(name));
      r == if name == [] then Ok(None)
        else if loaded.Err? then Err(ProfileFailed(loaded.error))
        else CurrentProjectId(loaded.value)
  {
    var name := store.GetActiveProfileName();
    if name == [] {
      return Ok(None);
    }
    var loaded := store.LoadProfile(name);
    if loaded.Err? {
      return Err(ProfileFailed(loaded.error));
    }
    r := CurrentProjectId(loaded.value);
  }

  /** The profile after the in-memory edit of `save_project`: the project is
      appended unless already saved, and becomes the current project. */
  function WithSaved(p: FalcoriaProfile, project: ProjectEntry): (q: FalcoriaProfile)
    ensures q.currentProject == Some(project)
    ensures q.scanledgerBaseUrl == p.scanledgerBaseUrl && q.taskerBaseUrl == p.taskerBaseUrl && q.token == p.token
  {
    if project in p.projects then p.(currentProject := Some(project))
    else p.(projects := p.projects + [project], currentProject := Some(project))
  }

  /** Saving never duplicates: the project is saved once when it was saved
      at most once, and every other entry keeps its count and position. */
  lemma WithSavedCounts(p: FalcoriaProfile, project: ProjectEntry)
    requires multiset(p.projects)[project] <= 1
    ensures multiset(WithSaved(p, project).projects)[project] == 1
    ensures forall e :: e != project ==> multiset(WithSaved(p, project).projects)[e] == multiset(p.projects)[e]
    ensures WithSaved(p, project).projects[..|p.projects|] == p.projects
  {
  }

  /** A saved record is dumped as a mapping, which the declared schema
      rejects: the profile written by `save_project` does not load again. */
  lemma SavedRecordDoesNotReload(p: FalcoriaProfile, project: ProjectEntry)
    requires project.ProjectRecord?
    ensures !Conforms(WithSaved(p, project))
  {
  }

  /** Saving the same project again changes nothing. */
  lemma WithSavedIdempotent(p: FalcoriaProfile, project: ProjectEntry)
    ensures WithSaved(WithSaved(p, project), project) == WithSaved(p, project)
  {
  }

  /** `save_project`: with an active profile name, the loaded profile gets
      the project (once) as its current project and is saved. */
  method SaveProject(store: ProfileStore, project: ProjectEntry) returns (r: Result<(), ProjectFailure>)
    modifies store
    ensures store.active == ActiveAfterRead(old(store.active))
    ensures var name := ActiveName(old(store.active));
      var loaded := old(store.LoadProfile(name));
      if name == [] then r == Ok(()) && store.files == old(store.files)
      else if loaded.Err? then r == Err(ProfileFailed(loaded.error)) && store.files == old(store.files)
      else r == Ok(()) && store.files == old(store.files)[ProfilePath(store.dir, name) := Stored(WithSaved(loaded.value, project))]
  {
    var name := store.GetActiveProfileName();
    if name == [] {
      return Ok(());
    }
    var loaded := store.LoadProfile(name);
    if loaded.Err? {
      return Err(ProfileFailed(loaded.error));
    }
    store.SaveProfile(name, WithSaved(loaded.value, project));
    r := Ok(());
  }

  /** `set_default_project`: false and nothing saved when the project is not
      found; otherwise its record is saved as the current project. */
  method SetDefaultProject(store: ProfileStore, reply: Reply<Project>) returns (r: Result<bool, ProjectFailure>)
    modifies store
    ensures GetProject(reply) == Ok(None) ==> r == Ok(false) && store.active == old(store.active) && store.files == old(store.files)
    ensures GetProject(reply).Err? ==> r == Err(GetProject(reply).error) && store.active == old(store.active) && store.files == old(store.files)
    ensures GetProject(reply).Ok? && GetProject(reply).value.Some? ==>
      var project := GetProject(reply).value.value;
      var name := ActiveName(old(store.active));
      var loaded := old(store.LoadProfile(name));
      store.active == ActiveAfterRead(old(store.active)) &&
      if name == [] then r == Ok(true) && store.files == old(store.files)
      else if loaded.Err? then r == Err(ProfileFailed(loaded.error)) && store.files == old(store.files)
      else r == Ok(true) && store.files == old(store.files)[ProfilePath(store.dir, name) :=
        Stored(WithSaved(loaded.value, ProjectRecord(project.projectName, project.id)))]
  {
    var found := GetProject(reply);
    if found.Err? {
      return Err(found.error);
    }
    if found.value.None? {
      return Ok(false);
    }
    var project := found.value.value;
    var saved := SaveProject(store, ProjectRecord(project.projectName, project.id));
    if saved.Err? {
      return Err(saved.error);
    }
    r := Ok(true);
  }
}
