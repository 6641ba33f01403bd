/** The older local memory (app/memory.py): a JSON file holding the saved
    projects, by name, and the id of the last project used. The dictionary of
    projects keeps insertion order, so it is a sequence of (name, id) pairs
    with distinct names. */
module ProjectMemory {
  import opened Common

  /** A project id as the memory holds it: a string, read from the file or
      given on the command line, or the `uuid.UUID` object the project
      commands pass to `save_project` (app/commands/project.py:63 and 78).
      Python's `==` never equates a UUID with a string, not even with its
      own text, and neither does equality on this datatype. */
  datatype ProjectId = TextId(text: string) | UuidId(text: string)

  /** Python truthiness: a UUID is always truthy, a string when non-empty. */
  predicate Truthy(id: ProjectId) {
    id.UuidId? || id.text != []
  }

  /** (project name, project id) pairs in insertion order. */
  type Entries = seq<(string, ProjectId)>

  predicate UniqueNames(e: Entries) {
    forall i, j :: 0 <= i < j < |e| ==> e[i].0 != e[j].0
  }

  /** `projects.get(name)` */
  function Lookup(e: Entries, name: string): (r: Option<ProjectId>)
    ensures r.Some? <==> exists k :: 0 <= k < |e| && e[k].0 == name
    ensures UniqueNames(e) ==> forall k :: 0 <= k < |e| && e[k].0 == name ==> r == Some(e[k].1)
  {
    if e == [] then None
    else if e[0].0 == name then Some(e[0].1)
    else
      var r := Lookup(e[1..], name);
      assert forall k :: 1 <= k < |e| ==> e[k] == e[1..][k - 1];
      r
  }

  /** `project_id in projects.values()` */
  predicate HasId(e: Entries, id: ProjectId) {
    exists k :: 0 <= k < |e| && e[k].1 == id
  }

  /** `projects[name] = id`: an existing name keeps its place and takes the
      new id; a new name is added at the end. */
  function Put(e: Entries, name: string, id: ProjectId): (r: Entries)
    ensures |r| == if exists k :: 0 <= k < |e| && e[k].0 == name then |e| else |e| + 1
  {
    if e == [] then [(name, id)]
    else if e[0].0 == name then [(name, id)] + e[1..]
    else
      assert forall k :: 1 <= k < |e| ==> e[k] == e[1..][k - 1];
      [e[0]] + Put(e[1..], name, id)
  }

  /** `projects[name] = id` keeps the names distinct. */
  lemma {:induction false} PutUnique(e: Entries, name: string, id: ProjectId)
    requires UniqueNames(e)
    ensures UniqueNames(Put(e, name, id))
  {
    if e != [] && e[0].0 != name {
      var t := e[1..];
      assert forall k :: 1 <= k < |e| ==> e[k] == t[k - 1];
      PutUnique(t, name, id);
      PutNames(t, name, id);
      var p := Put(t, name, id);
      var r := [e[0]] + p;
      forall i, j | 0 <= i < j < |r| ensures r[i].0 != r[j].0 {
        assert r[j] == p[j - 1];
        if i > 0 { assert r[i] == p[i - 1]; }
      }
    } else if e != [] {
      var r := [(name, id)] + e[1..];
      forall i, j | 0 <= i < j < |r| ensures r[i].0 != r[j].0 {
        assert r[j] == e[j];
        if i > 0 { assert r[i] == e[i]; }
      }
    }
  }

  /** Every name of `Put(e, name, id)` is `name` or a name of `e`. */
  lemma {:induction false} PutNames(e: Entries, name: string, id: ProjectId)
    ensures forall j :: 0 <= j < |Put(e, name, id)| ==>
              Put(e, name, id)[j].0 == name || exists k :: 0 <= k < |e| && e[k].0 == Put(e, name, id)[j].0
  {
    if e != [] && e[0].0 != name {
      var t := e[1..];
      assert forall k :: 1 <= k < |e| ==> e[k] == t[k - 1];
      PutNames(t, name, id);
      var p := Put(t, name, id);
      forall j | 0 <= j < |[e[0]] + p| && ([e[0]] + p)[j].0 != name
        ensures exists k :: 0 <= k < |e| && e[k].0 == ([e[0]] + p)[j].0
      {
        if j == 0 {
          assert e[0].0 == ([e[0]] + p)[0].0;
        } else {
          var k :| 0 <= k < |t| && t[k].0 == p[j - 1].0;
          assert e[k + 1].0 == ([e[0]] + p)[j].0;
        }
      }
    } else if e != [] {
      var r := [(name, id)] + e[1..];
      forall j | 0 <= j < |r| && r[j].0 != name ensures exists k :: 0 <= k < |e| && e[k].0 == r[j].0 {
        assert r[j] == e[j];
      }
    }
  }

  /** After `projects[name] = id` the name maps to the id. */
  lemma {:induction false} PutLookupSame(e: Entries, name: string, id: ProjectId)
    ensures Lookup(Put(e, name, id), name) == Some(id)
  {
    if e != [] && e[0].0 != name {
      PutLookupSame(e[1..], name, id);
    }
  }

  /** After `projects[name] = id` every other name maps to what it did. */
  lemma {:induction false} PutLookupOther(e: Entries, name: string, id: ProjectId, other: string)
    requires other != name
    ensures Lookup(Put(e, name, id), other) == Lookup(e, other)
  {
    if e != [] && e[0].0 != name {
      PutLookupOther(e[1..], name, id, other);
    }
  }

  /** The names of `Put(e, name, id)`, in order: those of `e`, then `name`
      when it was not among them. */
  lemma {:induction false} PutOrder(e: Entries, name: string, id: ProjectId)
    ensures Lookup(e, name).Some? ==> forall k :: 0 <= k < |e| ==> Put(e, name, id)[k].0 == e[k].0
    ensures Lookup(e, name).None? ==> Put(e, name, id) == e + [(name, id)]
  {
    if e != [] && e[0].0 != name {
      var t := e[1..];
      assert forall k :: 1 <= k < |e| ==> e[k] == t[k - 1];
      PutOrder(t, name, id);
      assert e == [e[0]] + t;
    }
  }

  /** The index of the first pair holding `id`, as the loop of
      `delete_project_by_id` finds it. */
  function FirstWithId(e: Entries, id: ProjectId): (r: Option<nat>)
    ensures r.Some? ==> r.value < |e| && e[r.value].1 == id && forall j :: 0 <= j < r.value ==> e[j].1 != id
    ensures r.None? <==> !HasId(e, id)
  {
    if e == [] then None
    else if e[0].1 == id then Some(0)
    else
      var t := e[1..];
      assert forall k :: 1 <= k < |e| ==> e[k] == t[k - 1];
      match FirstWithId(t, id)
      case None => None
      case Some(k) => Some(k + 1)
  }

  function RemoveAt(e: Entries, k: nat): (r: Entries)
    requires k < |e|
    ensures |r| == |e| - 1
  {
    e[..k] + e[k + 1..]
  }

  /** `del projects[name]` */
  function RemoveName(e: Entries, name: string): Entries {
    if e == [] then []
    else if e[0].0 == name then e[1..]
    else [e[0]] + RemoveName(e[1..], name)
  }

  /** With distinct names, deleting the name of pair `k` removes pair `k`. */
  lemma {:induction false} RemoveNameAt(e: Entries, k: nat)
    requires UniqueNames(e) && k < |e|
    ensures RemoveName(e, e[k].0) == RemoveAt(e, k)
  {
    if k > 0 {
      var t := e[1..];
      assert forall a :: 1 <= a < |e| ==> e[a] == t[a - 1];
      assert t[k - 1] == e[k];
      RemoveNameAt(t, k - 1);
      assert RemoveAt(e, k) == [e[0]] + RemoveAt(t, k - 1);
    }
  }

  /** Removing pair `k` keeps the other pairs in order, and names stay
      distinct. */
  lemma RemoveAtUnique(e: Entries, k: nat)
    requires UniqueNames(e) && k < |e|
    ensures UniqueNames(RemoveAt(e, k))
    ensures forall j :: 0 <= j < |e| - 1 ==> RemoveAt(e, k)[j] == (if j < k then e[j] else e[j + 1])
  {
    var r := RemoveAt(e, k);
    assert forall j :: 0 <= j < |r| ==> r[j] == (if j < k then e[j] else e[j + 1]);
    forall i, j | 0 <= i < j < |r| ensures r[i].0 != r[j].0 {
      var i' := if i < k then i else i + 1;
      var j' := if j < k then j else j + 1;
      assert r[i] == e[i'] && r[j] == e[j'] && i' < j';
    }
  }

  /** Removing pair `k` removes its name. */
  lemma RemoveAtGone(e: Entries, k: nat)
    requires UniqueNames(e) && k < |e|
    ensures Lookup(RemoveAt(e, k), e[k].0).None?
  {
    var r := RemoveAt(e, k);
    forall j | 0 <= j < |r| ensures r[j].0 != e[k].0 {
      var j' := if j < k then j else j + 1;
      assert r[j] == e[j'];
    }
  }

  /** Removing pair `k` leaves every other name mapped as before. */
  lemma RemoveAtOther(e: Entries, k: nat, other: string)
    requires UniqueNames(e) && k < |e| && other != e[k].0
    ensures Lookup(RemoveAt(e, k), other) == Lookup(e, other)
  {
    var r := RemoveAt(e, k);
    RemoveAtUnique(e, k);
    if Lookup(e, other).Some? {
      var j :| 0 <= j < |e| && e[j].0 == other;
      var j' := if j < k then j else j - 1;
      assert r[j'] == e[j];
    }
    if Lookup(r, other).Some? {
      var j :| 0 <= j < |r| && r[j].0 == other;
      var j' := if j < k then j else j + 1;
      assert r[j] == e[j'];
    }
  }

  // ----- _save.convert -----

  /** A value as `json.dump` sees it; `JUuid` is a `uuid.UUID` object, given
      by its canonical text. */
  datatype Json =
    | JNull
    | JBool(b: bool)
    | JInt(i: int)
    | JString(s: string)
    | JList(items: seq<Json>)
    | JObject(fields: seq<(string, Json)>)
    | JUuid(text: string)

  /** `convert`: dictionaries and lists rebuilt element by element, UUIDs
      turned into their text, every other leaf kept. */
  function Convert(v: Json): Json
    decreases v
  {
    match v
    case JObject(fs) => JObject(seq(|fs|, i requires 0 <= i < |fs| => (fs[i].0, Convert(fs[i].1))))
    case JList(xs) => JList(seq(|xs|, i requires 0 <= i < |xs| => Convert(xs[i])))
    case JUuid(t) => JString(t)
    case _ => v
  }

  predicate NoUuid(v: Json)
    decreases v
  {
    match v
    case JObject(fs) => forall i :: 0 <= i < |fs| ==> NoUuid(fs[i].1)
    case JList(xs) => forall i :: 0 <= i < |xs| ==> NoUuid(xs[i])
    case JUuid(_) => false
    case _ => true
  }

  /** The structure is kept: the same kind of node, the same keys in the
      same order, the same lengths; only a UUID leaf may become a string. */
  predicate SameShape(a: Json, b: Json)
    decreases a
  {
    match a
    case JObject(fs) =>
      b.JObject? && |b.fields| == |fs|
      && forall i :: 0 <= i < |fs| ==> b.fields[i].0 == fs[i].0 && SameShape(fs[i].1, b.fields[i].1)
    case JList(xs) =>
      b.JList? && |b.items| == |xs| && forall i :: 0 <= i < |xs| ==> SameShape(xs[i], b.items[i])
    case JUuid(t) => b == JString(t)
    case _ => b == a
  }

  /** Converting keeps the shape and leaves no UUID behind. */
  lemma {:induction false} ConvertShape(v: Json)
    ensures SameShape(v, Convert(v)) && NoUuid(Convert(v))
    decreases v
  {
    match v
    case JObject(fs) =>
      forall i | 0 <= i < |fs| ensures SameShape(fs[i].1, Convert(fs[i].1)) && NoUuid(Convert(fs[i].1)) {
        ConvertShape(fs[i].1);
      }
    case JList(xs) =>
      forall i | 0 <= i < |xs| ensures SameShape(xs[i], Convert(xs[i])) && NoUuid(Convert(xs[i])) {
        ConvertShape(xs[i]);
      }
    case _ =>
  }

  /** A value without UUIDs is written as it is. */
  lemma {:induction false} ConvertIdentity(v: Json)
    requires NoUuid(v)
    ensures Convert(v) == v
    decreases v
  {
    match v
    case JObject(fs) =>
      forall i | 0 <= i < |fs| ensures Convert(fs[i].1) == fs[i].1 {
        ConvertIdentity(fs[i].1);
      }
      assert Convert(v).fields == fs;
    case JList(xs) =>
      forall i | 0 <= i < |xs| ensures Convert(xs[i]) == xs[i] {
        ConvertIdentity(xs[i]);
      }
      assert Convert(v).items == xs;
    case _ =>
  }

  /** Converting twice is converting once. */
  lemma ConvertIdempotent(v: Json)
    ensures Convert(Convert(v)) == Convert(v)
  {
    ConvertShape(v);
    ConvertIdentity(Convert(v));
  }

  function IdJson(id: ProjectId): Json {
    if id.UuidId? then JUuid(id.text) else JString(id.text)
  }

  function OptionJson(id: Option<ProjectId>): Json {
    if id.Some? then IdJson(id.value) else JNull
  }

  /** `self.data` as the value handed to `convert`. */
  function DataJson(e: Entries, lastProject: Option<ProjectId>): Json {
    JObject([
      ("projects", JObject(seq(|e|, i requires 0 <= i < |e| => (e[i].0, IdJson(e[i].1))))),
      ("last_project", OptionJson(lastProject))])
  }

  /** An id as the next process reads it back from the file: its text. */
  function AsText(id: ProjectId): ProjectId {
    TextId(id.text)
  }

  function OptionAsText(id: Option<ProjectId>): Option<ProjectId> {
    if id.Some? then Some(AsText(id.value)) else None
  }

  function EntriesAsText(e: Entries): (r: Entries)
    ensures |r| == |e| && forall i :: 0 <= i < |e| ==> r[i] == (e[i].0, AsText(e[i].1))
  {
    seq(|e|, i requires 0 <= i < |e| => (e[i].0, AsText(e[i].1)))
  }

  /** An id stored as a string: what the file and the command line give. */
  predicate AllText(e: Entries, lastProject: Option<ProjectId>) {
    (forall i :: 0 <= i < |e| ==> e[i].1.TextId?) && (lastProject.Some? ==> lastProject.value.TextId?)
  }

  /** The file holds the memory's data with every UUID written as its text:
      the data as a later process loads it. */
  lemma DataWrittenAsText(e: Entries, lastProject: Option<ProjectId>)
    ensures Convert(DataJson(e, lastProject)) == DataJson(EntriesAsText(e), OptionAsText(lastProject))
  {
    var v := DataJson(e, lastProject);
    var w := DataJson(EntriesAsText(e), OptionAsText(lastProject));
    var fs := v.fields[0].1.fields;
    assert Convert(v.fields[0].1).fields == w.fields[0].1.fields by {
      forall i | 0 <= i < |fs| ensures Convert(fs[i].1) == w.fields[0].1.fields[i].1 {
        assert fs[i].1 == IdJson(e[i].1);
      }
    }
    assert Convert(v).fields == w.fields;
  }

  /** Data whose ids are all strings is written unchanged. */
  lemma DataWrittenAsIs(e: Entries, lastProject: Option<ProjectId>)
    requires AllText(e, lastProject)
    ensures Convert(DataJson(e, lastProject)) == DataJson(e, lastProject)
  {
    DataWrittenAsText(e, lastProject);
    assert EntriesAsText(e) == e;
  }

  /** Within one process a project saved under a UUID is not found by its
      text (`project_id_exists` and `delete_project_by_id` compare with
      `==`); once written and loaded back, it is. */
  lemma UuidFoundOnlyAfterReload(e: Entries, t: string)
    requires HasId(e, UuidId(t)) && !HasId(e, TextId(t))
    ensures FirstWithId(e, TextId(t)).None?
    ensures HasId(EntriesAsText(e), TextId(t))
  {
    var k :| 0 <= k < |e| && e[k].1 == UuidId(t);
    assert EntriesAsText(e)[k].1 == TextId(t);
  }

  /** The memory file found at start-up: none, not valid JSON, JSON whose
      value is falsy (`null`, `{}`), or the loaded data. */
  datatype StoredMemory =
    | NoFile
    | Malformed
    | Falsy
    | Loaded(projects: seq<(string, string)>, lastProject: Option<string>)

  /** The pairs of the loaded file: every id is a string. */
  function FromFile(pairs: seq<(string, string)>): (e: Entries)
    ensures |e| == |pairs| && forall i :: 0 <= i < |pairs| ==> e[i] == (pairs[i].0, TextId(pairs[i].1))
  {
    seq(|pairs|, i requires 0 <= i < |pairs| => (pairs[i].0, TextId(pairs[i].1)))
  }

  datatype MemoryError = InconsistentMemory(projectId: ProjectId)

  class Memory {
    var projects: Entries
    var lastProject: Option<ProjectId>
    /** What `_save` last wrote to the memory file, if it wrote anything. */
    var saved: Option<Json>

    ghost predicate Valid()
      reads this
    {
      UniqueNames(projects)
    }

    /** `Memory()`: the empty state, replaced by the file's data when there
        is some; a malformed file is reset to the empty state and saved. */
    constructor (stored: StoredMemory)
      requires stored.Loaded? ==> forall i, j :: 0 <= i < j < |stored.projects| ==> stored.projects[i].0 != stored.projects[j].0
      ensures Valid()
      ensures stored.Loaded? ==> && projects == FromFile(stored.projects)
                                 && lastProject == if stored.lastProject.Some? then Some(TextId(stored.lastProject.value)) else None
      ensures !stored.Loaded? ==> projects == [] && lastProject == None
      ensures saved == if stored.Malformed? then Some(Convert(DataJson([], None))) else None
    {
      projects := [];
      lastProject := None;
      saved := None;
      match stored
      case NoFile =>
      case Falsy =>
      case Loaded(pairs, last) =>
        projects := FromFile(pairs);
        lastProject := if last.Some? then Some(TextId(last.value)) else None;
      case Malformed =>
        saved := Some(Convert(DataJson([], None)));
    }

    /** `_save` */
    method Save()
      modifies this`saved
      ensures saved == Some(Convert(DataJson(projects, lastProject)))
    {
      saved := Some(Convert(DataJson(projects, lastProject)));
    }

    /** `project_id_exists` */
    function ProjectIdExists(projectId: ProjectId): (r: bool)
      reads this
      ensures r <==> exists k :: 0 <= k < |projects| && projects[k].1 == projectId
    {
      FirstWithId(projects, projectId).Some?
    }

    /** `save_project`: the name maps to the id (in place when the name is
        known), the id becomes the last project, and the data is saved. */
    method SaveProject(projectName: string, projectId: ProjectId)
      requires Valid()
      modifies this
      ensures Valid()
      ensures projects == Put(old(projects), projectName, projectId)
      ensures lastProject == Some(projectId)
      ensures saved == Some(Convert(DataJson(projects, lastProject)))
    {
      PutUnique(projects, projectName, projectId);
      projects := Put(projects, projectName, projectId);
      lastProject := Some(projectId);
      Save();
    }

    /** `get_project_id` */
    function GetProjectId(projectName: string): (r: Option<ProjectId>)
      reads this
      requires Valid()
      ensures r.Some? <==> exists k :: 0 <= k < |projects| && projects[k].0 == projectName
      ensures forall k :: 0 <= k < |projects| && projects[k].0 == projectName ==> r == Some(projects[k].1)
    {
      Lookup(projects, projectName)
    }

    /** `if not project_id` fails on the last project. */
    predicate HasLast()
      reads this
    {
      lastProject.Some? && Truthy(lastProject.value)
    }

    /** `get_last_project_id` */
    function GetLastProjectId(): Option<ProjectId>
      reads this
    {
      lastProject
    }

    /** `set_last_project`: no check that a project has this id. */
    method SetLastProject(projectId: ProjectId)
      modifies this
      ensures projects == old(projects) && lastProject == Some(projectId)
      ensures saved == Some(Convert(DataJson(projects, lastProject)))
    {
      lastProject := Some(projectId);
      Save();
    }

    /** `get_saved_project_summary`: nothing without a (truthy) last
        project; otherwise the first pair holding its id, found by a loop;
        an error when no pair holds it. */
    method GetSavedProjectSummary() returns (r: Result<Option<(string, ProjectId)>, MemoryError>)
      ensures !HasLast() ==> r == Ok(None)
      ensures HasLast() ==> (r.Err? <==> !HasId(projects, lastProject.value))
      ensures r.Err? ==> r.error == InconsistentMemory(lastProject.value)
      ensures r.Ok? && r.value.Some? ==>
                && HasLast()
                && (exists k :: && 0 <= k < |projects| && projects[k] == r.value.value
                                && projects[k].1 == lastProject.value
                                && forall j :: 0 <= j < k ==> projects[j].1 != lastProject.value)
      ensures HasLast() ==> r.Ok? ==> r.value.Some?
    {
      var projectId := GetLastProjectId();
      if projectId.None? || !Truthy(projectId.value) {
        return Ok(None);
      }
      var i := 0;
      while i < |projects|
        invariant i <= |projects|
        invariant forall j :: 0 <= j < i ==> projects[j].1 != projectId.value
      {
        var (name, pid) := projects[i];
        if pid == projectId.value {
          return Ok(Some((name, pid)));
        }
        i := i + 1;
      }
      r := Err(InconsistentMemory(projectId.value));
    }

    /** `delete_project_by_id`: a loop finds the first name holding the id;
        when that name is truthy (non-empty) it is removed, the last project
        is cleared if it is this id, and the data is saved. An id nobody
        holds, or held first by a project named "", changes nothing and
        writes nothing. */
    method DeleteProjectById(projectId: ProjectId)
      requires Valid()
      modifies this
      ensures Valid()
      ensures match FirstWithId(old(projects), projectId)
              case None =>
                projects == old(projects) && lastProject == old(lastProject) && saved == old(saved)
              case Some(k) =>
                if old(projects)[k].0 == [] then
                  projects == old(projects) && lastProject == old(lastProject) && saved == old(saved)
                else
                  && projects == RemoveAt(old(projects), k)
                  && lastProject == (if old(lastProject) == Some(projectId) then None else old(lastProject))
                  && saved == Some(Convert(DataJson(projects, lastProject)))
    {
      var nameToDelete: Option<string> := None;
      ghost var found: Option<nat> := None;
      var i := 0;
      while i < |projects|
        invariant i <= |projects|
        invariant forall j :: 0 <= j < i ==> projects[j].1 != projectId
        invariant nameToDelete == None && found == None
      {
        if projects[i].1 == projectId {
          nameToDelete := Some(projects[i].0);
          found := Some(i);
          break;
        }
        i := i + 1;
      }
      assert found == FirstWithId(projects, projectId);
      if Filled(nameToDelete) {
        RemoveAtUnique(projects, found.value);
        RemoveNameAt(projects, found.value);
        projects := RemoveName(projects, nameToDelete.value);
        if lastProject == Some(projectId) {
          lastProject := None;
        }
        Save();
      }
    }

    /** `clear`: empty projects, no last project, saved. */
    method Clear()
      modifies this
      ensures Valid()
      ensures projects == [] && lastProject == None
      ensures saved == Some(Convert(DataJson([], None)))
    {
      projects := [];
      lastProject := None;
      Save();
    }
  }
}
