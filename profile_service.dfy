/** Profiles of the newer client (app/core/profile/services.py): one YAML
    document per profile in the profile directory, and a text file in the
    same directory naming the active profile. */
module ProfileService {
  import opened Common
  import opened Text
  import opened Options

  /** An entry of a profile's `projects` list or its `current_project`: the
      project service stores records (name and id), while `profile
      set-active-project` and `profile set` store bare strings. */
  datatype ProjectEntry = BareId(id: string) | ProjectRecord(name: string, projectId: string)

  /** `FalcoriaProfile`. The three connection fields are declared `str`; they
      are optional here because the validator also looks for None. */
  datatype FalcoriaProfile = FalcoriaProfile(
    scanledgerBaseUrl: Option<string>,
    taskerBaseUrl: Option<string>,
    token: Option<string>,
    projects: seq<ProjectEntry>,
    currentProject: Option<ProjectEntry>)

  /** A profile created from the three connection fields alone. */
  function NewProfile(scanledgerBaseUrl: string, taskerBaseUrl: string, token: string): (p: FalcoriaProfile)
    ensures p.projects == [] && p.currentProject == None
  {
    FalcoriaProfile(Some(scanledgerBaseUrl), Some(taskerBaseUrl), Some(token), [], None)
  }

  /** What a profile file holds: a document that is not a mapping of
      profile fields at all, or the fields `save_profile` dumped. */
  datatype ProfileFile = Unloadable | Stored(profile: FalcoriaProfile)

  /** The declared schema of `FalcoriaProfile`: the three connection fields
      are strings, `projects` a list of strings and `current_project` a
      string or None. A dumped record (a mapping) fails it. */
  predicate Conforms(p: FalcoriaProfile) {
    && p.scanledgerBaseUrl.Some? && p.taskerBaseUrl.Some? && p.token.Some?
    && (forall k :: 0 <= k < |p.projects| ==> p.projects[k].BareId?)
    && (p.currentProject.Some? ==> p.currentProject.value.BareId?)
  }

  /** The two `ValueError`s of `load_profile`. */
  datatype ProfileError = ProfileNotFound(name: string) | ProfileLoadFailed(name: string)

  const DefaultProfileName: string := "default"
  const ActiveProfileFileName: string := "active_profile.txt"

  /** `_get_profile_path`: `<dir>/<name>.yaml`. */
  function ProfilePath(dir: string, name: string): (p: string)
    ensures |p| == |dir| + |name| + 6
    ensures p[..|dir| + 1] == dir + "/" && p[|dir| + 1..|dir| + 1 + |name|] == name
    ensures p[|p| - 5..] == ".yaml"
  {
    dir + "/" + name + ".yaml"
  }

  /** Distinct profile names have distinct files. */
  lemma ProfilePathInjective(dir: string, a: string, b: string)
    requires ProfilePath(dir, a) == ProfilePath(dir, b)
    ensures a == b
  {
    assert |a| == |b|;
    assert a == ProfilePath(dir, a)[|dir| + 1..|dir| + 1 + |a|];
  }

  /** No profile file is the active-profile file. */
  lemma ProfilePathNotActiveFile(dir: string, name: string)
    ensures ProfilePath(dir, name) != dir + "/" + ActiveProfileFileName
  {
    var p := ProfilePath(dir, name);
    var q := dir + "/" + ActiveProfileFileName;
    assert p[|p| - 4] == 'y';
    assert q[|q| - 4] == '.';
  }

  /** The name `get_active_profile_name` returns for the active-profile file's
      contents (None when the file does not exist). */
  function ActiveName(active: Option<string>): (name: string)
    ensures active.None? ==> name == DefaultProfileName
    ensures active.Some? ==> !SurroundingSpace(name) && |name| <= |active.value|
  {
    if active.None? then DefaultProfileName else Strip(active.value)
  }

  /** The active-profile file after `get_active_profile_name`: created
      holding "default" when it was absent, otherwise as it was. */
  function ActiveAfterRead(active: Option<string>): (after: Option<string>)
    ensures after.Some? && ActiveName(after) == ActiveName(active)
  {
    if active.None? then Some(DefaultProfileName) else active
  }

  /** The name starts or ends with whitespace. */
  predicate SurroundingSpace(name: string) {
    name != [] && (IsSpace(name[0]) || IsSpace(name[|name| - 1]))
  }

  /** A name written by `set_active_profile` is read back unchanged when it
      carries no surrounding whitespace. */
  lemma ActiveNameRoundTrip(name: string)
    requires !SurroundingSpace(name)
    ensures ActiveName(Some(name)) == name
  {
    if name != [] {
      StripUnchanged(name);
    }
  }

  /** The active name is empty (falsy for the callers) exactly when the
      file exists and holds only whitespace. */
  lemma ActiveNameEmptyIff(active: Option<string>)
    ensures ActiveName(active) == [] <==> active.Some? && AllSpace(active.value)
  {
    if active.Some? {
      StripEmptyIffAllSpace(active.value);
    }
  }

  /** The profile directory: profile files by path, and the contents of the
      active-profile file. */
  class ProfileStore {
    const dir: string
    var active: Option<string>
    var files: map<string, ProfileFile>

    constructor (dir: string, active: Option<string>, files: map<string, ProfileFile>)
      ensures this.dir == dir && this.active == active && this.files == files
    {
      this.dir := dir;
      this.active := active;
      this.files := files;
    }

    /** `load_profile`: a missing file is one error; a document that does
        not validate against the schema is the other. */
    function LoadProfile(name: string): (r: Result<FalcoriaProfile, ProfileError>)
      reads this
      ensures r == Err(ProfileNotFound(name)) <==> ProfilePath(dir, name) !in files
      ensures r == Err(ProfileLoadFailed(name)) <==>
        ProfilePath(dir, name) in files && !(files[ProfilePath(dir, name)].Stored? && Conforms(files[ProfilePath(dir, name)].profile))
      ensures r.Ok? ==> ProfilePath(dir, name) in files && files[ProfilePath(dir, name)] == Stored(r.value) && Conforms(r.value)
    {
      var path := ProfilePath(dir, name);
      if path !in files then Err(ProfileNotFound(name))
      else if files[path].Unloadable? || !Conforms(files[path].profile) then Err(ProfileLoadFailed(name))
      else Ok(files[path].profile)
    }

    /** `save_profile`: the profile's file is (over)written with its dump;
        a later load returns this profile when it fits the schema and fails
        otherwise, and every other profile is as it was. */
    method SaveProfile(name: string, profile: FalcoriaProfile)
      modifies this`files
      ensures files == old(files)[ProfilePath(dir, name) := Stored(profile)]
      ensures LoadProfile(name) == if Conforms(profile) then Ok(profile) else Err(ProfileLoadFailed(name))
      ensures forall other :: other != name ==> LoadProfile(other) == old(LoadProfile(other))
    {
      files := files[ProfilePath(dir, name) := Stored(profile)];
      forall other | other != name
        ensures LoadProfile(other) == old(LoadProfile(other))
      {
        if ProfilePath(dir, other) == ProfilePath(dir, name) {
          ProfilePathInjective(dir, other, name);
        }
      }
    }

    /** `set_active_profile` */
    method SetActiveProfile(name: string)
      modifies this`active
      ensures active == Some(name)
    {
      active := Some(name);
    }

    /** `get_active_profile_name`: an absent file is created holding
        "default"; otherwise its stripped contents are the name. */
    method GetActiveProfileName() returns (name: string)
      modifies this`active
      ensures name == ActiveName(old(active))
      ensures active == ActiveAfterRead(old(active))
    {
      if active.None? {
        active := Some(DefaultProfileName);
        return DefaultProfileName;
      }
      name := Strip(active.value);
    }

    /** `get_saved_project_id`: the active profile's `current_project`,
        whatever entry it holds; the active name is not checked for being
        empty before the load. */
    method GetSavedProjectId() returns (r: Result<Option<ProjectEntry>, ProfileError>)
      modifies this`active
      ensures var loaded := LoadProfile(ActiveName(old(active)));
        r == if loaded.Ok? then Ok(loaded.value.currentProject) else Err(loaded.error)
    {
      var name := GetActiveProfileName();
      var loaded := LoadProfile(name);
      if loaded.Err? {
        return Err(loaded.error);
      }
      r := Ok(loaded.value.currentProject);
    }
  }

  /** The fields `validate_profile_data` requires, in the order it checks them. */
  const RequiredFields: seq<string> := ["scanledger_base_url", "tasker_base_url", "token"]

  /** The value of required field `k`. */
  function RequiredValue(p: FalcoriaProfile, k: nat): Option<string>
    requires k < 3
  {
    if k == 0 then p.scanledgerBaseUrl else if k == 1 then p.taskerBaseUrl else p.token
  }

  /** None, or a string that strips to nothing. */
  predicate MissingValue(v: Option<string>) {
    v.None? || Strip(v.value) == []
  }

  /** Field `k`'s name when its value is missing. */
  function MissingSlots(p: FalcoriaProfile): (slots: seq<Option<string>>)
    ensures |slots| == 3
  {
    seq(3, k requires 0 <= k < 3 => if MissingValue(RequiredValue(p, k)) then Some(RequiredFields[k]) else None)
  }

  /** The names of the missing required fields, in checking order. */
  function MissingFields(p: FalcoriaProfile): seq<string> {
    Present(MissingSlots(p))
  }

  /** `validate_profile_data` */
  method ValidateProfileData(p: FalcoriaProfile) returns (missing: seq<string>)
    ensures missing == MissingFields(p)
  {
    missing := [];
    var k := 0;
    while k < 3
      invariant 0 <= k <= 3
      invariant missing == Present(MissingSlots(p)[..k])
    {
      Step(MissingSlots(p), k);
      var value := RequiredValue(p, k);
      if value.None? || Strip(value.value) == [] {
        missing := missing + [RequiredFields[k]];
      }
      k := k + 1;
    }
    assert MissingSlots(p)[..3] == MissingSlots(p);
  }

  /** The list written out: each field in turn, when missing. */
  lemma MissingFieldsUnrolled(p: FalcoriaProfile)
    ensures MissingFields(p) ==
      (if MissingValue(p.scanledgerBaseUrl) then ["scanledger_base_url"] else []) +
      (if MissingValue(p.taskerBaseUrl) then ["tasker_base_url"] else []) +
      (if MissingValue(p.token) then ["token"] else [])
  {
    var s := MissingSlots(p);
    assert s[..3] == s;
    Step(s, 0);
    Step(s, 1);
    Step(s, 2);
    assert s[..0] == [];
  }

  /** A field is reported iff it is required and its value is None or
      whitespace only. */
  lemma MissingFieldsExact(p: FalcoriaProfile, f: string)
    ensures f in MissingFields(p) <==>
      (f == "scanledger_base_url" && MissingValue(p.scanledgerBaseUrl)) ||
      (f == "tasker_base_url" && MissingValue(p.taskerBaseUrl)) ||
      (f == "token" && MissingValue(p.token))
  {
    MissingFieldsUnrolled(p);
  }

  /** The report follows the checking order and names no field twice. */
  lemma MissingFieldsOrdered(p: FalcoriaProfile)
    ensures forall i, j :: 0 <= i < j < |MissingFields(p)| ==>
      FieldRank(MissingFields(p)[i]) < FieldRank(MissingFields(p)[j])
  {
    MissingFieldsUnrolled(p);
  }

  /** A required field's position in the checking order. */
  function FieldRank(f: string): nat {
    if f == RequiredFields[0] then 0 else if f == RequiredFields[1] then 1 else 2
  }

  /** Nothing is reported iff all three fields hold non-blank text. */
  lemma NothingMissingIff(p: FalcoriaProfile)
    ensures MissingFields(p) == [] <==> forall k :: 0 <= k < 3 ==> !MissingValue(RequiredValue(p, k))
  {
    MissingFieldsUnrolled(p);
    assert RequiredValue(p, 0) == p.scanledgerBaseUrl;
    assert RequiredValue(p, 1) == p.taskerBaseUrl;
    assert RequiredValue(p, 2) == p.token;
  }

  /** A profile created from three non-blank values passes validation. */
  lemma NewProfileValid(scanledgerBaseUrl: string, taskerBaseUrl: string, token: string)
    requires NonBlank(scanledgerBaseUrl) && NonBlank(taskerBaseUrl) && NonBlank(token)
    ensures MissingFields(NewProfile(scanledgerBaseUrl, taskerBaseUrl, token)) == []
  {
    MissingFieldsUnrolled(NewProfile(scanledgerBaseUrl, taskerBaseUrl, token));
  }

  /** `project_exists`: true exactly on a 200 answer; a raised request is
      false, like any other status. */
  function ProjectExists<T>(reply: Reply<T>): (r: bool)
    ensures r ==> reply.Answered?
    ensures reply.Answered? ==> (r <==> reply.status == 200)
  {
    match reply
    case Raised(_) => false
    case Answered(status, _) => status == 200
  }
}
