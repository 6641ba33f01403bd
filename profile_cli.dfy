/** The `profile` commands of the newer client (app/cli/profile.py) that do
    more than call a service: showing a profile as rows, setting the active
    project, and setting one field from its text value. */
module ProfileCli {
  import opened Common
  import opened Text
  import opened ProfileService

  /** Why a command stops: no active profile, an unknown project, a profile
      that does not load, an unknown field, a value that does not convert. */
  datatype CliError =
    | NoActiveProfile
    | ProjectNotFound(projectId: string)
    | ProfileUnavailable(error: ProfileError)
    | InvalidField(field: string)
    | ParseFailed(field: string)

  /** How a command ends: normally, with exit status 1 after printing the
      error, or with the error printed by its `except ValueError` handler and
      a normal exit. */
  datatype Outcome = Succeeded | Exited(error: CliError) | Reported(error: CliError)

  /** The fields of `FalcoriaProfile`, in declaration order. */
  const FieldNames: seq<string> := ["scanledger_base_url", "tasker_base_url", "token", "projects", "current_project"]

  /** The type annotations the conversion distinguishes. */
  datatype Annotation = StrType | ListOfStr | IntType | BoolType | NoneType | OtherType

  /** A converted value. */
  datatype Typed = TText(s: string) | TList(items: seq<string>) | TInt(i: int) | TBool(b: bool) | TNone

  /** The annotation of each model field: three `str`, one `list[str]`, and
      `str | None`, which matches none of the types it checks. */
  function FieldAnnotation(field: string): (a: Option<Annotation>)
    ensures a.Some? <==> field in FieldNames
  {
    if field == "scanledger_base_url" || field == "tasker_base_url" || field == "token" then Some(StrType)
    else if field == "projects" then Some(ListOfStr)
    else if field == "current_project" then Some(OtherType)
    else None
  }

  /** The values `bool` accepts as true, after lower-casing. */
  const TrueWords: seq<string> := ["true", "1", "yes"]

  /** `[item.strip() for item in value.split(",")]`: one item per part, empty
      parts kept. */
  function StrippedParts(value: string): (items: seq<string>)
    ensures |items| == |Split(value, ',')|
    ensures forall k :: 0 <= k < |items| ==> items[k] == Strip(Split(value, ',')[k])
  {
    var parts := Split(value, ',');
    seq(|parts|, k requires 0 <= k < |parts| => Strip(parts[k]))
  }

  /** The value conversion of `set_profile_field`; None is the exception an
      `int` parse raises. */
  function ConvertValue(a: Annotation, value: string): (r: Option<Typed>)
    ensures r.None? <==> a == IntType && ParseInt(value).None?
    ensures a == StrType || a == OtherType ==> r == Some(TText(value))
    ensures a == NoneType ==> r == Some(TNone)
    ensures a == ListOfStr ==> r.Some? && r.value.TList? && |r.value.items| == |Split(value, ',')|
    ensures a == BoolType ==> r.Some? && r.value.TBool?
  {
    match a
    case StrType => Some(TText(value))
    case ListOfStr => Some(TList(StrippedParts(value)))
    case IntType => if ParseInt(value).Some? then Some(TInt(ParseInt(value).value)) else None
    case BoolType => Some(TBool(Lower(value) in TrueWords))
    case NoneType => Some(TNone)
    case OtherType => Some(TText(value))
  }

  /** Comma-free items without surrounding whitespace, joined by ",", convert
      back to the same list. */
  lemma ListRoundTrip(items: seq<string>)
    requires |items| >= 1
    requires forall k :: 0 <= k < |items| ==> ',' !in items[k] && !SurroundingSpace(items[k])
    ensures ConvertValue(ListOfStr, Join(items, ",")) == Some(TList(items))
  {
    forall q | q in items ensures ',' !in q {
      var k :| 0 <= k < |items| && items[k] == q;
    }
    var text := Join(items, ",");
    SplitJoin(items, ',');
    assert Split(text, ',') == items;
    var r := StrippedParts(text);
    assert |r| == |items|;
    forall k | 0 <= k < |items| ensures r[k] == items[k] {
      StripClean(items[k]);
    }
    assert r == items;
  }

  lemma StripClean(s: string)
    requires !SurroundingSpace(s)
    ensures Strip(s) == s
  {
    if s != [] {
      StripUnchanged(s);
    }
  }

  /** An integer's decimal text converts back to the integer. */
  lemma IntRoundTrip(i: int)
    ensures ConvertValue(IntType, IntToString(i)) == Some(TInt(i))
  {
    ParseIntToString(i);
  }

  /** Blank text is not an integer. */
  lemma IntRejectsBlank(value: string)
    requires !NonBlank(value)
    ensures ConvertValue(IntType, value) == None
  {
  }

  lemma LowerUpper(value: string)
    ensures Lower(Upper(value)) == Lower(value)
  {
  }

  /** A `bool` value ignores letter case: true for "TRUE", "Yes", "1", and
      false for every other word. */
  lemma BoolCaseInsensitive(value: string)
    ensures ConvertValue(BoolType, Upper(value)) == ConvertValue(BoolType, value)
    ensures ConvertValue(BoolType, value) == Some(TBool(Lower(value) == "true" || Lower(value) == "1" || Lower(value) == "yes"))
  {
    LowerUpper(value);
  }

  /** The converted value has the shape the field stores. */
  predicate Fits(field: string, t: Typed) {
    if field == "projects" then t.TList? else t.TText?
  }

  /** `setattr(profile, field, typed_value)` for a model field. */
  function Assign(p: FalcoriaProfile, field: string, t: Typed): (q: FalcoriaProfile)
    requires field in FieldNames && Fits(field, t)
  {
    if field == "scanledger_base_url" then p.(scanledgerBaseUrl := Some(t.s))
    else if field == "tasker_base_url" then p.(taskerBaseUrl := Some(t.s))
    else if field == "token" then p.(token := Some(t.s))
    else if field == "projects" then p.(projects := seq(|t.items|, k requires 0 <= k < |t.items| => BareId(t.items[k])))
    else p.(currentProject := Some(BareId(t.s)))
  }

  /** The profile `set_profile_field` saves, or why it saves nothing. */
  function UpdatedProfile(p: FalcoriaProfile, field: string, value: string): (r: Result<FalcoriaProfile, CliError>)
    ensures r.Err? <==> field !in FieldNames
    ensures r.Err? ==> r.error == InvalidField(field)
  {
    match FieldAnnotation(field)
    case None => Err(InvalidField(field))
    case Some(a) =>
      var t := ConvertValue(a, value);
      Ok(Assign(p, field, t.value))
  }

  /** A string field takes the text verbatim and nothing else changes. */
  lemma SetStringField(p: FalcoriaProfile, field: string, value: string)
    requires field in FieldNames[..3]
    ensures UpdatedProfile(p, field, value).Ok?
    ensures var q := UpdatedProfile(p, field, value).value;
      q.projects == p.projects && q.currentProject == p.currentProject &&
      q.scanledgerBaseUrl == (if field == "scanledger_base_url" then Some(value) else p.scanledgerBaseUrl) &&
      q.taskerBaseUrl == (if field == "tasker_base_url" then Some(value) else p.taskerBaseUrl) &&
      q.token == (if field == "token" then Some(value) else p.token)
  {
  }

  /** `projects` takes one bare entry per comma-separated part, stripped,
      with empty parts kept; nothing else changes. */
  lemma SetProjectsField(p: FalcoriaProfile, value: string)
    ensures UpdatedProfile(p, "projects", value).Ok?
    ensures var q := UpdatedProfile(p, "projects", value).value;
      q == p.(projects := q.projects) &&
      |q.projects| == |Split(value, ',')| &&
      forall k :: 0 <= k < |q.projects| ==> q.projects[k] == BareId(Strip(Split(value, ',')[k]))
  {
  }

  /** `current_project` (annotated `str | None`) takes the text verbatim as
      a bare id, even the empty text. */
  lemma SetCurrentProjectField(p: FalcoriaProfile, value: string)
    ensures UpdatedProfile(p, "current_project", value) == Ok(p.(currentProject := Some(BareId(value))))
  {
  }

  /** No field of this model reaches the `int` branch, so no value fails to
      convert, and a profile that loaded still loads after any accepted set. */
  lemma UpdatedConforms(p: FalcoriaProfile, field: string, value: string)
    requires Conforms(p) && field in FieldNames
    ensures UpdatedProfile(p, field, value).Ok? && Conforms(UpdatedProfile(p, field, value).value)
  {
  }

  /** `set_profile_field`: load, check the field, convert, assign, save; an
      unknown field or a failed load exits with nothing saved. */
  method SetProfileField(store: ProfileStore, name: string, field: string, value: string) returns (end: Outcome)
    modifies store
    ensures store.active == old(store.active)
    ensures var loaded := old(store.LoadProfile(name));
      if loaded.Err? then end == Exited(ProfileUnavailable(loaded.error)) && store.files == old(store.files)
      else
        var updated := UpdatedProfile(loaded.value, field, value);
        if updated.Err? then end == Exited(updated.error) && store.files == old(store.files)
        else end == Succeeded && store.files == old(store.files)[ProfilePath(store.dir, name) := Stored(updated.value)]
  {
    var loaded := store.LoadProfile(name);
    if loaded.Err? {
      return Exited(ProfileUnavailable(loaded.error));
    }
    var annotation := FieldAnnotation(field);
    if annotation.None? {
      return Exited(InvalidField(field));
    }
    var typed := ConvertValue(annotation.value, value);
    if typed.None? {
      // Only an `int` field can fail to convert, and the model has none.
      assert false;
    }
    store.SaveProfile(name, Assign(loaded.value, field, typed.value));
    end := Succeeded;
  }

  /** A value of `model_dump()`: a string, a list of strings, or None. */
  datatype Dumped = DText(s: string) | DList(items: seq<string>) | DNone

  /** The ids of bare entries. */
  function Ids(ps: seq<ProjectEntry>): (ids: seq<string>)
    requires forall k :: 0 <= k < |ps| ==> ps[k].BareId?
    ensures |ids| == |ps| && forall k :: 0 <= k < |ps| ==> ids[k] == ps[k].id
  {
    seq(|ps|, k requires 0 <= k < |ps| => ps[k].id)
  }

  function DumpText(v: Option<string>): Dumped {
    if v.None? then DNone else DText(v.value)
  }

  /** `profile.model_dump().items()` of a profile that loaded. */
  function Dump(p: FalcoriaProfile): (d: seq<(string, Dumped)>)
    requires Conforms(p)
    ensures |d| == |FieldNames| && forall k :: 0 <= k < |d| ==> d[k].0 == FieldNames[k]
  {
    [("scanledger_base_url", DumpText(p.scanledgerBaseUrl)),
     ("tasker_base_url", DumpText(p.taskerBaseUrl)),
     ("token", DumpText(p.token)),
     ("projects", DList(Ids(p.projects))),
     ("current_project", if p.currentProject.None? then DNone else DText(p.currentProject.value.id))]
  }

  /** A row's value: a list joined with ", " ("-" when empty), None as "-",
      a string as itself. */
  function Render(v: Dumped): (cell: string)
    ensures v.DList? && v.items != [] ==> |cell| == TotalLength(v.items) + 2 * (|v.items| - 1)
  {
    match v
    case DList(items) => if items == [] then "-" else JoinLength(items, ", "); Join(items, ", ")
    case DNone => "-"
    case DText(s) => s
  }

  /** The rows `show_profile` builds: one per field in declaration order,
      each with its rendered value. */
  method ProfileRows(p: FalcoriaProfile) returns (rows: seq<(string, string)>)
    requires Conforms(p)
    ensures |rows| == |FieldNames|
    ensures forall k :: 0 <= k < |rows| ==> rows[k] == (FieldNames[k], Render(Dump(p)[k].1))
  {
    var dumped := Dump(p);
    rows := [];
    for i := 0 to |dumped|
      invariant |rows| == i
      invariant forall k :: 0 <= k < i ==> rows[k] == (FieldNames[k], Render(dumped[k].1))
    {
      var (fieldName, value) := dumped[i];
      var text := match value
        case DList(items) => if items != [] then Join(items, ", ") else "-"
        case DNone => "-"
        case DText(s) => s;
      rows := rows + [(fieldName, text)];
    }
  }

  /** What the rows say about a loaded profile: the connection fields
      verbatim, the projects joined (or "-"), the current project's id (or
      "-"). */
  lemma ProfileRowsValues(p: FalcoriaProfile)
    requires Conforms(p)
    ensures Render(Dump(p)[0].1) == p.scanledgerBaseUrl.value
    ensures Render(Dump(p)[1].1) == p.taskerBaseUrl.value
    ensures Render(Dump(p)[2].1) == p.token.value
    ensures Render(Dump(p)[3].1) == if p.projects == [] then "-" else Join(Ids(p.projects), ", ")
    ensures Render(Dump(p)[4].1) == if p.currentProject.None? then "-" else p.currentProject.value.id
  {
  }

  /** `show_profile`: the named profile, or the active one when no name is
      given; an empty active name exits, a failed load is reported. */
  method ShowProfile(store: ProfileStore, name: Option<string>) returns (end: Outcome, rows: seq<(string, string)>)
    modifies store
    ensures store.files == old(store.files)
    ensures store.active == if name.None? then ActiveAfterRead(old(store.active)) else old(store.active)
    ensures var shown := if name.Some? then name.value else ActiveName(old(store.active));
      var loaded := old(store.LoadProfile(shown));
      if name.None? && shown == [] then end == Exited(NoActiveProfile) && rows == []
      else if loaded.Err? then end == Reported(ProfileUnavailable(loaded.error)) && rows == []
      else (end == Succeeded && |rows| == |FieldNames| &&
        forall k :: 0 <= k < |rows| ==> rows[k] == (FieldNames[k], Render(Dump(loaded.value)[k].1)))
  {
    rows := [];
    var shown: string;
    if name.None? {
      shown := store.GetActiveProfileName();
      if shown == [] {
        return Exited(NoActiveProfile), [];
      }
    } else {
      shown := name.value;
    }
    var loaded := store.LoadProfile(shown);
    if loaded.Err? {
      return Reported(ProfileUnavailable(loaded.error)), [];
    }
    rows := ProfileRows(loaded.value);
    end := Succeeded;
  }

  /** `set_default_project` (the `set-active-project` command): the active
      profile's current project becomes the bare id. It exits without saving
      when there is no active name or the project is unknown; a failed load
      is reported. */
  method SetDefaultProject<T>(store: ProfileStore, projectId: string, existsReply: Reply<T>) returns (end: Outcome)
    modifies store
    ensures store.active == ActiveAfterRead(old(store.active))
    ensures var name := ActiveName(old(store.active));
      var loaded := old(store.LoadProfile(name));
      if name == [] then end == Exited(NoActiveProfile) && store.files == old(store.files)
      else if !ProjectExists(existsReply) then end == Exited(ProjectNotFound(projectId)) && store.files == old(store.files)
      else if loaded.Err? then end == Reported(ProfileUnavailable(loaded.error)) && store.files == old(store.files)
      else end == Succeeded && store.files == old(store.files)[ProfilePath(store.dir, name) :=
        Stored(loaded.value.(currentProject := Some(BareId(projectId))))]
  {
    var name := store.GetActiveProfileName();
    if name == [] {
      return Exited(NoActiveProfile);
    }
    if !ProjectExists(existsReply) {
      return Exited(ProjectNotFound(projectId));
    }
    var loaded := store.LoadProfile(name);
    if loaded.Err? {
      return Reported(ProfileUnavailable(loaded.error));
    }
    store.SaveProfile(name, loaded.value.(currentProject := Some(BareId(projectId))));
    end := Succeeded;
  }

  /** `set_active` (the `set-active-profile` command): the named profile
      must load, and then becomes the active one; a failed load is reported
      and leaves the active profile as it was. Once set, a name without
      surrounding whitespace is what the next command reads back, and it
      loads the same profile. */
  method SetActive(store: ProfileStore, name: string) returns (end: Outcome)
    modifies store
    ensures store.files == old(store.files)
    ensures var loaded := old(store.LoadProfile(name));
      if loaded.Err? then end == Reported(ProfileUnavailable(loaded.error)) && store.active == old(store.active)
      else end == Succeeded && store.active == Some(name)
    ensures end.Succeeded? && !SurroundingSpace(name) ==>
              ActiveName(store.active) == name && store.LoadProfile(ActiveName(store.active)).Ok?
  {
    var loaded := store.LoadProfile(name);
    if loaded.Err? {
      return Reported(ProfileUnavailable(loaded.error));
    }
    store.SetActiveProfile(name);
    if !SurroundingSpace(name) {
      ActiveNameRoundTrip(name);
    }
    end := Succeeded;
  }

  /** What `validate` prints, in order. */
  datatype ValidateMessage = ProfileFileNotFound | MissingRequired(fields: seq<string>) | FailedToLoad | ProfileValid

  /** `validate_profile` on the file at the given path (None when it does
      not exist): the messages printed and the exit status. The whole body
      runs inside `try ... except Exception`, and the `typer.Exit` it raises
      on a refusal is itself an `Exception` (click's `Exit` derives from
      `RuntimeError`), so every refusal is followed by the failed-to-load
      message before the exit with status 1. A document that does not build
      a `FalcoriaProfile` fails the same way. */
  function ValidateProfile(file: Option<ProfileFile>): (r: (seq<ValidateMessage>, int))
    ensures r.1 == 0 <==> file.Some? && file.value.Stored? && Conforms(file.value.profile)
                          && MissingFields(file.value.profile) == []
    ensures r.1 == 0 ==> r.0 == [ProfileValid]
    ensures r.1 != 0 ==> r.1 == 1 && r.0 != [] && r.0[|r.0| - 1] == FailedToLoad
    ensures file.None? ==> r.0 == [ProfileFileNotFound, FailedToLoad]
    ensures file.Some? && file.value.Stored? && Conforms(file.value.profile) && MissingFields(file.value.profile) != [] ==>
              r.0 == [MissingRequired(MissingFields(file.value.profile)), FailedToLoad]
    ensures ProfileValid in r.0 <==> r.1 == 0
  {
    if file.None? then ([ProfileFileNotFound, FailedToLoad], 1)
    else if file.value.Unloadable? || !Conforms(file.value.profile) then ([FailedToLoad], 1)
    else
      var missing := MissingFields(file.value.profile);
      if missing != [] then ([MissingRequired(missing), FailedToLoad], 1)
      else ([ProfileValid], 0)
  }

  /** A profile `create` writes passes `validate` exactly when none of its
      three connection values is blank. */
  lemma CreatedProfileValidates(scanledgerBaseUrl: string, taskerBaseUrl: string, token: string)
    ensures ValidateProfile(Some(Stored(NewProfile(scanledgerBaseUrl, taskerBaseUrl, token)))).1 == 0
            <==> NonBlank(scanledgerBaseUrl) && NonBlank(taskerBaseUrl) && NonBlank(token)
  {
    var p := NewProfile(scanledgerBaseUrl, taskerBaseUrl, token);
    NothingMissingIff(p);
    assert Conforms(p);
    assert RequiredValue(p, 0) == Some(scanledgerBaseUrl);
    assert RequiredValue(p, 1) == Some(taskerBaseUrl);
    assert RequiredValue(p, 2) == Some(token);
  }

  /** The id set by `set-active-project` is read back by the next load. */
  lemma DefaultProjectReloads(p: FalcoriaProfile, projectId: string)
    requires Conforms(p)
    ensures Conforms(p.(currentProject := Some(BareId(projectId))))
  {
  }
}
