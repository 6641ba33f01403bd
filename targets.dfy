/** Pieces shared by both generations of the `scan start` command: the
    `--hosts` list, the configuration files, the project id fallback and the
    ways a command ends with an error message and exit status 1. */
module Targets {
  import opened Common
  import opened Text
  import opened Options
  import opened IoUtils
  import opened Schemas
  import ProfileService

  /** The error message a scan command prints before exiting with status 1;
      `UncaughtDirectory` is the `IsADirectoryError` and
      `UncaughtProfileError` the `ValueError` of a profile that does not
      load, and `UncaughtHostsValidator` the `AttributeError` of the hosts
      validator, which no caller catches and which end the process with a
      traceback and status 1. */
  datatype ScanError =
    | ConfigNotFound(path: string)
    | ConfigReadFailed
    | ConfigValidationFailed
    | TargetsFileNotFound(path: string)
    | UncaughtDirectory(path: string)
    | NoTargetsFound
    | NoHostsProvided
    | ProjectIdRequired
    | UncaughtProfileError(error: ProfileService.ProfileError)
    | UncaughtHostsValidator
    | ServiceFailed(failure: ServiceFailure)

  /** How a scan service call fails: the `RuntimeError` it raises, or, for
      an unparsable status body, the validation error no caller catches. */
  datatype ServiceFailure =
    | ConnectorRaised(message: string)
    | NoStartResponse(project: string)
    | StartResponseUnparsed
    | RevokeUnparsed
    | StopFailed(project: string)
    | StatusFailed(project: string)
    | StatusUnparsed

  /** The top-level fields of a scan request. */
  datatype RequestField =
    | HostsField | HostsFileField | OpenPortsOptsField | ServiceOptsField
    | TimeoutField | IncludeServicesField | ModeField

  /** A request model with the names of the fields explicitly set, by the
      mapping it was built from or by a later assignment (pydantic's
      `model_fields_set`). `model_dump(exclude_unset=True)` sends the
      request's values for exactly these fields; a field left at the
      client's default is not sent. */
  datatype Tracked = Tracked(request: RunNmapRequest, fieldsSet: set<RequestField>)

  /** `scan_request.hosts = hosts`: the value changes and the field counts
      as set. */
  function WithHosts(t: Tracked, hosts: seq<string>): (r: Tracked)
    ensures r.request.hosts == Some(hosts) && HostsField in r.fieldsSet
    ensures r.request.(hosts := t.request.hosts) == t.request
    ensures r.fieldsSet - {HostsField} == t.fieldsSet - {HostsField}
  {
    Tracked(t.request.(hosts := Some(hosts)), t.fieldsSet + {HostsField})
  }

  /** What reading a scan configuration gives: a read error, or the parsed
      YAML mapping, held as a not yet validated request record (the absent
      keys at their defaults) and the set of keys the mapping holds. */
  datatype ConfigFile = Unreadable | Parsed(doc: RunNmapRequest, keys: set<RequestField>)

  /** The configuration files that exist, by path. */
  type Configs = map<string, ConfigFile>

  /** What `Path(path)` holds as a configuration, if it exists: the current
      directory `.`, which the empty path also names, always exists and
      fails to be read as a file; any other path is looked up among the
      configuration files. */
  function ConfigAt(configs: Configs, path: string): (c: Option<ConfigFile>)
    ensures PathOf(path) == "." ==> c == Some(Unreadable)
    ensures PathOf(path) != "." ==> path != [] && (c.Some? <==> path in configs)
    ensures c.Some? && c.value.Parsed? ==> path in configs && c.value == configs[path]
  {
    var p := PathOf(path);
    if p == "." then Some(Unreadable) else if p in configs then Some(configs[p]) else None
  }

  // ----- the `validate_hosts` validator of `RunNmapRequest` -----

  /** How the validator ends: it returns the value, raises `ValueError`
      (a validation error of the request), or raises something else. */
  datatype HostsCheck = HostsAccepted | HostsRefused | HostsCrashed

  /** `validate_hosts` as written. pydantic calls it only when the mapping
      gives `hosts`. A truthy value is returned at once; for a falsy one
      (null or an empty list) it evaluates `values.get("hosts_file")`, but
      pydantic passes a `ValidationInfo` there, which has no `get`: the
      validator raises `AttributeError`, which pydantic passes on as it is. */
  function HostsValidator(doc: RunNmapRequest, keys: set<RequestField>): (c: HostsCheck)
    ensures c != HostsRefused
    ensures c == HostsCrashed <==> HostsField in keys && !Filled(doc.hosts)
  {
    if HostsField !in keys || Filled(doc.hosts) then HostsAccepted else HostsCrashed
  }

  /** `validate_hosts` as its comment describes it: a falsy `hosts` is
      refused only when the mapping names no hosts file either, the hosts
      file being read later by the caller. */
  function IntendedHostsValidator(doc: RunNmapRequest, keys: set<RequestField>): (c: HostsCheck)
    ensures c != HostsCrashed
    ensures c == HostsRefused <==> HostsField in keys && !Filled(doc.hosts) && !Filled(doc.hostsFile)
  {
    if HostsField !in keys || Filled(doc.hosts) || Filled(doc.hostsFile) then HostsAccepted else HostsRefused
  }

  /** The two agree on every mapping except one that gives a falsy `hosts`:
      there the validator as written always raises, where the intended one
      accepts a mapping with a hosts file and refuses one without. */
  lemma HostsValidatorsDiffer(doc: RunNmapRequest, keys: set<RequestField>)
    ensures HostsValidator(doc, keys) != IntendedHostsValidator(doc, keys)
            <==> HostsField in keys && !Filled(doc.hosts)
    ensures HostsField in keys && !Filled(doc.hosts) ==>
              && HostsValidator(doc, keys) == HostsCrashed
              && (IntendedHostsValidator(doc, keys) == HostsAccepted <==> Filled(doc.hostsFile))
  {
  }

  /** The input that shows the defect: `{hosts: [], hosts_file: "t.txt"}`,
      the case the validator's comment means to let through, raises. */
  lemma EmptyHostsWithFileCrashes()
    ensures var doc := DefaultRequest(Some([])).(hostsFile := Some("t.txt"));
            var keys := {HostsField, HostsFileField};
            HostsValidator(doc, keys) == HostsCrashed && IntendedHostsValidator(doc, keys) == HostsAccepted
  {
  }

  /** Which of the two validators a loader applies. */
  datatype Validation = AsWritten | AsIntended

  function CheckHosts(v: Validation, doc: RunNmapRequest, keys: set<RequestField>): HostsCheck {
    match v
    case AsWritten => HostsValidator(doc, keys)
    case AsIntended => IntendedHostsValidator(doc, keys)
  }

  /** The path names a configuration file whose YAML mapping parsed. */
  predicate ParsedAt(configs: Configs, path: string)
    ensures ParsedAt(configs, path) ==> path in configs && configs[path].Parsed?
  {
    ConfigAt(configs, path).Some? && ConfigAt(configs, path).value.Parsed?
  }

  /** `[h.strip() for h in hosts.split(",") if h.strip()]` */
  function HostsFromCsv(csv: string): seq<string> {
    StrippedNonBlank(Split(csv, ','))
  }

  /** Every host of the list is trimmed, non-empty and free of commas. */
  lemma HostsFromCsvClean(csv: string)
    ensures forall h :: h in HostsFromCsv(csv) ==> Clean(h) && ',' !in h
  {
    var parts := Split(csv, ',');
    StrippedNonBlankClean(parts);
    forall h | h in HostsFromCsv(csv) ensures ',' !in h {
      PresentMember(KeptLines(parts), h);
      var i :| 0 <= i < |parts| && KeptLines(parts)[i] == Some(h);
      assert parts[i] in parts;
      StripSubsequence(parts[i], ',');
    }
  }

  /** Writing the list back as comma-separated text and reading it again
      gives the same list. */
  lemma HostsFromCsvRoundTrip(csv: string)
    ensures HostsFromCsv(Join(HostsFromCsv(csv), [','])) == HostsFromCsv(csv)
  {
    var hosts := HostsFromCsv(csv);
    HostsFromCsvClean(csv);
    if hosts == [] {
      assert Split([], ',') == [[]];
      assert !NonBlank([]);
      assert KeptLines([[]]) == [None];
    } else {
      SplitJoin(hosts, ',');
      CleanLinesUnchanged(hosts);
    }
  }

  /** A list of separate host names reads back from its comma join. */
  lemma HostsFromCsvJoin(hosts: seq<string>)
    requires forall h :: h in hosts ==> Clean(h) && ',' !in h
    ensures HostsFromCsv(Join(hosts, [','])) == hosts
  {
    if hosts == [] {
      assert Split([], ',') == [[]];
      assert !NonBlank([]);
      assert KeptLines([[]]) == [None];
    } else {
      SplitJoin(hosts, ',');
      CleanLinesUnchanged(hosts);
    }
  }

  /** `project_id or <saved id>`, failing with the id-required message when
      neither is a non-empty string. */
  function ResolveProjectId(explicit: Option<string>, saved: Option<string>): (r: Result<string, ScanError>)
    ensures r.Ok? ==> r.value != []
    ensures Filled(explicit) ==> r == Ok(explicit.value)
    ensures !Filled(explicit) && Filled(saved) ==> r == Ok(saved.value)
    ensures r.Err? <==> !Filled(explicit) && !Filled(saved)
    ensures r.Err? ==> r.error == ProjectIdRequired
  {
    if Filled(explicit) then Ok(explicit.value)
    else if Filled(saved) then Ok(saved.value)
    else Err(ProjectIdRequired)
  }
}
