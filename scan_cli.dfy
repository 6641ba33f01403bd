/** The newer `scan` commands (app/cli/scan.py): `start` resolves its hosts
    twice, before and after loading the configuration; `stop` and `status`
    resolve the project and read the service's answer. */
module ScanCli {
  import opened Common
  import opened IoUtils
  import opened Schemas
  import opened Targets
  import opened ScanService

  /** What `ProfileService.get_saved_project_id()` gives: the active
      profile's `current_project`, or the `ValueError` of a profile that is
      missing or does not load. */
  type SavedLookup = Result<Option<string>, ProfileService.ProfileError>

  /** `ProfileService.get_saved_project_id()` as the scan commands receive
      it: a loaded profile conforms to its schema, so its `current_project`
      is a string or None. */
  method SavedProjectId(store: ProfileService.ProfileStore) returns (saved: SavedLookup)
    modifies store`active
    ensures var loaded := store.LoadProfile(ProfileService.ActiveName(old(store.active)));
            && (loaded.Err? ==> saved == Err(loaded.error))
            && (loaded.Ok? ==> saved.Ok? && (saved.value.None? <==> loaded.value.currentProject.None?))
            && (loaded.Ok? && saved.value.Some? ==>
                  loaded.value.currentProject == Some(ProfileService.BareId(saved.value.value)))
  {
    var r := store.GetSavedProjectId();
    if r.Err? {
      return Err(r.error);
    }
    match r.value
    case None => saved := Ok(None);
    case Some(entry) =>
      if entry.ProjectRecord? {
        // A profile whose current project is a record does not load.
        assert false;
      }
      saved := Ok(Some(entry.id));
  }

  /** `project_id or ProfileService.get_saved_project_id()`: the saved id
      is looked up only when no project id is given, and then a profile
      that does not load raises its `ValueError`, which nothing catches;
      otherwise the id-required message when neither is a non-empty
      string. */
  function ProjectOrSaved(projectId: Option<string>, saved: SavedLookup): (r: Result<string, ScanError>)
    ensures r.Ok? ==> r.value != []
    ensures Filled(projectId) ==> r == Ok(projectId.value)
    ensures !Filled(projectId) && saved.Err? ==> r == Err(UncaughtProfileError(saved.error))
    ensures r.Ok? <==> Filled(projectId) || (saved.Ok? && Filled(saved.value))
    ensures r.Ok? && !Filled(projectId) ==> r.value == saved.value.value
    ensures r.Err? && saved.Ok? ==> r.error == ProjectIdRequired
  {
    if Filled(projectId) then Ok(projectId.value)
    else
      match saved
      case Err(e) => Err(UncaughtProfileError(e))
      case Ok(id) => ResolveProjectId(projectId, id)
  }

  /** `load_lines_from_file(targets_file)` with `FileNotFoundError` caught
      as the targets-file error; the `IsADirectoryError` of a directory is
      not caught. */
  function ReadTargets(files: Files, targetsFile: string): (r: Result<seq<string>, ScanError>)
    ensures r.Ok? <==> LoadLinesFromFile(files, targetsFile).Ok?
    ensures r.Ok? ==> r.value == LoadLinesFromFile(files, targetsFile).value
    ensures !Exists(files, targetsFile) ==> r == Err(TargetsFileNotFound(targetsFile))
    ensures Exists(files, targetsFile) && r.Err? ==> r == Err(UncaughtDirectory(PathOf(targetsFile)))
  {
    match LoadLinesFromFile(files, targetsFile)
    case Err(FileNotFound(_)) => Err(TargetsFileNotFound(targetsFile))
    case Err(IsADirectory(p)) => Err(UncaughtDirectory(p))
    case Ok(lines) => Ok(lines)
  }

  /** The hosts handed to `load_scan_yaml`: the `--hosts` list, else the
      targets file's lines (any given path is truthy, the empty one naming
      the current directory), else nothing when `--from-config` is given;
      with none of the three the command stops before any configuration is
      read. */
  function OverrideHosts(files: Files, targetsFile: Option<string>, hosts: Option<string>, fromConfig: bool)
    : Result<Option<seq<string>>, ScanError>
  {
    if Filled(hosts) then Ok(Some(HostsFromCsv(hosts.value)))
    else if targetsFile.Some? then
      match ReadTargets(files, targetsFile.value)
      case Err(e) => Err(e)
      case Ok(lines) => Ok(Some(lines))
    else if !fromConfig then Err(NoHostsProvided)
    else Ok(None)
  }

  /** The hosts assigned after loading: the `--hosts` list again, else the
      targets file read a second time, else the loaded request's own. */
  function FinalHosts(request: RunNmapRequest, files: Files, targetsFile: Option<string>, hosts: Option<string>)
    : Result<seq<string>, ScanError>
  {
    if Filled(hosts) then Ok(HostsFromCsv(hosts.value))
    else if targetsFile.Some? then ReadTargets(files, targetsFile.value)
    else Ok(HostList(request))
  }

  /** `scan_request.mode = mode`: the value changes and the field counts as
      set. */
  function WithMode(t: Tracked, mode: ImportMode): Tracked {
    Tracked(t.request.(mode := mode), t.fieldsSet + {ModeField})
  }

  /** The request after the second branch chain and `--mode`: the chosen
      hosts assigned when `--hosts` or `--targets-file` chose them, the mode
      assigned when given. */
  function Reassigned(t: Tracked, chosen: seq<string>, byOption: bool, mode: Option<ImportMode>): (r: Tracked)
    ensures r.fieldsSet == t.fieldsSet + (if byOption then {HostsField} else {}) + (if mode.Some? then {ModeField} else {})
  {
    var withHosts := if byOption then WithHosts(t, chosen) else t;
    if mode.Some? then WithMode(withHosts, mode.value) else withHosts
  }

  /** The call `start_scan_cmd` makes: the project and the request sent, or
      the error the command stops with. `files1` and `files2` are the file
      system at the first and at the second reading of the targets file. */
  function StartRequest(configs: Configs, files1: Files, files2: Files, configPath: string,
                        targetsFile: Option<string>, hosts: Option<string>, fromConfig: bool,
                        projectId: Option<string>, saved: SavedLookup,
                        mode: Option<ImportMode>): Result<(string, Tracked), ScanError>
  {
    match OverrideHosts(files1, targetsFile, hosts, fromConfig)
    case Err(e) => Err(e)
    case Ok(overrideHosts) =>
      match LoadedWithOverride(configs, configPath, overrideHosts)
      case Err(e) => Err(e)
      case Ok(request) => AfterLoading(request, files2, targetsFile, hosts, projectId, saved, mode)
  }

  /** The rest of `StartRequest` once the configuration is loaded. */
  function AfterLoading(request: Tracked, files2: Files, targetsFile: Option<string>, hosts: Option<string>,
                        projectId: Option<string>, saved: SavedLookup,
                        mode: Option<ImportMode>): Result<(string, Tracked), ScanError>
  {
    if !Filled(request.request.hosts) then Err(NoTargetsFound)
    else
      match FinalHosts(request.request, files2, targetsFile, hosts)
      case Err(e) => Err(e)
      case Ok(chosen) =>
        if chosen == [] then Err(NoTargetsFound)
        else
          match ProjectOrSaved(projectId, saved)
          case Err(e) => Err(e)
          case Ok(project) => Ok((project, Reassigned(request, chosen, Filled(hosts) || targetsFile.Some?, mode)))
  }

  /** The first branch chain of `start_scan_cmd`, which assigns
      `override_hosts`. */
  method ResolveOverride(files1: Files, targetsFile: Option<string>, hosts: Option<string>, fromConfig: bool)
    returns (r: Result<Option<seq<string>>, ScanError>)
    ensures r == OverrideHosts(files1, targetsFile, hosts, fromConfig)
  {
    var overrideHosts: Option<seq<string>> := None;
    if Filled(hosts) {
      overrideHosts := Some(HostsFromCsv(hosts.value));
    } else if targetsFile.Some? {
      var lines := ReadTargets(files1, targetsFile.value);
      if lines.Err? {
        return Err(lines.error);
      }
      overrideHosts := Some(lines.value);
    } else if !fromConfig {
      return Err(NoHostsProvided);
    }
    r := Ok(overrideHosts);
  }

  /** The second branch chain of `start_scan_cmd`, which reassigns
      `scan_request.hosts` after the configuration is loaded; it is reached
      only with a loaded request that has hosts and with one of the three
      host options given. */
  method ReassignHosts(scanRequest: Tracked, files2: Files, targetsFile: Option<string>,
                       hosts: Option<string>, fromConfig: bool)
    returns (r: Result<Tracked, ScanError>)
    requires Filled(scanRequest.request.hosts) && (Filled(hosts) || targetsFile.Some? || fromConfig)
    ensures match FinalHosts(scanRequest.request, files2, targetsFile, hosts)
            case Err(e) => r == Err(e)
            case Ok(chosen) =>
              r == Ok(if Filled(hosts) || targetsFile.Some? then WithHosts(scanRequest, chosen) else scanRequest)
  {
    var request := scanRequest;
    if Filled(hosts) {
      request := WithHosts(request, HostsFromCsv(hosts.value));
    } else if targetsFile.Some? {
      var lines := ReadTargets(files2, targetsFile.value);
      if lines.Err? {
        return Err(lines.error);
      }
      request := WithHosts(request, lines.value);
    } else if fromConfig {
      // The hosts were found non-empty before this chain; the source's
      // no-targets check here never fires.
      if !Filled(request.request.hosts) {
        assert false;
      }
    } else {
      // Refused with the no-hosts error before the configuration was read.
      assert false;
    }
    r := Ok(request);
  }

  /** `start_scan_cmd` up to the call of the scan service: the two host
      resolutions around loading the configuration, the empty-list check,
      `--mode` and the project id. */
  method PrepareStart(configs: Configs, files1: Files, files2: Files, configPath: string,
                      targetsFile: Option<string>, hosts: Option<string>, fromConfig: bool,
                      projectId: Option<string>, saved: SavedLookup,
                      mode: Option<ImportMode>)
    returns (d: Result<(string, Tracked), ScanError>)
    ensures d == StartRequest(configs, files1, files2, configPath, targetsFile, hosts, fromConfig,
                              projectId, saved, mode)
  {
    var overrideHosts := ResolveOverride(files1, targetsFile, hosts, fromConfig);
    if overrideHosts.Err? {
      return Err(overrideHosts.error);
    }

    var loaded := ScanService.LoadScanYaml(configs, configPath, overrideHosts.value);
    if loaded.Err? {
      return Err(loaded.error);
    }
    var scanRequest := loaded.value;
    assert StartRequest(configs, files1, files2, configPath, targetsFile, hosts, fromConfig,
                        projectId, saved, mode)
           == AfterLoading(scanRequest, files2, targetsFile, hosts, projectId, saved, mode);

    if !Filled(scanRequest.request.hosts) {
      return Err(NoTargetsFound);
    }

    var reassigned := ReassignHosts(scanRequest, files2, targetsFile, hosts, fromConfig);
    if reassigned.Err? {
      return Err(reassigned.error);
    }
    scanRequest := reassigned.value;

    if !Filled(scanRequest.request.hosts) {
      return Err(NoTargetsFound);
    }

    if mode.Some? {
      scanRequest := WithMode(scanRequest, mode.value);
    }

    var project := ProjectOrSaved(projectId, saved);
    if project.Err? {
      return Err(project.error);
    }
    d := Ok((project.value, scanRequest));
  }

  /** `start_scan_cmd`: prepare the request, then call the scan service
      once. `sent` is the call made, if any: the project and the request
      whose set fields are dumped; `r` is the summary the service returned.
      As written, app/cli/scan.py:108 calls `scan_start_header` with two
      arguments for its three parameters, so once the scan has started and
      the success message is printed the command raises `TypeError`, and the
      header and the summary are never printed; the summary here is what the
      intended three-argument call goes on to print. */
  method StartScanCmd(configs: Configs, files1: Files, files2: Files, configPath: string,
                      targetsFile: Option<string>, hosts: Option<string>, fromConfig: bool,
                      projectId: Option<string>, saved: SavedLookup,
                      mode: Option<ImportMode>, data: StartData)
    returns (sent: Option<(string, Tracked)>, r: Result<ScanStartSummary, ScanError>)
    ensures var d := StartRequest(configs, files1, files2, configPath, targetsFile, hosts, fromConfig,
                                  projectId, saved, mode);
            && (d.Err? ==> sent == None && r == Err(d.error))
            && (d.Ok? ==> sent == Some(d.value))
    ensures sent.Some? ==> Filled(sent.value.1.request.hosts)
    ensures sent.Some? ==> r == match ScanService.StartScan(sent.value.0, data)
                               case Err(f) => Err(ServiceFailed(f))
                               case Ok(response) => Ok(response.summary)
  {
    var prepared := PrepareStart(configs, files1, files2, configPath, targetsFile, hosts, fromConfig,
                                 projectId, saved, mode);
    if prepared.Err? {
      return None, Err(prepared.error);
    }
    StartRequestSent(configs, files1, files2, configPath, targetsFile, hosts, fromConfig,
                     projectId, saved, mode);
    sent := Some(prepared.value);
    var response := ScanService.StartScan(prepared.value.0, data);
    r := match response
         case Err(f) => Err(ServiceFailed(f))
         case Ok(rsp) => Ok(rsp.summary);
  }

  /** With none of `--hosts`, `--targets-file` and `--from-config` the command
      stops with the no-hosts error whatever the configuration holds: it
      never gets to read it. */
  lemma NoHostOptionBeforeConfig(configs1: Configs, configs2: Configs, files1: Files, files2: Files,
                                 configPath: string, targetsFile: Option<string>, hosts: Option<string>,
                                 projectId: Option<string>, saved: SavedLookup, mode: Option<ImportMode>)
    requires !Filled(hosts) && targetsFile.None?
    ensures StartRequest(configs1, files1, files2, configPath, targetsFile, hosts, false, projectId, saved, mode)
            == Err(NoHostsProvided)
    ensures StartRequest(configs2, files1, files2, configPath, targetsFile, hosts, false, projectId, saved, mode)
            == Err(NoHostsProvided)
  {
  }

  /** A sent request has hosts, takes them from `--hosts` when that is given,
      and keeps the configuration's import mode unless `--mode` is given. */
  lemma StartRequestSent(configs: Configs, files1: Files, files2: Files, configPath: string,
                         targetsFile: Option<string>, hosts: Option<string>, fromConfig: bool,
                         projectId: Option<string>, saved: SavedLookup, mode: Option<ImportMode>)
    ensures var d := StartRequest(configs, files1, files2, configPath, targetsFile, hosts, fromConfig,
                                  projectId, saved, mode);
            d.Ok? ==> && Filled(d.value.1.request.hosts)
                      && (Filled(hosts) ==> d.value.1.request.hosts == Some(HostsFromCsv(hosts.value)))
                      && (mode.Some? ==> d.value.1.request.mode == mode.value)
                      && (mode.None? ==> d.value.1.request.mode == configs[configPath].doc.mode)
                      && d.value.0 == (if Filled(projectId) then projectId.value else saved.value.value)
  {
    var d := StartRequest(configs, files1, files2, configPath, targetsFile, hosts, fromConfig,
                          projectId, saved, mode);
    if d.Ok? {
      var overrideHosts := OverrideHosts(files1, targetsFile, hosts, fromConfig).value;
      var loaded := LoadedWithOverride(configs, configPath, overrideHosts).value;
      assert ParsedAt(configs, configPath);
      assert loaded.request.mode == configs[configPath].doc.mode;
      assert d == AfterLoading(loaded, files2, targetsFile, hosts, projectId, saved, mode);
    }
  }

  /** `model_dump(exclude_unset=True)` sends only what was set: apart from
      the hosts and the mode, a field is sent exactly when the configuration's
      mapping holds it, so the client's own defaults never reach the tasker;
      the hosts are sent when the mapping holds them or an option assigned
      them, the mode when the mapping holds it or `--mode` is given. */
  lemma StartFieldsSent(configs: Configs, files1: Files, files2: Files, configPath: string,
                        targetsFile: Option<string>, hosts: Option<string>, fromConfig: bool,
                        projectId: Option<string>, saved: SavedLookup, mode: Option<ImportMode>)
    ensures var d := StartRequest(configs, files1, files2, configPath, targetsFile, hosts, fromConfig,
                                  projectId, saved, mode);
            d.Ok? ==> && configPath in configs && configs[configPath].Parsed?
                      && d.value.1.fieldsSet - {HostsField, ModeField} == configs[configPath].keys - {HostsField, ModeField}
                      && (HostsField in d.value.1.fieldsSet <==>
                            HostsField in configs[configPath].keys || Filled(hosts) || targetsFile.Some?)
                      && (ModeField in d.value.1.fieldsSet <==> ModeField in configs[configPath].keys || mode.Some?)
  {
    var d := StartRequest(configs, files1, files2, configPath, targetsFile, hosts, fromConfig,
                          projectId, saved, mode);
    if d.Ok? {
      var overrideHosts := OverrideHosts(files1, targetsFile, hosts, fromConfig).value;
      assert Filled(overrideHosts) ==> Filled(hosts) || targetsFile.Some?;
      var loaded := LoadedWithOverride(configs, configPath, overrideHosts).value;
      assert d == AfterLoading(loaded, files2, targetsFile, hosts, projectId, saved, mode);
      AfterLoadingFields(loaded, files2, targetsFile, hosts, projectId, saved, mode);
      var keys := configs[configPath].keys;
      assert loaded.fieldsSet == KeysWithOverride(keys, overrideHosts);
      FieldsAdded(keys, loaded.fieldsSet, d.value.1.fieldsSet,
                  Filled(overrideHosts), Filled(hosts) || targetsFile.Some?, mode.Some?);
    }
  }

  /** The fields set after loading grow by the hosts when an option chose
      them and by the mode when `--mode` is given. */
  lemma AfterLoadingFields(request: Tracked, files2: Files, targetsFile: Option<string>, hosts: Option<string>,
                           projectId: Option<string>, saved: SavedLookup, mode: Option<ImportMode>)
    ensures var d := AfterLoading(request, files2, targetsFile, hosts, projectId, saved, mode);
            d.Ok? ==> d.value.1.fieldsSet == request.fieldsSet
                                             + (if Filled(hosts) || targetsFile.Some? then {HostsField} else {})
                                             + (if mode.Some? then {ModeField} else {})
  {
  }

  /** Two rounds of adding the hosts and the mode leave every other field
      as it was. */
  lemma FieldsAdded(keys: set<RequestField>, loaded: set<RequestField>, sent: set<RequestField>,
                    overridden: bool, byOption: bool, withMode: bool)
    requires overridden ==> byOption
    requires loaded == keys + (if overridden then {HostsField} else {})
    requires sent == loaded + (if byOption then {HostsField} else {}) + (if withMode then {ModeField} else {})
    ensures sent - {HostsField, ModeField} == keys - {HostsField, ModeField}
    ensures HostsField in sent <==> HostsField in keys || byOption
    ensures ModeField in sent <==> ModeField in keys || withMode
  {
  }

  /** `--targets-file ""` is `Path(".")`, which exists: without `--hosts`
      the first reading opens the current directory and raises
      `IsADirectoryError`, which nothing catches, whatever `--from-config`
      says and before the configuration is read. */
  lemma EmptyTargetsFileRaises(configs: Configs, files1: Files, files2: Files, configPath: string,
                               hosts: Option<string>, fromConfig: bool,
                               projectId: Option<string>, saved: SavedLookup, mode: Option<ImportMode>)
    requires !Filled(hosts)
    ensures StartRequest(configs, files1, files2, configPath, Some(""), hosts, fromConfig,
                         projectId, saved, mode) == Err(UncaughtDirectory("."))
  {
    EmptyPathIsDirectory(files1);
  }

  /** A missing targets file at the first reading stops the command with
      the targets-file error, before the configuration is consulted. */
  lemma MissingTargetsFile(configs: Configs, files1: Files, files2: Files, configPath: string,
                           targetsFile: string, hosts: Option<string>, fromConfig: bool,
                           projectId: Option<string>, saved: SavedLookup, mode: Option<ImportMode>)
    requires !Filled(hosts) && !Exists(files1, targetsFile)
    ensures StartRequest(configs, files1, files2, configPath, Some(targetsFile), hosts, fromConfig,
                         projectId, saved, mode) == Err(TargetsFileNotFound(targetsFile))
  {
  }

  /** A `--hosts` text that holds no host (only commas and blanks) is no
      override: the configuration is loaded with its own hosts, and the
      request is still refused, because the empty list is assigned after
      loading. */
  lemma BlankHostsOptionRefused(configs: Configs, files1: Files, files2: Files, configPath: string,
                                targetsFile: Option<string>, hosts: string, fromConfig: bool,
                                projectId: Option<string>, saved: SavedLookup, mode: Option<ImportMode>)
    requires hosts != [] && HostsFromCsv(hosts) == []
    ensures StartRequest(configs, files1, files2, configPath, targetsFile, Some(hosts), fromConfig,
                         projectId, saved, mode).Err?
  {
  }

  /** How `scan stop` ends after the service answered: success with the
      number of revoked tasks when the status is "stopped", otherwise the
      no-tasks warning; both exit with status 0. */
  datatype StopOutcome = Stopped(project: string, revoked: int) | NoTasks(project: string)

  /** `scan stop`: resolve the project, stop through the service, branch on
      the returned status. */
  function StopScanCmd(projectId: Option<string>, saved: SavedLookup, reply: Reply<RevokeResponse>)
    : (r: Result<StopOutcome, ScanError>)
    ensures !Filled(projectId) && saved.Err? ==> r == Err(UncaughtProfileError(saved.error))
    ensures !Filled(projectId) && saved.Ok? && !Filled(saved.value) ==> r == Err(ProjectIdRequired)
    ensures r.Ok? ==> reply.Answered? && reply.status == 200 && reply.body.Some?
    ensures r.Ok? ==> r.value.project == (if Filled(projectId) then projectId.value else saved.value.value)
    ensures r.Ok? && r.value.Stopped? <==>
              && r.Ok? && reply.Answered? && reply.status == 200 && reply.body.Some?
              && reply.body.value.status == "stopped"
    ensures r.Ok? && r.value.Stopped? ==> r.value.revoked == reply.body.value.revoked
  {
    match ProjectOrSaved(projectId, saved)
    case Err(e) => Err(e)
    case Ok(project) =>
      match ScanService.StopScan(project, reply)
      case Err(f) => Err(ServiceFailed(f))
      case Ok(result) =>
        if result.status == "stopped" then Ok(Stopped(project, result.revoked)) else Ok(NoTasks(project))
  }

  /** On a fresh install, with no active-profile file and no `default`
      profile, `scan stop` without a project id raises the not-found
      `ValueError` of the `default` profile, whatever the tasker would
      answer. */
  lemma FreshInstallStopRaises(store: ProfileService.ProfileStore, reply: Reply<RevokeResponse>)
    requires ProfileService.ProfilePath(store.dir, ProfileService.DefaultProfileName) !in store.files
    ensures store.LoadProfile(ProfileService.ActiveName(None))
            == Err(ProfileService.ProfileNotFound(ProfileService.DefaultProfileName))
    ensures StopScanCmd(None, Err(ProfileService.ProfileNotFound(ProfileService.DefaultProfileName)), reply)
            == Err(UncaughtProfileError(ProfileService.ProfileNotFound(ProfileService.DefaultProfileName)))
  {
  }

  /** `scan status`: resolve the project and fetch its task summary. */
  function ScanStatusCmd(projectId: Option<string>, saved: SavedLookup, reply: Reply<ProjectTaskSummary>)
    : (r: Result<ProjectTaskSummary, ScanError>)
    ensures !Filled(projectId) && saved.Err? ==> r == Err(UncaughtProfileError(saved.error))
    ensures !Filled(projectId) && saved.Ok? && !Filled(saved.value) ==> r == Err(ProjectIdRequired)
    ensures r.Ok? <==> (Filled(projectId) || (saved.Ok? && Filled(saved.value)))
                       && reply.Answered? && reply.status == 200 && reply.body.Some?
    ensures r.Ok? ==> r.value == reply.body.value
  {
    match ProjectOrSaved(projectId, saved)
    case Err(e) => Err(e)
    case Ok(project) =>
      match ScanService.GetScanStatus(project, reply)
      case Err(f) => Err(ServiceFailed(f))
      case Ok(status) => Ok(status)
  }
}
