/** The older `scan` commands (app/commands/scan.py): loading a scan
    configuration with its `hosts_file` fallback, choosing the targets of
    `scan start`, and the interactive status poller. */
module ScanCommands {
  import opened Common
  import opened Text
  import opened IoUtils
  import opened Schemas
  import opened Targets

  /** `load_targets_from_file`: a missing path is reported; a directory
      passes the existence check and then fails to open; otherwise the
      stripped non-blank lines, none of them empty or padded. */
  function LoadTargetsFromFile(files: Files, path: string): (r: Result<seq<string>, ScanError>)
    ensures r.Ok? <==> Exists(files, path) && NodeAt(files, path).value.TextFile?
    ensures !Exists(files, path) ==> r == Err(TargetsFileNotFound(path))
    ensures Exists(files, path) && NodeAt(files, path).value.Directory? ==> r == Err(UncaughtDirectory(PathOf(path)))
    ensures r.Ok? ==> r.value == StrippedNonBlank(NodeAt(files, path).value.lines)
    ensures r.Ok? ==> forall h :: h in r.value ==> Clean(h)
  {
    match NodeAt(files, path)
    case None => Err(TargetsFileNotFound(path))
    case Some(Directory) => Err(UncaughtDirectory(PathOf(path)))
    case Some(TextFile(lines)) =>
      StrippedNonBlankClean(lines);
      Ok(StrippedNonBlank(lines))
  }

  /** A valid configuration without hosts but with a hosts file: the one case
      in which the hosts file is read. */
  predicate NeedsHostsFile(doc: RunNmapRequest) {
    ValidRequest(doc) && !Filled(doc.hosts) && Filled(doc.hostsFile)
  }

  /** What `load_scan_yaml` yields for a configuration path under the
      given hosts validator: the first of the missing-file and read errors
      that applies (the current directory exists and fails to read); then
      the validator's own outcome, which comes first among the fields; then
      the other validation errors; then, only when the validated request
      has no hosts but names a hosts file, the hosts read from that file,
      which must exist and hold a host. */
  function LoadedConfigBy(v: Validation, configs: Configs, files: Files, path: string): Result<Tracked, ScanError> {
    match ConfigAt(configs, path)
    case None => Err(ConfigNotFound(path))
    case Some(Unreadable) => Err(ConfigReadFailed)
    case Some(Parsed(doc, keys)) =>
      var scan := Tracked(doc, keys);
      var check := CheckHosts(v, doc, keys);
      if check == HostsCrashed then Err(UncaughtHostsValidator)
      else if check == HostsRefused || !ValidRequest(doc) then Err(ConfigValidationFailed)
      else if !NeedsHostsFile(doc) then Ok(scan)
      else
        match LoadTargetsFromFile(files, doc.hostsFile.value)
        case Err(e) => Err(e)
        case Ok(hosts) => if hosts == [] then Err(NoTargetsFound) else Ok(WithHosts(scan, hosts))
  }

  /** `load_scan_yaml` as written, with the hosts validator as written. */
  function LoadedConfig(configs: Configs, files: Files, path: string): Result<Tracked, ScanError> {
    LoadedConfigBy(AsWritten, configs, files, path)
  }

  /** `load_scan_yaml`, step by step as the source reassigns `scan.hosts`. */
  method LoadScanYaml(configs: Configs, files: Files, path: string) returns (r: Result<Tracked, ScanError>)
    ensures r == LoadedConfig(configs, files, path)
  {
    var config := ConfigAt(configs, path);
    if config.None? {
      return Err(ConfigNotFound(path));
    }
    match config.value
    case Unreadable =>
      r := Err(ConfigReadFailed);
    case Parsed(doc, keys) =>
      if HostsValidator(doc, keys) == HostsCrashed {
        return Err(UncaughtHostsValidator);
      }
      if !ValidRequest(doc) {
        return Err(ConfigValidationFailed);
      }
      var scan := Tracked(doc, keys);
      if Filled(scan.request.hostsFile) && !Filled(scan.request.hosts) {
        var filePath := scan.request.hostsFile.value;
        if !Exists(files, filePath) {
          return Err(TargetsFileNotFound(filePath));
        }
        var node := NodeAt(files, filePath).value;
        if node.Directory? {
          return Err(UncaughtDirectory(PathOf(filePath)));
        }
        scan := WithHosts(scan, StrippedNonBlank(node.lines));
        if !Filled(scan.request.hosts) {
          return Err(NoTargetsFound);
        }
      }
      r := Ok(scan);
  }

  /** A loaded configuration never has a hosts file left unread beside an
      empty host list, and differs from the document on disk at most in its
      hosts, which then come from the hosts file and count as set. */
  lemma LoadedConfigHosts(configs: Configs, files: Files, path: string)
    ensures var r := LoadedConfig(configs, files, path);
            r.Ok? ==> && path in configs && configs[path].Parsed?
                      && ValidRequest(configs[path].doc)
                      && (Filled(r.value.request.hosts) || !Filled(r.value.request.hostsFile))
                      && r.value.request.(hosts := configs[path].doc.hosts) == configs[path].doc
                      && r.value.fieldsSet - {HostsField} == configs[path].keys - {HostsField}
                      && (r.value != Tracked(configs[path].doc, configs[path].keys) ==>
                            && NeedsHostsFile(configs[path].doc)
                            && HostsField in r.value.fieldsSet
                            && r.value.request.hosts
                               == Some(StrippedNonBlank(NodeAt(files, configs[path].doc.hostsFile.value).value.lines)))
  {
  }

  /** The hosts file is consulted only when the configuration has no hosts:
      a configuration with hosts loads the same whatever the files hold. */
  lemma HostsFileIgnoredWhenHostsGiven(configs: Configs, files1: Files, files2: Files, path: string)
    requires path in configs && configs[path].Parsed? && Filled(configs[path].doc.hosts)
    ensures LoadedConfig(configs, files1, path) == LoadedConfig(configs, files2, path)
  {
  }

  /** `-c ""` is `Path(".")`, which exists: opening the current directory
      raises `IsADirectoryError`, which is reported as the read error, never
      as a missing file, whatever the configuration files hold. */
  lemma EmptyConfigPathReadFails(configs: Configs, files: Files)
    ensures LoadedConfig(configs, files, "") == Err(ConfigReadFailed)
    ensures LoadedConfig(configs, files, ".") == Err(ConfigReadFailed)
  {
  }

  /** The error cases of `load_scan_yaml`, each with its own message. */
  lemma LoadedConfigErrors(configs: Configs, files: Files, path: string)
    ensures ConfigAt(configs, path).None? ==> LoadedConfig(configs, files, path) == Err(ConfigNotFound(path))
    ensures ConfigAt(configs, path) == Some(Unreadable) ==> LoadedConfig(configs, files, path) == Err(ConfigReadFailed)
    ensures ParsedAt(configs, path) && HostsField in configs[path].keys && !Filled(configs[path].doc.hosts) ==>
              LoadedConfig(configs, files, path) == Err(UncaughtHostsValidator)
    ensures ParsedAt(configs, path) && HostsValidator(configs[path].doc, configs[path].keys) == HostsAccepted
              && !ValidRequest(configs[path].doc) ==>
              LoadedConfig(configs, files, path) == Err(ConfigValidationFailed)
    ensures ParsedAt(configs, path) && HostsField !in configs[path].keys && NeedsHostsFile(configs[path].doc)
              && !Exists(files, configs[path].doc.hostsFile.value) ==>
              LoadedConfig(configs, files, path) == Err(TargetsFileNotFound(configs[path].doc.hostsFile.value))
    ensures ParsedAt(configs, path) && HostsField !in configs[path].keys && NeedsHostsFile(configs[path].doc)
              && NodeAt(files, configs[path].doc.hostsFile.value) == Some(Directory) ==>
              LoadedConfig(configs, files, path) == Err(UncaughtDirectory(configs[path].doc.hostsFile.value))
    ensures ParsedAt(configs, path) && HostsField !in configs[path].keys && NeedsHostsFile(configs[path].doc)
              && Exists(files, configs[path].doc.hostsFile.value)
              && NodeAt(files, configs[path].doc.hostsFile.value).value.TextFile?
              && StrippedNonBlank(NodeAt(files, configs[path].doc.hostsFile.value).value.lines) == [] ==>
              LoadedConfig(configs, files, path) == Err(NoTargetsFound)
  {
  }

  /** A configuration that gives a falsy `hosts` beside a hosts file: as
      written the hosts validator raises `AttributeError` and the command
      ends with a traceback; with the validator its comment describes, the
      hosts are read from the file. */
  lemma IntendedLoadsHostsFile(configs: Configs, files: Files, path: string)
    ensures ParsedAt(configs, path) && HostsField in configs[path].keys && NeedsHostsFile(configs[path].doc) ==>
              && LoadedConfig(configs, files, path) == Err(UncaughtHostsValidator)
              && LoadedConfigBy(AsIntended, configs, files, path)
                 == match LoadTargetsFromFile(files, configs[path].doc.hostsFile.value)
                    case Err(e) => Err(e)
                    case Ok(hosts) =>
                      if hosts == [] then Err(NoTargetsFound)
                      else Ok(WithHosts(Tracked(configs[path].doc, configs[path].keys), hosts))
  {
  }

  /** With the intended validator a configuration that gives a falsy
      `hosts` and no hosts file is a validation error, reported with its
      message, and one that leaves `hosts` out loads as the one as written
      does. */
  lemma IntendedRefusesNoHosts(configs: Configs, files: Files, path: string)
    ensures ParsedAt(configs, path) && HostsField in configs[path].keys && !Filled(configs[path].doc.hosts)
            && !Filled(configs[path].doc.hostsFile) ==>
              LoadedConfigBy(AsIntended, configs, files, path) == Err(ConfigValidationFailed)
    ensures ParsedAt(configs, path) && HostsField !in configs[path].keys ==>
              LoadedConfigBy(AsIntended, configs, files, path) == LoadedConfig(configs, files, path)
  {
  }

  /** `get_project_id`: the last project remembered, or the id-required
      error when there is none (or it is empty). */
  function GetProjectId(lastProject: Option<string>): (r: Result<string, ScanError>)
    ensures r.Ok? <==> Filled(lastProject)
    ensures r.Ok? ==> r.value == lastProject.value
    ensures r.Err? ==> r.error == ProjectIdRequired
  {
    ResolveProjectId(None, lastProject)
  }

  /** The target list `scan start` picks, by priority: a `--hosts` list that
      is a non-empty string, else a `--targets-file` (any path is truthy, and
      the empty one names the current directory), else the configuration's
      own hosts when `--from-config` is given; with none of the three there
      are no hosts to scan. */
  function ChosenHosts(config: RunNmapRequest, files: Files, targetsFile: Option<string>,
                       hosts: Option<string>, fromConfig: bool): Result<seq<string>, ScanError>
  {
    if Filled(hosts) then Ok(HostsFromCsv(hosts.value))
    else if targetsFile.Some? then LoadTargetsFromFile(files, targetsFile.value)
    else if fromConfig then Ok(HostList(config))
    else Err(NoHostsProvided)
  }

  /** `--hosts` wins over every other source: with a non-empty `--hosts`,
      the targets file, the files on disk, the configuration and
      `--from-config` make no difference. */
  lemma HostsOptionWins(config1: RunNmapRequest, files1: Files, targetsFile1: Option<string>, fromConfig1: bool,
                        config2: RunNmapRequest, files2: Files, targetsFile2: Option<string>, fromConfig2: bool,
                        hosts: string)
    requires hosts != []
    ensures ChosenHosts(config1, files1, targetsFile1, Some(hosts), fromConfig1)
            == ChosenHosts(config2, files2, targetsFile2, Some(hosts), fromConfig2)
  {
  }

  /** `--targets-file` wins over the configuration: without `--hosts`, the
      configuration and `--from-config` make no difference. */
  lemma TargetsFileWins(config1: RunNmapRequest, fromConfig1: bool, config2: RunNmapRequest, fromConfig2: bool,
                        files: Files, targetsFile: string, hosts: Option<string>)
    requires !Filled(hosts)
    ensures ChosenHosts(config1, files, Some(targetsFile), hosts, fromConfig1)
            == ChosenHosts(config2, files, Some(targetsFile), hosts, fromConfig2)
  {
  }

  /** With none of the three host options there is nothing to scan. */
  lemma NoHostOptionRefused(config: RunNmapRequest, files: Files, targetsFile: Option<string>, hosts: Option<string>)
    requires !Filled(hosts) && targetsFile.None?
    ensures ChosenHosts(config, files, targetsFile, hosts, false) == Err(NoHostsProvided)
  {
  }

  /** What `tasker.start_scan_nmap` does when called: raise, or return a
      response that is truthy or not. */
  datatype StartReply = StartRaised(message: string) | StartAnswered(truthy: bool)

  /** How `scan start` ends once the request was sent: the started message,
      or the start-failed message (exit status 0 in both cases). */
  datatype StartOutcome = Started(project: string) | StartRejected(project: string)

  /** The request `start_scan` sends: the project and the loaded
      configuration, with the chosen hosts assigned when `--hosts` or
      `--targets-file` chose them; nothing when some step fails. */
  function Dispatch(configs: Configs, files: Files, configPath: string, targetsFile: Option<string>,
                    hosts: Option<string>, fromConfig: bool, projectId: Option<string>,
                    lastProject: Option<string>): Result<(string, Tracked), ScanError>
  {
    match LoadedConfig(configs, files, configPath)
    case Err(e) => Err(e)
    case Ok(config) => DispatchLoaded(config, files, targetsFile, hosts, fromConfig, projectId, lastProject)
  }

  /** The part of `start_scan` after the configuration has loaded. */
  function DispatchLoaded(config: Tracked, files: Files, targetsFile: Option<string>, hosts: Option<string>,
                          fromConfig: bool, projectId: Option<string>, lastProject: Option<string>)
    : Result<(string, Tracked), ScanError>
  {
    match ChosenHosts(config.request, files, targetsFile, hosts, fromConfig)
    case Err(e) => Err(e)
    case Ok(chosen) =>
      if chosen == [] then Err(NoTargetsFound)
      else
        match ResolveProjectId(projectId, lastProject)
        case Err(e) => Err(e)
        case Ok(project) =>
          Ok((project, if Filled(hosts) || targetsFile.Some? then WithHosts(config, chosen) else config))
  }

  /** A scan is never sent with an empty host list or without a project id,
      and only the hosts of the configuration are replaced. */
  lemma DispatchNeverEmpty(configs: Configs, files: Files, configPath: string, targetsFile: Option<string>,
                           hosts: Option<string>, fromConfig: bool, projectId: Option<string>,
                           lastProject: Option<string>)
    ensures var d := Dispatch(configs, files, configPath, targetsFile, hosts, fromConfig, projectId, lastProject);
            d.Ok? ==> && Filled(d.value.1.request.hosts) && d.value.0 != []
                      && LoadedConfig(configs, files, configPath).Ok?
                      && d.value.1.request.(hosts := LoadedConfig(configs, files, configPath).value.request.hosts)
                           == LoadedConfig(configs, files, configPath).value.request
  {
  }

  /** `model_dump(exclude_unset=True)` sends only what was set: every field
      but the hosts is sent exactly when the configuration's mapping holds
      it, so the client's own defaults never reach the tasker; the hosts are
      sent when the mapping holds them or they were assigned from the hosts
      file, `--hosts` or `--targets-file`. */
  lemma DispatchFieldsSent(configs: Configs, files: Files, configPath: string, targetsFile: Option<string>,
                           hosts: Option<string>, fromConfig: bool, projectId: Option<string>,
                           lastProject: Option<string>)
    ensures var d := Dispatch(configs, files, configPath, targetsFile, hosts, fromConfig, projectId, lastProject);
            d.Ok? ==> && configPath in configs && configs[configPath].Parsed?
                      && d.value.1.fieldsSet - {HostsField} == configs[configPath].keys - {HostsField}
                      && (HostsField in d.value.1.fieldsSet <==>
                            HostsField in configs[configPath].keys || NeedsHostsFile(configs[configPath].doc)
                            || Filled(hosts) || targetsFile.Some?)
  {
    LoadedConfigHosts(configs, files, configPath);
  }

  /** `--targets-file ""` is `Path(".")`: without `--hosts`, once the
      configuration loads, opening the current directory raises
      `IsADirectoryError`, which nothing catches, and no scan is sent. */
  lemma EmptyTargetsFileRaises(configs: Configs, files: Files, configPath: string, hosts: Option<string>,
                               fromConfig: bool, projectId: Option<string>, lastProject: Option<string>)
    requires LoadedConfig(configs, files, configPath).Ok? && !Filled(hosts)
    ensures Dispatch(configs, files, configPath, Some(""), hosts, fromConfig, projectId, lastProject)
            == Err(UncaughtDirectory("."))
  {
    EmptyPathIsDirectory(files);
  }

  /** Configuration errors come first: whatever the target options say, a
      configuration that does not load ends the command with its error. */
  lemma DispatchConfigFirst(configs: Configs, files: Files, configPath: string, targetsFile: Option<string>,
                            hosts: Option<string>, fromConfig: bool, projectId: Option<string>,
                            lastProject: Option<string>)
    requires LoadedConfig(configs, files, configPath).Err?
    ensures Dispatch(configs, files, configPath, targetsFile, hosts, fromConfig, projectId, lastProject)
            == Err(LoadedConfig(configs, files, configPath).error)
  {
  }

  /** `start_scan`: load the configuration, let the host options overwrite
      its hosts by priority, refuse an empty list, resolve the project, then
      call the tasker once. `sent` is the call made, if any. */
  method StartScan(configs: Configs, files: Files, configPath: string, targetsFile: Option<string>,
                   hosts: Option<string>, fromConfig: bool, projectId: Option<string>,
                   lastProject: Option<string>, reply: StartReply)
    returns (sent: Option<(string, Tracked)>, r: Result<StartOutcome, ScanError>)
    ensures var d := Dispatch(configs, files, configPath, targetsFile, hosts, fromConfig, projectId, lastProject);
            && (d.Err? ==> sent == None && r == Err(d.error))
            && (d.Ok? ==> sent == Some(d.value))
    ensures sent.Some? ==> Filled(sent.value.1.request.hosts)
    ensures sent.Some? ==> r == match reply
                               case StartRaised(m) => Err(ServiceFailed(ConnectorRaised(m)))
                               case StartAnswered(ok) =>
                                 if ok then Ok(Started(sent.value.0)) else Ok(StartRejected(sent.value.0))
  {
    var loaded := LoadScanYaml(configs, files, configPath);
    if loaded.Err? {
      return None, Err(loaded.error);
    }
    var scanRequest := loaded.value;
    assert Dispatch(configs, files, configPath, targetsFile, hosts, fromConfig, projectId, lastProject)
           == DispatchLoaded(loaded.value, files, targetsFile, hosts, fromConfig, projectId, lastProject);

    if Filled(hosts) {
      scanRequest := WithHosts(scanRequest, HostsFromCsv(hosts.value));
    } else if targetsFile.Some? {
      var lines := LoadTargetsFromFile(files, targetsFile.value);
      if lines.Err? {
        return None, Err(lines.error);
      }
      scanRequest := WithHosts(scanRequest, lines.value);
    } else if fromConfig {
      if !Filled(scanRequest.request.hosts) {
        return None, Err(NoTargetsFound);
      }
    } else {
      return None, Err(NoHostsProvided);
    }
    assert ChosenHosts(loaded.value.request, files, targetsFile, hosts, fromConfig) == Ok(HostList(scanRequest.request));
    assert scanRequest == if Filled(hosts) || targetsFile.Some? then WithHosts(loaded.value, HostList(scanRequest.request))
                          else loaded.value;

    if !Filled(scanRequest.request.hosts) {
      return None, Err(NoTargetsFound);
    }

    var project := ResolveProjectId(projectId, lastProject);
    if project.Err? {
      return None, Err(project.error);
    }

    assert DispatchLoaded(loaded.value, files, targetsFile, hosts, fromConfig, projectId, lastProject)
           == Ok((project.value, scanRequest));
    sent := Some((project.value, scanRequest));
    match reply
    case StartRaised(m) =>
      r := Err(ServiceFailed(ConnectorRaised(m)));
    case StartAnswered(ok) =>
      r := if ok then Ok(Started(project.value)) else Ok(StartRejected(project.value));
  }

  // ----- display_scan_progress -----

  /** One status query: the tasker raised, or answered with a mapping whose
      `active_or_queued` entry may be missing. */
  datatype StatusReply = QueryRaised(message: string) | Reported(activeOrQueued: Option<int>)

  /** How the poller ends: the bar reached 100 %, a query raised (exit 1), or
      the replies given to the model ran out while the bar was unfinished. */
  datatype PollEnd = Completed | Aborted(message: string) | Unfinished

  /** The count a reply stands for: a missing entry reads as 0. */
  function ActiveOrQueued(reply: StatusReply): int
    requires reply.Reported?
  {
    if reply.activeOrQueued.Some? then reply.activeOrQueued.value else 0
  }

  /** The bar is set to 100 when the count is 0 and to `100 - count`
      otherwise, so it is finished exactly when the count is at most 0. */
  predicate Finishes(reply: StatusReply)
    requires reply.Reported?
  {
    var a := ActiveOrQueued(reply);
    (if a == 0 then 100 else 100 - a) >= 100
  }

  /** A reply after which the loop asks again. */
  predicate KeepsPolling(reply: StatusReply) {
    reply.Reported? && !Finishes(reply)
  }

  lemma FinishesIffNoneLeft(reply: StatusReply)
    requires reply.Reported?
    ensures Finishes(reply) <==> ActiveOrQueued(reply) <= 0
  {
  }

  /** `display_scan_progress` over the successive replies of the tasker:
      the loop queries, stops on a raise, updates the bar and sleeps, until
      the bar is finished. `queries` is how many replies were consumed and
      `sleeps` how many times it slept. */
  method DisplayScanProgress(replies: seq<StatusReply>) returns (end: PollEnd, queries: nat, sleeps: nat)
    ensures queries <= |replies|
    ensures forall j :: 0 <= j < queries - 1 ==> KeepsPolling(replies[j])
    ensures end.Completed? <==> queries >= 1 && replies[queries - 1].Reported? && Finishes(replies[queries - 1])
    ensures end.Aborted? <==> queries >= 1 && replies[queries - 1].QueryRaised?
    ensures end.Aborted? ==> end.message == replies[queries - 1].message
    ensures end.Unfinished? ==> queries == |replies| && forall j :: 0 <= j < |replies| ==> KeepsPolling(replies[j])
    ensures sleeps == if end.Aborted? then queries - 1 else queries
  {
    var finished := false;
    queries, sleeps := 0, 0;
    while !finished && queries < |replies|
      invariant queries <= |replies|
      invariant sleeps == queries
      invariant forall j :: 0 <= j < queries - 1 ==> KeepsPolling(replies[j])
      invariant queries >= 1 ==> replies[queries - 1].Reported?
      invariant finished <==> queries >= 1 && Finishes(replies[queries - 1])
      invariant !finished ==> forall j :: 0 <= j < queries ==> KeepsPolling(replies[j])
    {
      var reply := replies[queries];
      queries := queries + 1;
      if reply.QueryRaised? {
        return Aborted(reply.message), queries, sleeps;
      }
      var activeOrQueued := ActiveOrQueued(reply);
      var completed := if activeOrQueued == 0 then 100 else 100 - activeOrQueued;
      finished := completed >= 100;
      sleeps := sleeps + 1;
    }
    end := if finished then Completed else Unfinished;
  }

  /** Given replies in which some query reports no active or queued task,
      the poller finishes at the first reply that raises or reports none, and
      never reads past it. */
  lemma {:induction false} PollerStopsAtFirstZero(replies: seq<StatusReply>, k: nat)
    requires k < |replies| && replies[k].Reported? && ActiveOrQueued(replies[k]) == 0
    ensures exists i :: 0 <= i <= k && !KeepsPolling(replies[i]) && forall j :: 0 <= j < i ==> KeepsPolling(replies[j])
    decreases k
  {
    if k == 0 || !KeepsPolling(replies[0]) {
      assert !KeepsPolling(replies[0]) by { if k == 0 { FinishesIffNoneLeft(replies[0]); } }
    } else {
      PollerStopsAtFirstZero(replies[1..], k - 1);
      var i :| 0 <= i <= k - 1 && !KeepsPolling(replies[1..][i]) && forall j :: 0 <= j < i ==> KeepsPolling(replies[1..][j]);
      assert !KeepsPolling(replies[i + 1]);
      forall j | 0 <= j < i + 1 ensures KeepsPolling(replies[j]) {
        if j > 0 { assert replies[j] == replies[1..][j - 1]; }
      }
    }
  }
}
