/** The newer scan service (app/core/scan/services.py): loading a scan
    configuration with an optional host override, and reading the answers of
    the tasker back end. app/core/scan/models.py is not part of this model:
    the request record it declares stands in here as the one of
    app/schemas.py (`Schemas.RunNmapRequest`, its validation and its flag
    builders), and the response records are shaped after their uses in the
    printer. */
module ScanService {
  import opened Common
  import opened Schemas
  import opened Targets

  datatype RefusedCounts = RefusedCounts(
    alreadyInScanledger: int,
    alreadyInQueue: int,
    forbidden: int,
    privateIp: int,
    unresolvable: int,
    other: int)

  datatype ScanStartSummary = ScanStartSummary(
    provided: int,
    duplicatesRemoved: int,
    refused: RefusedCounts,
    sentToScan: int)

  datatype ScanStartResponse = ScanStartResponse(summary: ScanStartSummary)

  datatype RevokeResponse = RevokeResponse(status: string, revoked: int)

  datatype RunningTarget = RunningTarget(ip: string, hostnames: seq<string>, worker: string, startedAt: int)

  datatype ProjectTaskSummary = ProjectTaskSummary(
    activeOrQueued: int,
    running: int,
    runningTargets: seq<RunningTarget>)

  /** The parsed configuration mapping after the override: its `hosts`
      entry replaced when the override is a non-empty list. */
  function WithOverride(doc: RunNmapRequest, overrideHosts: Option<seq<string>>): RunNmapRequest {
    if Filled(overrideHosts) then doc.(hosts := overrideHosts) else doc
  }

  /** The keys of the mapping after the override: `hosts` is added when
      the override is a non-empty list. */
  function KeysWithOverride(keys: set<RequestField>, overrideHosts: Option<seq<string>>): set<RequestField> {
    if Filled(overrideHosts) then keys + {HostsField} else keys
  }

  /** What `load_scan_yaml(config_path, override_hosts)` yields: the missing
      and unreadable file errors (the current directory exists and fails to
      read), then validation of the overridden mapping;
      the fields set are the keys of that mapping. */
  function LoadedWithOverride(configs: Configs, path: string, overrideHosts: Option<seq<string>>): Result<Tracked, ScanError> {
    match ConfigAt(configs, path)
    case None => Err(ConfigNotFound(path))
    case Some(Unreadable) => Err(ConfigReadFailed)
    case Some(Parsed(doc, keys)) =>
      var data := WithOverride(doc, overrideHosts);
      var dataKeys := KeysWithOverride(keys, overrideHosts);
      if HostsValidator(data, dataKeys) == HostsCrashed then Err(UncaughtHostsValidator)
      else if ValidRequest(data) then Ok(Tracked(data, dataKeys))
      else Err(ConfigValidationFailed)
  }

  /** `load_scan_yaml`, replacing the `hosts` entry in place before the
      mapping is validated. */
  method LoadScanYaml(configs: Configs, path: string, overrideHosts: Option<seq<string>>)
    returns (r: Result<Tracked, ScanError>)
    ensures r == LoadedWithOverride(configs, path, overrideHosts)
  {
    var config := ConfigAt(configs, path);
    if config.None? {
      return Err(ConfigNotFound(path));
    }
    if config.value.Unreadable? {
      return Err(ConfigReadFailed);
    }
    var yamlData := config.value.doc;
    var keys := config.value.keys;
    if Filled(overrideHosts) {
      yamlData := yamlData.(hosts := overrideHosts);
      keys := keys + {HostsField};
    }
    if HostsValidator(yamlData, keys) == HostsCrashed {
      return Err(UncaughtHostsValidator);
    }
    if !ValidRequest(yamlData) {
      return Err(ConfigValidationFailed);
    }
    r := Ok(Tracked(yamlData, keys));
  }

  /** `-c ""` is `Path(".")`, which exists: opening the current directory
      raises `IsADirectoryError`, which is reported as the read error
      whatever the override and the configuration files are. */
  lemma EmptyConfigPathReadFails(configs: Configs, overrideHosts: Option<seq<string>>)
    ensures LoadedWithOverride(configs, "", overrideHosts) == Err(ConfigReadFailed)
    ensures LoadedWithOverride(configs, ".", overrideHosts) == Err(ConfigReadFailed)
  {
  }

  /** A non-empty override becomes the request's hosts and counts as set,
      and every other field is the configuration's own. */
  lemma OverrideReplacesHosts(configs: Configs, path: string, overrideHosts: seq<string>)
    requires overrideHosts != []
    ensures var r := LoadedWithOverride(configs, path, Some(overrideHosts));
            r.Ok? ==> && r.value.request.hosts == Some(overrideHosts)
                      && r.value.request.(hosts := configs[path].doc.hosts) == configs[path].doc
                      && r.value.fieldsSet == configs[path].keys + {HostsField}
  {
  }

  /** No override, or an empty one, leaves the configuration unchanged. */
  lemma EmptyOverrideIgnored(configs: Configs, path: string)
    ensures LoadedWithOverride(configs, path, Some([])) == LoadedWithOverride(configs, path, None)
    ensures ParsedAt(configs, path) && HostsValidator(configs[path].doc, configs[path].keys) == HostsAccepted
            && ValidRequest(configs[path].doc) ==>
              LoadedWithOverride(configs, path, None) == Ok(Tracked(configs[path].doc, configs[path].keys))
  {
  }

  /** The override is validated with the rest: a host name longer than 253
      characters is refused even when the configuration alone is valid, and
      an override can make a configuration valid whose own hosts were not. */
  lemma OverrideValidated(configs: Configs, path: string, overrideHosts: seq<string>)
    requires ParsedAt(configs, path) && overrideHosts != []
    ensures LoadedWithOverride(configs, path, Some(overrideHosts)).Ok?
            <==> ValidRequest(configs[path].doc.(hosts := Some(overrideHosts)))
    ensures (exists h :: h in overrideHosts && |h| > MaxHostNameLength) ==>
              LoadedWithOverride(configs, path, Some(overrideHosts)) == Err(ConfigValidationFailed)
  {
  }

  /** What `tasker.start_scan_nmap` gives back: it raised, or returned a
      falsy value, or returned a response whose body parses (`Some`) or not. */
  datatype StartData = StartRaised(message: string) | NoData | Returned(body: Option<ScanStartResponse>)

  /** `start_scan`: a raise is passed on; a falsy value is the no-response
      error; a body that does not parse is the parse error. */
  function StartScan(project: string, data: StartData): (r: Result<ScanStartResponse, ServiceFailure>)
    ensures r.Ok? <==> data.Returned? && data.body.Some?
    ensures r.Ok? ==> r.value == data.body.value
    ensures data.StartRaised? ==> r == Err(ConnectorRaised(data.message))
    ensures data.NoData? ==> r == Err(NoStartResponse(project))
    ensures data.Returned? && data.body.None? ==> r == Err(StartResponseUnparsed)
  {
    match data
    case StartRaised(m) => Err(ConnectorRaised(m))
    case NoData => Err(NoStartResponse(project))
    case Returned(body) => if body.Some? then Ok(body.value) else Err(StartResponseUnparsed)
  }

  /** `stop_scan`: the parsed answer only on status 200; a raise is passed on
      with its message; a 200 body that does not parse is the parse error;
      any other status is the stop-failed error. */
  function StopScan(project: string, reply: Reply<RevokeResponse>): (r: Result<RevokeResponse, ServiceFailure>)
    ensures r.Ok? <==> reply.Answered? && reply.status == 200 && reply.body.Some?
    ensures r.Ok? ==> r.value == reply.body.value
    ensures reply.Raised? ==> r == Err(ConnectorRaised(reply.message))
    ensures reply.Answered? && reply.status == 200 && reply.body.None? ==> r == Err(RevokeUnparsed)
    ensures reply.Answered? && reply.status != 200 ==> r == Err(StopFailed(project))
  {
    match reply
    case Raised(m) => Err(ConnectorRaised(m))
    case Answered(status, body) =>
      if status == 200 then
        if body.Some? then Ok(body.value) else Err(RevokeUnparsed)
      else Err(StopFailed(project))
  }

  /** `get_scan_status`: the summary only on status 200; any other status is
      the status error. */
  function GetScanStatus(project: string, reply: Reply<ProjectTaskSummary>): (r: Result<ProjectTaskSummary, ServiceFailure>)
    ensures r.Ok? <==> reply.Answered? && reply.status == 200 && reply.body.Some?
    ensures r.Ok? ==> r.value == reply.body.value
    ensures reply.Raised? ==> r == Err(ConnectorRaised(reply.message))
    ensures reply.Answered? && reply.status != 200 ==> r == Err(StatusFailed(project))
  {
    match reply
    case Raised(m) => Err(ConnectorRaised(m))
    case Answered(status, body) =>
      if status == 200 then
        if body.Some? then Ok(body.value) else Err(StatusUnparsed)
      else Err(StatusFailed(project))
  }
}
