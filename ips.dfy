/** The IP and port records the ScanLedger back end returns, with the
    checks their validation makes (app/core/ips/models.py), and the IP
    service's status-code mappings and report path (app/core/ips/services.py). */
module Ips {
  import opened Common
  import opened Text

  // ----- ProtocolEnum and PortState -----

  datatype Protocol = Tcp | Udp

  datatype PortState = Open | Closed | Filtered | Unfiltered | OpenFiltered | ClosedFiltered

  /** The `value` of a protocol. */
  function ProtocolText(p: Protocol): string {
    match p
    case Tcp => "tcp"
    case Udp => "udp"
  }

  /** The `value` of a port state. */
  function StateText(st: PortState): string {
    match st
    case Open => "open"
    case Closed => "closed"
    case Filtered => "filtered"
    case Unfiltered => "unfiltered"
    case OpenFiltered => "open|filtered"
    case ClosedFiltered => "closed|filtered"
  }

  /** The protocol a text names; validation accepts exactly the values. */
  function ParseProtocol(s: string): Option<Protocol> {
    if s == "tcp" then Some(Tcp) else if s == "udp" then Some(Udp) else None
  }

  /** The port state a text names; validation accepts exactly the values. */
  function ParseState(s: string): Option<PortState> {
    if s == "open" then Some(Open)
    else if s == "closed" then Some(Closed)
    else if s == "filtered" then Some(Filtered)
    else if s == "unfiltered" then Some(Unfiltered)
    else if s == "open|filtered" then Some(OpenFiltered)
    else if s == "closed|filtered" then Some(ClosedFiltered)
    else None
  }

  /** A protocol text is accepted exactly when it is one of the values, and
      gives that protocol. */
  lemma ProtocolRoundTrip(p: Protocol, s: string)
    ensures ParseProtocol(ProtocolText(p)) == Some(p)
    ensures ParseProtocol(s) == Some(p) <==> s == ProtocolText(p)
  {
  }

  /** A state text is accepted exactly when it is one of the six values, and
      gives that state. */
  lemma StateRoundTrip(st: PortState, s: string)
    ensures ParseState(StateText(st)) == Some(st)
    ensures ParseState(s) == Some(st) <==> s == StateText(st)
  {
    match st
    case Open => {}
    case Closed => {}
    case Filtered => {}
    case Unfiltered => {}
    case OpenFiltered => {
      assert "open|filtered" != "open" && "open|filtered" != "closed" && "open|filtered" != "filtered";
      assert "open|filtered" != "unfiltered";
    }
    case ClosedFiltered => {
      assert "closed|filtered" != "open" && "closed|filtered" != "closed" && "closed|filtered" != "filtered";
      assert "closed|filtered" != "unfiltered" && "closed|filtered" != "open|filtered";
    }
  }

  // ----- Port and IP -----

  /** A field of a record as it arrives: left out, or given (possibly as
      null). */
  datatype Given<T> = Absent | Present(value: T)

  /** The value a field takes: the given one, or its default. */
  function OrDefault<T>(f: Given<T>, default: T): T {
    if f.Present? then f.value else default
  }

  /** A port record as the back end sends it. */
  datatype RawPort = RawPort(
    number: int, protocol: string, state: string,
    reason: Given<Option<string>>, banner: Given<Option<string>>, service: Given<Option<string>>,
    servicefp: Given<Option<string>>, scripts: Given<Option<string>>)

  /** A validated port. */
  datatype Port = Port(
    number: int, protocol: Protocol, state: PortState,
    reason: Option<string>, banner: Option<string>, service: Option<string>,
    servicefp: Option<string>, scripts: Option<string>)

  const NoText: Option<string> := Some("")

  /** The largest port number. */
  const MaxPort: int := 65535

  /** `Port` validation: the number in [0, 65535], a known protocol and a
      known state; the optional texts default to "". */
  function ValidatePort(raw: RawPort): (r: Option<Port>)
    ensures r.Some? <==> 0 <= raw.number <= MaxPort && ParseProtocol(raw.protocol).Some? && ParseState(raw.state).Some?
    ensures r.Some? ==> ProtocolText(r.value.protocol) == raw.protocol && StateText(r.value.state) == raw.state
    ensures r.Some? ==> r.value.number == raw.number && 0 <= r.value.number <= 65535
  {
    if !(0 <= raw.number <= MaxPort) then None
    else match (ParseProtocol(raw.protocol), ParseState(raw.state))
      case (Some(p), Some(st)) =>
        ProtocolRoundTrip(p, raw.protocol);
        StateRoundTrip(st, raw.state);
        Some(Port(raw.number, p, st,
          OrDefault(raw.reason, NoText), OrDefault(raw.banner, NoText), OrDefault(raw.service, NoText),
          OrDefault(raw.servicefp, NoText), OrDefault(raw.scripts, NoText)))
      case _ => None
  }

  /** An IP record as the back end sends it. */
  datatype RawIp = RawIp(
    ip: string, asnName: Given<Option<string>>, orgName: Given<Option<string>>,
    status: Given<Option<string>>, os: Given<Option<string>>, endtime: Given<Option<int>>,
    hostnames: Given<Option<seq<string>>>, ports: Given<Option<seq<RawPort>>>)

  /** A validated IP. */
  datatype Ip = Ip(
    ip: string, asnName: Option<string>, orgName: Option<string>, status: Option<string>,
    os: Option<string>, endtime: Option<int>, hostnames: seq<string>, ports: Option<seq<Port>>)

  /** `normalize_hostnames`: a missing, null or empty list becomes `[]`. */
  function NormalizeHostnames(f: Given<Option<seq<string>>>): (h: seq<string>)
    ensures f.Present? && f.value.Some? ==> h == f.value.value
    ensures !(f.Present? && f.value.Some?) ==> h == []
  {
    if f.Present? && f.value.Some? && f.value.value != [] then f.value.value else []
  }

  /** Every port of a list, validated; None when any one fails. */
  function ValidatePorts(raws: seq<RawPort>): (r: Option<seq<Port>>)
    ensures r.Some? <==> forall k :: 0 <= k < |raws| ==> ValidatePort(raws[k]).Some?
    ensures r.Some? ==> |r.value| == |raws| && forall k :: 0 <= k < |raws| ==> Some(r.value[k]) == ValidatePort(raws[k])
  {
    if raws == [] then Some([])
    else
      var head := ValidatePort(raws[0]);
      var rest := ValidatePorts(raws[1..]);
      if head.Some? && rest.Some? then Some([head.value] + rest.value)
      else
        assert forall k :: 0 <= k < |raws| - 1 ==> raws[1..][k] == raws[k + 1];
        None
  }

  /** `IP` validation: the hostnames normalised, the ports validated, the
      other fields defaulting to "" (texts), 0 (`endtime`) and `[]`
      (`ports`). */
  function ValidateIp(raw: RawIp): Option<Ip> {
    var ports: Option<Option<seq<Port>>> :=
      match raw.ports
      case Absent => Some(Some([]))
      case Present(None) => Some(None)
      case Present(Some(list)) =>
        match ValidatePorts(list)
        case None => None
        case Some(valid) => Some(Some(valid));
    if ports.None? then None
    else Some(Ip(raw.ip, OrDefault(raw.asnName, NoText), OrDefault(raw.orgName, NoText),
      OrDefault(raw.status, NoText), OrDefault(raw.os, NoText), OrDefault(raw.endtime, Some(0)),
      NormalizeHostnames(raw.hostnames), ports.value))
  }

  /** An IP validates exactly when all its ports do; its address and its
      hostnames, normalised, are kept, and an absent field takes its
      default. */
  lemma ValidateIpIff(raw: RawIp)
    ensures ValidateIp(raw).Some? <==>
      (raw.ports.Present? && raw.ports.value.Some? ==>
        forall k :: 0 <= k < |raw.ports.value.value| ==> ValidatePort(raw.ports.value.value[k]).Some?)
    ensures ValidateIp(raw).Some? ==>
      && ValidateIp(raw).value.ip == raw.ip
      && ValidateIp(raw).value.hostnames == NormalizeHostnames(raw.hostnames)
      && (raw.endtime.Absent? ==> ValidateIp(raw).value.endtime == Some(0))
      && (raw.ports.Absent? ==> ValidateIp(raw).value.ports == Some([]))
      && (raw.asnName.Absent? ==> ValidateIp(raw).value.asnName == Some(""))
  {
  }

  /** Validation of a list of IPs: `[IP.model_validate(ip) for ip in raw]`,
      failing when any one fails. */
  function ValidateIps(raws: seq<RawIp>): (r: Option<seq<Ip>>)
    ensures r.Some? <==> forall k :: 0 <= k < |raws| ==> ValidateIp(raws[k]).Some?
    ensures r.Some? ==> |r.value| == |raws| && forall k :: 0 <= k < |raws| ==> Some(r.value[k]) == ValidateIp(raws[k])
  {
    if raws == [] then Some([])
    else
      var head := ValidateIp(raws[0]);
      var rest := ValidateIps(raws[1..]);
      if head.Some? && rest.Some? then Some([head.value] + rest.value)
      else
        assert forall k :: 0 <= k < |raws| - 1 ==> raws[1..][k] == raws[k + 1];
        None
  }

  // ----- IpsService -----

  /** Why an IP service call fails: the connector raised, or the body did
      not validate. */
  datatype IpsFailure = RequestRaised(message: string) | InvalidRecord

  /** `list_ips`: the body validated, whatever the status. */
  function ListIps(reply: Reply<seq<RawIp>>): (r: Result<seq<Ip>, IpsFailure>)
    ensures r.Ok? <==> reply.Answered? && reply.body.Some? && ValidateIps(reply.body.value).Some?
    ensures r.Ok? ==> r.value == ValidateIps(reply.body.value).value
    ensures r.Ok? ==> |r.value| == |reply.body.value|
  {
    match reply
    case Raised(m) => Err(RequestRaised(m))
    case Answered(_, body) =>
      if body.Some? && ValidateIps(body.value).Some? then Ok(ValidateIps(body.value).value) else Err(InvalidRecord)
  }

  /** A list of IPs on the one status that carries it, None on any other. */
  function IpsOn(expected: int, reply: Reply<seq<RawIp>>): (r: Result<Option<seq<Ip>>, IpsFailure>)
    ensures reply.Answered? && reply.status != expected ==> r == Ok(None)
    ensures r.Ok? && r.value.Some? ==> reply.Answered? && reply.status == expected
    ensures reply.Answered? && reply.status == expected ==>
              (r.Ok? <==> reply.body.Some? && ValidateIps(reply.body.value).Some?)
    ensures reply.Answered? && reply.status == expected && r.Ok? ==>
              r.value == Some(ValidateIps(reply.body.value).value)
  {
    match reply
    case Raised(m) => Err(RequestRaised(m))
    case Answered(status, body) =>
      if status != expected then Ok(None)
      else if body.Some? && ValidateIps(body.value).Some? then Ok(Some(ValidateIps(body.value).value))
      else Err(InvalidRecord)
  }

  /** `create_ips`: the created IPs on 201. */
  function CreateIps(reply: Reply<seq<RawIp>>): Result<Option<seq<Ip>>, IpsFailure> {
    IpsOn(201, reply)
  }

  /** `import_ips`: the imported IPs on 200. */
  function ImportIps(reply: Reply<seq<RawIp>>): Result<Option<seq<Ip>>, IpsFailure> {
    IpsOn(200, reply)
  }

  /** `download_ips`: the report's bytes on 200. */
  function DownloadIps(reply: Reply<seq<bv8>>): (r: Result<Option<seq<bv8>>, IpsFailure>)
    ensures r.Ok? && r.value.Some? <==> reply.Answered? && reply.status == 200 && reply.body.Some?
    ensures r.Ok? && r.value.Some? ==> r.value.value == reply.body.value
  {
    match reply
    case Raised(m) => Err(RequestRaised(m))
    case Answered(status, body) =>
      if status != 200 then Ok(None)
      else if body.Some? then Ok(Some(body.value))
      else Err(InvalidRecord)
  }

  /** `get_ip`: the IP on 200. */
  function GetIp(reply: Reply<RawIp>): (r: Result<Option<Ip>, IpsFailure>)
    ensures reply.Answered? && reply.status != 200 ==> r == Ok(None)
    ensures r.Ok? && r.value.Some? <==> reply.Answered? && reply.status == 200 && reply.body.Some? && ValidateIp(reply.body.value).Some?
    ensures r.Ok? && r.value.Some? ==> r.value == ValidateIp(reply.body.value) && r.value.value.ip == reply.body.value.ip
  {
    match reply
    case Raised(m) => Err(RequestRaised(m))
    case Answered(status, body) =>
      if status != 200 then Ok(None)
      else if body.Some? && ValidateIp(body.value).Some? then Ok(ValidateIp(body.value))
      else Err(InvalidRecord)
  }

  /** `delete_ip` and `delete_all_ips`: whether the status is 204. */
  function Deleted(reply: Reply<()>): (r: Result<bool, IpsFailure>)
    ensures r.Ok? <==> reply.Answered?
    ensures r == Ok(true) <==> reply.Answered? && reply.status == 204
  {
    match reply
    case Raised(m) => Err(RequestRaised(m))
    case Answered(status, _) => Ok(status == 204)
  }

  // ----- get_output_path -----

  /** The report formats and their `value`s. */
  datatype ReportFormat = Json | Xml

  function FormatText(f: ReportFormat): string {
    match f
    case Json => "json"
    case Xml => "xml"
  }

  /** The loaded configuration, reduced to its report directory. */
  datatype Config = Config(reportDir: string)

  datatype PathFailure = ConfigNotLoaded

  /** The default report file's name. */
  function ReportName(projectId: string, format: ReportFormat): string {
    projectId + "_ips." + FormatText(format)
  }

  /** `get_output_path`: `out` when it is given and not empty, else the
      report file in the report directory; `RuntimeError` without a
      configuration. */
  function OutputPath(projectId: string, format: ReportFormat, out: Option<string>, config: Option<Config>): (r: Result<string, PathFailure>)
    ensures config.None? <==> r.Err?
    ensures config.Some? && Filled(out) ==> r == Ok(out.value)
    ensures config.Some? && !Filled(out) ==> r.Ok? && |r.value| > |config.value.reportDir|
  {
    if config.None? then Err(ConfigNotLoaded)
    else if Filled(out) then Ok(out.value)
    else Ok(config.value.reportDir + "/" + ReportName(projectId, format))
  }

  /** Without `out`, the path is in the report directory and ends with the
      format's extension; the two formats never share a path. */
  lemma DefaultPathShape(projectId: string, format: ReportFormat, dir: string)
    ensures var p := OutputPath(projectId, format, None, Some(Config(dir))).value;
      var ext := "." + FormatText(format);
      && p[..|dir| + 1] == dir + "/"
      && |ext| < |p| && p[|p| - |ext|..] == ext
    ensures OutputPath(projectId, Json, None, Some(Config(dir))) != OutputPath(projectId, Xml, None, Some(Config(dir)))
  {
    var p := OutputPath(projectId, format, None, Some(Config(dir))).value;
    var ext := "." + FormatText(format);
    assert p == (dir + "/" + projectId + "_ips") + ext;
    var pj := OutputPath(projectId, Json, None, Some(Config(dir))).value;
    var px := OutputPath(projectId, Xml, None, Some(Config(dir))).value;
    assert pj[|pj| - 1] == 'n' && px[|px| - 1] == 'l';
  }
}
