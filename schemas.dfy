/** The scan option model of app/schemas.py and its translation into Nmap
    command-line flags and command strings. */
module Schemas {
  import opened Common
  import opened Text
  import opened Options

  datatype TransportProtocol = Tcp | Udp

  /** How the resulting IPs merge into the project's inventory. */
  datatype ImportMode = Insert | Replace | Update | Append

  /** Options of the open-ports phase. `None` means "not set". */
  datatype OpenPortsOpts = OpenPortsOpts(
    skipHostDiscovery: bool,
    dnsResolution: Option<bool>,
    transportProtocol: TransportProtocol,
    maxRetries: Option<int>,
    minRttTimeoutMs: Option<int>,
    maxRttTimeoutMs: Option<int>,
    initialRttTimeoutMs: Option<int>,
    minRate: Option<int>,
    maxRate: Option<int>,
    ports: Option<seq<string>>)

  /** Options of the service-discovery phase: the open-ports options without
      `ports` (the field is forced to `None`), four extra switches, and an
      always-on private "force service version" flag, which is not a field. */
  datatype ServiceOpts = ServiceOpts(
    skipHostDiscovery: bool,
    dnsResolution: Option<bool>,
    transportProtocol: TransportProtocol,
    maxRetries: Option<int>,
    minRttTimeoutMs: Option<int>,
    maxRttTimeoutMs: Option<int>,
    initialRttTimeoutMs: Option<int>,
    minRate: Option<int>,
    maxRate: Option<int>,
    aggressiveScan: bool,
    defaultScripts: bool,
    osDetection: bool,
    traceroute: bool)

  /** The request submitted to the scheduler, as validated from a scan config. */
  datatype RunNmapRequest = RunNmapRequest(
    hosts: Option<seq<string>>,
    hostsFile: Option<string>,
    openPortsOpts: OpenPortsOpts,
    serviceOpts: ServiceOpts,
    timeout: int,
    includeServices: bool,
    mode: ImportMode)

  // ----- defaults and declared bounds -----

  const DefaultTimeout: int := 1200
  const MaxTimeout: int := 60 * 60 * 24
  const MaxHostNameLength: nat := 253

  function DefaultOpenPortsOpts(): OpenPortsOpts {
    OpenPortsOpts(true, None, Tcp, None, None, None, None, None, None, None)
  }

  function DefaultServiceOpts(): ServiceOpts {
    ServiceOpts(true, None, Tcp, None, None, None, None, None, None, false, false, false, false)
  }

  /** A request with every option at its default and the given hosts. */
  function DefaultRequest(hosts: Option<seq<string>>): RunNmapRequest {
    RunNmapRequest(hosts, None, DefaultOpenPortsOpts(), DefaultServiceOpts(), DefaultTimeout, true, Insert)
  }

  predicate InRange(v: Option<int>, lo: int, hi: int) {
    v.None? || lo <= v.value <= hi
  }

  /** The `ge`/`le` constraints declared on the open-ports fields. No
      constraint relates two fields: min/initial/max RTT and min/max rate may
      be given in any order. */
  predicate ValidOpenPortsOpts(o: OpenPortsOpts) {
    && InRange(o.maxRetries, 0, 20)
    && InRange(o.minRttTimeoutMs, 1, 60000)
    && InRange(o.maxRttTimeoutMs, 1, 60000)
    && InRange(o.initialRttTimeoutMs, 1, 60000)
    && InRange(o.minRate, 1, 30000)
    && InRange(o.maxRate, 1, 30000)
  }

  /** The open-ports view of service options: the inherited fields, with
      `ports` forced to `None`. */
  function Inherited(s: ServiceOpts): (o: OpenPortsOpts)
    ensures o.ports.None?
  {
    OpenPortsOpts(s.skipHostDiscovery, s.dnsResolution, s.transportProtocol, s.maxRetries,
                  s.minRttTimeoutMs, s.maxRttTimeoutMs, s.initialRttTimeoutMs, s.minRate, s.maxRate, None)
  }

  predicate ValidServiceOpts(s: ServiceOpts) {
    ValidOpenPortsOpts(Inherited(s))
  }

  /** Every declared constraint of a request: host names of at most 253
      characters, both option sets within bounds, timeout in [1, 86400]. */
  predicate ValidRequest(r: RunNmapRequest) {
    && (r.hosts.Some? ==> forall h :: h in r.hosts.value ==> |h| <= MaxHostNameLength)
    && ValidOpenPortsOpts(r.openPortsOpts)
    && ValidServiceOpts(r.serviceOpts)
    && 1 <= r.timeout <= MaxTimeout
  }

  /** The default options are within bounds, and so is a default request whose
      host names are short enough. */
  lemma DefaultRequestValid(hosts: seq<string>)
    requires forall h :: h in hosts ==> |h| <= MaxHostNameLength
    ensures ValidRequest(DefaultRequest(Some(hosts)))
  {
  }

  /** The bounds accept a minimum RTT timeout above the maximum: there is no
      cross-field check. */
  lemma NoCrossFieldCheck()
    ensures var o := DefaultOpenPortsOpts().(minRttTimeoutMs := Some(5000), maxRttTimeoutMs := Some(100),
                                            minRate := Some(900), maxRate := Some(10));
            ValidOpenPortsOpts(o) && o.minRttTimeoutMs.value > o.maxRttTimeoutMs.value
            && o.minRate.value > o.maxRate.value
  {
  }

  // ----- flag slots: the fixed emission order -----

  /** The argument a numeric option contributes when set: its flag, a space
      and the value. */
  function Valued(name: string, v: Option<int>): Option<string> {
    if v.Some? then Some(name + IntToString(v.value)) else None
  }

  /** The same for the RTT timeouts, which carry an `ms` unit suffix. */
  function ValuedMs(name: string, v: Option<int>): Option<string> {
    if v.Some? then Some(name + IntToString(v.value) + "ms") else None
  }

  /** The ten open-ports flag slots in emission order: host discovery, DNS,
      UDP, max retries, min/max/initial RTT timeout, min/max rate, ports.
      Slot `k` holds the argument it contributes, or `None`. */
  function Slot(o: OpenPortsOpts, k: nat): Option<string>
    requires k < 10
  {
    match k
    case 0 => if o.skipHostDiscovery then Some("-Pn") else None
    case 1 => if o.dnsResolution.Some? then Some(if o.dnsResolution.value then "-R" else "-n") else None
    case 2 => if o.transportProtocol == Udp then Some("-sU") else None
    case 3 => Valued("--max-retries ", o.maxRetries)
    case 4 => ValuedMs("--min-rtt-timeout ", o.minRttTimeoutMs)
    case 5 => ValuedMs("--max-rtt-timeout ", o.maxRttTimeoutMs)
    case 6 => ValuedMs("--initial-rtt-timeout ", o.initialRttTimeoutMs)
    case 7 => Valued("--min-rate ", o.minRate)
    case 8 => Valued("--max-rate ", o.maxRate)
    case _ => if o.ports.Some? && o.ports.value != [] then Some("-p " + Join(o.ports.value, ",")) else None
  }

  /** The fifteen service-phase slots: the inherited ten, then aggressive
      scan, default scripts, OS detection, traceroute and the always-present
      `-sV`. */
  function ServiceSlot(s: ServiceOpts, k: nat): Option<string>
    requires k < 15
  {
    if k < 10 then Slot(Inherited(s), k)
    else match k
      case 10 => if s.aggressiveScan then Some("-A") else None
      case 11 => if s.defaultScripts then Some("-sC") else None
      case 12 => if s.osDetection then Some("-O") else None
      case 13 => if s.traceroute then Some("--traceroute") else None
      case _ => Some("-sV")
  }

  function OpenPortsSlots(o: OpenPortsOpts): (slots: seq<Option<string>>)
    ensures |slots| == 10 && forall k :: 0 <= k < 10 ==> slots[k] == Slot(o, k)
  {
    seq(10, k requires 0 <= k < 10 => Slot(o, k))
  }

  function ServiceSlots(s: ServiceOpts): (slots: seq<Option<string>>)
    ensures |slots| == 15 && forall k :: 0 <= k < 15 ==> slots[k] == ServiceSlot(s, k)
  {
    seq(15, k requires 0 <= k < 15 => ServiceSlot(s, k))
  }

  /** The argument list of the open-ports phase: each slot in turn adds its
      argument when set. */
  function OpenPortsArgs(o: OpenPortsOpts): seq<string> {
    Emit(Emit(Emit(Emit(Emit(Emit(Emit(Emit(Emit(Emit([],
      Slot(o, 0)), Slot(o, 1)), Slot(o, 2)), Slot(o, 3)), Slot(o, 4)),
      Slot(o, 5)), Slot(o, 6)), Slot(o, 7)), Slot(o, 8)), Slot(o, 9))
  }

  /** The argument list of the service phase: the inherited options' list,
      then the five service slots in turn. */
  function ServiceArgs(s: ServiceOpts): seq<string> {
    Emit(Emit(Emit(Emit(Emit(OpenPortsArgs(Inherited(s)),
      ServiceSlot(s, 10)), ServiceSlot(s, 11)), ServiceSlot(s, 12)),
      ServiceSlot(s, 13)), ServiceSlot(s, 14))
  }

  // ----- the argument lists are the set slots, in order -----

  /** The emitted arguments are those of the slots that are set, in slot
      order. */
  lemma {:induction false} OpenPortsArgsPresent(o: OpenPortsOpts)
    ensures OpenPortsArgs(o) == Present(OpenPortsSlots(o))
  {
    var slots := OpenPortsSlots(o);
    FirstFive(o);
    NextFive(o);
    assert slots[..10] == slots;
  }

  lemma {:induction false} NextFive(o: OpenPortsOpts)
    ensures Present(OpenPortsSlots(o)[..10]) ==
      Emit(Emit(Emit(Emit(Emit(Present(OpenPortsSlots(o)[..5]), Slot(o, 5)), Slot(o, 6)), Slot(o, 7)), Slot(o, 8)), Slot(o, 9))
  {
    var slots := OpenPortsSlots(o);
    Step(slots, 5);
    Step(slots, 6);
    Step(slots, 7);
    Step(slots, 8);
    Step(slots, 9);
  }

  lemma {:induction false} FirstFive(o: OpenPortsOpts)
    ensures Present(OpenPortsSlots(o)[..5]) ==
      Emit(Emit(Emit(Emit(Emit([], Slot(o, 0)), Slot(o, 1)), Slot(o, 2)), Slot(o, 3)), Slot(o, 4))
  {
    var slots := OpenPortsSlots(o);
    assert slots[..0] == [];
    Step(slots, 0);
    Step(slots, 1);
    Step(slots, 2);
    Step(slots, 3);
    Step(slots, 4);
  }

  lemma {:induction false} ServiceArgsPresent(s: ServiceOpts)
    ensures ServiceArgs(s) == Present(ServiceSlots(s))
  {
    var slots := ServiceSlots(s);
    OpenPortsArgsPresent(Inherited(s));
    assert slots[..10] == OpenPortsSlots(Inherited(s));
    Step(slots, 10);
    Step(slots, 11);
    Step(slots, 12);
    Step(slots, 13);
    Step(slots, 14);
    assert slots[..15] == slots;
  }

  // ----- the flag builders, as the source writes them -----

  /** `OpenPortsOpts.to_nmap_args`: one append per set option, in slot order. */
  method ToNmapArgs(o: OpenPortsOpts) returns (args: seq<string>)
    ensures args == OpenPortsArgs(o)
  {
    args := [];
    ghost var before := args;
    if o.skipHostDiscovery {
      args := args + ["-Pn"];
    }
    assert args == Emit(before, Slot(o, 0));
    before := args;
    if o.dnsResolution.Some? {
      args := args + [if o.dnsResolution.value then "-R" else "-n"];
    }
    assert args == Emit(before, Slot(o, 1));
    before := args;
    if o.transportProtocol == Udp {
      args := args + ["-sU"];
    }
    assert args == Emit(before, Slot(o, 2));
    before := args;
    if o.maxRetries.Some? {
      args := args + ["--max-retries " + IntToString(o.maxRetries.value)];
    }
    assert args == Emit(before, Slot(o, 3));
    before := args;
    if o.minRttTimeoutMs.Some? {
      args := args + ["--min-rtt-timeout " + IntToString(o.minRttTimeoutMs.value) + "ms"];
    }
    assert args == Emit(before, Slot(o, 4));
    before := args;
    if o.maxRttTimeoutMs.Some? {
      args := args + ["--max-rtt-timeout " + IntToString(o.maxRttTimeoutMs.value) + "ms"];
    }
    assert args == Emit(before, Slot(o, 5));
    before := args;
    if o.initialRttTimeoutMs.Some? {
      args := args + ["--initial-rtt-timeout " + IntToString(o.initialRttTimeoutMs.value) + "ms"];
    }
    assert args == Emit(before, Slot(o, 6));
    before := args;
    if o.minRate.Some? {
      args := args + ["--min-rate " + IntToString(o.minRate.value)];
    }
    assert args == Emit(before, Slot(o, 7));
    before := args;
    if o.maxRate.Some? {
      args := args + ["--max-rate " + IntToString(o.maxRate.value)];
    }
    assert args == Emit(before, Slot(o, 8));
    before := args;
    if o.ports.Some? && o.ports.value != [] {
      args := args + ["-p " + Join(o.ports.value, ",")];
    }
    assert args == Emit(before, Slot(o, 9));
  }

  /** `ServiceOpts.to_nmap_args`: the inherited flags, then the four switches,
      then `-sV`. */
  method ServiceToNmapArgs(s: ServiceOpts) returns (args: seq<string>)
    ensures args == ServiceArgs(s)
  {
    args := ToNmapArgs(Inherited(s));
    ghost var before := args;
    if s.aggressiveScan {
      args := args + ["-A"];
    }
    assert args == Emit(before, ServiceSlot(s, 10));
    before := args;
    if s.defaultScripts {
      args := args + ["-sC"];
    }
    assert args == Emit(before, ServiceSlot(s, 11));
    before := args;
    if s.osDetection {
      args := args + ["-O"];
    }
    assert args == Emit(before, ServiceSlot(s, 12));
    before := args;
    if s.traceroute {
      args := args + ["--traceroute"];
    }
    assert args == Emit(before, ServiceSlot(s, 13));
    before := args;
    args := args + ["-sV"];
    assert args == Emit(before, ServiceSlot(s, 14));
  }

  // ----- what the flag lists promise -----

  predicate StartsWith(a: string, p: string) {
    |p| <= |a| && a[..|p|] == p
  }

  /** Which slot an argument belongs to, read off its text (-1: none): the
      one-letter flags by value, the numeric flags by their first eight
      characters, the port list by its `-p`. */
  function Classify(a: string): int {
    if StartsWith(a, "-p") then 9
    else if a == "-Pn" then 0
    else if a == "-R" || a == "-n" then 1
    else if a == "-sU" then 2
    else if StartsWith(a, "--max-re") then 3
    else if StartsWith(a, "--min-rt") then 4
    else if StartsWith(a, "--max-rt") then 5
    else if StartsWith(a, "--initia") then 6
    else if StartsWith(a, "--min-ra") then 7
    else if StartsWith(a, "--max-ra") then 8
    else -1
  }

  lemma Differ(a: string, p: string, i: nat)
    requires i < |p| && i < |a| && a[i] != p[i]
    ensures !StartsWith(a, p)
  {
    assert |p| <= |a| ==> a[..|p|][i] == a[i];
  }

  /** The one-letter flags and the service switches classify by value. */
  lemma ClassifyLiterals()
    ensures Classify("-Pn") == 0 && Classify("-R") == 1 && Classify("-n") == 1 && Classify("-sU") == 2
    ensures Classify("-A") == -1 && Classify("-sC") == -1 && Classify("-O") == -1
    ensures Classify("--traceroute") == -1 && Classify("-sV") == -1
  {
    Differ("-Pn", "-p", 1);
    Differ("-R", "-p", 1);
    Differ("-n", "-p", 1);
    Differ("-sU", "-p", 1);
    Differ("-A", "-p", 1);
    Differ("-sC", "-p", 1);
    assert "-sC"[2] == 'C' && "-sU"[2] == 'U';
    Differ("-O", "-p", 1);
    Differ("-sV", "-p", 1);
    assert "-sV"[2] == 'V';
    var t := "--traceroute";
    Differ(t, "-p", 1);
    Differ(t, "--max-re", 2);
    Differ(t, "--min-rt", 2);
    Differ(t, "--max-rt", 2);
    Differ(t, "--initia", 2);
    Differ(t, "--min-ra", 2);
    Differ(t, "--max-ra", 2);
  }

  /** A numeric flag's argument starts with its eight-character key and with
      no other key, and not with `-p`. */
  lemma NumericClassify(name: string, x: string, k: int)
    requires 3 <= k <= 8
    requires name == ["--max-retries ", "--min-rtt-timeout ", "--max-rtt-timeout ",
                      "--initial-rtt-timeout ", "--min-rate ", "--max-rate "][k - 3]
    ensures Classify(name + x) == k
  {
    var a := name + x;
    assert a[..|name|] == name;
    assert a[..8] == name[..8];
    assert a[1] == name[1] && a[3] == name[3] && a[7] == name[7];
    Differ(a, "-p", 1);
    if k > 3 { Differ(a, "--max-re", if k == 6 || k == 7 || k == 4 then 3 else 7); }
    if k > 4 { Differ(a, "--min-rt", if k == 7 then 7 else 3); }
    if k > 5 { Differ(a, "--max-rt", if k == 8 then 7 else 3); }
    if k > 6 { Differ(a, "--initia", 3); }
    if k > 7 { Differ(a, "--min-ra", 3); }
  }

  /** Every emitted argument names the slot it came from, so the argument
      list is unambiguous. */
  lemma ClassifySlot(o: OpenPortsOpts, k: nat)
    requires k < 10 && Slot(o, k).Some?
    ensures Classify(Slot(o, k).value) == k
  {
    ClassifyLiterals();
    if k == 3 {
      NumericClassify("--max-retries ", IntToString(o.maxRetries.value), 3);
    } else if k == 4 {
      NumericClassify("--min-rtt-timeout ", IntToString(o.minRttTimeoutMs.value) + "ms", 4);
      assert Slot(o, 4).value == "--min-rtt-timeout " + (IntToString(o.minRttTimeoutMs.value) + "ms");
    } else if k == 5 {
      NumericClassify("--max-rtt-timeout ", IntToString(o.maxRttTimeoutMs.value) + "ms", 5);
      assert Slot(o, 5).value == "--max-rtt-timeout " + (IntToString(o.maxRttTimeoutMs.value) + "ms");
    } else if k == 6 {
      NumericClassify("--initial-rtt-timeout ", IntToString(o.initialRttTimeoutMs.value) + "ms", 6);
      assert Slot(o, 6).value == "--initial-rtt-timeout " + (IntToString(o.initialRttTimeoutMs.value) + "ms");
    } else if k == 7 {
      NumericClassify("--min-rate ", IntToString(o.minRate.value), 7);
    } else if k == 8 {
      NumericClassify("--max-rate ", IntToString(o.maxRate.value), 8);
    } else if k == 9 {
      var a := Slot(o, 9).value;
      assert a[..2] == "-p";
    }
  }

  /** An argument of slot `k` is emitted iff slot `k`'s option is set. */
  lemma ClassifyIff(o: OpenPortsOpts, k: nat)
    requires k < 10
    ensures (exists a :: a in OpenPortsArgs(o) && Classify(a) == k) <==> Slot(o, k).Some?
  {
    OpenPortsArgsPresent(o);
    var slots := OpenPortsSlots(o);
    if Slot(o, k).Some? {
      PresentMember(slots, Slot(o, k).value);
      ClassifySlot(o, k);
    }
    if a :| a in OpenPortsArgs(o) && Classify(a) == k {
      PresentMember(slots, a);
      var j :| 0 <= j < 10 && slots[j] == Some(a);
      ClassifySlot(o, j);
    }
  }

  /** The default open-ports options render exactly `-Pn`; the default service
      options render `-Pn -sV`. */
  lemma DefaultArgs()
    ensures OpenPortsArgs(DefaultOpenPortsOpts()) == ["-Pn"]
    ensures ServiceArgs(DefaultServiceOpts()) == ["-Pn", "-sV"]
  {
  }

  /** Host discovery: `-Pn` is emitted iff host discovery is skipped. */
  lemma SkipHostDiscoveryIff(o: OpenPortsOpts)
    ensures "-Pn" in OpenPortsArgs(o) <==> o.skipHostDiscovery
  {
    OpenPortsArgsPresent(o);
    var slots := OpenPortsSlots(o);
    PresentMember(slots, "-Pn");
    assert o.skipHostDiscovery ==> slots[0] == Some("-Pn");
    if Some("-Pn") in slots {
      var k :| 0 <= k < 10 && slots[k] == Some("-Pn");
      ClassifySlot(o, k);
      ClassifyLiterals();
    }
  }

  /** DNS is tri-state: unset emits neither `-R` nor `-n`, true emits `-R`,
      false emits `-n`. */
  lemma DnsFlagTriState(o: OpenPortsOpts)
    ensures "-R" in OpenPortsArgs(o) <==> o.dnsResolution == Some(true)
    ensures "-n" in OpenPortsArgs(o) <==> o.dnsResolution == Some(false)
  {
    OpenPortsArgsPresent(o);
    var slots := OpenPortsSlots(o);
    PresentMember(slots, "-R");
    PresentMember(slots, "-n");
    assert o.dnsResolution.Some? ==> slots[1] == Some(if o.dnsResolution.value then "-R" else "-n");
    assert "-R"[1] != "-n"[1];
    if Some("-R") in slots {
      var k :| 0 <= k < 10 && slots[k] == Some("-R");
      ClassifySlot(o, k);
      ClassifyLiterals();
    }
    if Some("-n") in slots {
      var k :| 0 <= k < 10 && slots[k] == Some("-n");
      ClassifySlot(o, k);
      ClassifyLiterals();
    }
  }

  /** Protocol: `-sU` is emitted iff the transport is UDP; TCP adds nothing. */
  lemma UdpFlagIff(o: OpenPortsOpts)
    ensures "-sU" in OpenPortsArgs(o) <==> o.transportProtocol == Udp
  {
    OpenPortsArgsPresent(o);
    var slots := OpenPortsSlots(o);
    PresentMember(slots, "-sU");
    assert o.transportProtocol == Udp ==> slots[2] == Some("-sU");
    if Some("-sU") in slots {
      var k :| 0 <= k < 10 && slots[k] == Some("-sU");
      ClassifySlot(o, k);
      ClassifyLiterals();
    }
  }

  /** Ports: an argument starting with `-p` is emitted iff `ports` is a
      non-empty list, and then it is `-p` followed by the comma-joined ports. */
  lemma PortsFlagIff(o: OpenPortsOpts)
    ensures (exists a :: a in OpenPortsArgs(o) && StartsWith(a, "-p")) <==> (o.ports.Some? && o.ports.value != [])
    ensures o.ports.Some? && o.ports.value != [] ==> "-p " + Join(o.ports.value, ",") in OpenPortsArgs(o)
  {
    OpenPortsArgsPresent(o);
    ClassifyIff(o, 9);
    if a :| a in OpenPortsArgs(o) && StartsWith(a, "-p") {
      assert Classify(a) == 9;
    }
    if o.ports.Some? && o.ports.value != [] {
      PresentMember(OpenPortsSlots(o), Slot(o, 9).value);
    }
  }

  /** A set numeric option is emitted with its value verbatim, and the three
      RTT timeouts with an `ms` unit suffix. */
  lemma NumericFlags(o: OpenPortsOpts)
    ensures o.maxRetries.Some? ==> "--max-retries " + IntToString(o.maxRetries.value) in OpenPortsArgs(o)
    ensures o.minRttTimeoutMs.Some? ==> "--min-rtt-timeout " + IntToString(o.minRttTimeoutMs.value) + "ms" in OpenPortsArgs(o)
    ensures o.maxRttTimeoutMs.Some? ==> "--max-rtt-timeout " + IntToString(o.maxRttTimeoutMs.value) + "ms" in OpenPortsArgs(o)
    ensures o.initialRttTimeoutMs.Some? ==> "--initial-rtt-timeout " + IntToString(o.initialRttTimeoutMs.value) + "ms" in OpenPortsArgs(o)
    ensures o.minRate.Some? ==> "--min-rate " + IntToString(o.minRate.value) in OpenPortsArgs(o)
    ensures o.maxRate.Some? ==> "--max-rate " + IntToString(o.maxRate.value) in OpenPortsArgs(o)
  {
    OpenPortsArgsPresent(o);
    var slots := OpenPortsSlots(o);
    if o.maxRetries.Some? { PresentMember(slots, Slot(o, 3).value); }
    if o.minRttTimeoutMs.Some? { PresentMember(slots, Slot(o, 4).value); }
    if o.maxRttTimeoutMs.Some? { PresentMember(slots, Slot(o, 5).value); }
    if o.initialRttTimeoutMs.Some? { PresentMember(slots, Slot(o, 6).value); }
    if o.minRate.Some? { PresentMember(slots, Slot(o, 7).value); }
    if o.maxRate.Some? { PresentMember(slots, Slot(o, 8).value); }
  }

  /** The text a numeric flag carries after its name parses back, with
      `int()`, to the option's value. */
  lemma NumericValueParses(name: string, v: int, suffix: string)
    ensures var a := name + IntToString(v) + suffix;
            ParseInt(a[|name|..|a| - |suffix|]) == Some(v)
  {
    var a := name + IntToString(v) + suffix;
    assert a[|name|..|a| - |suffix|] == IntToString(v);
    ParseIntToString(v);
  }

  /** Service arguments are the inherited open-ports arguments followed by
      the enabled switches, and always end with `-sV`. */
  lemma ServiceArgsShape(s: ServiceOpts)
    ensures ServiceArgs(s) == OpenPortsArgs(Inherited(s)) + Present(ServiceSlots(s)[10..])
    ensures |ServiceArgs(s)| >= 1 && ServiceArgs(s)[|ServiceArgs(s)| - 1] == "-sV"
  {
    ServiceArgsPresent(s);
    OpenPortsArgsPresent(Inherited(s));
    var slots := ServiceSlots(s);
    var head := OpenPortsSlots(Inherited(s));
    var tail := slots[10..];
    assert slots == head + tail;
    PresentAppend(head, tail);
    assert tail == tail[..4] + [Some("-sV")];
    PresentSnoc(tail[..4], Some("-sV"));
  }

  /** The service phase never carries a port list: no argument starts with `-p`. */
  lemma ServiceArgsNoPorts(s: ServiceOpts)
    ensures forall a :: a in ServiceArgs(s) ==> !StartsWith(a, "-p")
  {
    ServiceArgsShape(s);
    InheritedNoPorts(s);
    ServiceTailNoPorts(s);
  }

  lemma InheritedNoPorts(s: ServiceOpts)
    ensures forall a :: a in OpenPortsArgs(Inherited(s)) ==> !StartsWith(a, "-p")
  {
    ClassifyIff(Inherited(s), 9);
  }

  lemma ServiceTailNoPorts(s: ServiceOpts)
    ensures forall a :: a in Present(ServiceSlots(s)[10..]) ==> !StartsWith(a, "-p")
  {
    ClassifyLiterals();
    var tail := ServiceSlots(s)[10..];
    assert tail == [ServiceSlot(s, 10), ServiceSlot(s, 11), ServiceSlot(s, 12), ServiceSlot(s, 13), ServiceSlot(s, 14)];
    forall a | a in Present(tail) ensures !StartsWith(a, "-p") {
      PresentMember(tail, a);
    }
  }

  /** Each service switch can only come from its own slot. */
  lemma ServiceSlotOf(s: ServiceOpts, k: nat, x: string)
    requires k < 15 && ServiceSlot(s, k) == Some(x)
    ensures x == "-A" ==> k == 10
    ensures x == "-sC" ==> k == 11
    ensures x == "-O" ==> k == 12
    ensures x == "--traceroute" ==> k == 13
  {
    ClassifyLiterals();
    if k < 10 {
      ClassifySlot(Inherited(s), k);
    }
  }

  /** Each of the four service switches is emitted iff it is enabled. */
  lemma ServiceSwitchesIff(s: ServiceOpts)
    ensures "-A" in ServiceArgs(s) <==> s.aggressiveScan
    ensures "-sC" in ServiceArgs(s) <==> s.defaultScripts
    ensures "-O" in ServiceArgs(s) <==> s.osDetection
    ensures "--traceroute" in ServiceArgs(s) <==> s.traceroute
  {
    ServiceArgsPresent(s);
    var slots := ServiceSlots(s);
    PresentMember(slots, "-A");
    PresentMember(slots, "-sC");
    PresentMember(slots, "-O");
    PresentMember(slots, "--traceroute");
    assert s.aggressiveScan ==> slots[10] == Some("-A");
    assert s.defaultScripts ==> slots[11] == Some("-sC");
    assert s.osDetection ==> slots[12] == Some("-O");
    assert s.traceroute ==> slots[13] == Some("--traceroute");
    if Some("-A") in slots {
      var k :| 0 <= k < 15 && slots[k] == Some("-A");
      ServiceSlotOf(s, k, "-A");
    }
    if Some("-sC") in slots {
      var k :| 0 <= k < 15 && slots[k] == Some("-sC");
      ServiceSlotOf(s, k, "-sC");
    }
    if Some("-O") in slots {
      var k :| 0 <= k < 15 && slots[k] == Some("-O");
      ServiceSlotOf(s, k, "-O");
    }
    if Some("--traceroute") in slots {
      var k :| 0 <= k < 15 && slots[k] == Some("--traceroute");
      ServiceSlotOf(s, k, "--traceroute");
    }
  }

  // ----- command rendering -----

  datatype NmapCommands = NmapCommands(openPortsCommand: string, serviceCommand: string)

  /** One command line: `nmap`, the flags and the hosts, each group joined by
      single spaces, with one space between the groups. */
  function Command(args: seq<string>, hosts: seq<string>): (cmd: string)
    ensures StartsWith(cmd, "nmap " + Join(args, " ") + " ")
    ensures |cmd| == 6 + |Join(args, " ")| + |Join(hosts, " ")|
    ensures cmd[|cmd| - |Join(hosts, " ")|..] == Join(hosts, " ")
  {
    var head := "nmap " + Join(args, " ") + " ";
    assert (head + Join(hosts, " "))[..|head|] == head;
    head + Join(hosts, " ")
  }

  /** The hosts of a request; unset hosts count as none. */
  function HostList(r: RunNmapRequest): seq<string> {
    if r.hosts.Some? then r.hosts.value else []
  }

  /** `RunNmapRequest.to_nmap_commands`: the open-ports command and the
      service command, over the same hosts. */
  function ToNmapCommands(r: RunNmapRequest): (c: NmapCommands)
    ensures c.openPortsCommand == Command(OpenPortsArgs(r.openPortsOpts), HostList(r))
    ensures c.serviceCommand == Command(ServiceArgs(r.serviceOpts), HostList(r))
  {
    NmapCommands(Command(OpenPortsArgs(r.openPortsOpts), HostList(r)),
                 Command(ServiceArgs(r.serviceOpts), HostList(r)))
  }

  /** With default options the two commands are `nmap -Pn <hosts>` and
      `nmap -Pn -sV <hosts>`. */
  lemma DefaultCommands(hosts: seq<string>)
    ensures ToNmapCommands(DefaultRequest(Some(hosts))).openPortsCommand == Command(["-Pn"], hosts)
    ensures ToNmapCommands(DefaultRequest(Some(hosts))).serviceCommand == Command(["-Pn", "-sV"], hosts)
  {
    DefaultArgs();
  }

  /** Without hosts, a command still ends with the space that separates the
      flags from the (empty) host list. */
  lemma NoHostsTrailingSpace(r: RunNmapRequest)
    requires HostList(r) == []
    ensures var c := ToNmapCommands(r).openPortsCommand; c[|c| - 1] == ' '
    ensures var c := ToNmapCommands(r).serviceCommand; c[|c| - 1] == ' '
  {
    var op := ToNmapCommands(r).openPortsCommand;
    var head := "nmap " + Join(OpenPortsArgs(r.openPortsOpts), " ") + " ";
    assert op == op[..|head|] == head;
    var sv := ToNmapCommands(r).serviceCommand;
    var head' := "nmap " + Join(ServiceArgs(r.serviceOpts), " ") + " ";
    assert sv == sv[..|head'|] == head';
  }

  /** The request's hosts are given as `None` or as an empty list: both render
      the same commands. */
  lemma NoHostsSameAsEmpty(r: RunNmapRequest)
    ensures ToNmapCommands(r.(hosts := None)) == ToNmapCommands(r.(hosts := Some([])))
  {
  }
}
