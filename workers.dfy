/** The scan workers' addresses (app/core/workers/services.py) and their
    "last updated ... ago" view (app/core/workers/models.py). Clocks and the
    local time zone are parameters: `render(ts)` is the local-time text of a
    timestamp, `parsed` the timestamp read back from a text (None when it
    does not parse), `now` the current time in whole seconds. */
module Workers {
  import opened Common
  import opened Text
  import Connector

  /** `WorkerIP` */
  datatype WorkerIp = WorkerIp(hostname: string, ip: string, lastUpdated: string)

  /** `WorkerIPView` */
  datatype WorkerIpView = WorkerIpView(hostname: string, ip: string, lastUpdated: string, lastUpdatedAgo: string)

  // ----- WorkerIPView.from_worker_ip -----

  /** The count and the unit the age is shown in: seconds under a minute,
      whole minutes under an hour, whole hours after that. */
  function AgeParts(delta: int): (int, string) {
    if delta < 60 then (delta, "sec")
    else if delta < 3600 then (delta / 60, "min")
    else (delta / 3600, "h")
  }

  /** The shown age: `"<d> sec ago"`, `"<d // 60> min ago"` or
      `"<d // 3600> h ago"`. */
  function AgoText(delta: int): string {
    var (q, unit) := AgeParts(delta);
    IntToString(q) + " " + unit + " ago"
  }

  /** `WorkerIPView.from_worker_ip`: the fields copied unchanged and the age
      of the last update, "unknown" when its text does not parse. */
  function FromWorkerIp(w: WorkerIp, parsed: Option<int>, now: int): (v: WorkerIpView)
    ensures v.hostname == w.hostname && v.ip == w.ip && v.lastUpdated == w.lastUpdated
    ensures parsed.None? ==> v.lastUpdatedAgo == "unknown"
    ensures parsed.Some? ==> v.lastUpdatedAgo == AgoText(now - parsed.value)
  {
    var ago := if parsed.Some? then AgoText(now - parsed.value) else "unknown";
    WorkerIpView(w.hostname, w.ip, w.lastUpdated, ago)
  }

  /** The buckets: each age falls in exactly one unit, and the count in that
      unit is the whole number of such units in the age. */
  lemma AgeBuckets(delta: int)
    ensures var (q, unit) := AgeParts(delta);
      && (unit == "sec" <==> delta < 60)
      && (unit == "min" <==> 60 <= delta < 3600)
      && (unit == "h" <==> 3600 <= delta)
      && (unit == "sec" ==> q == delta)
      && (unit == "min" ==> 1 <= q < 60 && q * 60 <= delta < q * 60 + 60)
      && (unit == "h" ==> 1 <= q && q * 3600 <= delta < q * 3600 + 3600)
  {
    assert "sec" != "min" && "sec" != "h" && "min" != "h";
  }

  /** A number's text has no space in it. */
  lemma {:induction false} NoSpaceInNumber(i: int)
    ensures ' ' !in IntToString(i)
  {
    var n: nat := if i < 0 then -i else i;
    var digits := NatToString(n);
    assert forall k :: 0 <= k < |digits| ==> digits[k] != ' ';
    if i < 0 {
      var s := "-" + digits;
      assert forall k :: 1 <= k < |s| ==> s[k] == digits[k - 1];
    }
  }

  /** The shown age reads back: split at its spaces it is the count, the
      unit and "ago", and the count parses back to the number. */
  lemma AgoReads(delta: int)
    ensures var (q, unit) := AgeParts(delta);
      && Split(AgoText(delta), ' ') == [IntToString(q), unit, "ago"]
      && ParseInt(Split(AgoText(delta), ' ')[0]) == Some(q)
  {
    var (q, unit) := AgeParts(delta);
    NoSpaceInNumber(q);
    assert ' ' !in unit;
    ThreeWords(IntToString(q), unit);
    ParseIntToString(q);
  }

  /** Two words without spaces, then "ago", split back into the three. */
  lemma ThreeWords(a: string, unit: string)
    requires ' ' !in a && ' ' !in unit
    ensures Split(a + " " + unit + " ago", ' ') == [a, unit, "ago"]
  {
    var t := unit + " ago";
    assert a + " " + unit + " ago" == a + [' '] + t;
    SplitAfterPart(a, ' ', t);
    assert t == unit + [' '] + "ago";
    SplitAfterPart(unit, ' ', "ago");
    SplitNoSeparator("ago", ' ');
  }

  // ----- get_workers_ips -----

  /** One worker entry of the reply: its address and its two timestamps,
      each None when the entry leaves it out. */
  datatype WorkerData = WorkerData(ip: Option<string>, lastUpdated: Option<int>, lastSeen: Option<int>)

  /** The reply body: the entries of its "workers" object in order, keyed
      by hostname; None when the body is empty or has no "workers". */
  datatype WorkersBody = WorkersBody(workers: Option<seq<(string, WorkerData)>>)

  datatype WorkersFailure = RequestRaised(message: string) | FailedToGetIps | BodyNotJson

  /** `format_ts`: the local time of a timestamp, "unknown" for zero. */
  function FormatTs(ts: int, render: int -> string): string {
    if ts != 0 then render(ts) else "unknown"
  }

  /** The `WorkerIP` of one entry. */
  function EntryIp(entry: (string, WorkerData), render: int -> string): (w: WorkerIp)
    ensures w.hostname == entry.0
    ensures w.ip == if entry.1.ip.Some? then entry.1.ip.value else "unknown"
    ensures entry.1.lastUpdated.None? || entry.1.lastUpdated == Some(0) ==> w.lastUpdated == "unknown"
    ensures entry.1.lastUpdated.Some? && entry.1.lastUpdated.value != 0 ==> w.lastUpdated == render(entry.1.lastUpdated.value)
  {
    var data := entry.1;
    var ip := if data.ip.Some? then data.ip.value else "unknown";
    var lastUpdated := if data.lastUpdated.Some? then data.lastUpdated.value else 0;
    WorkerIp(entry.0, ip, FormatTs(lastUpdated, render))
  }

  /** The list `get_workers_ips` builds: one `WorkerIP` per entry, in
      order. */
  function EntryIps(entries: seq<(string, WorkerData)>, render: int -> string): (ws: seq<WorkerIp>)
    ensures |ws| == |entries| && forall k :: 0 <= k < |entries| ==> ws[k] == EntryIp(entries[k], render)
  {
    seq(|entries|, k requires 0 <= k < |entries| => EntryIp(entries[k], render))
  }

  /** `get_workers_ips`: a status that is not `ok` (400 to 599), or a body
      without workers, raises `FAILED_TO_GET_IPS`; otherwise one `WorkerIP`
      per entry. */
  method GetWorkersIps(reply: Reply<WorkersBody>, render: int -> string) returns (r: Result<seq<WorkerIp>, WorkersFailure>)
    ensures reply.Raised? ==> r == Err(RequestRaised(reply.message))
    ensures reply.Answered? && Connector.ErrorStatus(reply.status) ==> r == Err(FailedToGetIps)
    ensures reply.Answered? && !Connector.ErrorStatus(reply.status) && reply.body.None? ==> r == Err(BodyNotJson)
    ensures reply.Answered? && !Connector.ErrorStatus(reply.status) && reply.body.Some? && reply.body.value.workers.None? ==> r == Err(FailedToGetIps)
    ensures r.Ok? <==> reply.Answered? && !Connector.ErrorStatus(reply.status) && reply.body.Some? && reply.body.value.workers.Some?
    ensures r.Ok? ==> r.value == EntryIps(reply.body.value.workers.value, render)
  {
    if reply.Raised? {
      return Err(RequestRaised(reply.message));
    }
    if Connector.ErrorStatus(reply.status) {
      return Err(FailedToGetIps);
    }
    if reply.body.None? {
      return Err(BodyNotJson);
    }
    var result := reply.body.value;
    if result.workers.None? {
      return Err(FailedToGetIps);
    }
    var entries := result.workers.value;
    var ipData: seq<WorkerIp> := [];
    for k := 0 to |entries|
      invariant |ipData| == k && forall j :: 0 <= j < k ==> ipData[j] == EntryIp(entries[j], render)
    {
      var (hostname, data) := entries[k];
      var ip := if data.ip.Some? then data.ip.value else "unknown";
      var lastUpdated := if data.lastUpdated.Some? then data.lastUpdated.value else 0;
      var lastUpdatedText := if lastUpdated != 0 then render(lastUpdated) else "unknown";
      ipData := ipData + [WorkerIp(hostname, ip, lastUpdatedText)];
    }
    return Ok(ipData);
  }
}
