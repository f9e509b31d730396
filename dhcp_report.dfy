/** The DHCP reports of the Elasticsearch store: the shared filters, the dispatch on
    the report name, and the reshaping of each report's aggregation response. */
module DhcpReport {
  import opened Base
  import opened JsonValues
  import opened DatastoreTypes
  import opened ElasticQuery

  /** The unspecified IPv4 address, which the address reports leave out. */
  const UNSPECIFIED_ADDR: string := "0.0.0.0"

  /** The filters every DHCP report starts from: DHCP events, an optional lower time
      bound, and the caller's query string passed on verbatim as one `query_string`
      clause (it does not go through the search parser or the field mapping). */
  function DhcpBaseFilters(ecs: bool, p: EventQueryParams): (r: seq<Clause>)
    ensures |r| >= 1 && r[0] == Term(MapField(ecs, "event_type"), JStr("dhcp"))
    ensures |r| == 1 + (if p.minTimestamp.Some? then 1 else 0) + (if p.queryString.Some? then 1 else 0)
    ensures p.queryString.Some? ==> r[|r| - 1] == QueryString(p.queryString.value)
    ensures p.minTimestamp.Some? ==> r[1] == Range(TIMESTAMP_FIELD, Some(p.minTimestamp.value), None)
  {
    [Term(MapField(ecs, "event_type"), JStr("dhcp"))]
    + (if p.minTimestamp.Some? then [Range(TIMESTAMP_FIELD, Some(p.minTimestamp.value), None)] else [])
    + (if p.queryString.Some? then [QueryString(p.queryString.value)] else [])
  }

  /** The five reports. */
  datatype ReportKind = Ack | Request | Servers | Mac | Ip

  /** The report a name selects, if any. */
  function ReportKindFromName(what: string): (r: Option<ReportKind>)
    ensures r.None? <==> what !in {"ack", "request", "servers", "mac", "ip"}
    ensures r == Some(Ack) <==> what == "ack"
    ensures r == Some(Request) <==> what == "request"
    ensures r == Some(Servers) <==> what == "servers"
    ensures r == Some(Mac) <==> what == "mac"
    ensures r == Some(Ip) <==> what == "ip"
  {
    if what == "ack" then Some(Ack)
    else if what == "request" then Some(Request)
    else if what == "servers" then Some(Servers)
    else if what == "mac" then Some(Mac)
    else if what == "ip" then Some(Ip)
    else None
  }

  /** The filter each report appends to the base filters: the DHCP message type for
      the ack and request reports, replies for the other three. */
  function ReportFilter(ecs: bool, kind: ReportKind): (c: Clause)
    ensures kind == Ack ==> c == Term(MapField(ecs, "dhcp.dhcp_type"), JStr("ack"))
    ensures kind == Request ==> c == Term(MapField(ecs, "dhcp.dhcp_type"), JStr("request"))
    ensures kind in {Servers, Mac, Ip} ==> c == Term(MapField(ecs, "dhcp.type"), JStr("reply"))
  {
    match kind
    case Ack => Term(MapField(ecs, "dhcp.dhcp_type"), JStr("ack"))
    case Request => Term(MapField(ecs, "dhcp.dhcp_type"), JStr("request"))
    case _ => Term(MapField(ecs, "dhcp.type"), JStr("reply"))
  }

  /** The six keys of a mapped DHCP event. */
  const DHCP_EVENT_KEYS: set<string> := {"timestamp", "sensor", "client_mac", "hostname", "lease_time", "assigned_ip"}

  /** The keys copied from the event's DHCP section. */
  const DHCP_FIELDS: set<string> := {"client_mac", "hostname", "lease_time", "assigned_ip"}

  /** `map_dhcp_event`: the report record of one event. ECS documents keep the DHCP
      fields under `suricata.eve.dhcp` and the sensor under `agent.hostname`; plain
      eve documents keep them under `dhcp` and `host`. */
  function MapDhcpEvent(event: Json, ecs: bool): (r: Json)
    ensures r.JObj? && r.fields.Keys == DHCP_EVENT_KEYS
    ensures r.fields["timestamp"] == Get(event, if ecs then "@timestamp" else "timestamp")
    ensures r.fields["sensor"] == (if ecs then Get(Get(event, "agent"), "hostname") else Get(event, "host"))
    ensures ecs ==> forall k :: k in DHCP_FIELDS ==> r.fields[k] == Get(Get(Get(Get(event, "suricata"), "eve"), "dhcp"), k)
    ensures !ecs ==> forall k :: k in DHCP_FIELDS ==> r.fields[k] == Get(Get(event, "dhcp"), k)
  {
    var dhcp := if ecs then Get(Get(Get(event, "suricata"), "eve"), "dhcp") else Get(event, "dhcp");
    JObj(map[
      "timestamp" := if ecs then Get(event, "@timestamp") else Get(event, "timestamp"),
      "sensor" := if ecs then Get(Get(event, "agent"), "hostname") else Get(event, "host"),
      "client_mac" := Get(dhcp, "client_mac"),
      "hostname" := Get(dhcp, "hostname"),
      "lease_time" := Get(dhcp, "lease_time"),
      "assigned_ip" := Get(dhcp, "assigned_ip")])
  }

  /** An ECS document and a plain eve document carrying the same DHCP section,
      timestamp and sensor produce the same record. */
  lemma MapDhcpEventLayoutsAgree(ecsEvent: Json, eveEvent: Json)
    requires Get(Get(Get(ecsEvent, "suricata"), "eve"), "dhcp") == Get(eveEvent, "dhcp")
    requires Get(ecsEvent, "@timestamp") == Get(eveEvent, "timestamp")
    requires Get(Get(ecsEvent, "agent"), "hostname") == Get(eveEvent, "host")
    ensures MapDhcpEvent(ecsEvent, true) == MapDhcpEvent(eveEvent, false)
  {
  }

  /** Both layouts produce records with the same keys. */
  lemma MapDhcpEventSameKeys(a: Json, b: Json)
    ensures MapDhcpEvent(a, true).fields.Keys == MapDhcpEvent(b, false).fields.Keys
  {
  }

  /** The newest event of a `client_mac` bucket (its `latest` top hit). */
  function LatestSource(bucket: Json): Json {
    Get(At(Get(Get(Get(bucket, "latest"), "hits"), "hits"), 0), "_source")
  }

  /** The ack and request replies: one mapped record per bucket, in order. */
  function LatestEvents(ecs: bool, bs: seq<Json>): (r: seq<Json>)
    ensures |r| == |bs| && forall i :: 0 <= i < |bs| ==> r[i] == MapDhcpEvent(LatestSource(bs[i]), ecs)
  {
    seq(|bs|, i requires 0 <= i < |bs| => MapDhcpEvent(LatestSource(bs[i]), ecs))
  }

  /** The reshaping loop of the ack and request reports: one mapped record per
      `client_mac` bucket, in order. */
  method LatestEventsReport(ecs: bool, response: Json) returns (results: seq<Json>)
    ensures results == LatestEvents(ecs, Buckets(Get(response, "aggregations"), "client_mac"))
  {
    var buckets := Buckets(Get(response, "aggregations"), "client_mac");
    results := [];
    for i := 0 to |buckets|
      invariant |results| == i
      invariant forall k :: 0 <= k < i ==> results[k] == MapDhcpEvent(LatestSource(buckets[k]), ecs)
    {
      var latest := Get(At(Get(Get(Get(buckets[i], "latest"), "hits"), "hits"), 0), "_source");
      results := results + [MapDhcpEvent(latest, ecs)];
    }
  }

  /** One entry of the servers report. */
  function ServerEntry(bucket: Json): Json {
    JObj(map["ip" := Get(bucket, "key"), "count" := Get(bucket, "doc_count")])
  }

  /** The servers reply: one `{ip, count}` per bucket, in order. */
  function ServerEntries(bs: seq<Json>): (r: seq<Json>)
    ensures |r| == |bs| && forall i :: 0 <= i < |bs| ==> r[i] == ServerEntry(bs[i])
  {
    seq(|bs|, i requires 0 <= i < |bs| => ServerEntry(bs[i]))
  }

  /** The reshaping loop of the servers report. */
  method ServersReport(response: Json) returns (results: seq<Json>)
    ensures results == ServerEntries(Buckets(Get(response, "aggregations"), "servers"))
  {
    var buckets := Buckets(Get(response, "aggregations"), "servers");
    results := [];
    for i := 0 to |buckets|
      invariant |results| == i
      invariant forall k :: 0 <= k < i ==> results[k] == ServerEntry(buckets[k])
    {
      results := results + [JObj(map["ip" := Get(buckets[i], "key"), "count" := Get(buckets[i], "doc_count")])];
    }
  }

  /** The string keys of a list of buckets, in order, leaving out `except`. Keys that
      are not strings are skipped. */
  function StringKeys(buckets: seq<Json>, except: Option<string>): (r: seq<string>)
    ensures |r| <= |buckets|
    decreases |buckets|
  {
    if |buckets| == 0 then []
    else
      var key := Get(buckets[|buckets| - 1], "key");
      StringKeys(buckets[..|buckets| - 1], except)
      + (if key.JStr? && (except.None? || key.s != except.value) then [key.s] else [])
  }

  /** A string is listed exactly when some bucket has it as its key and it is not
      the excluded one. */
  lemma {:induction false} StringKeysMembership(buckets: seq<Json>, except: Option<string>, x: string)
    ensures x in StringKeys(buckets, except)
        <==> (exists i :: 0 <= i < |buckets| && Get(buckets[i], "key") == JStr(x)) && except != Some(x)
    decreases |buckets|
  {
    if |buckets| > 0 {
      var init := buckets[..|buckets| - 1];
      StringKeysMembership(init, except, x);
      assert forall i :: 0 <= i < |init| ==> init[i] == buckets[i];
    }
  }

  /** The inner loop of the mac and ip reports. */
  method CollectStringKeys(buckets: seq<Json>, except: Option<string>) returns (keys: seq<string>)
    ensures keys == StringKeys(buckets, except)
  {
    keys := [];
    for j := 0 to |buckets|
      invariant keys == StringKeys(buckets[..j], except)
    {
      assert buckets[..j + 1][..j] == buckets[..j];
      var key := Get(buckets[j], "key");
      if key.JStr? {
        if except.None? || key.s != except.value {
          keys := keys + [key.s];
        }
      }
    }
    assert buckets[..|buckets|] == buckets;
  }

  /** One entry of the mac report: the client MAC and the addresses it was given,
      without the unspecified address. */
  function MacEntry(bucket: Json): Json {
    JObj(map["mac" := Get(bucket, "key"),
             "addrs" := StrArray(StringKeys(Buckets(bucket, "assigned_ip"), Some(UNSPECIFIED_ADDR)))])
  }

  /** The mac reply: one entry per bucket, in order. */
  function MacEntries(bs: seq<Json>): (r: seq<Json>)
    ensures |r| == |bs| && forall i :: 0 <= i < |bs| ==> r[i] == MacEntry(bs[i])
  {
    seq(|bs|, i requires 0 <= i < |bs| => MacEntry(bs[i]))
  }

  /** The reshaping loops of the mac report: one entry per `client_mac` bucket. */
  method MacReport(response: Json) returns (results: seq<Json>)
    ensures results == MacEntries(Buckets(Get(response, "aggregations"), "client_mac"))
  {
    var buckets := Buckets(Get(response, "aggregations"), "client_mac");
    results := [];
    for i := 0 to |buckets|
      invariant |results| == i && forall k :: 0 <= k < i ==> results[k] == MacEntry(buckets[k])
    {
      var addrs := CollectStringKeys(Buckets(buckets[i], "assigned_ip"), Some(UNSPECIFIED_ADDR));
      results := results + [JObj(map["mac" := Get(buckets[i], "key"), "addrs" := StrArray(addrs)])];
    }
  }

  /** No mac-report entry lists the unspecified address. */
  lemma MacEntryExcludesUnspecified(bucket: Json)
    ensures JStr(UNSPECIFIED_ADDR) !in MacEntry(bucket).fields["addrs"].items
  {
    StringKeysMembership(Buckets(bucket, "assigned_ip"), Some(UNSPECIFIED_ADDR), UNSPECIFIED_ADDR);
  }

  /** One entry of the ip report: the address and the MACs it was given to. */
  function IpEntry(bucket: Json): Json {
    JObj(map["ip" := Get(bucket, "key"), "macs" := StrArray(StringKeys(Buckets(bucket, "client_mac"), None))])
  }

  /** The entries of the ip report: one per `assigned_ip` bucket whose key is not the
      unspecified address, in order. */
  function IpEntries(buckets: seq<Json>): (r: seq<Json>)
    ensures |r| <= |buckets|
    decreases |buckets|
  {
    if |buckets| == 0 then []
    else
      var b := buckets[|buckets| - 1];
      IpEntries(buckets[..|buckets| - 1]) + (if Get(b, "key") == JStr(UNSPECIFIED_ADDR) then [] else [IpEntry(b)])
  }

  /** Every ip-report entry comes from a bucket whose key is not the unspecified
      address, and every such bucket yields one. */
  lemma {:induction false} IpEntriesMembership(buckets: seq<Json>, e: Json)
    ensures e in IpEntries(buckets)
        <==> exists i :: 0 <= i < |buckets| && Get(buckets[i], "key") != JStr(UNSPECIFIED_ADDR) && e == IpEntry(buckets[i])
    decreases |buckets|
  {
    if |buckets| > 0 {
      var init := buckets[..|buckets| - 1];
      var last := buckets[|buckets| - 1];
      IpEntriesMembership(init, e);
      assert IpEntries(buckets) == IpEntries(init) + (if Get(last, "key") == JStr(UNSPECIFIED_ADDR) then [] else [IpEntry(last)]);
      if e in IpEntries(buckets) {
        if e in IpEntries(init) {
          var i :| 0 <= i < |init| && Get(init[i], "key") != JStr(UNSPECIFIED_ADDR) && e == IpEntry(init[i]);
          assert buckets[i] == init[i];
        } else {
          assert Get(buckets[|buckets| - 1], "key") != JStr(UNSPECIFIED_ADDR) && e == IpEntry(buckets[|buckets| - 1]);
        }
      }
      if exists i :: 0 <= i < |buckets| && Get(buckets[i], "key") != JStr(UNSPECIFIED_ADDR) && e == IpEntry(buckets[i]) {
        var i :| 0 <= i < |buckets| && Get(buckets[i], "key") != JStr(UNSPECIFIED_ADDR) && e == IpEntry(buckets[i]);
        if i < |init| {
          assert init[i] == buckets[i];
        }
      }
    }
  }

  /** The reshaping loops of the ip report. */
  method IpReport(response: Json) returns (results: seq<Json>)
    ensures results == IpEntries(Buckets(Get(response, "aggregations"), "assigned_ip"))
  {
    var buckets := Buckets(Get(response, "aggregations"), "assigned_ip");
    results := [];
    for i := 0 to |buckets|
      invariant results == IpEntries(buckets[..i])
    {
      assert buckets[..i + 1][..i] == buckets[..i];
      if Get(buckets[i], "key") == JStr(UNSPECIFIED_ADDR) {
        continue;
      }
      var macs := CollectStringKeys(Buckets(buckets[i], "client_mac"), None);
      results := results + [JObj(map["ip" := Get(buckets[i], "key"), "macs" := StrArray(macs)])];
    }
    assert buckets[..|buckets|] == buckets;
  }

  /** The request filters of a report: the base filters and the report's own. */
  function ReportFilters(ecs: bool, kind: ReportKind, p: EventQueryParams): seq<Clause> {
    DhcpBaseFilters(ecs, p) + [ReportFilter(ecs, kind)]
  }

  /** The reply of a report to the search response. */
  function ReportReply(ecs: bool, kind: ReportKind, response: Json): Json {
    var aggs := Get(response, "aggregations");
    JObj(map["data" := JArr(
      match kind
      case Ack => LatestEvents(ecs, Buckets(aggs, "client_mac"))
      case Request => LatestEvents(ecs, Buckets(aggs, "client_mac"))
      case Servers => ServerEntries(Buckets(aggs, "servers"))
      case Mac => MacEntries(Buckets(aggs, "client_mac"))
      case Ip => IpEntries(Buckets(aggs, "assigned_ip")))])
  }

  /** `dhcp_report`: an unknown report name is an error naming it; a known one
      produces that report's reply. */
  method DhcpReportFor(ecs: bool, what: string, response: Json) returns (r: Result<Json, DatastoreError>)
    ensures ReportKindFromName(what).None? ==> r == Err(AnyhowError("No DHCP report for " + what))
    ensures ReportKindFromName(what).Some? ==> r == Ok(ReportReply(ecs, ReportKindFromName(what).value, response))
  {
    var results: seq<Json>;
    if what == "ack" || what == "request" {
      results := LatestEventsReport(ecs, response);
    } else if what == "servers" {
      results := ServersReport(response);
    } else if what == "mac" {
      results := MacReport(response);
    } else if what == "ip" {
      results := IpReport(response);
    } else {
      return Err(AnyhowError("No DHCP report for " + what));
    }
    r := Ok(JObj(map["data" := JArr(results)]));
  }
}
