/** Elasticsearch request construction: field-name mapping, the filter clauses the
    event store puts into its JSON bodies (with the meaning they have for a stored
    document), the alert-group address, the inbox query, the event query, the
    histogram/agg/flow/stats requests and the version-dependent interval names. */
module ElasticQuery {
  import opened Base
  import opened JsonValues
  import opened DatastoreTypes

  // ---------------------------------------------------------------------------
  // Field mapping
  // ---------------------------------------------------------------------------

  /** ECS mode: the logical names that move to a different physical field. */
  const ECS_RENAMES: map<string, string> := map[
    "dest_ip" := "destination.address",
    "dest_port" := "destination.port",
    "dns.rrname" := "dns.question.name",
    "dns.rrtype" := "dns.question.type",
    "dns.rcode" := "dns.response_code",
    "dns.type" := "dns.type",
    "src_ip" := "source.address",
    "src_port" := "source.port"]

  /** Legacy (plain eve) mode: the text fields that are queried through their
      untokenised `.keyword` sibling. */
  const KEYWORD_FIELDS: set<string> := {
    "alert.category", "alert.signature", "app_proto", "dest_ip",
    "dhcp.assigned_ip", "dhcp.client_mac", "dns.rrname", "dns.rrtype",
    "dns.rcode", "dns.rdata", "host", "src_ip",
    "ssh.client.software_version", "ssh.server.software_version",
    "traffic.id", "traffic.label"}

  /** `EventStore::map_field`: the physical field for a logical field name. In ECS
      mode a renamed name takes its ECS field, a name already in the `suricata`
      namespace is kept and any other moves under `suricata.eve.`; in legacy mode
      the keyword fields gain a `.keyword` suffix and the rest are kept. */
  function MapField(ecs: bool, name: string): (r: string)
    ensures !ecs ==> r == name || r == name + ".keyword"
    ensures !ecs ==> (r == name + ".keyword" <==> name in KEYWORD_FIELDS)
    ensures ecs && name in ECS_RENAMES ==> r == ECS_RENAMES[name]
    ensures ecs && name !in ECS_RENAMES ==> StartsWith(r, "suricata")
    ensures ecs && name !in ECS_RENAMES && StartsWith(name, "suricata") ==> r == name
    ensures ecs && name !in ECS_RENAMES && !StartsWith(name, "suricata") ==> r == "suricata.eve." + name
  {
    if ecs then
      if name in ECS_RENAMES then ECS_RENAMES[name]
      else if StartsWith(name, "suricata") then name
      else "suricata.eve." + name
    else if name in KEYWORD_FIELDS then name + ".keyword"
    else name
  }

  /** Eight logical names are renamed in ECS mode. */
  lemma RenameTableSize()
    ensures |ECS_RENAMES| == 8
  {
    assert "dns.rrtype"[6] != "dns.rrname"[6];
    assert "dns.rcode"[1] != "dest_port"[1];
    assert "src_port"[0] != "dns.type"[0];
    assert ECS_RENAMES.Keys == {"dest_ip", "dest_port", "dns.rrname", "dns.rrtype", "dns.rcode", "dns.type", "src_ip", "src_port"};
  }

  /** Mapping is idempotent in ECS mode for every name outside the rename table
      whose mapped form is not renamed either: a mapped field maps to itself. */
  lemma MapFieldEcsIdempotent(name: string)
    requires name !in ECS_RENAMES
    requires MapField(true, name) !in ECS_RENAMES
    ensures MapField(true, MapField(true, name)) == MapField(true, name)
  {
  }

  /** The physical fields of the alert-group address in both modes. */
  lemma AlertGroupFields()
    ensures MapField(true, "event_type") == "suricata.eve.event_type"
    ensures MapField(true, "src_ip") == "source.address"
    ensures MapField(true, "dest_ip") == "destination.address"
    ensures MapField(true, "alert.signature_id") == "suricata.eve.alert.signature_id"
    ensures MapField(false, "event_type") == "event_type"
    ensures MapField(false, "src_ip") == "src_ip.keyword"
    ensures MapField(false, "dest_ip") == "dest_ip.keyword"
    ensures MapField(false, "alert.signature_id") == "alert.signature_id"
  {
    EcsGroupFields();
    LegacyGroupFields();
  }

  /** The ECS half of the alert-group fields. */
  lemma EcsGroupFields()
    ensures MapField(true, "event_type") == "suricata.eve.event_type"
    ensures MapField(true, "src_ip") == "source.address"
    ensures MapField(true, "dest_ip") == "destination.address"
    ensures MapField(true, "alert.signature_id") == "suricata.eve.alert.signature_id"
  {
    assert "event_type"[0] == 'e';
    assert "alert.signature_id"[0] == 'a';
  }

  /** The legacy half of the alert-group fields. */
  lemma LegacyGroupFields()
    ensures MapField(false, "event_type") == "event_type"
    ensures MapField(false, "src_ip") == "src_ip.keyword"
    ensures MapField(false, "dest_ip") == "dest_ip.keyword"
    ensures MapField(false, "alert.signature_id") == "alert.signature_id"
  {
    assert "event_type"[0] == 'e';
    assert "alert.signature_id"[0] == 'a';
  }

  // ---------------------------------------------------------------------------
  // Documents and filter clauses
  // ---------------------------------------------------------------------------

  /** The field holding a document's tags, and the one naming its identifier. */
  const TAGS_FIELD: string := "tags"
  const ID_FIELD: string := "_id"
  const TIMESTAMP_FIELD: string := "@timestamp"

  /** The workflow tags stored on documents. */
  const TAG_ARCHIVED: string := "evebox.archived"
  const TAG_ESCALATED: string := "evebox.escalated"
  const TAGS_ARCHIVED: seq<string> := [TAG_ARCHIVED, "archived"]
  const TAGS_ESCALATED: seq<string> := [TAG_ESCALATED, "escalated"]

  /** A stored event: its identifier, its (flattened) fields keyed by physical field
      name, its `tags` list and its `evebox.history` list (either may be missing). */
  datatype Doc = Doc(
    id: string,
    fields: map<string, Json>,
    tags: Option<seq<string>>,
    history: Option<seq<HistoryEntry>>)

  /** The clauses the event store writes into a `bool` query: `exists`, `term`,
      `range` (bounds in nanoseconds) and `query_string` for free text. */
  datatype Clause =
    | Exists(field: string)
    | Term(field: string, value: Json)
    | Range(field: string, gte: Option<int>, lte: Option<int>)
    | QueryString(query: string)

  /** A `bool` query with `filter` and `must_not` lists. */
  datatype Query = Query(filter: seq<Clause>, mustNot: seq<Clause>)

  /** Clauses whose meaning this model states; free-text matching belongs to the
      search engine's analyser. */
  predicate Structured(c: Clause) {
    !c.QueryString?
  }

  predicate StructuredQuery(q: Query) {
    (forall c :: c in q.filter ==> Structured(c)) && (forall c :: c in q.mustNot ==> Structured(c))
  }

  predicate FieldIs(d: Doc, field: string, v: Json) {
    field in d.fields && d.fields[field] == v
  }

  /** Whether a document satisfies one clause. A `term` on `_id` compares the
      identifier and one on `tags` asks for membership in the tag list. */
  predicate ClauseMatches(d: Doc, c: Clause)
    requires Structured(c)
  {
    match c
    case Exists(f) => f in d.fields && d.fields[f] != JNull
    case Term(f, v) =>
      if f == ID_FIELD then v == JStr(d.id)
      else if f == TAGS_FIELD then v.JStr? && d.tags.Some? && v.s in d.tags.value
      else FieldIs(d, f, v)
    case Range(f, gte, lte) =>
      f in d.fields && d.fields[f].JNum?
      && (gte.Some? ==> gte.value <= d.fields[f].n)
      && (lte.Some? ==> d.fields[f].n <= lte.value)
  }

  /** Every filter clause holds and no must-not clause does. */
  predicate Matches(d: Doc, q: Query)
    requires StructuredQuery(q)
  {
    (forall c :: c in q.filter ==> ClauseMatches(d, c))
    && (forall c :: c in q.mustNot ==> !ClauseMatches(d, c))
  }

  predicate HasTag(d: Doc, tag: string) {
    d.tags.Some? && tag in d.tags.value
  }

  /** `{"term": {"tags": t}}` for each tag, in order. */
  function TagTerms(tags: seq<string>): (r: seq<Clause>)
    ensures |r| == |tags|
    ensures forall i :: 0 <= i < |tags| ==> r[i] == Term(TAGS_FIELD, JStr(tags[i]))
  {
    seq(|tags|, i requires 0 <= i < |tags| => Term(TAGS_FIELD, JStr(tags[i])))
  }

  /** A document fails a must-not list of tag terms exactly when it carries one of
      the tags. */
  lemma TagTermsMeaning(d: Doc, tags: seq<string>)
    ensures (exists c :: c in TagTerms(tags) && ClauseMatches(d, c)) <==> (exists t :: t in tags && HasTag(d, t))
  {
    var terms := TagTerms(tags);
    if exists t :: t in tags && HasTag(d, t) {
      var t :| t in tags && HasTag(d, t);
      var i :| 0 <= i < |tags| && tags[i] == t;
      assert terms[i] in terms && ClauseMatches(d, terms[i]);
    }
    if exists c :: c in terms && ClauseMatches(d, c) {
      var c :| c in terms && ClauseMatches(d, c);
      var i :| 0 <= i < |terms| && terms[i] == c;
      assert tags[i] in tags && HasTag(d, tags[i]);
    }
  }

  // ---------------------------------------------------------------------------
  // Alert-group and single-event addressing
  // ---------------------------------------------------------------------------

  /** `build_alert_group_filter`: six clauses, every field name passing through
      `map_field` except the timestamp. */
  function AlertGroupFilter(ecs: bool, spec: AlertGroupSpec): (r: seq<Clause>)
    ensures |r| == 6
    ensures forall c :: c in r ==> Structured(c)
  {
    [ Exists(MapField(ecs, "event_type")),
      Term(MapField(ecs, "event_type"), JStr("alert")),
      Range(TIMESTAMP_FIELD, Some(spec.minTimestamp), Some(spec.maxTimestamp)),
      Term(MapField(ecs, "src_ip"), JStr(spec.srcIp)),
      Term(MapField(ecs, "dest_ip"), JStr(spec.destIp)),
      Term(MapField(ecs, "alert.signature_id"), JNum(spec.signatureId)) ]
  }

  /** Membership of an alert group, stated on the document: an alert carrying the
      group's signature, source and destination, timestamped inside the window. */
  predicate InAlertGroup(d: Doc, ecs: bool, spec: AlertGroupSpec) {
    && FieldIs(d, MapField(ecs, "event_type"), JStr("alert"))
    && FieldIs(d, MapField(ecs, "src_ip"), JStr(spec.srcIp))
    && FieldIs(d, MapField(ecs, "dest_ip"), JStr(spec.destIp))
    && FieldIs(d, MapField(ecs, "alert.signature_id"), JNum(spec.signatureId))
    && TIMESTAMP_FIELD in d.fields && d.fields[TIMESTAMP_FIELD].JNum?
    && spec.minTimestamp <= d.fields[TIMESTAMP_FIELD].n <= spec.maxTimestamp
  }

  /** A document satisfies the alert-group filter exactly when it belongs to the
      group. */
  lemma AlertGroupFilterMeaning(d: Doc, ecs: bool, spec: AlertGroupSpec)
    ensures (forall c :: c in AlertGroupFilter(ecs, spec) ==> ClauseMatches(d, c)) <==> InAlertGroup(d, ecs, spec)
  {
    var f := AlertGroupFilter(ecs, spec);
    AlertGroupFields();
    if forall c :: c in f ==> ClauseMatches(d, c) {
      assert ClauseMatches(d, f[1]) && ClauseMatches(d, f[2]) && ClauseMatches(d, f[3]);
      assert ClauseMatches(d, f[4]) && ClauseMatches(d, f[5]);
    }
  }

  /** The query of the single-event operations: `{"term": {"_id": id}}`. */
  function ByIdQuery(id: string): (q: Query)
    ensures StructuredQuery(q)
  {
    Query([Term(ID_FIELD, JStr(id))], [])
  }

  /** Only the document with that identifier matches the by-id query. */
  lemma ByIdQueryMeaning(d: Doc, id: string)
    ensures Matches(d, ByIdQuery(id)) <==> d.id == id
  {
    assert ByIdQuery(id).filter[0] in ByIdQuery(id).filter;
  }

  /** `add_tags_by_alert_group`: the group filter, excluding documents that already
      carry any of the tags. */
  function AddByGroupQuery(ecs: bool, spec: AlertGroupSpec, tags: seq<string>): (q: Query)
    ensures StructuredQuery(q)
  {
    Query(AlertGroupFilter(ecs, spec), TagTerms(tags))
  }

  /** `remove_tags_by_alert_group`: the group filter plus a term for each tag. */
  function RemoveByGroupQuery(ecs: bool, spec: AlertGroupSpec, tags: seq<string>): (q: Query)
    ensures StructuredQuery(q)
  {
    Query(AlertGroupFilter(ecs, spec) + TagTerms(tags), [])
  }

  /** Add-by-group reaches the group members that lack every one of the tags. */
  lemma AddByGroupQueryMeaning(d: Doc, ecs: bool, spec: AlertGroupSpec, tags: seq<string>)
    ensures Matches(d, AddByGroupQuery(ecs, spec, tags))
        <==> InAlertGroup(d, ecs, spec) && forall t :: t in tags ==> !HasTag(d, t)
  {
    AlertGroupFilterMeaning(d, ecs, spec);
    TagTermsMeaning(d, tags);
  }

  /** Remove-by-group reaches the group members that carry every one of the tags. */
  lemma RemoveByGroupQueryMeaning(d: Doc, ecs: bool, spec: AlertGroupSpec, tags: seq<string>)
    ensures Matches(d, RemoveByGroupQuery(ecs, spec, tags))
        <==> InAlertGroup(d, ecs, spec) && forall t :: t in tags ==> HasTag(d, t)
  {
    var q := RemoveByGroupQuery(ecs, spec, tags);
    var g := AlertGroupFilter(ecs, spec);
    var terms := TagTerms(tags);
    AlertGroupFilterMeaning(d, ecs, spec);
    assert forall c :: c in q.filter <==> c in g || c in terms;
    if forall c :: c in q.filter ==> ClauseMatches(d, c) {
      forall t | t in tags ensures HasTag(d, t) {
        var i :| 0 <= i < |tags| && tags[i] == t;
        assert terms[i] in terms;
      }
    }
    if InAlertGroup(d, ecs, spec) && forall t :: t in tags ==> HasTag(d, t) {
      forall c | c in terms ensures ClauseMatches(d, c) {
        var i :| 0 <= i < |terms| && terms[i] == c;
        assert tags[i] in tags;
      }
    }
  }

  // ---------------------------------------------------------------------------
  // Query strings
  // ---------------------------------------------------------------------------

  /** An element of a parsed search string: `key:value` or free text. */
  datatype Element = KeyVal(key: string, val: string) | Text(text: string)

  /** `searchquery::parse`, which is not part of this model: the elements of a query
      string, or nothing when it does not parse. */
  type SearchParser = string -> Option<seq<Element>>

  /** The clause for one element: a term on the mapped key, or a `query_string`. */
  function ElementClause(ecs: bool, e: Element): Clause {
    match e
    case KeyVal(k, v) => Term(MapField(ecs, k), JStr(v))
    case Text(v) => QueryString(v)
  }

  /** The filters a query string contributes: one per parsed element, in order; none
      when the parser fails. */
  function QueryFilters(ecs: bool, parse: SearchParser, query: string): (r: seq<Clause>)
    ensures parse(query).None? ==> r == []
    ensures parse(query).Some? ==> |r| == |parse(query).value|
    ensures parse(query).Some? ==> forall i :: 0 <= i < |r| ==> r[i] == ElementClause(ecs, parse(query).value[i])
  {
    match parse(query)
    case None => []
    case Some(els) => seq(|els|, i requires 0 <= i < |els| => ElementClause(ecs, els[i]))
  }

  /** `query_string_to_filters`: the loop over the parsed elements. */
  method QueryStringToFilters(ecs: bool, parse: SearchParser, query: string) returns (filters: seq<Clause>)
    ensures filters == QueryFilters(ecs, parse, query)
  {
    filters := [];
    match parse(query) {
      case None =>
      case Some(elements) =>
        for i := 0 to |elements|
          invariant |filters| == i
          invariant forall k :: 0 <= k < i ==> filters[k] == ElementClause(ecs, elements[k])
        {
          match elements[i] {
            case KeyVal(key, val) =>
              filters := filters + [Term(MapField(ecs, key), JStr(val))];
            case Text(val) =>
              filters := filters + [QueryString(val)];
          }
        }
    }
  }

  // ---------------------------------------------------------------------------
  // The inbox (alert listing) query
  // ---------------------------------------------------------------------------

  /** Where one requested tag goes in the inbox query. */
  datatype TagPlacement = InFilter(clause: Clause) | InMustNot(clause: Clause)

  /** The tag a negated request excludes: `-archived` is rewritten to the stored
      archive tag, any other `-x` excludes `x` as written. */
  function NegatedTag(rest: string): string {
    if rest == "archived" then TAG_ARCHIVED else rest
  }

  /** The tag a positive request requires: `escalated` is rewritten to the stored
      escalation tag, any other tag is required as written. */
  function RequiredTag(tag: string): string {
    if tag == "escalated" then TAG_ESCALATED else tag
  }

  function InboxTagPlacement(tag: string): TagPlacement {
    if StartsWith(tag, "-") then InMustNot(Term(TAGS_FIELD, JStr(NegatedTag(tag[1..]))))
    else InFilter(Term(TAGS_FIELD, JStr(RequiredTag(tag))))
  }

  /** The filter clauses contributed by the requested tags, in order. */
  function InboxTagFilters(tags: seq<string>): seq<Clause>
    decreases |tags|
  {
    if |tags| == 0 then []
    else
      var p := InboxTagPlacement(tags[|tags| - 1]);
      InboxTagFilters(tags[..|tags| - 1]) + (if p.InFilter? then [p.clause] else [])
  }

  /** The must-not clauses contributed by the requested tags, in order. */
  function InboxTagMustNot(tags: seq<string>): seq<Clause>
    decreases |tags|
  {
    if |tags| == 0 then []
    else
      var p := InboxTagPlacement(tags[|tags| - 1]);
      InboxTagMustNot(tags[..|tags| - 1]) + (if p.InMustNot? then [p.clause] else [])
  }

  /** Every requested tag lands in exactly one of the two lists. */
  lemma {:induction false} InboxTagsPartition(tags: seq<string>)
    ensures |InboxTagFilters(tags)| + |InboxTagMustNot(tags)| == |tags|
    decreases |tags|
  {
    if |tags| > 0 {
      InboxTagsPartition(tags[..|tags| - 1]);
    }
  }

  /** The must-not list excludes exactly the tags requested with a leading `-`,
      after the archive rewrite. */
  lemma {:induction false} InboxMustNotMeaning(tags: seq<string>, x: string)
    ensures Term(TAGS_FIELD, JStr(x)) in InboxTagMustNot(tags)
        <==> exists i :: 0 <= i < |tags| && StartsWith(tags[i], "-") && NegatedTag(tags[i][1..]) == x
    decreases |tags|
  {
    if |tags| > 0 {
      var init := tags[..|tags| - 1];
      InboxMustNotMeaning(init, x);
      assert forall i :: 0 <= i < |init| ==> init[i] == tags[i];
    }
  }

  /** The filter list requires exactly the tags requested without a leading `-`,
      after the escalation rewrite. */
  lemma {:induction false} InboxFilterMeaning(tags: seq<string>, x: string)
    ensures Term(TAGS_FIELD, JStr(x)) in InboxTagFilters(tags)
        <==> exists i :: 0 <= i < |tags| && !StartsWith(tags[i], "-") && RequiredTag(tags[i]) == x
    decreases |tags|
  {
    if |tags| > 0 {
      var init := tags[..|tags| - 1];
      InboxFilterMeaning(init, x);
      assert forall i :: 0 <= i < |init| ==> init[i] == tags[i];
    }
  }

  /** The rewrites as the inbox uses them: `-archived` and `escalated` are
      rewritten to the stored tags, `-escalated` is not. */
  lemma InboxTagExamples()
    ensures InboxTagMustNot(["-archived"]) == [Term(TAGS_FIELD, JStr(TAG_ARCHIVED))]
    ensures InboxTagFilters(["escalated"]) == [Term(TAGS_FIELD, JStr(TAG_ESCALATED))]
    ensures InboxTagMustNot(["-escalated"]) == [Term(TAGS_FIELD, JStr("escalated"))]
    ensures InboxTagFilters(["-escalated"]) == []
  {
    assert ["-archived"][..0] == [] && ["escalated"][..0] == [] && ["-escalated"][..0] == [];
    assert "-archived"[1..] == "archived";
    assert "-escalated"[1..] == "escalated";
    assert "escalated"[0] == 'e';
    assert InboxTagPlacement("-archived") == InMustNot(Term(TAGS_FIELD, JStr(TAG_ARCHIVED)));
    assert InboxTagPlacement("escalated") == InFilter(Term(TAGS_FIELD, JStr(TAG_ESCALATED)));
    assert "escalated" != "archived";
    assert InboxTagPlacement("-escalated") == InMustNot(Term(TAGS_FIELD, JStr("escalated")));
  }

  /** A `top_hits` sub-aggregation: how many hits, ordered by which field and in
      which direction. */
  datatype TopHits = TopHits(size: nat, sortBy: string, order: string)

  /** The inbox request: the bool query, the top-level sort, the three nested
      `terms` aggregations (field and size) by signature, source and destination,
      and the destination level's sub-aggregations: the `escalated` filter and the
      `newest` and `oldest` single hits. */
  datatype InboxRequest = InboxRequest(
    query: Query,
    sortBy: string,
    order: string,
    groupBy: seq<(string, nat)>,
    escalated: Clause,
    newest: TopHits,
    oldest: TopHits)

  /** The `escalated` sub-aggregation's filter: the stored escalation tag. */
  const INBOX_ESCALATED_FILTER: Clause := Term(TAGS_FIELD, JStr(TAG_ESCALATED))

  /** A destination bucket's `escalated` count covers exactly the documents that
      carry the stored escalation tag; the plain word `escalated` alone does not
      count. */
  lemma InboxEscalatedMeaning(d: Doc)
    ensures ClauseMatches(d, INBOX_ESCALATED_FILTER) <==> HasTag(d, TAG_ESCALATED)
    ensures d.tags == Some(["escalated"]) ==> !ClauseMatches(d, INBOX_ESCALATED_FILTER)
  {
    if d.tags == Some(["escalated"]) {
      assert TAG_ESCALATED != "escalated" by {
        assert |TAG_ESCALATED| != |"escalated"|;
      }
    }
  }

  /** The inbox filters before the tags: always an alert, then the optional time
      bound, then the query-string filters. */
  function InboxBaseFilters(ecs: bool, parse: SearchParser, options: AlertQueryOptions): seq<Clause> {
    [Exists(MapField(ecs, "event_type")), Term(MapField(ecs, "event_type"), JStr("alert"))]
    + (if options.timestampGte.Some? then [Range(TIMESTAMP_FIELD, Some(options.timestampGte.value), None)] else [])
    + (if options.queryString.Some? then QueryFilters(ecs, parse, options.queryString.value) else [])
  }

  /** The loop of `build_inbox_query` over the requested tags: `-archived` excludes
      the stored archive tag, any other `-x` excludes `x`, `escalated` requires the
      stored escalation tag and any other tag is required as written. */
  method SplitInboxTags(tags: seq<string>) returns (filters: seq<Clause>, mustNot: seq<Clause>)
    ensures filters == InboxTagFilters(tags)
    ensures mustNot == InboxTagMustNot(tags)
  {
    filters, mustNot := [], [];
    for i := 0 to |tags|
      invariant filters == InboxTagFilters(tags[..i])
      invariant mustNot == InboxTagMustNot(tags[..i])
    {
      assert tags[..i + 1][..i] == tags[..i] && tags[..i + 1][i] == tags[i];
      var tag := tags[i];
      if StartsWith(tag, "-") {
        var rest := tag[1..];
        if rest == "archived" {
          mustNot := mustNot + [Term(TAGS_FIELD, JStr(TAG_ARCHIVED))];
        } else {
          mustNot := mustNot + [Term(TAGS_FIELD, JStr(rest))];
        }
      } else if tag == "escalated" {
        filters := filters + [Term(TAGS_FIELD, JStr(TAG_ESCALATED))];
      } else {
        filters := filters + [Term(TAGS_FIELD, JStr(tag))];
      }
    }
    assert tags[..|tags|] == tags;
  }

  /** `build_inbox_query` */
  method BuildInboxQuery(ecs: bool, parse: SearchParser, options: AlertQueryOptions) returns (r: InboxRequest)
    ensures r.query.filter == InboxBaseFilters(ecs, parse, options) + InboxTagFilters(options.tags)
    ensures r.query.mustNot == InboxTagMustNot(options.tags)
    ensures |r.query.filter| >= 2
    ensures r.query.filter[0] == Exists(MapField(ecs, "event_type"))
    ensures r.query.filter[1] == Term(MapField(ecs, "event_type"), JStr("alert"))
    ensures r.groupBy == [(MapField(ecs, "alert.signature_id"), 2000), (MapField(ecs, "src_ip"), 1000), (MapField(ecs, "dest_ip"), 500)]
    ensures r.sortBy == TIMESTAMP_FIELD && r.order == "desc"
    ensures r.escalated == INBOX_ESCALATED_FILTER
    ensures r.newest == TopHits(1, TIMESTAMP_FIELD, "desc")
    ensures r.oldest == TopHits(1, TIMESTAMP_FIELD, "asc")
  {
    var filters := [Exists(MapField(ecs, "event_type")), Term(MapField(ecs, "event_type"), JStr("alert"))];
    if options.timestampGte.Some? {
      filters := filters + [Range(TIMESTAMP_FIELD, Some(options.timestampGte.value), None)];
    }
    if options.queryString.Some? {
      var more := QueryStringToFilters(ecs, parse, options.queryString.value);
      filters := filters + more;
    }
    assert filters == InboxBaseFilters(ecs, parse, options);
    var tagFilters, mustNot := SplitInboxTags(options.tags);
    filters := filters + tagFilters;
    r := InboxRequest(Query(filters, mustNot), TIMESTAMP_FIELD, "desc",
      [(MapField(ecs, "alert.signature_id"), 2000), (MapField(ecs, "src_ip"), 1000), (MapField(ecs, "dest_ip"), 500)],
      Term(TAGS_FIELD, JStr(TAG_ESCALATED)),
      TopHits(1, TIMESTAMP_FIELD, "desc"),
      TopHits(1, TIMESTAMP_FIELD, "asc"));
  }

  // ---------------------------------------------------------------------------
  // The event query
  // ---------------------------------------------------------------------------

  /** The body of an event search: filters, one sort key and order, and a size. */
  datatype EventSearch = EventSearch(filter: seq<Clause>, sortBy: string, order: string, size: nat)

  /** The event-query filters: the event type must exist, then optional type,
      query-string filters, lower and upper time bounds. */
  function EventQueryFilters(ecs: bool, parse: SearchParser, p: EventQueryParams): seq<Clause> {
    [Exists(MapField(ecs, "event_type"))]
    + (if p.eventType.Some? then [Term(MapField(ecs, "event_type"), JStr(p.eventType.value))] else [])
    + (if p.queryString.Some? then QueryFilters(ecs, parse, p.queryString.value) else [])
    + (if p.minTimestamp.Some? then [Range(TIMESTAMP_FIELD, Some(p.minTimestamp.value), None)] else [])
    + (if p.maxTimestamp.Some? then [Range(TIMESTAMP_FIELD, None, Some(p.maxTimestamp.value))] else [])
  }

  /** `event_query`'s request: the filters above, sorted by `@timestamp` descending
      and 500 hits unless the caller says otherwise. */
  function EventQueryRequest(ecs: bool, parse: SearchParser, p: EventQueryParams): (r: EventSearch)
    ensures r.filter == EventQueryFilters(ecs, parse, p)
    ensures r.sortBy == (if p.sortBy.Some? then p.sortBy.value else TIMESTAMP_FIELD)
    ensures r.order == (if p.order.Some? then p.order.value else "desc")
    ensures r.size == (if p.size.Some? then p.size.value else 500)
  {
    EventSearch(EventQueryFilters(ecs, parse, p), p.sortBy.GetOr(TIMESTAMP_FIELD), p.order.GetOr("desc"), p.size.GetOr(500))
  }

  /** Every document that satisfies the structured event-query filters has the
      requested event type and a timestamp inside the requested bounds. */
  lemma EventQueryScope(ecs: bool, parse: SearchParser, p: EventQueryParams, d: Doc)
    requires forall c :: c in EventQueryFilters(ecs, parse, p) && Structured(c) ==> ClauseMatches(d, c)
    ensures p.eventType.Some? ==> FieldIs(d, MapField(ecs, "event_type"), JStr(p.eventType.value))
    ensures p.minTimestamp.Some? ==>
      TIMESTAMP_FIELD in d.fields && d.fields[TIMESTAMP_FIELD].JNum? && p.minTimestamp.value <= d.fields[TIMESTAMP_FIELD].n
    ensures p.maxTimestamp.Some? ==>
      TIMESTAMP_FIELD in d.fields && d.fields[TIMESTAMP_FIELD].JNum? && d.fields[TIMESTAMP_FIELD].n <= p.maxTimestamp.value
  {
    var f := EventQueryFilters(ecs, parse, p);
    if p.eventType.Some? {
      var c := Term(MapField(ecs, "event_type"), JStr(p.eventType.value));
      assert c in f;
      AlertGroupFields();
      assert ClauseMatches(d, c);
    }
    if p.minTimestamp.Some? {
      assert Range(TIMESTAMP_FIELD, Some(p.minTimestamp.value), None) in f;
    }
    if p.maxTimestamp.Some? {
      assert Range(TIMESTAMP_FIELD, None, Some(p.maxTimestamp.value)) in f;
    }
  }

  // ---------------------------------------------------------------------------
  // Intervals and engine versions
  // ---------------------------------------------------------------------------

  /** The histogram's interval for the requested granularity (an hour by default). */
  function HistogramIntervalValue(i: Option<HistogramInterval>): string {
    match i
    case Some(Minute) => "1m"
    case Some(Hour) => "1h"
    case Some(Day) => "1d"
    case None => "1h"
  }

  /** The engine's major version, taken as 6 when asking for it failed. */
  function MajorVersionOrDefault(version: Option<int>): int {
    if version.Some? then version.value else 6
  }

  /** The date-histogram parameter the histogram uses: `interval` before version 7,
      `calendar_interval` from 7 on. */
  function HistogramIntervalField(major: int): (r: string)
    ensures r == "interval" <==> major < 7
    ensures r == "interval" || r == "calendar_interval"
  {
    if major < 7 then "interval" else "calendar_interval"
  }

  /** The date-histogram parameter the stats queries use: `interval` before
      version 7, `fixed_interval` from 7 on. */
  function StatsIntervalField(major: int): (r: string)
    ensures r == "interval" <==> major < 7
    ensures r == "interval" || r == "fixed_interval"
    ensures r == HistogramIntervalField(major) <==> major < 7
  {
    if major < 7 then "interval" else "fixed_interval"
  }

  /** A histogram request made when the version lookup failed uses the pre-7 name. */
  lemma HistogramVersionDefault()
    ensures HistogramIntervalField(MajorVersionOrDefault(None)) == "interval"
  {
  }

  const NANOS_PER_SECOND: int := 1_000_000_000

  /** `Duration::whole_seconds` and `Duration::whole_minutes` on a duration in
      nanoseconds: both truncate toward zero. */
  function WholeSeconds(nanos: int): int {
    TruncDiv(nanos, NANOS_PER_SECOND)
  }

  function WholeMinutes(nanos: int): int {
    TruncDiv(WholeSeconds(nanos), 60)
  }

  /** `elastic_format_interval`: whole seconds with an `s` below one minute,
      otherwise whole minutes with an `m`. */
  function ElasticFormatInterval(nanos: int): string {
    if nanos < 60 * NANOS_PER_SECOND then IntToDecimal(WholeSeconds(nanos)) + "s"
    else IntToDecimal(WholeMinutes(nanos)) + "m"
  }

  /** The formatted interval reads back as the truncated count of its unit: seconds
      below one minute, minutes from one minute on. */
  lemma ElasticFormatIntervalMeaning(nanos: int)
    requires I64_MIN <= WholeSeconds(nanos) <= I64_MAX
    ensures var r := ElasticFormatInterval(nanos);
      && |r| >= 2
      && (nanos < 60 * NANOS_PER_SECOND ==> r[|r| - 1] == 's' && ParseI64(r[..|r| - 1]) == Some(WholeSeconds(nanos)))
      && (nanos >= 60 * NANOS_PER_SECOND ==> r[|r| - 1] == 'm' && ParseI64(r[..|r| - 1]) == Some(WholeMinutes(nanos)))
  {
    var r := ElasticFormatInterval(nanos);
    if nanos < 60 * NANOS_PER_SECOND {
      var s := IntToDecimal(WholeSeconds(nanos));
      assert r[..|r| - 1] == s;
      IntDecimalRoundTrip(WholeSeconds(nanos));
    } else {
      var m := IntToDecimal(WholeMinutes(nanos));
      assert r[..|r| - 1] == m;
      IntDecimalRoundTrip(WholeMinutes(nanos));
    }
  }

  /** Examples of the rounding: 90 s is one minute, 1.5 s is one second. */
  lemma ElasticFormatIntervalExamples()
    ensures ElasticFormatInterval(90 * NANOS_PER_SECOND) == "1m"
    ensures ElasticFormatInterval(1_500_000_000) == "1s"
  {
  }

  // ---------------------------------------------------------------------------
  // Histogram, agg, flow histogram and stats requests
  // ---------------------------------------------------------------------------

  /** A `date_histogram` aggregation on `@timestamp`. */
  datatype DateHistogram = DateHistogram(
    intervalField: string,
    interval: string,
    minDocCount: nat,
    boundsMin: Option<int>,
    boundsMax: Option<int>)

  /** The body of `histogram`: a bool query with filter, must-not and should
      lists, and the date histogram. */
  datatype HistogramRequest = HistogramRequest(
    filter: seq<Clause>,
    mustNot: seq<Clause>,
    should: seq<Clause>,
    minimumShouldMatch: nat,
    histogram: DateHistogram)

  /** The `should` pair an address filter adds (source or destination address). */
  function AddressShould(ecs: bool, address: Option<string>): seq<Clause> {
    if address.Some? then
      [Term(MapField(ecs, "src_ip"), JStr(address.value)), Term(MapField(ecs, "dest_ip"), JStr(address.value))]
    else []
  }

  function HistogramFilters(ecs: bool, parse: SearchParser, p: HistogramParameters): seq<Clause> {
    [Exists(MapField(ecs, "event_type"))]
    + (if p.minTimestamp.Some? then [Range(TIMESTAMP_FIELD, Some(p.minTimestamp.value), None)] else [])
    + (if p.maxTimestamp.Some? then [Range(TIMESTAMP_FIELD, None, Some(p.maxTimestamp.value))] else [])
    + (if p.eventType.Some? then [Term(MapField(ecs, "event_type"), JStr(p.eventType.value))] else [])
    + (if p.dnsType.Some? then [Term(MapField(ecs, "dns.type"), JStr(p.dnsType.value))] else [])
    + (if p.queryString.Some? then QueryFilters(ecs, parse, p.queryString.value) else [])
    + (if !ecs && p.sensorName.Some? && p.sensorName.value != "" then [Term(MapField(ecs, "host"), JStr(p.sensorName.value))] else [])
  }

  /** `histogram`'s request. `version` is the outcome of asking the engine for its
      version (none when that failed). */
  function HistogramRequestFor(ecs: bool, parse: SearchParser, p: HistogramParameters, version: Option<int>): (r: HistogramRequest)
    ensures r.histogram.intervalField == (if MajorVersionOrDefault(version) < 7 then "interval" else "calendar_interval")
    ensures r.histogram.interval == HistogramIntervalValue(p.interval)
    ensures r.histogram.minDocCount == 0
    ensures r.histogram.boundsMin == p.minTimestamp && r.histogram.boundsMax == p.maxTimestamp
    ensures r.mustNot == [Term(MapField(ecs, "event_type"), JStr("stats"))]
    ensures r.minimumShouldMatch == (if p.addressFilter.Some? then 1 else 0)
    ensures |r.should| == 2 * r.minimumShouldMatch
    ensures |r.filter| >= 1 && r.filter[0] == Exists(MapField(ecs, "event_type"))
    ensures r.filter == HistogramFilters(ecs, parse, p)
    ensures p.addressFilter.None? ==> r.should == []
    ensures p.addressFilter.Some? ==> r.should == [Term(MapField(ecs, "src_ip"), JStr(p.addressFilter.value)), Term(MapField(ecs, "dest_ip"), JStr(p.addressFilter.value))]
    ensures !ecs && p.sensorName.Some? && p.sensorName.value != "" ==> Term(MapField(ecs, "host"), JStr(p.sensorName.value)) in r.filter
    ensures Term(MapField(ecs, "host"), JStr(p.sensorName.GetOr(""))) in r.filter ==> !ecs || p.queryString.Some?
  {
    HistogramRequest(
      HistogramFilters(ecs, parse, p),
      [Term(MapField(ecs, "event_type"), JStr("stats"))],
      AddressShould(ecs, p.addressFilter),
      if p.addressFilter.Some? then 1 else 0,
      DateHistogram(HistogramIntervalField(MajorVersionOrDefault(version)), HistogramIntervalValue(p.interval), 0, p.minTimestamp, p.maxTimestamp))
  }

  /** The body of `agg`: filters, should list, and a `terms` aggregation (with a
      `missing` companion) on one mapped field. */
  datatype AggRequest = AggRequest(filter: seq<Clause>, should: seq<Clause>, minimumShouldMatch: nat, field: string, size: nat)

  /** The filters of `agg`: the event type must exist, then the optional type, DNS
      type, lower time bound and query-string filters. */
  function AggFilters(ecs: bool, parse: SearchParser, p: AggParameters): seq<Clause> {
    [Exists(MapField(ecs, "event_type"))]
    + (if p.eventType.Some? then [Term(MapField(ecs, "event_type"), JStr(p.eventType.value))] else [])
    + (if p.dnsType.Some? then [Term(MapField(ecs, "dns.type"), JStr(p.dnsType.value))] else [])
    + (if p.minTimestamp.Some? then [Range(TIMESTAMP_FIELD, Some(p.minTimestamp.value), None)] else [])
    + (if p.queryString.Some? then QueryFilters(ecs, parse, p.queryString.value) else [])
  }

  /** `agg`'s request. */
  function AggRequestFor(ecs: bool, parse: SearchParser, p: AggParameters): (r: AggRequest)
    ensures r.field == MapField(ecs, p.agg) && r.size == p.size
    ensures r.minimumShouldMatch == (if p.addressFilter.Some? then 1 else 0)
    ensures |r.should| == 2 * r.minimumShouldMatch
    ensures |r.filter| >= 1 && r.filter[0] == Exists(MapField(ecs, "event_type"))
    ensures r.filter == AggFilters(ecs, parse, p)
    ensures p.addressFilter.None? ==> r.should == []
    ensures p.addressFilter.Some? ==> r.should == [Term(MapField(ecs, "src_ip"), JStr(p.addressFilter.value)), Term(MapField(ecs, "dest_ip"), JStr(p.addressFilter.value))]
  {
    AggRequest(
      AggFilters(ecs, parse, p),
      AddressShould(ecs, p.addressFilter),
      if p.addressFilter.Some? then 1 else 0,
      MapField(ecs, p.agg),
      p.size)
  }

  /** The body of `flow_histogram`: filters, the caller's interval, and the
      application-protocol sub-aggregation field. */
  datatype FlowHistogramRequest = FlowHistogramRequest(filter: seq<Clause>, interval: Option<string>, appProtoField: string)

  /** The filters of `flow_histogram`: flow events whose type exists, then the
      optional lower time bound and the query-string filters. */
  function FlowHistogramFilters(ecs: bool, parse: SearchParser, p: FlowHistogramParameters): seq<Clause> {
    [Term(MapField(ecs, "event_type"), JStr("flow")), Exists(MapField(ecs, "event_type"))]
    + (if p.mints.Some? then [Range(TIMESTAMP_FIELD, Some(p.mints.value), None)] else [])
    + (if p.queryString.Some? then QueryFilters(ecs, parse, p.queryString.value) else [])
  }

  /** `flow_histogram`'s request: only flow events. */
  function FlowHistogramRequestFor(ecs: bool, parse: SearchParser, p: FlowHistogramParameters): (r: FlowHistogramRequest)
    ensures |r.filter| >= 2
    ensures r.filter[0] == Term(MapField(ecs, "event_type"), JStr("flow"))
    ensures r.filter[1] == Exists(MapField(ecs, "event_type"))
    ensures r.interval == p.interval && r.appProtoField == MapField(ecs, "app_proto")
    ensures r.filter == FlowHistogramFilters(ecs, parse, p)
    ensures p.mints.Some? ==> |r.filter| >= 3 && r.filter[2] == Range(TIMESTAMP_FIELD, Some(p.mints.value), None)
    ensures p.queryString.Some? ==> r.filter[|r.filter| - |QueryFilters(ecs, parse, p.queryString.value)|..] == QueryFilters(ecs, parse, p.queryString.value)
    ensures |r.filter| == 2 + (if p.mints.Some? then 1 else 0) + (if p.queryString.Some? then |QueryFilters(ecs, parse, p.queryString.value)| else 0)
  {
    FlowHistogramRequest(
      FlowHistogramFilters(ecs, parse, p),
      p.interval,
      MapField(ecs, "app_proto"))
  }

  /** Every structured clause of `cs` holds for `d`; free-text clauses are left to
      the search engine. */
  predicate SatisfiesStructured(d: Doc, cs: seq<Clause>) {
    forall c :: c in cs && Structured(c) ==> ClauseMatches(d, c)
  }

  /** The timestamp of `d` lies within the optional bounds. */
  predicate WithinBounds(d: Doc, min: Option<int>, max: Option<int>) {
    (min.Some? || max.Some?) ==>
      && TIMESTAMP_FIELD in d.fields && d.fields[TIMESTAMP_FIELD].JNum?
      && (min.Some? ==> min.value <= d.fields[TIMESTAMP_FIELD].n)
      && (max.Some? ==> d.fields[TIMESTAMP_FIELD].n <= max.value)
  }

  /** The mapped fields the histogram, agg and flow requests filter on are plain
      document fields, never the identifier or the tag list. */
  lemma PlainMappedFields(ecs: bool)
    ensures MapField(ecs, "event_type") != ID_FIELD && MapField(ecs, "event_type") != TAGS_FIELD
    ensures MapField(ecs, "dns.type") != ID_FIELD && MapField(ecs, "dns.type") != TAGS_FIELD
    ensures MapField(ecs, "host") != ID_FIELD && MapField(ecs, "host") != TAGS_FIELD
  {
    assert MapField(ecs, "event_type")[0] != '_' && MapField(ecs, "event_type")[0] != 't';
    assert MapField(ecs, "dns.type")[0] != '_' && MapField(ecs, "dns.type")[0] != 't';
    assert MapField(ecs, "host")[0] != '_' && MapField(ecs, "host")[0] != 't';
  }

  /** What the histogram's structured filters ask of a document. */
  predicate HistogramSelects(ecs: bool, p: HistogramParameters, d: Doc) {
    && ClauseMatches(d, Exists(MapField(ecs, "event_type")))
    && WithinBounds(d, p.minTimestamp, p.maxTimestamp)
    && (p.eventType.Some? ==> FieldIs(d, MapField(ecs, "event_type"), JStr(p.eventType.value)))
    && (p.dnsType.Some? ==> FieldIs(d, MapField(ecs, "dns.type"), JStr(p.dnsType.value)))
    && (!ecs && p.sensorName.Some? && p.sensorName.value != "" ==> FieldIs(d, MapField(ecs, "host"), JStr(p.sensorName.value)))
  }

  /** A document passing the histogram's structured filters has the event type,
      lies within the bounds and has the requested type, DNS type and (legacy
      mode) sensor; without a query string the converse holds too. */
  lemma HistogramScope(ecs: bool, parse: SearchParser, p: HistogramParameters, d: Doc)
    ensures SatisfiesStructured(d, HistogramFilters(ecs, parse, p)) ==> HistogramSelects(ecs, p, d)
    ensures p.queryString.None? && HistogramSelects(ecs, p, d) ==> SatisfiesStructured(d, HistogramFilters(ecs, parse, p))
  {
    PlainMappedFields(ecs);
    if SatisfiesStructured(d, HistogramFilters(ecs, parse, p)) {
      HistogramScopeForward(ecs, parse, p, d);
    }
    if p.queryString.None? && HistogramSelects(ecs, p, d) {
      HistogramScopeConverse(ecs, parse, p, d);
    }
  }

  /** The first half of `HistogramScope`: each filter clause yields its conjunct. */
  lemma HistogramScopeForward(ecs: bool, parse: SearchParser, p: HistogramParameters, d: Doc)
    requires SatisfiesStructured(d, HistogramFilters(ecs, parse, p))
    ensures HistogramSelects(ecs, p, d)
  {
    var f := HistogramFilters(ecs, parse, p);
    PlainMappedFields(ecs);
    assert Exists(MapField(ecs, "event_type")) in f;
    if p.minTimestamp.Some? {
      assert Range(TIMESTAMP_FIELD, Some(p.minTimestamp.value), None) in f;
    }
    if p.maxTimestamp.Some? {
      assert Range(TIMESTAMP_FIELD, None, Some(p.maxTimestamp.value)) in f;
    }
    if p.eventType.Some? {
      assert Term(MapField(ecs, "event_type"), JStr(p.eventType.value)) in f;
    }
    if p.dnsType.Some? {
      assert Term(MapField(ecs, "dns.type"), JStr(p.dnsType.value)) in f;
    }
    if !ecs && p.sensorName.Some? && p.sensorName.value != "" {
      assert Term(MapField(ecs, "host"), JStr(p.sensorName.value)) in f;
    }
  }

  /** The second half of `HistogramScope`: without a query string every filter
      clause is one of the conjuncts. */
  lemma HistogramScopeConverse(ecs: bool, parse: SearchParser, p: HistogramParameters, d: Doc)
    requires p.queryString.None? && HistogramSelects(ecs, p, d)
    ensures SatisfiesStructured(d, HistogramFilters(ecs, parse, p))
  {
    PlainMappedFields(ecs);
  }

  /** What the agg request's structured filters ask of a document. */
  predicate AggSelects(ecs: bool, p: AggParameters, d: Doc) {
    && ClauseMatches(d, Exists(MapField(ecs, "event_type")))
    && WithinBounds(d, p.minTimestamp, None)
    && (p.eventType.Some? ==> FieldIs(d, MapField(ecs, "event_type"), JStr(p.eventType.value)))
    && (p.dnsType.Some? ==> FieldIs(d, MapField(ecs, "dns.type"), JStr(p.dnsType.value)))
  }

  /** The agg request's structured filters select exactly the documents above
      (one direction whenever a query string adds free-text clauses). */
  lemma AggScope(ecs: bool, parse: SearchParser, p: AggParameters, d: Doc)
    ensures SatisfiesStructured(d, AggFilters(ecs, parse, p)) ==> AggSelects(ecs, p, d)
    ensures p.queryString.None? && AggSelects(ecs, p, d) ==> SatisfiesStructured(d, AggFilters(ecs, parse, p))
  {
    var f := AggFilters(ecs, parse, p);
    PlainMappedFields(ecs);
    if SatisfiesStructured(d, f) {
      assert Exists(MapField(ecs, "event_type")) in f;
      if p.minTimestamp.Some? {
        assert Range(TIMESTAMP_FIELD, Some(p.minTimestamp.value), None) in f;
      }
      if p.eventType.Some? {
        assert Term(MapField(ecs, "event_type"), JStr(p.eventType.value)) in f;
      }
      if p.dnsType.Some? {
        assert Term(MapField(ecs, "dns.type"), JStr(p.dnsType.value)) in f;
      }
    }
  }

  /** The flow histogram's structured filters select flow events after the lower
      bound (and no more when there is no query string). */
  lemma FlowHistogramScope(ecs: bool, parse: SearchParser, p: FlowHistogramParameters, d: Doc)
    ensures SatisfiesStructured(d, FlowHistogramFilters(ecs, parse, p)) ==>
      FieldIs(d, MapField(ecs, "event_type"), JStr("flow")) && WithinBounds(d, p.mints, None)
    ensures p.queryString.None? && FieldIs(d, MapField(ecs, "event_type"), JStr("flow")) && WithinBounds(d, p.mints, None) ==>
      SatisfiesStructured(d, FlowHistogramFilters(ecs, parse, p))
  {
    var f := FlowHistogramFilters(ecs, parse, p);
    PlainMappedFields(ecs);
    if SatisfiesStructured(d, f) {
      assert Term(MapField(ecs, "event_type"), JStr("flow")) in f;
      if p.mints.Some? {
        assert Range(TIMESTAMP_FIELD, Some(p.mints.value), None) in f;
      }
    }
  }

  /** The body of the two stats queries: filters, the interval parameter name and
      value, and the field whose maximum is taken per bucket. */
  datatype StatsRequest = StatsRequest(filter: seq<Clause>, intervalField: string, interval: string, field: string)

  /** `stats_agg`'s request. Its sensor filter uses the literal field `host`. */
  function StatsAggRequest(ecs: bool, p: StatsAggQueryParams, major: int): (r: StatsRequest)
    ensures r.intervalField == StatsIntervalField(major)
    ensures r.interval == ElasticFormatInterval(p.interval)
    ensures r.field == MapField(ecs, p.field)
    ensures |r.filter| >= 2 && r.filter[..2] == [Term(MapField(ecs, "event_type"), JStr("stats")), Range(TIMESTAMP_FIELD, Some(p.startTime), None)]
    ensures |r.filter| == (if p.sensorName.Some? then 3 else 2)
    ensures p.sensorName.Some? ==> r.filter[2] == Term("host", JStr(p.sensorName.value))
  {
    StatsRequest(
      [Term(MapField(ecs, "event_type"), JStr("stats")), Range(TIMESTAMP_FIELD, Some(p.startTime), None)]
      + (if p.sensorName.Some? then [Term("host", JStr(p.sensorName.value))] else []),
      StatsIntervalField(major),
      ElasticFormatInterval(p.interval),
      MapField(ecs, p.field))
  }

  /** `stats_agg_deriv`'s request. Its sensor filter maps `host` through `map_field`. */
  function StatsAggDerivRequest(ecs: bool, p: StatsAggQueryParams, major: int): (r: StatsRequest)
    ensures r.intervalField == StatsIntervalField(major)
    ensures r.interval == ElasticFormatInterval(p.interval)
    ensures r.field == MapField(ecs, p.field)
    ensures |r.filter| >= 2 && r.filter[..2] == [Term(MapField(ecs, "event_type"), JStr("stats")), Range(TIMESTAMP_FIELD, Some(p.startTime), None)]
    ensures |r.filter| == (if p.sensorName.Some? then 3 else 2)
    ensures p.sensorName.Some? ==> r.filter[2] == Term(MapField(ecs, "host"), JStr(p.sensorName.value))
  {
    StatsRequest(
      [Term(MapField(ecs, "event_type"), JStr("stats")), Range(TIMESTAMP_FIELD, Some(p.startTime), None)]
      + (if p.sensorName.Some? then [Term(MapField(ecs, "host"), JStr(p.sensorName.value))] else []),
      StatsIntervalField(major),
      ElasticFormatInterval(p.interval),
      MapField(ecs, p.field))
  }

  /** The two stats requests differ only in the sensor clause: `stats_agg` filters
      on the literal field `host`, the derivative query on the mapped one, which is
      `host.keyword` in legacy mode and `suricata.eve.host` in ECS mode. */
  lemma StatsSensorClauses(ecs: bool, p: StatsAggQueryParams, major: int)
    requires p.sensorName.Some?
    ensures var a := StatsAggRequest(ecs, p, major);
      var b := StatsAggDerivRequest(ecs, p, major);
      && a.filter[..2] == b.filter[..2] && a.intervalField == b.intervalField
      && a.interval == b.interval && a.field == b.field
      && a.filter[2].field == "host"
      && b.filter[2].field == (if ecs then "suricata.eve.host" else "host.keyword")
  {
    assert "host" !in ECS_RENAMES;
    assert !StartsWith("host", "suricata");
  }
}
