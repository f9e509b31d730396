/** The SQLite event store. The `events` table is an array of rows updated in
    place by the workflow UPDATE statements; each row keeps the event JSON and two
    integer flags, `archived` and `escalated`. Reads turn rows into the same
    record shapes the Elasticsearch store produces, materialising the flags as
    tags. */
module SQLiteEventStore {
  import opened Base
  import opened JsonValues
  import opened DatastoreTypes
  import opened ElasticQuery
  import opened SQLiteQuery

  /** A row of the `events` table. The timestamp is in nanoseconds. */
  datatype Row = Row(rowid: int, timestamp: int, source: map<string, Json>, archived: int, escalated: int)

  /** The two workflow columns. */
  datatype Flag = ArchivedFlag | EscalatedFlag

  function FlagOf(r: Row, f: Flag): int {
    match f
    case ArchivedFlag => r.archived
    case EscalatedFlag => r.escalated
  }

  /** `SET <flag> = value` on one row. */
  function WithFlag(r: Row, f: Flag, value: int): (r': Row)
    ensures FlagOf(r', f) == value
    ensures r'.rowid == r.rowid && r'.timestamp == r.timestamp && r'.source == r.source
    ensures f == ArchivedFlag ==> r'.escalated == r.escalated
    ensures f == EscalatedFlag ==> r'.archived == r.archived
  {
    match f
    case ArchivedFlag => r.(archived := value)
    case EscalatedFlag => r.(escalated := value)
  }

  /** `json_extract(source, '$.a.b')` on a row's event. */
  function Extract(source: map<string, Json>, path: seq<string>): Json
    decreases |path|
  {
    if |path| == 0 then JObj(source)
    else if path[0] in source then ExtractFrom(source[path[0]], path[1..])
    else JNull
  }

  function ExtractFrom(v: Json, path: seq<string>): Json
    decreases |path|
  {
    if |path| == 0 then v else ExtractFrom(Get(v, path[0]), path[1..])
  }

  /** The WHERE clause of the alert-group UPDATE statements, without the flag
      guard: an alert with the group's signature, source and destination inside
      the group's time window. */
  predicate InAlertGroup(r: Row, g: AlertGroupSpec) {
    Extract(r.source, ["event_type"]) == JStr("alert")
    && Extract(r.source, ["alert", "signature_id"]) == JNum(g.signatureId)
    && Extract(r.source, ["src_ip"]) == JStr(g.srcIp)
    && Extract(r.source, ["dest_ip"]) == JStr(g.destIp)
    && g.minTimestamp <= r.timestamp <= g.maxTimestamp
  }

  /** Which rows an UPDATE reaches: `WHERE rowid = ?` with the event id bound as
      text (a row is reached when the text reads as its rowid), or an alert
      group whose flag currently has the given value. */
  datatype Where = RowIdText(eventId: string) | GroupWithFlag(group: AlertGroupSpec, flag: Flag, current: int)

  predicate Selects(w: Where, r: Row) {
    match w
    case RowIdText(id) => ParseI64(id) == Some(r.rowid)
    case GroupWithFlag(g, f, current) => InAlertGroup(r, g) && FlagOf(r, f) == current
  }

  /** One row after `UPDATE events SET <flag> = value WHERE w`. */
  function UpdatedRow(r: Row, f: Flag, value: int, w: Where): Row {
    if Selects(w, r) then WithFlag(r, f, value) else r
  }

  /** The table after the UPDATE: selected rows get the new flag value, every
      other row and every other column stays as it was. */
  function UpdatedRows(rows: seq<Row>, f: Flag, value: int, w: Where): (r: seq<Row>)
    ensures |r| == |rows|
    ensures forall i :: 0 <= i < |rows| ==> r[i] == UpdatedRow(rows[i], f, value, w)
    ensures forall i :: 0 <= i < |rows| ==> Selects(w, rows[i]) ==> FlagOf(r[i], f) == value
    ensures forall i :: 0 <= i < |rows| ==> !Selects(w, rows[i]) ==> r[i] == rows[i]
    ensures forall i :: 0 <= i < |rows| ==> r[i].rowid == rows[i].rowid && r[i].source == rows[i].source
  {
    seq(|rows|, i requires 0 <= i < |rows| => UpdatedRow(rows[i], f, value, w))
  }

  /** How many rows an UPDATE reports as changed: every row its WHERE clause
      reaches, whether or not the value differs. */
  function CountSelected(rows: seq<Row>, w: Where): nat
    decreases |rows|
  {
    if |rows| == 0 then 0
    else CountSelected(rows[..|rows| - 1], w) + (if Selects(w, rows[|rows| - 1]) then 1 else 0)
  }

  /** The count is positive exactly when some row is reached. */
  lemma {:induction false} CountSelectedPositive(rows: seq<Row>, w: Where)
    ensures CountSelected(rows, w) > 0 <==> exists i :: 0 <= i < |rows| && Selects(w, rows[i])
    decreases |rows|
  {
    if |rows| > 0 {
      var init := rows[..|rows| - 1];
      CountSelectedPositive(init, w);
      assert forall i :: 0 <= i < |init| ==> init[i] == rows[i];
      if CountSelected(rows, w) == 0 {
        assert forall i :: 0 <= i < |init| ==> !Selects(w, init[i]);
      }
    }
  }

  /** No two rows share a rowid. */
  predicate UniqueRowIds(rows: seq<Row>) {
    forall i, j :: 0 <= i < j < |rows| ==> rows[i].rowid != rows[j].rowid
  }

  /** With distinct rowids, an update by id reaches at most one row. */
  lemma {:induction false} ByIdReachesAtMostOne(rows: seq<Row>, eventId: string)
    requires UniqueRowIds(rows)
    ensures CountSelected(rows, RowIdText(eventId)) <= 1
    decreases |rows|
  {
    if |rows| > 0 {
      var init := rows[..|rows| - 1];
      assert UniqueRowIds(init) by {
        assert forall i :: 0 <= i < |init| ==> init[i] == rows[i];
      }
      ByIdReachesAtMostOne(init, eventId);
      if Selects(RowIdText(eventId), rows[|rows| - 1]) {
        forall i | 0 <= i < |init|
          ensures !Selects(RowIdText(eventId), init[i])
        {
          assert init[i] == rows[i];
        }
        CountSelectedPositive(init, RowIdText(eventId));
      }
    }
  }

  /** Updates never change rowids, so distinct rowids stay distinct. */
  lemma UpdateKeepsRowIds(rows: seq<Row>, f: Flag, value: int, w: Where)
    requires UniqueRowIds(rows)
    ensures UniqueRowIds(UpdatedRows(rows, f, value, w))
  {
  }

  /** An UPDATE that reaches no row leaves the table as it was. */
  lemma UpdateNothingSelected(rows: seq<Row>, f: Flag, value: int, w: Where)
    requires CountSelected(rows, w) == 0
    ensures UpdatedRows(rows, f, value, w) == rows
  {
    CountSelectedPositive(rows, w);
  }

  /** The guarded group updates are not repeated: right after `SET flag = v
      WHERE ... AND flag = current` with `v != current`, the same statement
      reaches no row. */
  lemma {:induction false} GroupUpdateRepeatReachesNothing(rows: seq<Row>, g: AlertGroupSpec, f: Flag, current: int, value: int)
    requires value != current
    ensures CountSelected(UpdatedRows(rows, f, value, GroupWithFlag(g, f, current)), GroupWithFlag(g, f, current)) == 0
  {
    var w := GroupWithFlag(g, f, current);
    var after := UpdatedRows(rows, f, value, w);
    forall i | 0 <= i < |after|
      ensures !Selects(w, after[i])
    {
      if Selects(w, rows[i]) {
        assert FlagOf(after[i], f) == value;
      } else {
        assert after[i] == rows[i];
      }
    }
    CountSelectedPositive(after, w);
  }

  /** After archiving a group every alert of the group is archived, as long as the
      flags hold 0 or 1 (as the workflow writes them). */
  lemma ArchiveGroupCovers(rows: seq<Row>, g: AlertGroupSpec)
    requires forall i :: 0 <= i < |rows| ==> rows[i].archived == 0 || rows[i].archived == 1
    ensures var after := UpdatedRows(rows, ArchivedFlag, 1, GroupWithFlag(g, ArchivedFlag, 0));
      forall i :: 0 <= i < |after| && InAlertGroup(after[i], g) ==> after[i].archived == 1
  {
    var after := UpdatedRows(rows, ArchivedFlag, 1, GroupWithFlag(g, ArchivedFlag, 0));
    forall i | 0 <= i < |after| && InAlertGroup(after[i], g)
      ensures after[i].archived == 1
    {
      assert after[i].source == rows[i].source && after[i].timestamp == rows[i].timestamp;
    }
  }

  // ---------------------------------------------------------------------------
  // Tags materialised from the flags
  // ---------------------------------------------------------------------------

  /** The tags a row's flags stand for: the plain and the `evebox.` spelling of
      each workflow state that is set, archive first. */
  function WorkflowTags(archived: int, escalated: int): (tags: seq<string>)
    ensures ("archived" in tags <==> archived > 0) && (TAG_ARCHIVED in tags <==> archived > 0)
    ensures ("escalated" in tags <==> escalated > 0) && (TAG_ESCALATED in tags <==> escalated > 0)
    ensures |tags| == (if archived > 0 then 2 else 0) + (if escalated > 0 then 2 else 0)
  {
    (if archived > 0 then ["archived", TAG_ARCHIVED] else [])
      + (if escalated > 0 then ["escalated", TAG_ESCALATED] else [])
  }

  /** The SQLite store presents the same tags the Elasticsearch store writes for
      an archived or escalated event. */
  lemma WorkflowTagsMatchElastic()
    ensures forall t :: t in WorkflowTags(1, 0) <==> t in TAGS_ARCHIVED
    ensures forall t :: t in WorkflowTags(0, 1) <==> t in TAGS_ESCALATED
    ensures forall t :: t in WorkflowTags(1, 1) <==> t in TAGS_ARCHIVED || t in TAGS_ESCALATED
  {
  }

  /** The event with `tags` added: a missing or null `tags` becomes a list of
      just those tags, an existing list gets them appended, and a `tags` member
      of any other kind is left alone. */
  function WithTags(source: map<string, Json>, tags: seq<string>): (r: map<string, Json>)
    ensures "tags" in r && r.Keys == source.Keys + {"tags"}
    ensures forall k :: k in source && k != "tags" ==> r[k] == source[k]
    ensures Get(JObj(source), "tags") == JNull ==> r["tags"] == StrArray(tags)
    ensures Get(JObj(source), "tags").JArr? ==>
      r["tags"].JArr? && r["tags"].items == source["tags"].items + StrArray(tags).items
    ensures !Get(JObj(source), "tags").JArr? && Get(JObj(source), "tags") != JNull ==> r == source
  {
    var current := Get(JObj(source), "tags");
    if current == JNull then source["tags" := StrArray(tags)]
    else if current.JArr? then source["tags" := JArr(current.items + StrArray(tags).items)]
    else
      assert "tags" in source;
      assert source.Keys + {"tags"} == source.Keys;
      source
  }

  /** The row mappers' tag handling: a null `tags` becomes an empty list, then
      the flag tags are pushed onto a list. */
  method AddWorkflowTags(source: map<string, Json>, archived: int, escalated: int)
    returns (parsed: map<string, Json>)
    ensures parsed == WithTags(source, WorkflowTags(archived, escalated))
  {
    parsed := source;
    if Get(JObj(parsed), "tags") == JNull {
      parsed := parsed["tags" := JArr([])];
    }
    if "tags" in parsed && parsed["tags"].JArr? {
      ghost var existing := parsed["tags"].items;
      var tags := parsed["tags"].items;
      ghost var added: seq<Json> := [];
      if archived > 0 {
        tags := tags + [JStr("archived"), JStr(TAG_ARCHIVED)];
        added := [JStr("archived"), JStr(TAG_ARCHIVED)];
      }
      assert tags == existing + added;
      if escalated > 0 {
        tags := tags + [JStr("escalated"), JStr(TAG_ESCALATED)];
        added := added + [JStr("escalated"), JStr(TAG_ESCALATED)];
      }
      assert tags == existing + added;
      assert added == StrArray(WorkflowTags(archived, escalated)).items;
      parsed := parsed["tags" := JArr(tags)];
      assert parsed == source["tags" := JArr(existing + StrArray(WorkflowTags(archived, escalated)).items)];
      if Get(JObj(source), "tags") == JNull {
        assert existing == [];
        assert JArr(existing + StrArray(WorkflowTags(archived, escalated)).items) == StrArray(WorkflowTags(archived, escalated));
      }
    }
  }

  /** A row as the event query returns it: the event's `timestamp` copied to
      `@timestamp` when present, and both flags as tags. */
  function EventRecord(r: Row): (j: Json)
    ensures j.JObj? && j.fields.Keys == {"_id", "_source"}
    ensures j.fields["_id"] == JNum(r.rowid)
  {
    var src := if "timestamp" in r.source then r.source["@timestamp" := r.source["timestamp"]] else r.source;
    JObj(map["_id" := JNum(r.rowid), "_source" := JObj(WithTags(src, WorkflowTags(r.archived, r.escalated)))])
  }

  /** A row as `get_event_by_id` returns it: as the event query, except that
      `@timestamp` is not added. */
  function EventByIdRecord(r: Row): (j: Json)
    ensures j.JObj? && j.fields.Keys == {"_id", "_source"}
    ensures j.fields["_id"] == JNum(r.rowid)
  {
    JObj(map["_id" := JNum(r.rowid), "_source" := JObj(WithTags(r.source, WorkflowTags(r.archived, r.escalated)))])
  }

  /** The event query's record differs from the by-id record only in the copied
      timestamp. */
  lemma EventRecordsAgree(r: Row)
    requires "timestamp" !in r.source && "@timestamp" !in r.source
    ensures EventRecord(r) == EventByIdRecord(r)
  {
  }

  /** The event record carries the flags as tags and keeps every other member. */
  lemma EventRecordTags(r: Row)
    requires "tags" !in r.source
    ensures var src := Get(EventRecord(r), "_source");
      src.JObj? && src.fields["tags"] == StrArray(WorkflowTags(r.archived, r.escalated))
      && (forall k :: k in r.source ==> k in src.fields && (k != "@timestamp" ==> src.fields[k] == r.source[k]))
  {
  }

  /** A row of the alert query's grouped SELECT: the group size, the newest
      event's rowid, the oldest timestamp, the number of escalated events, and
      the newest event's archive flag and JSON. */
  datatype AlertRow = AlertRow(
    count: int,
    id: int,
    minTs: int,
    escalatedCount: int,
    archived: int,
    source: map<string, Json>)

  /** A grouped row as an inbox record. Only the archive flag becomes tags; the
      oldest timestamp is rendered by `format` (`format_sqlite_timestamp`), the
      newest is the event's own `timestamp`. */
  function AlertRecord(a: AlertRow, format: int -> string): (j: Json)
    ensures j.JObj? && j.fields.Keys == {"count", "event", "minTs", "maxTs", "escalatedCount"}
    ensures j.fields["count"] == JNum(a.count) && j.fields["escalatedCount"] == JNum(a.escalatedCount)
    ensures j.fields["minTs"] == JStr(format(a.minTs))
    ensures Get(j.fields["event"], "_id") == JNum(a.id)
  {
    var parsed := WithTags(a.source, WorkflowTags(a.archived, 0));
    JObj(map[
      "count" := JNum(a.count),
      "event" := JObj(map["_id" := JNum(a.id), "_source" := JObj(parsed)]),
      "minTs" := JStr(format(a.minTs)),
      "maxTs" := Get(JObj(parsed), "timestamp"),
      "escalatedCount" := JNum(a.escalatedCount)])
  }

  /** An escalated event never shows the escalation tags in the inbox. */
  lemma AlertRecordNoEscalatedTag(a: AlertRow, format: int -> string)
    requires "tags" !in a.source
    ensures var tags := Get(Get(Get(AlertRecord(a, format), "event"), "_source"), "tags");
      tags.JArr? && JStr("escalated") !in tags.items && JStr(TAG_ESCALATED) !in tags.items
      && (JStr("archived") in tags.items <==> a.archived > 0)
  {
    var tags := WorkflowTags(a.archived, 0);
    var arr := StrArray(tags);
    assert forall j :: j in arr.items ==> exists k :: 0 <= k < |tags| && j == JStr(tags[k]);
    if a.archived > 0 {
      assert arr.items[0] == JStr("archived");
    }
  }

  function AlertRecords(rows: seq<AlertRow>, format: int -> string): (r: seq<Json>)
    ensures |r| == |rows|
    ensures forall i :: 0 <= i < |rows| ==> r[i] == AlertRecord(rows[i], format)
  {
    seq(|rows|, i requires 0 <= i < |rows| => AlertRecord(rows[i], format))
  }

  function EventRecords(rows: seq<Row>): (r: seq<Json>)
    ensures |r| == |rows|
    ensures forall i :: 0 <= i < |rows| ==> r[i] == EventRecord(rows[i])
  {
    seq(|rows|, i requires 0 <= i < |rows| => EventRecord(rows[i]))
  }

  /** `alert_query`: the WHERE list of the grouped query and the inbox reply built
      from the grouped rows it returns. */
  method AlertQuery(options: AlertQueryOptions, parse: QsParser, rows: seq<AlertRow>, format: int -> string)
    returns (filters: seq<string>, params: seq<SqlParam>, r: Result<Json, DatastoreError>)
    ensures |filters| == |params|
    ensures Conds(filters, params) == AlertQueryConds(options, parse)
    ensures r == Ok(JObj(map["alerts" := JArr(AlertRecords(rows, format))]))
  {
    filters, params := BuildAlertQueryFilters(options, parse);
    r := Ok(JObj(map["alerts" := JArr(AlertRecords(rows, format))]));
  }

  /** `event_query`: the query, then the retry loop whose attempt `k` yields
      `attempts(k)`; the rows become records under `data`, a failure becomes an
      `AnyhowError` carrying its message. */
  method EventQuery(p: EventQueryParams, parse: QsParser, attempts: nat -> Attempt<seq<Row>>)
    returns (q: SelectQuery, r: Result<Json, DatastoreError>)
    ensures |q.filters| == |q.params| && Conds(q.filters, q.params) == EventQueryConds(p, parse)
    ensures q.order == p.order.GetOr("DESC") && q.limit == EVENT_QUERY_LIMIT
    ensures RetryFrom(attempts, 0).Ok? ==> r == Ok(JObj(map["data" := JArr(EventRecords(RetryFrom(attempts, 0).value))]))
    ensures RetryFrom(attempts, 0).Err? ==> r == Err(AnyhowError(RetryFrom(attempts, 0).error))
  {
    q := BuildEventQuery(p, parse);
    var res, _ := RetryQueryLoop(attempts);
    match res
    case Ok(rows) =>
      r := Ok(JObj(map["data" := JArr(EventRecords(rows))]));
    case Err(e) =>
      r := Err(AnyhowError(e));
  }

  // ---------------------------------------------------------------------------
  // The table
  // ---------------------------------------------------------------------------

  class EventStore {
    /** The `events` table. */
    const events: array<Row>

    constructor(rows: seq<Row>)
      ensures events[..] == rows && fresh(events)
    {
      events := new Row[|rows|](i requires 0 <= i < |rows| => rows[i]);
    }

    /** `UPDATE events SET <flag> = value WHERE w`, returning the number of rows
        reached. */
    method Execute(f: Flag, value: int, w: Where) returns (n: nat)
      modifies events
      ensures events[..] == UpdatedRows(old(events[..]), f, value, w)
      ensures n == CountSelected(old(events[..]), w)
    {
      ghost var before := events[..];
      n := 0;
      var i := 0;
      while i < events.Length
        invariant 0 <= i <= events.Length
        invariant forall j :: 0 <= j < i ==> events[j] == UpdatedRow(before[j], f, value, w)
        invariant forall j :: i <= j < events.Length ==> events[j] == before[j]
        invariant n == CountSelected(before[..i], w)
      {
        assert before[..i + 1][..i] == before[..i];
        if Selects(w, events[i]) {
          events[i] := WithFlag(events[i], f, value);
          n := n + 1;
        }
        i := i + 1;
      }
      assert before[..events.Length] == before;
    }

    /** The by-id updates: `EventNotFound` when no row was reached. */
    method UpdateById(eventId: string, f: Flag, value: int) returns (r: Result<(), DatastoreError>)
      modifies events
      ensures events[..] == UpdatedRows(old(events[..]), f, value, RowIdText(eventId))
      ensures r.Err? <==> CountSelected(old(events[..]), RowIdText(eventId)) == 0
      ensures r.Err? ==> r.error == EventNotFound
    {
      var n := Execute(f, value, RowIdText(eventId));
      if n == 0 {
        r := Err(EventNotFound);
      } else {
        r := Ok(());
      }
    }

    /** `archive_event_by_id` */
    method ArchiveEventById(eventId: string) returns (r: Result<(), DatastoreError>)
      modifies events
      ensures events[..] == UpdatedRows(old(events[..]), ArchivedFlag, 1, RowIdText(eventId))
      ensures r.Err? <==> CountSelected(old(events[..]), RowIdText(eventId)) == 0
      ensures r.Err? ==> r.error == EventNotFound
    {
      r := UpdateById(eventId, ArchivedFlag, 1);
    }

    /** `escalate_event_by_id` */
    method EscalateEventById(eventId: string) returns (r: Result<(), DatastoreError>)
      modifies events
      ensures events[..] == UpdatedRows(old(events[..]), EscalatedFlag, 1, RowIdText(eventId))
      ensures r.Err? <==> CountSelected(old(events[..]), RowIdText(eventId)) == 0
      ensures r.Err? ==> r.error == EventNotFound
    {
      r := UpdateById(eventId, EscalatedFlag, 1);
    }

    /** `deescalate_event_by_id` */
    method DeescalateEventById(eventId: string) returns (r: Result<(), DatastoreError>)
      modifies events
      ensures events[..] == UpdatedRows(old(events[..]), EscalatedFlag, 0, RowIdText(eventId))
      ensures r.Err? <==> CountSelected(old(events[..]), RowIdText(eventId)) == 0
      ensures r.Err? ==> r.error == EventNotFound
    {
      r := UpdateById(eventId, EscalatedFlag, 0);
    }

    /** `archive_by_alert_group`: only rows not yet archived are reached. */
    method ArchiveByAlertGroup(g: AlertGroupSpec)
      modifies events
      ensures events[..] == UpdatedRows(old(events[..]), ArchivedFlag, 1, GroupWithFlag(g, ArchivedFlag, 0))
    {
      var _ := Execute(ArchivedFlag, 1, GroupWithFlag(g, ArchivedFlag, 0));
    }

    /** `escalate_by_alert_group`: only rows not yet escalated are reached. */
    method EscalateByAlertGroup(g: AlertGroupSpec)
      modifies events
      ensures events[..] == UpdatedRows(old(events[..]), EscalatedFlag, 1, GroupWithFlag(g, EscalatedFlag, 0))
    {
      var _ := Execute(EscalatedFlag, 1, GroupWithFlag(g, EscalatedFlag, 0));
    }

    /** `deescalate_by_alert_group`: only escalated rows are reached. */
    method DeescalateByAlertGroup(g: AlertGroupSpec)
      modifies events
      ensures events[..] == UpdatedRows(old(events[..]), EscalatedFlag, 0, GroupWithFlag(g, EscalatedFlag, 1))
    {
      var _ := Execute(EscalatedFlag, 0, GroupWithFlag(g, EscalatedFlag, 1));
    }

    /** `get_event_by_id`: the record of the first row whose rowid the id reads
        as, if any. */
    method GetEventById(eventId: string) returns (r: Option<Json>)
      ensures r.None? <==> forall i :: 0 <= i < events.Length ==> !Selects(RowIdText(eventId), events[i])
      ensures r.Some? ==>
        (exists i :: 0 <= i < events.Length && Selects(RowIdText(eventId), events[i]) && r.value == EventByIdRecord(events[i]))
    {
      var i := 0;
      while i < events.Length
        invariant 0 <= i <= events.Length
        invariant forall j :: 0 <= j < i ==> !Selects(RowIdText(eventId), events[j])
      {
        if Selects(RowIdText(eventId), events[i]) {
          var parsed := AddWorkflowTags(events[i].source, events[i].archived, events[i].escalated);
          return Some(JObj(map["_id" := JNum(events[i].rowid), "_source" := JObj(parsed)]));
        }
        i := i + 1;
      }
      return None;
    }
  }
}
