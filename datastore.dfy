/** The `Datastore` facade: one value wrapping either backend, forwarding each
    operation to it. Every operation exists on Elasticsearch; the SQLite backend
    answers the comment, histogram, aggregation, flow histogram and DHCP report
    operations with `Unimplemented`. What a backend needs from the outside world
    (the clock, search responses, the query-string parser, the rows a SELECT
    returns, timestamp rendering) is passed in. */
module DatastoreFacade {
  import opened Base
  import opened JsonValues
  import opened DatastoreTypes
  import opened ElasticQuery
  import opened ElasticScripts
  import opened SQLiteQuery
  import ES = ElasticEventStore
  import Lite = SQLiteEventStore
  import Dhcp = DhcpReport

  /** `Datastore` */
  datatype Datastore = Elastic(es: ES.EventStore) | SQLite(db: Lite.EventStore) {
    /** The state the backend's writes may change. */
    function Footprint(): set<object> {
      match this
      case Elastic(es) => {es}
      case SQLite(db) => {db.events}
    }
  }

  /** `Importer`: which backend's importer. */
  datatype Importer = ElasticImporter | SQLiteImporter

  /** `get_importer`: every backend has one, of its own kind. */
  function GetImporter(ds: Datastore): (r: Option<Importer>)
    ensures r.Some?
    ensures r.value == ElasticImporter <==> ds.Elastic?
    ensures r.value == SQLiteImporter <==> ds.SQLite?
  {
    match ds
    case Elastic(_) => Some(ElasticImporter)
    case SQLite(_) => Some(SQLiteImporter)
  }

  /** The facade's operations. */
  datatype Operation =
    | ArchiveEventByIdOp | EscalateEventByIdOp | DeescalateEventByIdOp | GetEventByIdOp
    | AlertQueryOp | ArchiveByAlertGroupOp | EscalateByAlertGroupOp | DeescalateByAlertGroupOp
    | CommentByAlertGroupOp | EventQueryOp | CommentEventByIdOp
    | HistogramOp | AggOp | FlowHistogramOp | ReportDhcpOp

  /** Which operations a backend implements: Elasticsearch all of them, SQLite
      all but the comments and the Elasticsearch-only reports. */
  predicate Supports(ds: Datastore, op: Operation) {
    ds.Elastic?
    || !(op.CommentByAlertGroupOp? || op.CommentEventByIdOp? || op.HistogramOp?
         || op.AggOp? || op.FlowHistogramOp? || op.ReportDhcpOp?)
  }

  /** SQLite implements exactly nine operations; Elasticsearch implements all. */
  lemma SupportMatrix(ds: Datastore)
    ensures ds.Elastic? ==> forall op :: Supports(ds, op)
    ensures ds.SQLite? ==>
      (!Supports(ds, CommentEventByIdOp) && !Supports(ds, CommentByAlertGroupOp)
       && !Supports(ds, HistogramOp) && !Supports(ds, AggOp) && !Supports(ds, FlowHistogramOp)
       && !Supports(ds, ReportDhcpOp))
    ensures ds.SQLite? ==>
      (Supports(ds, ArchiveEventByIdOp) && Supports(ds, EscalateEventByIdOp)
       && Supports(ds, DeescalateEventByIdOp) && Supports(ds, GetEventByIdOp) && Supports(ds, AlertQueryOp)
       && Supports(ds, ArchiveByAlertGroupOp) && Supports(ds, EscalateByAlertGroupOp)
       && Supports(ds, DeescalateByAlertGroupOp) && Supports(ds, EventQueryOp))
  {
  }

  // ---------------------------------------------------------------------------
  // Writes
  // ---------------------------------------------------------------------------

  /** `archive_event_by_id` */
  method ArchiveEventById(ds: Datastore, eventId: string, now: int) returns (r: Result<(), DatastoreError>)
    modifies ds.Footprint()
    ensures ds.Elastic? ==> r.Ok? && ds.es.index == UpdatedIndex(old(ds.es.index), ByIdQuery(eventId),
      AddTags([TAG_ARCHIVED], HistoryEntry(ANONYMOUS, now, Archived, None)))
    ensures ds.SQLite? ==>
      ds.db.events[..] == Lite.UpdatedRows(old(ds.db.events[..]), Lite.ArchivedFlag, 1, Lite.RowIdText(eventId))
      && (r.Err? <==> Lite.CountSelected(old(ds.db.events[..]), Lite.RowIdText(eventId)) == 0)
      && (r.Err? ==> r.error == EventNotFound)
  {
    match ds
    case Elastic(es) =>
      es.ArchiveEventById(eventId, now);
      r := Ok(());
    case SQLite(db) =>
      r := db.ArchiveEventById(eventId);
  }

  /** `escalate_event_by_id` */
  method EscalateEventById(ds: Datastore, eventId: string, now: int) returns (r: Result<(), DatastoreError>)
    modifies ds.Footprint()
    ensures ds.Elastic? ==> r.Ok? && ds.es.index == UpdatedIndex(old(ds.es.index), ByIdQuery(eventId),
      AddTags([TAG_ESCALATED], HistoryEntry(ANONYMOUS, now, Escalated, None)))
    ensures ds.SQLite? ==>
      ds.db.events[..] == Lite.UpdatedRows(old(ds.db.events[..]), Lite.EscalatedFlag, 1, Lite.RowIdText(eventId))
      && (r.Err? <==> Lite.CountSelected(old(ds.db.events[..]), Lite.RowIdText(eventId)) == 0)
      && (r.Err? ==> r.error == EventNotFound)
  {
    match ds
    case Elastic(es) =>
      es.EscalateEventById(eventId, now);
      r := Ok(());
    case SQLite(db) =>
      r := db.EscalateEventById(eventId);
  }

  /** `deescalate_event_by_id` */
  method DeescalateEventById(ds: Datastore, eventId: string, now: int) returns (r: Result<(), DatastoreError>)
    modifies ds.Footprint()
    ensures ds.Elastic? ==> r.Ok? && ds.es.index == UpdatedIndex(old(ds.es.index), ByIdQuery(eventId),
      RemoveTags([TAG_ESCALATED], HistoryEntry(ANONYMOUS, now, Deescalated, None)))
    ensures ds.SQLite? ==>
      ds.db.events[..] == Lite.UpdatedRows(old(ds.db.events[..]), Lite.EscalatedFlag, 0, Lite.RowIdText(eventId))
      && (r.Err? <==> Lite.CountSelected(old(ds.db.events[..]), Lite.RowIdText(eventId)) == 0)
      && (r.Err? ==> r.error == EventNotFound)
  {
    match ds
    case Elastic(es) =>
      es.DeescalateEventById(eventId, now);
      r := Ok(());
    case SQLite(db) =>
      r := db.DeescalateEventById(eventId);
  }

  /** `archive_by_alert_group` */
  method ArchiveByAlertGroup(ds: Datastore, g: AlertGroupSpec, now: int) returns (r: Result<(), DatastoreError>)
    modifies ds.Footprint()
    ensures r.Ok?
    ensures ds.Elastic? ==> ds.es.index == UpdatedIndex(old(ds.es.index), AddByGroupQuery(ds.es.ecs, g, TAGS_ARCHIVED),
      AddTags(TAGS_ARCHIVED, HistoryEntry(ANONYMOUS, now, Archived, None)))
    ensures ds.SQLite? ==> ds.db.events[..] == Lite.UpdatedRows(old(ds.db.events[..]), Lite.ArchivedFlag, 1,
      Lite.GroupWithFlag(g, Lite.ArchivedFlag, 0))
  {
    r := Ok(());
    match ds
    case Elastic(es) =>
      es.ArchiveByAlertGroup(g, now);
    case SQLite(db) =>
      db.ArchiveByAlertGroup(g);
  }

  /** `escalate_by_alert_group`: the session's user name is recorded by
      Elasticsearch; the SQLite backend does not receive it. */
  method EscalateByAlertGroup(ds: Datastore, g: AlertGroupSpec, username: string, now: int)
    returns (r: Result<(), DatastoreError>)
    modifies ds.Footprint()
    ensures r.Ok?
    ensures ds.Elastic? ==> ds.es.index == UpdatedIndex(old(ds.es.index), AddByGroupQuery(ds.es.ecs, g, TAGS_ESCALATED),
      AddTags(TAGS_ESCALATED, HistoryEntry(username, now, Escalated, None)))
    ensures ds.SQLite? ==> ds.db.events[..] == Lite.UpdatedRows(old(ds.db.events[..]), Lite.EscalatedFlag, 1,
      Lite.GroupWithFlag(g, Lite.EscalatedFlag, 0))
  {
    r := Ok(());
    match ds
    case Elastic(es) =>
      es.EscalateByAlertGroup(g, username, now);
    case SQLite(db) =>
      db.EscalateByAlertGroup(g);
  }

  /** `deescalate_by_alert_group` */
  method DeescalateByAlertGroup(ds: Datastore, g: AlertGroupSpec, now: int) returns (r: Result<(), DatastoreError>)
    modifies ds.Footprint()
    ensures r.Ok?
    ensures ds.Elastic? ==> ds.es.index == UpdatedIndex(old(ds.es.index), RemoveByGroupQuery(ds.es.ecs, g, TAGS_ESCALATED),
      RemoveTags(TAGS_ESCALATED, HistoryEntry(ANONYMOUS, now, Deescalated, None)))
    ensures ds.SQLite? ==> ds.db.events[..] == Lite.UpdatedRows(old(ds.db.events[..]), Lite.EscalatedFlag, 0,
      Lite.GroupWithFlag(g, Lite.EscalatedFlag, 1))
  {
    r := Ok(());
    match ds
    case Elastic(es) =>
      es.DeescalateByAlertGroup(g, now);
    case SQLite(db) =>
      db.DeescalateByAlertGroup(g);
  }

  /** `comment_by_alert_group`: Elasticsearch only. */
  method CommentByAlertGroup(ds: Datastore, g: AlertGroupSpec, comment: string, username: string, now: int)
    returns (r: Result<(), DatastoreError>)
    modifies ds.Footprint()
    ensures Supports(ds, CommentByAlertGroupOp) <==> r.Ok?
    ensures ds.Elastic? ==> ds.es.index == UpdatedIndex(old(ds.es.index), AddByGroupQuery(ds.es.ecs, g, []),
      AddTags([], HistoryEntry(username, now, Commented, Some(comment))))
    ensures ds.SQLite? ==> r == Err(Unimplemented) && ds.db.events[..] == old(ds.db.events[..])
  {
    match ds
    case Elastic(es) =>
      es.CommentByAlertGroup(g, comment, username, now);
      r := Ok(());
    case SQLite(_) =>
      r := Err(Unimplemented);
  }

  /** `comment_event_by_id`: Elasticsearch only. */
  method CommentEventById(ds: Datastore, eventId: string, comment: string, username: string, now: int)
    returns (r: Result<(), DatastoreError>)
    modifies ds.Footprint()
    ensures Supports(ds, CommentEventByIdOp) <==> r.Ok?
    ensures ds.Elastic? ==> ds.es.index == UpdatedIndex(old(ds.es.index), ByIdQuery(eventId),
      AddTags([], HistoryEntry(username, now, Commented, Some(comment))))
    ensures ds.SQLite? ==> r == Err(Unimplemented) && ds.db.events[..] == old(ds.db.events[..])
  {
    match ds
    case Elastic(es) =>
      es.CommentEventById(eventId, comment, username, now);
      r := Ok(());
    case SQLite(_) =>
      r := Err(Unimplemented);
  }

  // ---------------------------------------------------------------------------
  // Reads
  // ---------------------------------------------------------------------------

  /** `get_event_by_id`: the first hit of the Elasticsearch response, or the
      SQLite row the id names. */
  method GetEventById(ds: Datastore, eventId: string, response: ES.SearchResponse)
    returns (r: Result<Option<Json>, DatastoreError>)
    ensures ds.Elastic? ==> r == ES.GetEventById(response)
    ensures ds.SQLite? ==> r.Ok?
    ensures ds.SQLite? ==> (r.value.None? <==>
      forall i :: 0 <= i < ds.db.events.Length ==> !Lite.Selects(Lite.RowIdText(eventId), ds.db.events[i]))
    ensures ds.SQLite? && r.Ok? && r.value.Some? ==>
      exists i :: 0 <= i < ds.db.events.Length && Lite.Selects(Lite.RowIdText(eventId), ds.db.events[i])
        && r.value.value == Lite.EventByIdRecord(ds.db.events[i])
  {
    match ds
    case Elastic(_) =>
      r := ES.GetEventById(response);
    case SQLite(db) =>
      var found := db.GetEventById(eventId);
      r := Ok(found);
  }

  /** `alert_query`: the inbox from the Elasticsearch aggregation response, or
      from the rows of SQLite's grouped query. */
  method AlertQuery(ds: Datastore, options: AlertQueryOptions, response: ES.SearchResponse,
                    parse: QsParser, rows: seq<Lite.AlertRow>, format: int -> string)
    returns (r: Result<Json, DatastoreError>)
    ensures ds.Elastic? && response.error.Some? ==> r == Err(ElasticSearchError(response.error.value))
    ensures ds.Elastic? && response.error.None? ==> r == Ok(JObj(map[
      "ecs" := JBool(ds.es.ecs),
      "alerts" := JArr(if response.aggregations.Some? then ES.SignatureRecords(Buckets(response.aggregations.value, "signatures")) else [])]))
    ensures ds.SQLite? ==> r == Ok(JObj(map["alerts" := JArr(Lite.AlertRecords(rows, format))]))
  {
    match ds
    case Elastic(es) =>
      r := ES.AlertQuery(es.ecs, response);
    case SQLite(_) =>
      var _, _, reply := Lite.AlertQuery(options, parse, rows, format);
      r := reply;
  }

  /** `event_query`: the hits of the Elasticsearch response, or SQLite's rows
      after the retry loop. */
  method EventQuery(ds: Datastore, p: EventQueryParams, response: Json,
                    parse: QsParser, attempts: nat -> Attempt<seq<Lite.Row>>)
    returns (r: Result<Json, DatastoreError>)
    ensures ds.Elastic? ==> r == Ok(ES.EventQueryReply(ds.es.ecs, response))
    ensures ds.SQLite? && RetryFrom(attempts, 0).Ok? ==>
      r == Ok(JObj(map["data" := JArr(Lite.EventRecords(RetryFrom(attempts, 0).value))]))
    ensures ds.SQLite? && RetryFrom(attempts, 0).Err? ==> r == Err(AnyhowError(RetryFrom(attempts, 0).error))
  {
    match ds
    case Elastic(es) =>
      r := Ok(ES.EventQueryReply(es.ecs, response));
    case SQLite(_) =>
      var _, reply := Lite.EventQuery(p, parse, attempts);
      r := reply;
  }

  /** `histogram`: Elasticsearch only; one point per `events_over_time` bucket. */
  method Histogram(ds: Datastore, response: Json) returns (r: Result<Json, DatastoreError>)
    ensures Supports(ds, HistogramOp) <==> r.Ok?
    ensures ds.SQLite? ==> r == Err(Unimplemented)
    ensures r.Ok? ==> var bs := Buckets(Get(response, "aggregations"), "events_over_time");
      var data := Get(r.value, "data");
      data.JArr? && |data.items| == |bs| && forall i :: 0 <= i < |bs| ==> data.items[i] == ES.HistogramPoint(bs[i])
  {
    match ds
    case Elastic(_) =>
      var data := ES.HistogramData(response);
      r := Ok(JObj(map["data" := JArr(data)]));
    case SQLite(_) =>
      r := Err(Unimplemented);
  }

  /** `agg`: Elasticsearch only; one key/count entry per `agg` bucket. */
  method Agg(ds: Datastore, response: Json) returns (r: Result<Json, DatastoreError>)
    ensures Supports(ds, AggOp) <==> r.Ok?
    ensures ds.SQLite? ==> r == Err(Unimplemented)
    ensures r.Ok? ==> var bs := Buckets(Get(response, "aggregations"), "agg");
      var data := Get(r.value, "data");
      data.JArr? && |data.items| == |bs| && forall i :: 0 <= i < |bs| ==> data.items[i] == ES.AggEntry(bs[i])
  {
    match ds
    case Elastic(_) =>
      var data := ES.AggData(response);
      r := Ok(JObj(map["data" := JArr(data)]));
    case SQLite(_) =>
      r := Err(Unimplemented);
  }

  /** `flow_histogram`: Elasticsearch only; one entry per `histogram` bucket. */
  method FlowHistogram(ds: Datastore, response: Json) returns (r: Result<Json, DatastoreError>)
    ensures Supports(ds, FlowHistogramOp) <==> r.Ok?
    ensures ds.SQLite? ==> r == Err(Unimplemented)
    ensures r.Ok? ==> var bs := Buckets(Get(response, "aggregations"), "histogram");
      var data := Get(r.value, "data");
      data.JArr? && |data.items| == |bs| && forall i :: 0 <= i < |bs| ==> data.items[i] == ES.FlowEntry(bs[i])
  {
    match ds
    case Elastic(_) =>
      var data := ES.FlowHistogramData(response);
      r := Ok(JObj(map["data" := JArr(data)]));
    case SQLite(_) =>
      r := Err(Unimplemented);
  }

  /** `report_dhcp`: Elasticsearch only; an unknown report name is an error. */
  method ReportDhcp(ds: Datastore, what: string, response: Json) returns (r: Result<Json, DatastoreError>)
    ensures ds.SQLite? ==> r == Err(Unimplemented)
    ensures ds.Elastic? && Dhcp.ReportKindFromName(what).None? ==> r == Err(AnyhowError("No DHCP report for " + what))
    ensures ds.Elastic? && Dhcp.ReportKindFromName(what).Some? ==>
      r == Ok(Dhcp.ReportReply(ds.es.ecs, Dhcp.ReportKindFromName(what).value, response))
  {
    match ds
    case Elastic(es) =>
      r := Dhcp.DhcpReportFor(es.ecs, what, response);
    case SQLite(_) =>
      r := Err(Unimplemented);
  }
}
