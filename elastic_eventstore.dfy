/** The Elasticsearch event store. Its workflow writes (archive, escalate,
    de-escalate, comment — by event id or by alert group) are update-by-query
    requests, modelled on an in-memory index of documents. Its reads send a search
    request and reshape the response; the response is a parameter here, since the
    search itself happens on the server. */
module ElasticEventStore {
  import opened Base
  import opened JsonValues
  import opened DatastoreTypes
  import opened ElasticQuery
  import opened ElasticScripts

  /** `ElasticResponse`: the parts of a search response the store looks at. */
  datatype SearchResponse = SearchResponse(error: Option<string>, hits: Option<Json>, aggregations: Option<Json>)

  /** Runs the painless script of an update on one document. */
  method RunScript(d: Doc, script: Script) returns (r: Doc)
    ensures r == ApplyScript(d, script)
  {
    match script {
      case AddTags(tags, entry) =>
        r := RunAddTagsScript(d, tags, entry);
      case RemoveTags(tags, entry) =>
        r := RunRemoveTagsScript(d, tags, entry);
    }
  }

  class EventStore {
    /** Whether the indices use the ECS field layout. */
    const ecs: bool
    /** The documents of the event indices. */
    var index: seq<Doc>

    constructor(ecs: bool, index: seq<Doc>)
      ensures this.ecs == ecs && this.index == index
    {
      this.ecs := ecs;
      this.index := index;
    }

    /** `_update_by_query`: run the script on every document the query matches and
        report how many were updated. */
    method UpdateByQuery(q: Query, script: Script) returns (updated: nat)
      requires StructuredQuery(q)
      modifies this
      ensures index == UpdatedIndex(old(index), q, script)
      ensures updated == CountMatching(old(index), q)
    {
      var docs := index;
      var result: seq<Doc> := [];
      updated := 0;
      for i := 0 to |docs|
        invariant result == UpdatedIndex(docs[..i], q, script)
        invariant updated == CountMatching(docs[..i], q)
      {
        assert docs[..i + 1] == docs[..i] + [docs[i]];
        assert docs[..i + 1][..i] == docs[..i];
        UpdatedIndexSnoc(docs[..i], docs[i], q, script);
        var d := docs[i];
        if Matches(d, q) {
          d := RunScript(d, script);
          updated := updated + 1;
        }
        result := result + [d];
      }
      assert docs[..|docs|] == docs;
      index := result;
    }

    /** `archive_event_by_id`: add the archive tag to the event, recorded as an
        anonymous archive action at time `now`. */
    method ArchiveEventById(id: string, now: int)
      modifies this
      ensures index == UpdatedIndex(old(index), ByIdQuery(id),
        AddTags([TAG_ARCHIVED], HistoryEntry(ANONYMOUS, now, Archived, None)))
    {
      var _ := UpdateByQuery(ByIdQuery(id), AddTags([TAG_ARCHIVED], HistoryEntry(ANONYMOUS, now, Archived, None)));
    }

    /** `escalate_event_by_id` */
    method EscalateEventById(id: string, now: int)
      modifies this
      ensures index == UpdatedIndex(old(index), ByIdQuery(id),
        AddTags([TAG_ESCALATED], HistoryEntry(ANONYMOUS, now, Escalated, None)))
    {
      var _ := UpdateByQuery(ByIdQuery(id), AddTags([TAG_ESCALATED], HistoryEntry(ANONYMOUS, now, Escalated, None)));
    }

    /** `deescalate_event_by_id`: remove the escalation tag. */
    method DeescalateEventById(id: string, now: int)
      modifies this
      ensures index == UpdatedIndex(old(index), ByIdQuery(id),
        RemoveTags([TAG_ESCALATED], HistoryEntry(ANONYMOUS, now, Deescalated, None)))
    {
      var _ := UpdateByQuery(ByIdQuery(id), RemoveTags([TAG_ESCALATED], HistoryEntry(ANONYMOUS, now, Deescalated, None)));
    }

    /** `comment_event_by_id`: the add script with no tags and a comment entry. */
    method CommentEventById(id: string, comment: string, username: string, now: int)
      modifies this
      ensures index == UpdatedIndex(old(index), ByIdQuery(id),
        AddTags([], HistoryEntry(username, now, Commented, Some(comment))))
    {
      var _ := UpdateByQuery(ByIdQuery(id), AddTags([], HistoryEntry(username, now, Commented, Some(comment))));
    }

    /** `archive_by_alert_group`: both archive tags on every member of the group
        that carries neither. */
    method ArchiveByAlertGroup(spec: AlertGroupSpec, now: int)
      modifies this
      ensures index == UpdatedIndex(old(index), AddByGroupQuery(ecs, spec, TAGS_ARCHIVED),
        AddTags(TAGS_ARCHIVED, HistoryEntry(ANONYMOUS, now, Archived, None)))
    {
      var _ := UpdateByQuery(AddByGroupQuery(ecs, spec, TAGS_ARCHIVED), AddTags(TAGS_ARCHIVED, HistoryEntry(ANONYMOUS, now, Archived, None)));
    }

    /** `escalate_by_alert_group`: recorded under the session's user name. */
    method EscalateByAlertGroup(spec: AlertGroupSpec, username: string, now: int)
      modifies this
      ensures index == UpdatedIndex(old(index), AddByGroupQuery(ecs, spec, TAGS_ESCALATED),
        AddTags(TAGS_ESCALATED, HistoryEntry(username, now, Escalated, None)))
    {
      var _ := UpdateByQuery(AddByGroupQuery(ecs, spec, TAGS_ESCALATED), AddTags(TAGS_ESCALATED, HistoryEntry(username, now, Escalated, None)));
    }

    /** `deescalate_by_alert_group`: both escalation tags off every member of the
        group that carries both. */
    method DeescalateByAlertGroup(spec: AlertGroupSpec, now: int)
      modifies this
      ensures index == UpdatedIndex(old(index), RemoveByGroupQuery(ecs, spec, TAGS_ESCALATED),
        RemoveTags(TAGS_ESCALATED, HistoryEntry(ANONYMOUS, now, Deescalated, None)))
    {
      var _ := UpdateByQuery(RemoveByGroupQuery(ecs, spec, TAGS_ESCALATED), RemoveTags(TAGS_ESCALATED, HistoryEntry(ANONYMOUS, now, Deescalated, None)));
    }

    /** `comment_by_alert_group`: a comment entry on every member of the group. */
    method CommentByAlertGroup(spec: AlertGroupSpec, comment: string, username: string, now: int)
      modifies this
      ensures index == UpdatedIndex(old(index), AddByGroupQuery(ecs, spec, []),
        AddTags([], HistoryEntry(username, now, Commented, Some(comment))))
    {
      var _ := UpdateByQuery(AddByGroupQuery(ecs, spec, []), AddTags([], HistoryEntry(username, now, Commented, Some(comment))));
    }
  }

  /** Archiving an alert group twice in a row: the second request reaches no
      document and changes nothing. */
  lemma ArchiveByAlertGroupTwice(index: seq<Doc>, ecs: bool, spec: AlertGroupSpec, t1: int, t2: int)
    ensures var q := AddByGroupQuery(ecs, spec, TAGS_ARCHIVED);
      var once := UpdatedIndex(index, q, AddTags(TAGS_ARCHIVED, HistoryEntry(ANONYMOUS, t1, Archived, None)));
      UpdatedIndex(once, q, AddTags(TAGS_ARCHIVED, HistoryEntry(ANONYMOUS, t2, Archived, None))) == once
  {
    AddByGroupRepeatIsNoop(index, ecs, spec, TAGS_ARCHIVED,
      HistoryEntry(ANONYMOUS, t1, Archived, None), HistoryEntry(ANONYMOUS, t2, Archived, None));
  }

  /** Archiving an event by id leaves it archived, its fields untouched and one more
      history entry; de-escalating it afterwards does not take the archive tag away. */
  lemma ArchiveThenDeescalateKeepsArchived(d: Doc, t1: int, t2: int)
    ensures var a := ApplyScript(d, AddTags([TAG_ARCHIVED], HistoryEntry(ANONYMOUS, t1, Archived, None)));
      var b := ApplyScript(a, RemoveTags([TAG_ESCALATED], HistoryEntry(ANONYMOUS, t2, Deescalated, None)));
      HasTag(a, TAG_ARCHIVED) && HasTag(b, TAG_ARCHIVED) && !HasTag(b, TAG_ESCALATED)
      && b.fields == d.fields && |b.history.value| == |d.history.GetOr([])| + 2
  {
    var a := ApplyScript(d, AddTags([TAG_ARCHIVED], HistoryEntry(ANONYMOUS, t1, Archived, None)));
    assert TAG_ARCHIVED in [TAG_ARCHIVED];
    assert TAG_ARCHIVED != TAG_ESCALATED;
  }

  // ---------------------------------------------------------------------------
  // Reads
  // ---------------------------------------------------------------------------

  /** `get_event_by_id` on the search response: the backend's error, else the first
      hit when the hits are a non-empty array, else nothing. */
  function GetEventById(response: SearchResponse): (r: Result<Option<Json>, DatastoreError>)
    ensures response.error.Some? <==> r.Err?
    ensures r.Err? ==> r.error == ElasticError(response.error.value)
    ensures r.Ok? && r.value.Some? ==>
      response.hits.Some? && Get(response.hits.value, "hits").JArr?
      && |Get(response.hits.value, "hits").items| > 0 && r.value.value == Get(response.hits.value, "hits").items[0]
    ensures (response.error.None? && response.hits.Some? && Get(response.hits.value, "hits").JArr?
             && |Get(response.hits.value, "hits").items| > 0)
      ==> r == Ok(Some(Get(response.hits.value, "hits").items[0]))
    ensures (response.error.None? && (response.hits.None? || !Get(response.hits.value, "hits").JArr?
                                      || |Get(response.hits.value, "hits").items| == 0))
      ==> r == Ok(None)
  {
    if response.error.Some? then Err(ElasticError(response.error.value))
    else if response.hits.Some? && Get(response.hits.value, "hits").JArr? then
      var hits := Get(response.hits.value, "hits").items;
      if |hits| > 0 then Ok(Some(hits[0])) else Ok(None)
    else Ok(None)
  }

  /** The record for one destination bucket of the inbox aggregation: its count,
      the newest event, the escalated count and the newest and oldest timestamps. */
  function AlertRecord(bucket: Json): Json {
    var newest := At(Get(Get(Get(bucket, "newest"), "hits"), "hits"), 0);
    var oldest := At(Get(Get(Get(bucket, "oldest"), "hits"), "hits"), 0);
    JObj(map[
      "count" := Get(bucket, "doc_count"),
      "event" := newest,
      "escalatedCount" := Get(Get(bucket, "escalated"), "doc_count"),
      "maxTs" := Get(Get(newest, "_source"), "@timestamp"),
      "minTs" := Get(Get(oldest, "_source"), "@timestamp")])
  }

  /** The records of a list of destination buckets, one each, in order. */
  function DestRecords(dests: seq<Json>): (r: seq<Json>)
    ensures |r| == |dests|
    ensures forall i :: 0 <= i < |dests| ==> r[i] == AlertRecord(dests[i])
  {
    seq(|dests|, i requires 0 <= i < |dests| => AlertRecord(dests[i]))
  }

  /** The records under a list of source buckets, source by source. */
  function SourceRecords(sources: seq<Json>): seq<Json>
    decreases |sources|
  {
    if |sources| == 0 then []
    else SourceRecords(sources[..|sources| - 1]) + DestRecords(Buckets(sources[|sources| - 1], "destinations"))
  }

  /** The records under a list of signature buckets, signature by signature. */
  function SignatureRecords(sigs: seq<Json>): seq<Json>
    decreases |sigs|
  {
    if |sigs| == 0 then []
    else SignatureRecords(sigs[..|sigs| - 1]) + SourceRecords(Buckets(sigs[|sigs| - 1], "sources"))
  }

  /** A record is in the records of destination buckets exactly when it is the
      record of one of them. */
  lemma DestRecordsMembership(dests: seq<Json>, r: Json)
    ensures r in DestRecords(dests) <==> exists d :: d in dests && r == AlertRecord(d)
  {
    var rs := DestRecords(dests);
    if r in rs {
      var k :| 0 <= k < |rs| && rs[k] == r;
      assert dests[k] in dests;
    }
    if exists d :: d in dests && r == AlertRecord(d) {
      var d :| d in dests && r == AlertRecord(d);
      var k :| 0 <= k < |dests| && dests[k] == d;
      assert rs[k] == r;
    }
  }

  /** A record is in the flattening of source buckets exactly when it is among the
      records of the destination buckets of one of them. */
  lemma {:induction false} SourceRecordsMembership(sources: seq<Json>, r: Json)
    ensures r in SourceRecords(sources)
        <==> exists i :: 0 <= i < |sources| && r in DestRecords(Buckets(sources[i], "destinations"))
    decreases |sources|
  {
    if |sources| > 0 {
      var init := sources[..|sources| - 1];
      SourceRecordsMembership(init, r);
      assert forall i :: 0 <= i < |init| ==> init[i] == sources[i];
    }
  }

  /** A record is in the flattening of signature buckets exactly when it is in the
      flattening of the source buckets of one of them. */
  lemma {:induction false} SignatureRecordsMembership(sigs: seq<Json>, r: Json)
    ensures r in SignatureRecords(sigs)
        <==> exists i :: 0 <= i < |sigs| && r in SourceRecords(Buckets(sigs[i], "sources"))
    decreases |sigs|
  {
    if |sigs| > 0 {
      var init := sigs[..|sigs| - 1];
      SignatureRecordsMembership(init, r);
      assert forall i :: 0 <= i < |init| ==> init[i] == sigs[i];
    }
  }

  /** The number of records is the number of destination buckets under the
      signature's sources. */
  function DestBucketCount(sources: seq<Json>): nat
    decreases |sources|
  {
    if |sources| == 0 then 0
    else DestBucketCount(sources[..|sources| - 1]) + |Buckets(sources[|sources| - 1], "destinations")|
  }

  /** One record per destination bucket. */
  lemma {:induction false} SourceRecordsCount(sources: seq<Json>)
    ensures |SourceRecords(sources)| == DestBucketCount(sources)
    decreases |sources|
  {
    if |sources| > 0 {
      SourceRecordsCount(sources[..|sources| - 1]);
    }
  }

  /** The innermost loop of `alert_query`: one record per destination bucket. */
  method DestinationAlerts(dests: seq<Json>) returns (alerts: seq<Json>)
    ensures alerts == DestRecords(dests)
  {
    alerts := [];
    for k := 0 to |dests|
      invariant |alerts| == k
      invariant forall m :: 0 <= m < k ==> alerts[m] == AlertRecord(dests[m])
    {
      alerts := alerts + [AlertRecord(dests[k])];
    }
  }

  /** The middle loop of `alert_query`: the records of each source bucket's
      destinations, source by source. */
  method SourceAlerts(sources: seq<Json>) returns (alerts: seq<Json>)
    ensures alerts == SourceRecords(sources)
  {
    alerts := [];
    for j := 0 to |sources|
      invariant alerts == SourceRecords(sources[..j])
    {
      assert sources[..j + 1][..j] == sources[..j] && sources[..j + 1][j] == sources[j];
      var more := DestinationAlerts(Buckets(sources[j], "destinations"));
      alerts := alerts + more;
    }
    assert sources[..|sources|] == sources;
  }

  /** The outer loop of `alert_query`: the records of each signature bucket's
      sources, signature by signature. */
  method FlattenAlertBuckets(sigs: seq<Json>) returns (alerts: seq<Json>)
    ensures alerts == SignatureRecords(sigs)
  {
    alerts := [];
    for i := 0 to |sigs|
      invariant alerts == SignatureRecords(sigs[..i])
    {
      assert sigs[..i + 1][..i] == sigs[..i] && sigs[..i + 1][i] == sigs[i];
      var more := SourceAlerts(Buckets(sigs[i], "sources"));
      alerts := alerts + more;
    }
    assert sigs[..|sigs|] == sigs;
  }

  /** `alert_query` on the search response: the backend's error, or the records of
      every destination bucket in signature, source, destination order (none when
      the response has no aggregations). */
  method AlertQuery(ecs: bool, response: SearchResponse) returns (r: Result<Json, DatastoreError>)
    ensures response.error.Some? ==> r == Err(ElasticSearchError(response.error.value))
    ensures response.error.None? ==> r == Ok(JObj(map[
      "ecs" := JBool(ecs),
      "alerts" := JArr(if response.aggregations.Some? then SignatureRecords(Buckets(response.aggregations.value, "signatures")) else [])]))
  {
    if response.error.Some? {
      return Err(ElasticSearchError(response.error.value));
    }
    var alerts: seq<Json> := [];
    if response.aggregations.Some? {
      alerts := FlattenAlertBuckets(Buckets(response.aggregations.value, "signatures"));
    }
    r := Ok(JObj(map["ecs" := JBool(ecs), "alerts" := JArr(alerts)]));
  }

  /** `event_query`'s reply: the hits as returned, with the layout flag. */
  function EventQueryReply(ecs: bool, response: Json): Json {
    JObj(map["ecs" := JBool(ecs), "data" := Get(Get(response, "hits"), "hits")])
  }

  /** One point of the histogram reply. */
  function HistogramPoint(bucket: Json): Json {
    JObj(map["key" := Get(bucket, "key"), "count" := Get(bucket, "doc_count"), "key_as_string" := Get(bucket, "key_as_string")])
  }

  /** The reshaping loop of `histogram`: one point per bucket of `events_over_time`,
      in order, each with its key, count and key string. */
  method HistogramData(response: Json) returns (data: seq<Json>)
    ensures var bs := Buckets(Get(response, "aggregations"), "events_over_time");
      |data| == |bs| && forall i :: 0 <= i < |bs| ==> data[i] == HistogramPoint(bs[i])
  {
    var buckets := Buckets(Get(response, "aggregations"), "events_over_time");
    data := [];
    for i := 0 to |buckets|
      invariant |data| == i && forall k :: 0 <= k < i ==> data[k] == HistogramPoint(buckets[k])
    {
      var b := buckets[i];
      data := data + [JObj(map["key" := Get(b, "key"), "count" := Get(b, "doc_count"), "key_as_string" := Get(b, "key_as_string")])];
    }
  }

  /** One entry of the agg reply. */
  function AggEntry(bucket: Json): Json {
    JObj(map["key" := Get(bucket, "key"), "count" := Get(bucket, "doc_count")])
  }

  /** The reshaping loop of `agg`: one key/count entry per bucket of `agg`, in order. */
  method AggData(response: Json) returns (data: seq<Json>)
    ensures var bs := Buckets(Get(response, "aggregations"), "agg");
      |data| == |bs| && forall i :: 0 <= i < |bs| ==> data[i] == AggEntry(bs[i])
  {
    var buckets := Buckets(Get(response, "aggregations"), "agg");
    data := [];
    for i := 0 to |buckets|
      invariant |data| == i && forall k :: 0 <= k < i ==> data[k] == AggEntry(buckets[k])
    {
      var b := buckets[i];
      data := data + [JObj(map["key" := Get(b, "key"), "count" := Get(b, "doc_count")])];
    }
  }

  /** The `app_proto` object of one flow bucket: each sub-bucket with a string key
      and a non-negative integer count sets that key to the count (a later bucket
      with the same key wins). */
  function AppProtoCounts(buckets: seq<Json>): map<string, Json>
    decreases |buckets|
  {
    if |buckets| == 0 then map[]
    else
      var m := AppProtoCounts(buckets[..|buckets| - 1]);
      var b := buckets[|buckets| - 1];
      var key := Get(b, "key");
      var count := Get(b, "doc_count");
      if key.JStr? && count.JNum? && count.n >= 0 then m[key.s := JNum(count.n)] else m
  }

  /** Only string keys with a non-negative count appear, each with such a count. */
  lemma {:induction false} AppProtoCountsKeys(buckets: seq<Json>, k: string)
    ensures k in AppProtoCounts(buckets) <==>
      exists i :: 0 <= i < |buckets| && Get(buckets[i], "key") == JStr(k)
        && Get(buckets[i], "doc_count").JNum? && Get(buckets[i], "doc_count").n >= 0
    ensures k in AppProtoCounts(buckets) ==> AppProtoCounts(buckets)[k].JNum? && AppProtoCounts(buckets)[k].n >= 0
    decreases |buckets|
  {
    if |buckets| > 0 {
      var init := buckets[..|buckets| - 1];
      AppProtoCountsKeys(init, k);
      assert forall i :: 0 <= i < |init| ==> init[i] == buckets[i];
    }
  }

  /** The value kept for a protocol is the `doc_count` of the last sub-bucket
      that carries that key with a non-negative count. */
  lemma {:induction false} AppProtoCountsValue(buckets: seq<Json>, k: string)
    ensures k in AppProtoCounts(buckets) ==>
      exists i :: 0 <= i < |buckets| && Get(buckets[i], "key") == JStr(k)
        && Get(buckets[i], "doc_count").JNum? && Get(buckets[i], "doc_count").n >= 0
        && AppProtoCounts(buckets)[k] == Get(buckets[i], "doc_count")
        && forall j :: i < j < |buckets| ==>
             !(Get(buckets[j], "key") == JStr(k) && Get(buckets[j], "doc_count").JNum?
               && Get(buckets[j], "doc_count").n >= 0)
    decreases |buckets|
  {
    if |buckets| > 0 && k in AppProtoCounts(buckets) {
      var last := |buckets| - 1;
      var init := buckets[..last];
      var b := buckets[last];
      if Get(b, "key") == JStr(k) && Get(b, "doc_count").JNum? && Get(b, "doc_count").n >= 0 {
        assert AppProtoCounts(buckets)[k] == Get(b, "doc_count");
      } else {
        AppProtoCountsValue(init, k);
        var i :| 0 <= i < |init| && Get(init[i], "key") == JStr(k)
          && Get(init[i], "doc_count").JNum? && Get(init[i], "doc_count").n >= 0
          && AppProtoCounts(init)[k] == Get(init[i], "doc_count")
          && forall j :: i < j < |init| ==>
               !(Get(init[j], "key") == JStr(k) && Get(init[j], "doc_count").JNum?
                 && Get(init[j], "doc_count").n >= 0);
        assert forall j :: 0 <= j < |init| ==> init[j] == buckets[j];
      }
    }
  }

  /** One entry of the flow histogram reply: key and event count, plus the
      per-protocol counts when the bucket has an `app_proto` bucket list. */
  function FlowEntry(bucket: Json): Json {
    var base := map["key" := Get(bucket, "key"), "events" := Get(bucket, "doc_count")];
    var protos := Get(Get(bucket, "app_proto"), "buckets");
    if protos.JArr? then JObj(base["app_proto" := JObj(AppProtoCounts(protos.items))]) else JObj(base)
  }

  /** The reshaping loops of `flow_histogram`: one entry per histogram bucket, in
      order, with the inner loop over the protocol sub-buckets. */
  method FlowHistogramData(response: Json) returns (data: seq<Json>)
    ensures var bs := Buckets(Get(response, "aggregations"), "histogram");
      |data| == |bs| && forall i :: 0 <= i < |bs| ==> data[i] == FlowEntry(bs[i])
  {
    var buckets := Buckets(Get(response, "aggregations"), "histogram");
    data := [];
    for i := 0 to |buckets|
      invariant |data| == i && forall k :: 0 <= k < i ==> data[k] == FlowEntry(buckets[k])
    {
      var b := buckets[i];
      var entry := map["key" := Get(b, "key"), "events" := Get(b, "doc_count")];
      var protos := Get(Get(b, "app_proto"), "buckets");
      if protos.JArr? {
        var counts: map<string, Json> := map[];
        for j := 0 to |protos.items|
          invariant counts == AppProtoCounts(protos.items[..j])
        {
          assert protos.items[..j + 1][..j] == protos.items[..j];
          var key := Get(protos.items[j], "key");
          var count := Get(protos.items[j], "doc_count");
          if key.JStr? && count.JNum? && count.n >= 0 {
            counts := counts[key.s := JNum(count.n)];
          }
        }
        assert protos.items[..|protos.items|] == protos.items;
        entry := entry["app_proto" := JObj(counts)];
      }
      data := data + [JObj(entry)];
    }
  }
}
