/** The value types shared by the datastore facade and both event stores: the error
    taxonomy, the per-call parameter bundles, the alert-group address, the history
    entries recorded by workflow actions and the histogram interval. */
module DatastoreTypes {
  import opened Base

  /** `DatastoreError`. Causes carried by the source's variants (a rusqlite error, a
      boxed error, a chrono parse error, an anyhow error) are kept as their message. */
  datatype DatastoreError =
    | Unimplemented
    | EventNotFound
    | SQLiteError(sqlite: string)
    | GenericError(generic: string)
    | ElasticSearchError(reason: string)
    | ElasticError(elastic: string)
    | TimestampParseError(timestamp: string)
    | EventParseError
    | HistogramIntervalParseError(input: string)
    | AnyhowError(message: string)

  /** The foreign error types that `?` converts into a `DatastoreError`. */
  datatype ForeignError =
    | BoxedError(boxed: string)
    | ChronoParseError(chrono: string)
    | Anyhow(anyhow: string)
    | Rusqlite(rusqlite: string)
    | SerdeJson(serde: string)

  /** The `From` conversions into `DatastoreError`. Each foreign error lands in its own
      variant and keeps its cause, except a JSON error, which becomes the cause-less
      `EventParseError`. */
  function FromForeign(e: ForeignError): (r: DatastoreError)
    ensures e.BoxedError? <==> r.GenericError?
    ensures e.ChronoParseError? <==> r.TimestampParseError?
    ensures e.Anyhow? <==> r.AnyhowError?
    ensures e.Rusqlite? <==> r.SQLiteError?
    ensures e.SerdeJson? <==> r == EventParseError
    ensures r.GenericError? ==> r.generic == e.boxed
    ensures r.TimestampParseError? ==> r.timestamp == e.chrono
    ensures r.AnyhowError? ==> r.message == e.anyhow
    ensures r.SQLiteError? ==> r.sqlite == e.rusqlite
  {
    match e
    case BoxedError(m) => GenericError(m)
    case ChronoParseError(m) => TimestampParseError(m)
    case Anyhow(m) => AnyhowError(m)
    case Rusqlite(m) => SQLiteError(m)
    case SerdeJson(_) => EventParseError
  }

  /** `HistogramInterval` */
  datatype HistogramInterval = Minute | Hour | Day

  /** The word `HistogramInterval::from_str` accepts for each interval. */
  function IntervalName(i: HistogramInterval): string {
    match i
    case Minute => "minute"
    case Hour => "hour"
    case Day => "day"
  }

  /** `HistogramInterval::from_str`: exactly the three lower-case words are accepted;
      anything else is an error that carries the rejected input. */
  function HistogramIntervalFromStr(s: string): (r: Result<HistogramInterval, DatastoreError>)
    ensures r.Ok? <==> s == "minute" || s == "hour" || s == "day"
    ensures r.Ok? ==> IntervalName(r.value) == s
    ensures r.Err? ==> r.error == HistogramIntervalParseError(s)
  {
    if s == "minute" then Ok(Minute)
    else if s == "hour" then Ok(Hour)
    else if s == "day" then Ok(Day)
    else Err(HistogramIntervalParseError(s))
  }

  /** `from_str` inverts `IntervalName`: every interval is parsed back from its word. */
  lemma IntervalNameRoundTrip(i: HistogramInterval)
    ensures HistogramIntervalFromStr(IntervalName(i)) == Ok(i)
  {
    match i
    case Minute =>
    case Hour =>
    case Day =>
  }

  /** The unit test of `from_str`: "minute" is `Minute` and "bad" is rejected. */
  lemma HistogramIntervalFromStrExamples()
    ensures HistogramIntervalFromStr("minute") == Ok(Minute)
    ensures HistogramIntervalFromStr("bad").Err?
  {
  }

  /** `EventQueryParams`. Timestamps are nanoseconds since the epoch. */
  datatype EventQueryParams = EventQueryParams(
    queryString: Option<string>,
    order: Option<string>,
    minTimestamp: Option<int>,
    maxTimestamp: Option<int>,
    eventType: Option<string>,
    size: Option<nat>,
    sortBy: Option<string>)

  /** `HistogramParameters` */
  datatype HistogramParameters = HistogramParameters(
    minTimestamp: Option<int>,
    maxTimestamp: Option<int>,
    interval: Option<HistogramInterval>,
    eventType: Option<string>,
    dnsType: Option<string>,
    addressFilter: Option<string>,
    queryString: Option<string>,
    sensorName: Option<string>)

  /** `AggParameters` */
  datatype AggParameters = AggParameters(
    eventType: Option<string>,
    dnsType: Option<string>,
    queryString: Option<string>,
    addressFilter: Option<string>,
    minTimestamp: Option<int>,
    agg: string,
    size: nat)

  /** `FlowHistogramParameters` */
  datatype FlowHistogramParameters = FlowHistogramParameters(
    mints: Option<int>,
    interval: Option<string>,
    queryString: Option<string>)

  /** `StatsAggQueryParams`. Durations are nanoseconds (a `time::Duration`). */
  datatype StatsAggQueryParams = StatsAggQueryParams(
    field: string,
    duration: int,
    interval: int,
    sensorName: Option<string>,
    startTime: int)

  /** `AlertQueryOptions`: free text, a lower time bound and a list of tags, where a
      leading `-` asks for the tag to be absent. */
  datatype AlertQueryOptions = AlertQueryOptions(
    timestampGte: Option<int>,
    queryString: Option<string>,
    tags: seq<string>)

  /** `AlertGroupSpec`: the address of an alert group, a signature/source/destination
      triple within a closed time window (nanoseconds). */
  datatype AlertGroupSpec = AlertGroupSpec(
    signatureId: int,
    srcIp: string,
    destIp: string,
    minTimestamp: int,
    maxTimestamp: int)

  /** The workflow actions a history entry records. */
  datatype Action = Archived | Escalated | Deescalated | Commented

  /** `HistoryEntry` */
  datatype HistoryEntry = HistoryEntry(
    username: string,
    timestamp: int,
    action: Action,
    comment: Option<string>)

  /** The username recorded by actions that have no session. */
  const ANONYMOUS: string := "anonymous"
}
