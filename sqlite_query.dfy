/** How the SQLite event store turns a request into SQL: WHERE conditions paired
    with their bound parameters, the bounded loops that consume a query string,
    the retry loop around a query, and the counter-reset derivative of the stats
    endpoint. */
module SQLiteQuery {
  import opened Base
  import opened DatastoreTypes

  /** A bound parameter: `i64` or text. */
  datatype SqlParam = PInt(i: int) | PText(t: string)

  /** One WHERE condition together with the parameter its single `?` takes. */
  datatype Cond = Cond(sql: string, param: SqlParam)

  /** The parallel `filters` / `params` vectors the source keeps, read as pairs. */
  function Conds(filters: seq<string>, params: seq<SqlParam>): (r: seq<Cond>)
    requires |filters| == |params|
    ensures |r| == |filters|
    ensures forall i :: 0 <= i < |r| ==> r[i] == Cond(filters[i], params[i])
  {
    seq(|filters|, i requires 0 <= i < |filters| => Cond(filters[i], params[i]))
  }

  /** One loop step: pushing `c` onto both vectors moves it from the conditions
      still to come to those collected. */
  lemma AppendStep(filters: seq<string>, params: seq<SqlParam>, c: Cond, tail: seq<Cond>, whole: seq<Cond>)
    requires |filters| == |params|
    requires Conds(filters, params) + ([c] + tail) == whole
    ensures Conds(filters + [c.sql], params + [c.param]) + tail == whole
  {
    CondsAppend(filters, params, c);
    assert Conds(filters, params) + ([c] + tail) == (Conds(filters, params) + [c]) + tail;
  }

  lemma CondsAppend(filters: seq<string>, params: seq<SqlParam>, c: Cond)
    requires |filters| == |params|
    ensures Conds(filters + [c.sql], params + [c.param]) == Conds(filters, params) + [c]
  {
  }

  // ---------------------------------------------------------------------------
  // Query strings
  // ---------------------------------------------------------------------------

  /** What `queryparser::parse_query_string` returns for the front of a query
      string: an optional key, a value, and the unconsumed rest. */
  datatype ParsedTerm = ParsedTerm(key: Option<string>, val: string, rem: string)

  /** The query-string parser, which is not part of this model. */
  type QsParser = string -> ParsedTerm

  const EVENT_TYPE_IS: string := "json_extract(events.source, '$.event_type') = ?"

  /** `json_extract(events.source, '$.<key>')` */
  function JsonExtract(key: string): string {
    "json_extract(events.source, '$." + key + "')"
  }

  /** A `key:value` term: an exact comparison with the integer when the value
      parses as an `i64`, a substring match (`%value%`) otherwise. */
  function KeyValueCond(key: string, val: string): (c: Cond)
    ensures ParseI64(val).Some? ==> c == Cond(JsonExtract(key) + " = ?", PInt(ParseI64(val).value))
    ensures ParseI64(val).None? ==> c == Cond(JsonExtract(key) + " LIKE ?", PText("%" + val + "%"))
  {
    match ParseI64(val)
    case Some(n) => Cond(JsonExtract(key) + " = ?", PInt(n))
    case None => Cond(JsonExtract(key) + " LIKE ?", PText("%" + val + "%"))
  }

  /** A bare word: a substring match anywhere in the stored event. */
  function TextCond(val: string): Cond {
    Cond("events.source LIKE ?", PText("%" + val + "%"))
  }

  /** The condition a parsed term contributes, if any: a term with neither a key
      nor a value contributes nothing. */
  function TermCond(t: ParsedTerm): (r: Option<Cond>)
    ensures r.None? <==> t.key.None? && t.val == ""
  {
    if t.key.Some? then Some(KeyValueCond(t.key.value, t.val))
    else if t.val != "" then Some(TextCond(t.val))
    else None
  }

  /** `TermCond` as a list of zero or one condition. */
  function TermConds(t: ParsedTerm): (r: seq<Cond>)
    ensures |r| <= 1
  {
    match TermCond(t)
    case None => []
    case Some(c) => [c]
  }

  /** The alert query's loop may call the parser at most this many times. */
  const ALERT_QS_MAX_CALLS: nat := 128

  /** The conditions the alert query's loop collects from `qs` after `calls`
      parser calls: it stops once the call budget is spent or at the first
      term that contributes nothing. */
  function AlertQsConds(parse: QsParser, qs: string, calls: nat): seq<Cond>
    decreases ALERT_QS_MAX_CALLS - calls
  {
    if calls >= ALERT_QS_MAX_CALLS then []
    else
      var t := parse(qs);
      match TermCond(t)
      case None => []
      case Some(c) => [c] + AlertQsConds(parse, t.rem, calls + 1)
  }

  /** The number of parser calls that loop makes. */
  function AlertQsCalls(parse: QsParser, qs: string, calls: nat): nat
    decreases ALERT_QS_MAX_CALLS - calls
  {
    if calls >= ALERT_QS_MAX_CALLS then 0
    else
      var t := parse(qs);
      if TermCond(t).None? then 1 else 1 + AlertQsCalls(parse, t.rem, calls + 1)
  }

  /** Whatever the parser does, the alert query's loop ends after at most 128
      calls and collects one condition per call except the last. */
  lemma {:induction false} AlertQsBounded(parse: QsParser, qs: string, calls: nat)
    requires calls <= ALERT_QS_MAX_CALLS
    ensures AlertQsCalls(parse, qs, calls) <= ALERT_QS_MAX_CALLS - calls
    ensures |AlertQsConds(parse, qs, calls)| <= AlertQsCalls(parse, qs, calls)
    decreases ALERT_QS_MAX_CALLS - calls
  {
    if calls < ALERT_QS_MAX_CALLS {
      var t := parse(qs);
      if TermCond(t).Some? {
        AlertQsBounded(parse, t.rem, calls + 1);
      }
    }
  }

  /** The alert query's query-string loop (the counter is incremented before the
      budget check, so at most 128 parser calls). */
  method AlertQueryStringConds(parse: QsParser, qs: string)
    returns (filters: seq<string>, params: seq<SqlParam>)
    ensures |filters| == |params|
    ensures Conds(filters, params) == AlertQsConds(parse, qs, 0)
  {
    filters, params := [], [];
    var rest := qs;
    var counter: nat := 0;
    while true
      invariant counter <= ALERT_QS_MAX_CALLS
      invariant |filters| == |params|
      invariant Conds(filters, params) + AlertQsConds(parse, rest, counter) == AlertQsConds(parse, qs, 0)
      decreases ALERT_QS_MAX_CALLS - counter
    {
      ghost var before := counter;
      counter := counter + 1;
      if counter > ALERT_QS_MAX_CALLS {
        break;
      }
      var t := parse(rest);
      var c: Cond;
      if t.key.Some? {
        c := KeyValueCond(t.key.value, t.val);
      } else if t.val != "" {
        c := TextCond(t.val);
      } else {
        break;
      }
      assert AlertQsConds(parse, rest, before) == [c] + AlertQsConds(parse, t.rem, counter);
      AppendStep(filters, params, c, AlertQsConds(parse, t.rem, counter), AlertQsConds(parse, qs, 0));
      filters, params := filters + [c.sql], params + [c.param];
      rest := t.rem;
    }
  }

  /** The event query's loop may call the parser while its counter is at most
      this value. */
  const EVENT_QS_MAX_COUNTER: nat := 100

  /** The conditions the event query's loop collects: it stops when the query
      string is used up or the counter passes 100, and skips (without stopping)
      terms that contribute nothing. */
  function EventQsConds(parse: QsParser, qs: string, counter: nat): seq<Cond>
    decreases EVENT_QS_MAX_COUNTER + 1 - counter
  {
    if qs == [] || counter > EVENT_QS_MAX_COUNTER then []
    else
      var t := parse(qs);
      TermConds(t) + EventQsConds(parse, t.rem, counter + 1)
  }

  /** The number of parser calls the event query's loop makes. */
  function EventQsCalls(parse: QsParser, qs: string, counter: nat): nat
    decreases EVENT_QS_MAX_COUNTER + 1 - counter
  {
    if qs == [] || counter > EVENT_QS_MAX_COUNTER then 0
    else 1 + EventQsCalls(parse, parse(qs).rem, counter + 1)
  }

  /** The event query's loop ends after at most 101 parser calls, however the
      parser behaves, and collects at most one condition per call. */
  lemma {:induction false} EventQsBounded(parse: QsParser, qs: string, counter: nat)
    requires counter <= EVENT_QS_MAX_COUNTER + 1
    ensures EventQsCalls(parse, qs, counter) <= EVENT_QS_MAX_COUNTER + 1 - counter
    ensures |EventQsConds(parse, qs, counter)| <= EventQsCalls(parse, qs, counter)
    decreases EVENT_QS_MAX_COUNTER + 1 - counter
  {
    if qs != [] && counter <= EVENT_QS_MAX_COUNTER {
      EventQsBounded(parse, parse(qs).rem, counter + 1);
    }
  }

  /** An empty query string adds no condition. */
  lemma EventQsEmpty(parse: QsParser)
    ensures EventQsConds(parse, "", 0) == []
    ensures EventQsCalls(parse, "", 0) == 0
  {
  }

  lemma EventQsUnfold(parse: QsParser, qs: string, counter: nat)
    requires qs != [] && counter <= EVENT_QS_MAX_COUNTER
    ensures EventQsConds(parse, qs, counter)
      == TermConds(parse(qs)) + EventQsConds(parse, parse(qs).rem, counter + 1)
  {
  }

  /** One turn of the event query's loop keeps its invariant. */
  lemma EventQsAdvance(parse: QsParser, rest: string, counter: nat,
                       filters: seq<string>, params: seq<SqlParam>, whole: seq<Cond>)
    requires rest != [] && counter <= EVENT_QS_MAX_COUNTER
    requires |filters| == |params|
    requires Conds(filters, params) + EventQsConds(parse, rest, counter) == whole
    ensures var t := parse(rest);
      match TermCond(t)
      case None => Conds(filters, params) + EventQsConds(parse, t.rem, counter + 1) == whole
      case Some(c) => Conds(filters + [c.sql], params + [c.param]) + EventQsConds(parse, t.rem, counter + 1) == whole
  {
    var t := parse(rest);
    EventQsUnfold(parse, rest, counter);
    match TermCond(t)
    case None =>
    case Some(c) =>
      AppendStep(filters, params, c, EventQsConds(parse, t.rem, counter + 1), whole);
  }

  /** The event query's query-string loop. */
  method EventQueryStringConds(parse: QsParser, qs: string)
    returns (filters: seq<string>, params: seq<SqlParam>)
    ensures |filters| == |params|
    ensures Conds(filters, params) == EventQsConds(parse, qs, 0)
  {
    filters, params := [], [];
    var rest := qs;
    var counter: nat := 0;
    while true
      invariant counter <= EVENT_QS_MAX_COUNTER + 1
      invariant |filters| == |params|
      invariant Conds(filters, params) + EventQsConds(parse, rest, counter) == EventQsConds(parse, qs, 0)
      decreases EVENT_QS_MAX_COUNTER + 1 - counter
    {
      if rest == [] || counter > EVENT_QS_MAX_COUNTER {
        assert Conds(filters, params) + [] == Conds(filters, params);
        break;
      }
      var t := parse(rest);
      EventQsAdvance(parse, rest, counter, filters, params, EventQsConds(parse, qs, 0));
      if t.key.Some? {
        var c := KeyValueCond(t.key.value, t.val);
        filters, params := filters + [c.sql], params + [c.param];
      } else if t.val != "" {
        var c := TextCond(t.val);
        filters, params := filters + [c.sql], params + [c.param];
      }
      rest := t.rem;
      counter := counter + 1;
    }
  }

  // ---------------------------------------------------------------------------
  // Placeholders
  // ---------------------------------------------------------------------------

  lemma PlaceholderTail(prefix: string, tail: string)
    requires '?' !in prefix
    requires tail == " = ?" || tail == " LIKE ?"
    ensures CountChar(prefix + tail, '?') == 1
  {
    CountCharAppend(prefix, tail, '?');
    CountCharAbsent(prefix, '?');
    assert tail == tail[..|tail| - 1] + "?";
    CountCharAppend(tail[..|tail| - 1], "?", '?');
    CountCharAbsent(tail[..|tail| - 1], '?');
  }

  /** Every condition a query-string term contributes holds exactly one `?`
      placeholder for its one parameter, as long as the key (which is spliced
      into the SQL text) has none of its own. */
  lemma TermCondOnePlaceholder(t: ParsedTerm)
    requires TermCond(t).Some?
    requires t.key.Some? ==> '?' !in t.key.value
    ensures CountChar(TermCond(t).value.sql, '?') == 1
  {
    var c := TermCond(t).value;
    if t.key.Some? {
      var k := t.key.value;
      var prefix := "json_extract(events.source, '$." + k + "')";
      assert '?' !in "json_extract(events.source, '$.";
      assert '?' !in "')";
      assert '?' !in prefix;
      if ParseI64(t.val).Some? {
        assert c.sql == prefix + " = ?";
        PlaceholderTail(prefix, " = ?");
      } else {
        assert c.sql == prefix + " LIKE ?";
        PlaceholderTail(prefix, " LIKE ?");
      }
    } else {
      assert c.sql == "events.source" + " LIKE ?";
      assert '?' !in "events.source";
      PlaceholderTail("events.source", " LIKE ?");
    }
  }

  /** The keys a parser hands out never carry a `?`. */
  ghost predicate KeysWithoutPlaceholders(parse: QsParser) {
    forall qs :: parse(qs).key.Some? ==> '?' !in parse(qs).key.value
  }

  /** Every condition the alert query's loop collects has exactly one `?`,
      matched by its one parameter. */
  lemma {:induction false} AlertQsOnePlaceholderEach(parse: QsParser, qs: string, calls: nat)
    requires KeysWithoutPlaceholders(parse)
    ensures forall c :: c in AlertQsConds(parse, qs, calls) ==> CountChar(c.sql, '?') == 1
    decreases ALERT_QS_MAX_CALLS - calls
  {
    if calls < ALERT_QS_MAX_CALLS {
      var t := parse(qs);
      if TermCond(t).Some? {
        TermCondOnePlaceholder(t);
        AlertQsOnePlaceholderEach(parse, t.rem, calls + 1);
      }
    }
  }

  /** The same for the event query's loop. */
  lemma {:induction false} EventQsOnePlaceholderEach(parse: QsParser, qs: string, counter: nat)
    requires KeysWithoutPlaceholders(parse)
    ensures forall c :: c in EventQsConds(parse, qs, counter) ==> CountChar(c.sql, '?') == 1
    decreases EVENT_QS_MAX_COUNTER + 1 - counter
  {
    if qs != [] && counter <= EVENT_QS_MAX_COUNTER {
      var t := parse(qs);
      if TermCond(t).Some? {
        TermCondOnePlaceholder(t);
      }
      EventQsOnePlaceholderEach(parse, t.rem, counter + 1);
    }
  }

  // ---------------------------------------------------------------------------
  // Alert query
  // ---------------------------------------------------------------------------

  /** The condition a requested tag adds to the alert query: `archived`,
      `-archived` and `escalated` are understood; every other tag (including
      `-escalated`) is ignored. */
  function AlertTagCond(tag: string): (r: Option<Cond>)
    ensures r.Some? <==> tag == "archived" || tag == "-archived" || tag == "escalated"
    ensures tag == "archived" ==> r == Some(Cond("archived = ?", PInt(1)))
    ensures tag == "-archived" ==> r == Some(Cond("archived = ?", PInt(0)))
    ensures tag == "escalated" ==> r == Some(Cond("escalated = ?", PInt(1)))
  {
    if tag == "archived" then Some(Cond("archived = ?", PInt(1)))
    else if tag == "-archived" then Some(Cond("archived = ?", PInt(0)))
    else if tag == "escalated" then Some(Cond("escalated = ?", PInt(1)))
    else None
  }

  /** The tag conditions, in request order. */
  function AlertTagConds(tags: seq<string>): seq<Cond>
    decreases |tags|
  {
    if |tags| == 0 then []
    else
      AlertTagConds(tags[..|tags| - 1])
        + (match AlertTagCond(tags[|tags| - 1]) case None => [] case Some(c) => [c])
  }

  /** A condition appears among the tag conditions exactly when some requested
      tag asks for it. */
  lemma {:induction false} AlertTagCondsMembership(tags: seq<string>, c: Cond)
    ensures c in AlertTagConds(tags) <==> exists i :: 0 <= i < |tags| && AlertTagCond(tags[i]) == Some(c)
    decreases |tags|
  {
    if |tags| > 0 {
      var init := tags[..|tags| - 1];
      AlertTagCondsMembership(init, c);
      assert forall i :: 0 <= i < |init| ==> init[i] == tags[i];
      if c in AlertTagConds(tags) && c !in AlertTagConds(init) {
        assert AlertTagCond(tags[|tags| - 1]) == Some(c);
      }
    }
  }

  /** The tag loop of the alert query. */
  method AlertTagFilters(tags: seq<string>) returns (filters: seq<string>, params: seq<SqlParam>)
    ensures |filters| == |params|
    ensures Conds(filters, params) == AlertTagConds(tags)
  {
    filters, params := [], [];
    var i := 0;
    while i < |tags|
      invariant 0 <= i <= |tags|
      invariant |filters| == |params|
      invariant Conds(filters, params) == AlertTagConds(tags[..i])
    {
      var tag := tags[i];
      assert tags[..i + 1][..i] == tags[..i] && tags[..i + 1][i] == tag;
      if tag == "archived" {
        CondsAppend(filters, params, Cond("archived = ?", PInt(1)));
        filters, params := filters + ["archived = ?"], params + [PInt(1)];
      } else if tag == "-archived" {
        CondsAppend(filters, params, Cond("archived = ?", PInt(0)));
        filters, params := filters + ["archived = ?"], params + [PInt(0)];
      } else if tag == "escalated" {
        CondsAppend(filters, params, Cond("escalated = ?", PInt(1)));
        filters, params := filters + ["escalated = ?"], params + [PInt(1)];
      }
      i := i + 1;
    }
    assert tags[..|tags|] == tags;
  }

  /** A condition on an optional integer bound. */
  function BoundConds(sql: string, bound: Option<int>): seq<Cond> {
    match bound
    case None => []
    case Some(ts) => [Cond(sql, PInt(ts))]
  }

  /** The full WHERE list of the alert query: alerts only, then the tag
      conditions, the lower time bound and the query-string conditions. */
  function AlertQueryConds(options: AlertQueryOptions, parse: QsParser): seq<Cond> {
    [Cond(EVENT_TYPE_IS, PText("alert"))]
      + AlertTagConds(options.tags)
      + BoundConds("timestamp >= ?", options.timestampGte)
      + (match options.queryString case None => [] case Some(qs) => AlertQsConds(parse, qs, 0))
  }

  /** Appending a whole batch of filters and parameters. */
  lemma CondsConcat(f1: seq<string>, p1: seq<SqlParam>, f2: seq<string>, p2: seq<SqlParam>)
    requires |f1| == |p1| && |f2| == |p2|
    ensures Conds(f1 + f2, p1 + p2) == Conds(f1, p1) + Conds(f2, p2)
  {
  }

  /** Building the alert query's WHERE list. The first condition always
      restricts to alerts, so the WHERE clause is never empty. */
  method BuildAlertQueryFilters(options: AlertQueryOptions, parse: QsParser)
    returns (filters: seq<string>, params: seq<SqlParam>)
    ensures |filters| == |params| && |filters| >= 1
    ensures Conds(filters, params) == AlertQueryConds(options, parse)
    ensures filters[0] == EVENT_TYPE_IS && params[0] == PText("alert")
  {
    var tf, tp := AlertTagFilters(options.tags);
    CondsConcat([EVENT_TYPE_IS], [PText("alert")], tf, tp);
    filters, params := [EVENT_TYPE_IS] + tf, [PText("alert")] + tp;
    ghost var acc := [Cond(EVENT_TYPE_IS, PText("alert"))] + AlertTagConds(options.tags);
    assert Conds(filters, params) == acc;
    if options.timestampGte.Some? {
      CondsAppend(filters, params, Cond("timestamp >= ?", PInt(options.timestampGte.value)));
      filters, params := filters + ["timestamp >= ?"], params + [PInt(options.timestampGte.value)];
    }
    acc := acc + BoundConds("timestamp >= ?", options.timestampGte);
    assert Conds(filters, params) == acc;
    if options.queryString.Some? {
      var qf, qp := AlertQueryStringConds(parse, options.queryString.value);
      CondsConcat(filters, params, qf, qp);
      filters, params := filters + qf, params + qp;
    }
  }

  // ---------------------------------------------------------------------------
  // Event query
  // ---------------------------------------------------------------------------

  /** The parts of the event query that vary: the WHERE list with its parameters,
      the sort order, whether the `WHERE` keyword stays, and the row limit. */
  datatype SelectQuery = SelectQuery(
    filters: seq<string>,
    params: seq<SqlParam>,
    order: string,
    hasWhere: bool,
    limit: nat)

  const EVENT_QUERY_LIMIT: nat := 500

  /** The event query's WHERE list: event type, upper then lower time bound,
      then the query-string conditions. */
  function EventQueryConds(p: EventQueryParams, parse: QsParser): seq<Cond> {
    (match p.eventType case None => [] case Some(t) => [Cond(EVENT_TYPE_IS, PText(t))])
      + BoundConds("timestamp <= ?", p.maxTimestamp)
      + BoundConds("timestamp >= ?", p.minTimestamp)
      + (match p.queryString case None => [] case Some(qs) => EventQsConds(parse, qs, 0))
  }

  /** Building the event query. The order defaults to `DESC`, the `WHERE`
      keyword is dropped exactly when there are no conditions, and the limit is
      always 500: the requested size and sort field are not consulted. */
  method BuildEventQuery(p: EventQueryParams, parse: QsParser) returns (q: SelectQuery)
    ensures |q.filters| == |q.params|
    ensures Conds(q.filters, q.params) == EventQueryConds(p, parse)
    ensures q.order == p.order.GetOr("DESC")
    ensures q.hasWhere <==> |q.filters| > 0
    ensures q.limit == EVENT_QUERY_LIMIT
  {
    var filters: seq<string> := [];
    var params: seq<SqlParam> := [];
    if p.eventType.Some? {
      filters, params := [EVENT_TYPE_IS], [PText(p.eventType.value)];
    }
    ghost var acc: seq<Cond> := match p.eventType case None => [] case Some(t) => [Cond(EVENT_TYPE_IS, PText(t))];
    assert Conds(filters, params) == acc;
    if p.maxTimestamp.Some? {
      CondsAppend(filters, params, Cond("timestamp <= ?", PInt(p.maxTimestamp.value)));
      filters, params := filters + ["timestamp <= ?"], params + [PInt(p.maxTimestamp.value)];
    }
    acc := acc + BoundConds("timestamp <= ?", p.maxTimestamp);
    assert Conds(filters, params) == acc;
    if p.minTimestamp.Some? {
      CondsAppend(filters, params, Cond("timestamp >= ?", PInt(p.minTimestamp.value)));
      filters, params := filters + ["timestamp >= ?"], params + [PInt(p.minTimestamp.value)];
    }
    acc := acc + BoundConds("timestamp >= ?", p.minTimestamp);
    assert Conds(filters, params) == acc;
    if p.queryString.Some? {
      var qf, qp := EventQueryStringConds(parse, p.queryString.value);
      CondsConcat(filters, params, qf, qp);
      filters, params := filters + qf, params + qp;
    }
    var order := if p.order.Some? then p.order.value else "DESC";
    q := SelectQuery(filters, params, order, filters != [], EVENT_QUERY_LIMIT);
  }

  /** Without any criterion the event query has no WHERE clause at all. */
  lemma EventQueryUnfiltered(p: EventQueryParams, parse: QsParser)
    requires p.eventType.None? && p.minTimestamp.None? && p.maxTimestamp.None?
    requires p.queryString.None? || p.queryString == Some("")
    ensures EventQueryConds(p, parse) == []
  {
  }

  // ---------------------------------------------------------------------------
  // Retrying a query
  // ---------------------------------------------------------------------------

  /** The outcome of one attempt at running a query. */
  datatype Attempt<T> = Success(value: T) | Failure(message: string)

  /** The retry loop gives up after this many retries. */
  const MAX_RETRIES: nat := 100

  /** A failure worth retrying: its message mentions a lock. */
  predicate IsLockError(message: string) {
    Contains(message, "lock")
  }

  /** The result of the retry loop when attempt `k` (counting from 0) yields
      `attempts(k)` and `trys` retries have been made. */
  function RetryFrom<T>(attempts: nat -> Attempt<T>, trys: nat): Result<T, string>
    requires trys <= MAX_RETRIES
    decreases MAX_RETRIES - trys
  {
    match attempts(trys)
    case Success(v) => Ok(v)
    case Failure(e) =>
      if trys < MAX_RETRIES && IsLockError(e) then RetryFrom(attempts, trys + 1) else Err(e)
  }

  /** `retry_query_loop`. It returns the first success; a failure that does not
      mention a lock is returned at once; lock failures are retried, at most 100
      times, after which the last failure is returned. */
  method RetryQueryLoop<T>(attempts: nat -> Attempt<T>) returns (r: Result<T, string>, trys: nat)
    ensures trys <= MAX_RETRIES
    ensures r == RetryFrom(attempts, 0)
    ensures forall k :: 0 <= k < trys ==> attempts(k).Failure? && IsLockError(attempts(k).message)
    ensures r.Ok? ==> attempts(trys) == Success(r.value)
    ensures r.Err? ==> attempts(trys) == Failure(r.error)
    ensures r.Err? ==> trys == MAX_RETRIES || !IsLockError(r.error)
  {
    trys := 0;
    while true
      invariant trys <= MAX_RETRIES
      invariant RetryFrom(attempts, trys) == RetryFrom(attempts, 0)
      invariant forall k :: 0 <= k < trys ==> attempts(k).Failure? && IsLockError(attempts(k).message)
      decreases MAX_RETRIES - trys
    {
      match attempts(trys)
      case Success(v) =>
        return Ok(v), trys;
      case Failure(e) =>
        if trys < MAX_RETRIES && IsLockError(e) {
          trys := trys + 1;
        } else {
          return Err(e), trys;
        }
    }
  }

  /** The first attempt's success is returned as is. */
  lemma RetryFirstSuccess<T>(attempts: nat -> Attempt<T>)
    requires attempts(0).Success?
    ensures RetryFrom(attempts, 0) == Ok(attempts(0).value)
  {
  }

  /** A failure without a lock is never retried. */
  lemma RetryNonLockFailure<T>(attempts: nat -> Attempt<T>)
    requires attempts(0).Failure? && !IsLockError(attempts(0).message)
    ensures RetryFrom(attempts, 0) == Err(attempts(0).message)
  {
  }

  // ---------------------------------------------------------------------------
  // Stats
  // ---------------------------------------------------------------------------

  const NANOS_PER_SECOND: int := 1_000_000_000

  /** `sqlite_format_interval`: the interval in whole seconds, truncated. */
  function SqliteFormatInterval(nanos: int): (secs: int)
    ensures nanos >= 0 ==> secs * NANOS_PER_SECOND <= nanos < (secs + 1) * NANOS_PER_SECOND
  {
    TruncDiv(nanos, NANOS_PER_SECOND)
  }

  /** The bucket a stats row falls in: `(timestamp / 1000000000 / :interval) *
      :interval` under SQLite's truncating integer division; a zero interval
      makes the division yield NULL. */
  function BucketKey(timestamp: int, interval: int): Option<int> {
    if interval == 0 then None
    else Some(TruncDiv(TruncDiv(timestamp, NANOS_PER_SECOND), interval) * interval)
  }

  lemma MultipleMod(m: int, d: int)
    requires d > 0
    ensures (m * d) % d == 0
  {
    var x := m * d;
    var j := m - x / d;
    assert x == (x / d) * d + x % d;
    assert j * d == x % d by {
      assert j * d == m * d - (x / d) * d;
    }
  }

  /** For a positive interval and a timestamp after the epoch, the bucket key is
      the multiple of the interval at or just below the timestamp's second. */
  lemma BucketKeyBounds(timestamp: int, interval: int)
    requires timestamp >= 0 && interval > 0
    ensures BucketKey(timestamp, interval).Some?
    ensures var k := BucketKey(timestamp, interval).value;
      k % interval == 0 && k <= timestamp / NANOS_PER_SECOND < k + interval
  {
    var s := timestamp / NANOS_PER_SECOND;
    var q := s / interval;
    assert TruncDiv(timestamp, NANOS_PER_SECOND) == s;
    assert TruncDiv(s, interval) == q;
    assert s == q * interval + s % interval;
    MultipleMod(q, interval);
  }

  /** The WHERE list and named parameters of the stats query. */
  datatype StatsQuery = StatsQuery(
    filters: seq<string>,
    params: seq<(string, SqlParam)>)

  /** `get_stats`'s query: stats events from the start time on, of one sensor
      when one is named; the bucket interval is the whole seconds of the
      requested interval, and the field is a JSON path into the event. */
  function StatsQueryFor(p: StatsAggQueryParams): (q: StatsQuery)
    ensures |q.filters| == (if p.sensorName.Some? then 3 else 2)
    ensures q.filters[0] == "json_extract(events.source, '$.event_type') == 'stats'"
    ensures q.filters[1] == "timestamp >= :start_time"
    ensures (":interval", PInt(SqliteFormatInterval(p.interval))) in q.params
    ensures (":field", PText("$." + p.field)) in q.params
    ensures (":start_time", PInt(p.startTime)) in q.params
    ensures p.sensorName.Some? <==> (":sensor_name", PText(p.sensorName.GetOr(""))) in q.params
    ensures p.sensorName.Some? ==> q.filters[2] == "json_extract(events.source, '$.host') = :sensor_name"
    ensures |q.params| == |q.filters| + 1
  {
    var filters := [
      "json_extract(events.source, '$.event_type') == 'stats'",
      "timestamp >= :start_time"];
    var params := [
      (":interval", PInt(SqliteFormatInterval(p.interval))),
      (":field", PText("$." + p.field)),
      (":start_time", PInt(p.startTime))];
    match p.sensorName
    case None => StatsQuery(filters, params)
    case Some(name) =>
      StatsQuery(
        filters + ["json_extract(events.source, '$.host') = :sensor_name"],
        params + [(":sensor_name", PText(name))])
  }

  /** The increase of a counter between two samples; when it went down the
      counter was reset, and the new value is the increase since the reset. */
  function Deriv(previous: nat, current: nat): (d: nat)
    ensures d <= current
    ensures previous <= current ==> d + previous == current
    ensures current < previous ==> d == current
  {
    if previous <= current then current - previous else current
  }

  /** The derivative series: one point per sample after the first, stamped with
      that sample's bucket. */
  function DerivSeries(rows: seq<(int, nat)>): (r: seq<(int, nat)>)
    ensures |r| == if |rows| == 0 then 0 else |rows| - 1
    ensures forall i :: 0 <= i < |r| ==> r[i] == (rows[i + 1].0, Deriv(rows[i].1, rows[i + 1].1))
  {
    if |rows| <= 1 then []
    else seq(|rows| - 1, i requires 0 <= i < |rows| - 1 => (rows[i + 1].0, Deriv(rows[i].1, rows[i + 1].1)))
  }

  /** The sum of the values of a series. */
  function Total(s: seq<(int, nat)>): nat
    decreases |s|
  {
    if |s| == 0 then 0 else Total(s[..|s| - 1]) + s[|s| - 1].1
  }

  /** The series of a longer run is the series of the run without its last row,
      extended by the last step. */
  lemma DerivSeriesSnoc(rows: seq<(int, nat)>)
    requires |rows| >= 2
    ensures var d := DerivSeries(rows); var n := |rows|;
      |d| == n - 1 && d[..n - 2] == DerivSeries(rows[..n - 1])
      && d[n - 2] == (rows[n - 1].0, Deriv(rows[n - 2].1, rows[n - 1].1))
  {
    var d := DerivSeries(rows);
    var e := DerivSeries(rows[..|rows| - 1]);
    assert |d[..|rows| - 2]| == |e|;
    forall i | 0 <= i < |e|
      ensures d[i] == e[i]
    {
      assert rows[..|rows| - 1][i] == rows[i] && rows[..|rows| - 1][i + 1] == rows[i + 1];
    }
  }

  /** A run without resets stays without resets when its last row is dropped. */
  lemma NoResetPrefix(rows: seq<(int, nat)>)
    requires |rows| >= 2
    requires forall i :: 0 <= i < |rows| - 1 ==> rows[i].1 <= rows[i + 1].1
    ensures var init := rows[..|rows| - 1];
      && init[0] == rows[0] && init[|init| - 1] == rows[|rows| - 2]
      && forall i :: 0 <= i < |init| - 1 ==> init[i].1 <= init[i + 1].1
  {
    var init := rows[..|rows| - 1];
    forall i | 0 <= i < |init| - 1
      ensures init[i].1 <= init[i + 1].1
    {
      assert init[i] == rows[i] && init[i + 1] == rows[i + 1];
    }
  }

  /** While the counter never resets, the derivative adds up to the counter's
      overall increase. */
  lemma {:induction false} DerivTelescopes(rows: seq<(int, nat)>)
    requires |rows| >= 1
    requires forall i :: 0 <= i < |rows| - 1 ==> rows[i].1 <= rows[i + 1].1
    ensures rows[0].1 <= rows[|rows| - 1].1
    ensures Total(DerivSeries(rows)) == rows[|rows| - 1].1 - rows[0].1
    decreases |rows|
  {
    if |rows| > 1 {
      var n := |rows|;
      var init := rows[..n - 1];
      NoResetPrefix(rows);
      DerivTelescopes(init);
      DerivSeriesSnoc(rows);
      var d := DerivSeries(rows);
      assert d[n - 2].1 == rows[n - 1].1 - rows[n - 2].1 by {
        assert rows[n - 2].1 <= rows[n - 1].1;
      }
      assert Total(d) == Total(d[..n - 2]) + d[n - 2].1;
    }
  }

  /** The loop of `stats_agg_deriv` over the stats rows (bucket, maximum). */
  method StatsAggDeriv(rows: seq<(int, nat)>) returns (data: seq<(int, nat)>)
    ensures data == DerivSeries(rows)
  {
    data := [];
    var i := 0;
    while i < |rows|
      invariant 0 <= i <= |rows|
      invariant |data| == if i == 0 then 0 else i - 1
      invariant forall j :: 0 <= j < |data| ==> data[j] == (rows[j + 1].0, Deriv(rows[j].1, rows[j + 1].1))
    {
      if i != 0 {
        var previous := rows[i - 1].1;
        var value := if previous <= rows[i].1 then rows[i].1 - previous else rows[i].1;
        data := data + [(rows[i].0, value)];
      }
      i := i + 1;
    }
  }
}
