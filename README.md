# EveBox event datastore — a Dafny model

EveBox keeps Suricata EVE events either in Elasticsearch or in a single SQLite
database, and its web server talks to whichever it was configured with through a
`Datastore` enum that forwards each operation to the backend's event store. This
project models that layer:

- **the dispatcher** (`src/datastore.rs`): the two-backend enum, the error type and
  its conversions, `get_importer`, the parsing of histogram intervals, and the
  forwarding of every operation, including which operations the SQLite backend
  answers with `Unimplemented` (module `DatastoreFacade`, `DatastoreTypes`);
- **the Elasticsearch event store** (`src/elastic/eventstore.rs`): field-name
  mapping between the legacy and ECS layouts, the query-DSL filters it builds
  (alert groups, the inbox, event queries, histograms, aggregations, flow and stats
  queries), the painless add/remove-tags scripts run by update-by-query, and the
  reshaping of search responses into the JSON the web client reads (modules
  `ElasticQuery`, `ElasticScripts`, `ElasticEventStore`);
- **the DHCP report** (`src/elastic/report/dhcp.rs`): the filters of the five
  reports and the reshaping of their aggregations (module `DhcpReport`);
- **the SQLite event store** (`src/sqlite/eventstore.rs`): the WHERE conditions
  and their bound parameters collected for the alert and event queries, the
  query-string loops with their iteration caps, the retry-on-lock loop, the
  `archived`/`escalated` flag updates on the `events` table, the tags synthesised
  from those flags, the stats bucket arithmetic and the counter derivative
  (modules `SQLiteQuery`, `SQLiteEventStore`).

JSON is a datatype (`JsonValues.Json`); indexing a missing key or index yields
`null`, as serde_json's `Index` does. An Elasticsearch index is a sequence of
documents held by a class whose update-by-query methods rewrite it; the SQLite
`events` table is an array of rows held by a class whose UPDATE methods rewrite it
in place. Timestamps are integer nanoseconds. Responses from Elasticsearch, rows
from SQLite, clocks and the two query-string parsers are parameters.

## Model

| member | source | states |
|---|---|---|
| DatastoreTypes.FromForeign | src/datastore.rs:73-89 | each foreign error becomes the datastore error of its own kind: boxed, timestamp-parse, anyhow and rusqlite errors carry the original error, and a serde_json error becomes the cause-less `EventParseError` (the last two conversions are at src/sqlite/eventstore.rs:35-45) |
| DatastoreTypes.HistogramIntervalFromStr | src/datastore.rs:287-294 | exactly "minute", "hour" and "day" are accepted, each naming its interval; any other input is an error carrying that input |
| DatastoreTypes.IntervalNameRoundTrip | src/datastore.rs:287-294 | parsing the name of an interval gives back that interval |
| DatastoreTypes.HistogramIntervalFromStrExamples | src/datastore.rs:318-324 | "minute" parses to Minute and "bad" is rejected |
| DatastoreFacade.GetImporter | src/datastore.rs:102-108 | every backend yields an importer, and it is of that backend's own kind |
| DatastoreFacade.SupportMatrix | src/datastore.rs:110-264 | Elasticsearch supports every operation; SQLite lacks exactly the two comment operations, histogram, agg, flow histogram and the DHCP report |
| DatastoreFacade.ArchiveEventById | src/datastore.rs:110-116 | Elasticsearch: the archive script runs on the document with that id; SQLite: `archived` becomes 1 on the rows the id selects, and the result is `EventNotFound` exactly when none was selected |
| DatastoreFacade.EscalateEventById | src/datastore.rs:118-124 | as archive, with the escalate script / `escalated = 1` |
| DatastoreFacade.DeescalateEventById | src/datastore.rs:126-132 | as archive, with the remove-escalated script / `escalated = 0` |
| DatastoreFacade.ArchiveByAlertGroup | src/datastore.rs:156-165 | succeeds on both backends; the group's not-yet-archived documents or rows get archived and nothing else changes |
| DatastoreFacade.EscalateByAlertGroup | src/datastore.rs:167-177 | as archive-by-group for escalation; the username reaches Elasticsearch's history entry only, SQLite ignores it |
| DatastoreFacade.DeescalateByAlertGroup | src/datastore.rs:179-188 | removes escalation from the group's escalated documents or rows |
| DatastoreFacade.CommentByAlertGroup | src/datastore.rs:190-203 | succeeds exactly on Elasticsearch, appending the comment to the group's history; SQLite answers `Unimplemented` and its table is unchanged |
| DatastoreFacade.CommentEventById | src/datastore.rs:216-226 | succeeds exactly on Elasticsearch, appending the comment to the event's history; SQLite answers `Unimplemented` and its table is unchanged |
| DatastoreFacade.GetEventById | src/datastore.rs:134-143 | Elasticsearch answers as its event store does; SQLite always succeeds, finds nothing exactly when no row has that id, and a found event is the by-id record of a row with that id |
| DatastoreFacade.AlertQuery | src/datastore.rs:145-154 | an Elasticsearch error is passed on as `ElasticSearchError`; otherwise the reply is the ECS flag with the records of every signature, source and destination bucket (none without aggregations); SQLite returns one alert record per grouped row |
| DatastoreFacade.EventQuery | src/datastore.rs:205-214 | Elasticsearch returns the hits with the ECS flag (`EventQueryReply`); SQLite returns one record per row of the retried query, or the retry loop's error |
| DatastoreFacade.Histogram | src/datastore.rs:228-236 | succeeds exactly on Elasticsearch, one point per `events_over_time` bucket in order; SQLite answers `Unimplemented` |
| DatastoreFacade.Agg | src/datastore.rs:238-243 | succeeds exactly on Elasticsearch, one key/count entry per bucket in order; SQLite answers `Unimplemented` |
| DatastoreFacade.FlowHistogram | src/datastore.rs:245-253 | succeeds exactly on Elasticsearch, one entry per histogram bucket in order; SQLite answers `Unimplemented` |
| DatastoreFacade.ReportDhcp | src/datastore.rs:255-264 | SQLite answers `Unimplemented`; Elasticsearch rejects an unknown report name with an error naming it and otherwise returns that report |
| ElasticQuery.MapField | src/elastic/eventstore.rs:85-126 | ECS mode: the eight renamed names take their ECS field, a name already starting with `suricata` is kept, any other gains the prefix `suricata.eve.`; legacy mode: `.keyword` is added exactly to the sixteen keyword fields and every other name is kept |
| ElasticQuery.RenameTableSize | src/elastic/eventstore.rs:86-104 | the ECS rename table has eight entries |
| ElasticQuery.MapFieldEcsIdempotent | src/elastic/eventstore.rs:86-104 | in ECS mode, mapping a mapped name that is not itself renamed gives the same name back |
| ElasticQuery.AlertGroupFields | src/elastic/eventstore.rs:85-126 | the four fields of an alert group map to their ECS names and to their legacy names, with `.keyword` on the two addresses |
| ElasticQuery.TagTerms | src/elastic/eventstore.rs:239-242 | one `tags` term per tag, in order, as the add-by-group must-not list and the remove-by-group filters (lines 262-264) are built |
| ElasticQuery.TagTermsMeaning | src/elastic/eventstore.rs:233-270 | a document matches one of the tag terms exactly when it carries one of the tags |
| ElasticQuery.AlertGroupFilter | src/elastic/eventstore.rs:896-913 | six structured clauses |
| ElasticQuery.AlertGroupFilterMeaning | src/elastic/eventstore.rs:896-913 | a document satisfies every clause exactly when it is in the group (`InAlertGroup`): an alert with the group's signature id, source and destination inside the group's time window |
| ElasticQuery.ByIdQuery | src/elastic/eventstore.rs:272-287 | the by-id query is structured |
| ElasticQuery.ByIdQueryMeaning | src/elastic/eventstore.rs:272-287 | a document matches exactly when its id is the requested one |
| ElasticQuery.AddByGroupQuery | src/elastic/eventstore.rs:233-252 | the add-by-group query is structured |
| ElasticQuery.RemoveByGroupQuery | src/elastic/eventstore.rs:254-270 | the remove-by-group query is structured |
| ElasticQuery.AddByGroupQueryMeaning | src/elastic/eventstore.rs:233-252 | a document matches exactly when it is in the group and carries none of the tags |
| ElasticQuery.RemoveByGroupQueryMeaning | src/elastic/eventstore.rs:254-270 | a document matches exactly when it is in the group and carries all of the tags |
| ElasticQuery.QueryFilters | src/elastic/eventstore.rs:380-400 | no filter when the parser fails, otherwise one clause per parsed element, in order |
| ElasticQuery.QueryStringToFilters | src/elastic/eventstore.rs:380-400 | the loop produces exactly those filters |
| ElasticQuery.InboxTagsPartition | src/elastic/eventstore.rs:414-432 | every requested tag lands in exactly one of the filter and must-not lists |
| ElasticQuery.InboxMustNotMeaning | src/elastic/eventstore.rs:414-432 | a tag is excluded exactly when some `-x` was requested with x naming it, `-archived` naming the stored archive tag |
| ElasticQuery.InboxFilterMeaning | src/elastic/eventstore.rs:414-432 | a tag is required exactly when it was requested without `-`, `escalated` naming the stored escalation tag |
| ElasticQuery.InboxTagExamples | src/elastic/eventstore.rs:414-432 | `-archived` excludes the archive tag, `escalated` requires the escalation tag, `-escalated` excludes the plain word only |
| ElasticQuery.SplitInboxTags | src/elastic/eventstore.rs:414-432 | the loop builds exactly those two lists, placing each tag by `InboxTagPlacement` |
| ElasticQuery.BuildInboxQuery | src/elastic/eventstore.rs:402-465 | the inbox query starts with "event type exists" and "is an alert", adds the bound, query-string and tag clauses, sorts by @timestamp descending, groups by signature (2000), source (1000) and destination (500), and gives each destination the `escalated` filter on the stored escalation tag plus the newest and oldest single hits by @timestamp |
| ElasticQuery.InboxEscalatedMeaning | src/elastic/eventstore.rs:451 | a document is counted in a destination's `escalated` total exactly when it carries `evebox.escalated`; the plain word `escalated` alone is not counted |
| ElasticQuery.EventQueryRequest | src/elastic/eventstore.rs:559-606 | the event query's filters, sorted by `@timestamp` descending with 500 hits unless the caller says otherwise |
| ElasticQuery.EventQueryScope | src/elastic/eventstore.rs:559-606 | a document passing the structured filters has the requested event type and lies within the requested time bounds |
| ElasticQuery.HistogramIntervalField | src/elastic/eventstore.rs:683-711 | `interval` exactly before version 7, otherwise `calendar_interval` |
| ElasticQuery.StatsIntervalField | src/elastic/eventstore.rs:944-948 | `interval` exactly before version 7, otherwise `fixed_interval`, which differs from the histogram's name from version 7 on |
| ElasticQuery.HistogramVersionDefault | src/elastic/eventstore.rs:683-686 | a failed version request counts as version 6 (`MajorVersionOrDefault`), so the old `interval` parameter is used |
| ElasticQuery.ElasticFormatIntervalMeaning | src/elastic/eventstore.rs:1109-1117 | `ElasticFormatInterval` below one minute is the whole seconds followed by `s`, otherwise the whole minutes followed by `m`, and the number reads back as that count |
| ElasticQuery.ElasticFormatIntervalExamples | src/elastic/eventstore.rs:1109-1117 | 90 seconds format as "1m" and 1.5 seconds as "1s" |
| ElasticQuery.HistogramRequestFor | src/elastic/eventstore.rs:623-711 | the filters are: the event type exists, the lower and upper bounds, the event type, the DNS type and the query-string filters when given, and the host term exactly in legacy mode with a non-empty sensor; the should list is the source and destination address terms exactly when an address is given, with one required match; stats events are excluded; the interval (`HistogramIntervalValue`, `1h` by default), its parameter name by version, zero minimum count and the bounds |
| ElasticQuery.HistogramScope | src/elastic/eventstore.rs:627-659 | a document passing the structured histogram filters has an event type, lies within the bounds and has the requested type, DNS type and (legacy mode) sensor; without a query string every such document passes |
| ElasticQuery.AggRequestFor | src/elastic/eventstore.rs:749-811 | filters: the event type exists, then the event type, DNS type, lower bound and query-string filters when given; should: the two address terms exactly when an address is given, one of them required; aggregates the mapped field with the requested size |
| ElasticQuery.AggScope | src/elastic/eventstore.rs:750-780 | a document passing the structured agg filters has an event type, lies after the lower bound and has the requested type and DNS type; without a query string every such document passes |
| ElasticQuery.FlowHistogramRequestFor | src/elastic/eventstore.rs:830-870 | flow events whose type exists, then the lower bound when given (third clause) and the query-string filters when given (at the end), nothing else; the requested interval and the mapped `app_proto` field |
| ElasticQuery.FlowHistogramScope | src/elastic/eventstore.rs:834-842 | a document passing the structured flow filters is a flow event after the lower bound; without a query string every such document passes |
| ElasticQuery.StatsAggRequest | src/elastic/eventstore.rs:939-1012 | stats events from the start time, then the literal `host` term exactly when a sensor is named, the formatted interval under the version's parameter name, and the mapped field |
| ElasticQuery.StatsAggDerivRequest | src/elastic/eventstore.rs:1014-1040 | the same as the stats request except that the sensor term is on the mapped `host` field |
| ElasticQuery.StatsSensorClauses | src/elastic/eventstore.rs:957-1033 | the two stats requests agree except for the sensor field: `host` for stats_agg, `host.keyword` (legacy) or `suricata.eve.host` (ECS) for the derivative |
| ElasticScripts.AddedTags | src/elastic/eventstore.rs:143-162 | existing tags stay in front in order; every requested tag is present afterwards; what is appended is new and appears once |
| ElasticScripts.AddedTagsNoDup | src/elastic/eventstore.rs:143-162 | a duplicate-free tag list stays duplicate-free |
| ElasticScripts.AddedTagsPresent | src/elastic/eventstore.rs:143-162 | adding tags that are all present changes nothing |
| ElasticScripts.AddedTagsIdempotent | src/elastic/eventstore.rs:143-162 | adding the same tags twice is the same as adding them once |
| ElasticScripts.Without | src/elastic/eventstore.rs:203-217 | removing a tag keeps exactly the other entries |
| ElasticScripts.RemovedTags | src/elastic/eventstore.rs:203-217 | after the remove script a tag is present exactly when it was present and not requested |
| ElasticScripts.WithoutAppend | src/elastic/eventstore.rs:203-217 | removal distributes over concatenation |
| ElasticScripts.WithoutUnrequested | src/elastic/eventstore.rs:203-217 | removing one more tag from the kept list is keeping against one more request |
| ElasticScripts.RemovedTagsKeepsOrder | src/elastic/eventstore.rs:203-217 | the remove script keeps the surviving tags in their original order |
| ElasticScripts.UnrequestedNone | src/elastic/eventstore.rs:203-217 | removing no tags keeps the list |
| ElasticScripts.ApplyScript | src/elastic/eventstore.rs:137-231 | a script leaves id and fields alone, appends its history entry, and leaves every requested tag present (add) or absent (remove) |
| ElasticScripts.RunAddTagsScript | src/elastic/eventstore.rs:143-162 | the add script's loops compute that document |
| ElasticScripts.RunRemoveTagsScript | src/elastic/eventstore.rs:203-217 | the remove script's loops compute that document |
| ElasticScripts.CommentOnlyRecords | src/elastic/eventstore.rs:324-344 | a comment (add with no tags) leaves the tags alone and adds one history entry |
| ElasticScripts.UpdatedIndex | src/elastic/eventstore.rs:137-186 | update-by-query runs the script on exactly the matching documents and keeps the others |
| ElasticScripts.CountMatching | src/elastic/eventstore.rs:137-186 | the update count is zero exactly when no document matches |
| ElasticScripts.UpdateNothingMatched | src/elastic/eventstore.rs:137-186 | when nothing matches the index is unchanged |
| ElasticScripts.AddByGroupRepeatIsNoop | src/elastic/eventstore.rs:233-252 | after adding tags by group, the same query matches nothing, so repeating it changes nothing |
| ElasticScripts.RemoveByGroupRepeatIsNoop | src/elastic/eventstore.rs:254-270 | after removing tags by group, the same query matches nothing, so repeating it changes nothing |
| ElasticScripts.DeescalateByGroupNeedsBothTags | src/elastic/eventstore.rs:545-557 | a document carrying only the stored escalation tag is not reached by de-escalate-by-group |
| ElasticScripts.ByIdUpdateScope | src/elastic/eventstore.rs:272-322 | an update by id rewrites exactly the documents with that id |
| ElasticEventStore.EventStore.constructor | src/elastic/eventstore.rs:47-54 | a store over the given index and field layout |
| ElasticEventStore.EventStore.UpdateByQuery | src/elastic/eventstore.rs:137-231 | the index becomes the updated index and the count is the number of matching documents |
| ElasticEventStore.EventStore.ArchiveEventById | src/elastic/eventstore.rs:272-287 | the archive tag and an anonymous Archived entry on the document with that id |
| ElasticEventStore.EventStore.EscalateEventById | src/elastic/eventstore.rs:289-304 | the escalation tag and an anonymous Escalated entry on the document with that id |
| ElasticEventStore.EventStore.DeescalateEventById | src/elastic/eventstore.rs:306-322 | the escalation tag removed and an anonymous Deescalated entry on the document with that id |
| ElasticEventStore.EventStore.CommentEventById | src/elastic/eventstore.rs:324-344 | a Commented entry with the user and comment on the document with that id |
| ElasticEventStore.EventStore.ArchiveByAlertGroup | src/elastic/eventstore.rs:515-527 | both archive tags added to the group's documents lacking them |
| ElasticEventStore.EventStore.EscalateByAlertGroup | src/elastic/eventstore.rs:529-543 | both escalation tags added to the group's documents lacking them, with the user in the entry |
| ElasticEventStore.EventStore.DeescalateByAlertGroup | src/elastic/eventstore.rs:545-557 | both escalation tags removed from the group's documents carrying them |
| ElasticEventStore.EventStore.CommentByAlertGroup | src/elastic/eventstore.rs:608-621 | a Commented entry on every document of the group |
| ElasticEventStore.ArchiveByAlertGroupTwice | src/elastic/eventstore.rs:515-527 | archiving a group a second time leaves the index as the first time left it |
| ElasticEventStore.ArchiveThenDeescalateKeepsArchived | src/elastic/eventstore.rs:272-322 | archive then de-escalate leaves the document archived, not escalated, with its fields and two more history entries |
| ElasticEventStore.GetEventById | src/elastic/eventstore.rs:346-378 | an error exactly when the response has one; otherwise the first hit when the hits are a non-empty array, and nothing when they are absent, not an array or empty |
| ElasticEventStore.DestRecords | src/elastic/eventstore.rs:478-505 | one alert record (`AlertRecord`: count, newest event, escalated count, newest and oldest timestamps) per destination bucket, in order |
| ElasticEventStore.DestRecordsMembership | src/elastic/eventstore.rs:478-505 | a record is there exactly when some destination bucket produces it |
| ElasticEventStore.SourceRecordsMembership | src/elastic/eventstore.rs:478-505 | a record is there exactly when some source's destinations produce it |
| ElasticEventStore.SignatureRecordsMembership | src/elastic/eventstore.rs:478-505 | a record is in `SignatureRecords` exactly when some signature's sources produce it |
| ElasticEventStore.SourceRecordsCount | src/elastic/eventstore.rs:478-505 | there is one record per destination bucket across all sources |
| ElasticEventStore.DestinationAlerts | src/elastic/eventstore.rs:478-505 | the innermost loop builds those records |
| ElasticEventStore.SourceAlerts | src/elastic/eventstore.rs:478-505 | the middle loop builds those records |
| ElasticEventStore.FlattenAlertBuckets | src/elastic/eventstore.rs:478-505 | the three nested loops build the records of every signature, source and destination |
| ElasticEventStore.AlertQuery | src/elastic/eventstore.rs:467-513 | a response error becomes `ElasticSearchError`; otherwise the reply carries the ECS flag and the flattened records |
| ElasticEventStore.HistogramData | src/elastic/eventstore.rs:729-746 | one key/count/key-string point per bucket, in order |
| ElasticEventStore.AggData | src/elastic/eventstore.rs:812-827 | one key/count entry per bucket, in order |
| ElasticEventStore.AppProtoCountsKeys | src/elastic/eventstore.rs:871-894 | a protocol appears exactly when some sub-bucket has that string key and a non-negative count, and its value is a non-negative number |
| ElasticEventStore.AppProtoCountsValue | src/elastic/eventstore.rs:875-882 | a protocol's value is the doc_count of the last sub-bucket with that key and a non-negative count; no later sub-bucket qualifies |
| ElasticEventStore.FlowHistogramData | src/elastic/eventstore.rs:871-894 | one entry per histogram bucket, in order |
| DhcpReport.DhcpBaseFilters | src/elastic/report/dhcp.rs:34-45 | DHCP events, then the lower time bound if given, then the query string if given |
| DhcpReport.ReportKindFromName | src/elastic/report/dhcp.rs:47-54 | exactly the five report names are known, each naming its report |
| DhcpReport.ReportFilter | src/elastic/report/dhcp.rs:62-275 | ack and request filter on the DHCP message type; servers, mac and ip on replies |
| DhcpReport.MapDhcpEvent | src/elastic/report/dhcp.rs:331-351 | the fixed set of keys; timestamp and sensor from `@timestamp` and `agent.hostname` (ECS) or `timestamp` and `host` (legacy); client_mac, hostname, lease_time and assigned_ip from `suricata.eve.dhcp` (ECS) or `dhcp` (legacy) |
| DhcpReport.MapDhcpEventLayoutsAgree | src/elastic/report/dhcp.rs:331-351 | an ECS and a legacy document with the same DHCP section, timestamp and sensor give the same record |
| DhcpReport.MapDhcpEventSameKeys | src/elastic/report/dhcp.rs:331-351 | both layouts produce the same keys |
| DhcpReport.LatestEvents | src/elastic/report/dhcp.rs:96-102 | one mapped latest event per bucket, in order |
| DhcpReport.LatestEventsReport | src/elastic/report/dhcp.rs:57-161 | the ack and request loops produce exactly those records |
| DhcpReport.ServerEntries | src/elastic/report/dhcp.rs:190-198 | one ip/count entry per bucket, in order |
| DhcpReport.ServersReport | src/elastic/report/dhcp.rs:164-203 | the servers loop produces exactly those entries |
| DhcpReport.StringKeys | src/elastic/report/dhcp.rs:241-261 | at most one key per bucket |
| DhcpReport.StringKeysMembership | src/elastic/report/dhcp.rs:241-261 | a key is collected exactly when some bucket has it as a string and it is not the excluded one |
| DhcpReport.CollectStringKeys | src/elastic/report/dhcp.rs:241-261 | the inner loop collects exactly those keys |
| DhcpReport.MacEntries | src/elastic/report/dhcp.rs:241-261 | one entry per MAC bucket, in order |
| DhcpReport.MacReport | src/elastic/report/dhcp.rs:207-266 | the mac loop produces exactly those entries |
| DhcpReport.MacEntryExcludesUnspecified | src/elastic/report/dhcp.rs:241-261 | `0.0.0.0` never appears among a MAC's addresses |
| DhcpReport.IpEntries | src/elastic/report/dhcp.rs:301-324 | at most one entry per address bucket |
| DhcpReport.IpEntriesMembership | src/elastic/report/dhcp.rs:301-324 | an entry appears exactly for the buckets whose key is not `0.0.0.0` |
| DhcpReport.IpReport | src/elastic/report/dhcp.rs:270-329 | the ip loop produces exactly those entries |
| DhcpReport.DhcpReportFor | src/elastic/report/dhcp.rs:29-55 | an unknown name is an error naming it; a known one yields that report's reply |
| SQLiteQuery.KeyValueCond | src/sqlite/eventstore.rs:147-154 | a value that parses as an integer is compared with `=`, any other with `LIKE %value%` |
| Base.ParseI64 | src/sqlite/eventstore.rs:148 | `parse::<i64>()`: a parsed value is within the `i64` range and comes from a non-empty text |
| Base.IntDecimalRoundTrip | src/sqlite/eventstore.rs:148 | every `i64` rendered in decimal parses back to itself |
| SQLiteQuery.TermCond | src/sqlite/eventstore.rs:134-163 | a term contributes a condition unless it has neither key nor value |
| SQLiteQuery.AlertQsBounded | src/sqlite/eventstore.rs:134-163 | the parser is called at most 128 times and contributes at most one condition per call |
| SQLiteQuery.AlertQueryStringConds | src/sqlite/eventstore.rs:134-163 | the loop's filters and parameters stay in step and are the specified conditions |
| SQLiteQuery.EventQsBounded | src/sqlite/eventstore.rs:306-342 | the parser is called at most 101 times and contributes at most one condition per call |
| SQLiteQuery.EventQsEmpty | src/sqlite/eventstore.rs:306-342 | an empty query string adds nothing and calls no parser |
| SQLiteQuery.EventQueryStringConds | src/sqlite/eventstore.rs:306-342 | the loop's filters and parameters stay in step and are the specified conditions |
| SQLiteQuery.TermCondOnePlaceholder | src/sqlite/eventstore.rs:147-158 | each condition has exactly one `?`, when the key has none |
| SQLiteQuery.AlertQsOnePlaceholderEach | src/sqlite/eventstore.rs:134-163 | every collected alert condition has exactly one `?` for its one parameter |
| SQLiteQuery.EventQsOnePlaceholderEach | src/sqlite/eventstore.rs:306-342 | every collected event condition has exactly one `?` for its one parameter |
| SQLiteQuery.AlertTagCond | src/sqlite/eventstore.rs:116-127 | `archived`, `-archived` and `escalated` give their flag tests and every other tag gives none |
| SQLiteQuery.AlertTagCondsMembership | src/sqlite/eventstore.rs:116-127 | a condition is in `AlertTagConds` exactly when some requested tag produces it |
| SQLiteQuery.AlertTagFilters | src/sqlite/eventstore.rs:116-127 | the tag loop builds exactly those conditions |
| SQLiteQuery.BuildAlertQueryFilters | src/sqlite/eventstore.rs:113-163 | filters and parameters in step and equal to `AlertQueryConds`: alerts first, then tags, the lower bound and the query-string conditions |
| SQLiteQuery.BuildEventQuery | src/sqlite/eventstore.rs:285-358 | the conditions are `EventQueryConds` (type, upper bound, lower bound, query string, in that order), the order defaults to DESC, `WHERE` exactly when there is a condition, and the limit is always 500 |
| SQLiteQuery.EventQueryUnfiltered | src/sqlite/eventstore.rs:285-358 | with no type, no bounds and an empty or absent query string there are no conditions |
| SQLiteQuery.RetryQueryLoop | src/sqlite/eventstore.rs:217-243 | at most 100 retries; every retried attempt failed on a lock; the result is the last attempt's; an error is final because it is not a lock error or the retries ran out |
| SQLiteQuery.RetryFirstSuccess | src/sqlite/eventstore.rs:227-242 | a first success is returned at once |
| SQLiteQuery.RetryNonLockFailure | src/sqlite/eventstore.rs:227-242 | a first failure that is not about a lock is returned at once |
| SQLiteQuery.SqliteFormatInterval | src/sqlite/eventstore.rs:750-752 | the whole seconds of a non-negative interval |
| Base.TruncDiv | src/sqlite/eventstore.rs:750-752 | division rounding toward zero: Euclidean division for non-negative dividends and its negation for negative ones |
| SQLiteQuery.BucketKeyBounds | src/sqlite/eventstore.rs:672 | a timestamp's bucket (`BucketKey`) is a multiple of the interval and the timestamp's second lies within it |
| SQLiteQuery.StatsQueryFor | src/sqlite/eventstore.rs:660-706 | stats events from the start time; when a sensor is named, the third filter is the `$.host = :sensor_name` test and its parameter is bound, otherwise there is no third filter; one more parameter than filters; the interval in seconds, field path and start time bound |
| SQLiteQuery.Deriv | src/sqlite/eventstore.rs:733-743 | the increase when the counter did not fall, and the current value itself when it fell (a counter reset) |
| SQLiteQuery.DerivSeries | src/sqlite/eventstore.rs:727-747 | one point per row after the first, each the derivative against the row before |
| SQLiteQuery.DerivTelescopes | src/sqlite/eventstore.rs:727-747 | for a counter that never falls, the derivatives add up to its total growth |
| SQLiteQuery.StatsAggDeriv | src/sqlite/eventstore.rs:727-747 | the loop computes that series |
| SQLiteEventStore.WithFlag | src/sqlite/eventstore.rs:446-632 | setting a flag changes that flag only |
| SQLiteEventStore.UpdatedRows | src/sqlite/eventstore.rs:446-632 | rows chosen by `Selects` (the id read as a rowid, or `InAlertGroup` with the flag at its old value) get the new flag value; every other row, and every rowid and source, is unchanged |
| SQLiteEventStore.CountSelectedPositive | src/sqlite/eventstore.rs:598-632 | the count of changed rows is positive exactly when some row is selected |
| SQLiteEventStore.ByIdReachesAtMostOne | src/sqlite/eventstore.rs:598-632 | with distinct rowids an update by id reaches at most one row |
| SQLiteEventStore.UpdateKeepsRowIds | src/sqlite/eventstore.rs:446-632 | updates keep rowids distinct |
| SQLiteEventStore.UpdateNothingSelected | src/sqlite/eventstore.rs:446-632 | an update selecting nothing changes nothing |
| SQLiteEventStore.GroupUpdateRepeatReachesNothing | src/sqlite/eventstore.rs:446-596 | after a group update, the same update selects no row |
| SQLiteEventStore.ArchiveGroupCovers | src/sqlite/eventstore.rs:446-490 | with 0/1 flags, every row of the group is archived afterwards |
| SQLiteEventStore.WorkflowTags | src/sqlite/eventstore.rs:370-384 | the plain and stored archive tags appear exactly when archived, the escalation ones exactly when escalated |
| SQLiteEventStore.WorkflowTagsMatchElastic | src/sqlite/eventstore.rs:370-384 | the synthesised tags are the ones the Elasticsearch store writes for the same state |
| SQLiteEventStore.WithTags | src/sqlite/eventstore.rs:370-384 | a missing or null `tags` becomes the new list, an array gets them appended, any other value is left as it was; every other key is kept |
| SQLiteEventStore.AddWorkflowTags | src/sqlite/eventstore.rs:370-384 | the tag code computes exactly that source |
| SQLiteEventStore.EventRecord | src/sqlite/eventstore.rs:360-391 | an event record has `_id` the rowid and `_source` |
| SQLiteEventStore.EventByIdRecord | src/sqlite/eventstore.rs:404-442 | the by-id record has `_id` the rowid and `_source` |
| SQLiteEventStore.EventRecordsAgree | src/sqlite/eventstore.rs:360-442 | both records agree when the source carries no timestamp keys |
| SQLiteEventStore.EventRecordTags | src/sqlite/eventstore.rs:360-391 | without stored tags the record's tags are the flag tags and the other source keys are kept |
| SQLiteEventStore.AlertRecord | src/sqlite/eventstore.rs:168-204 | the five keys, the two counts, the formatted minimum timestamp and the event's rowid |
| SQLiteEventStore.AlertRecordNoEscalatedTag | src/sqlite/eventstore.rs:177-187 | alert records carry the archive tags by the flag, and never the escalation tags |
| SQLiteEventStore.AlertRecords | src/sqlite/eventstore.rs:168-204 | one record per grouped row, in order |
| SQLiteEventStore.EventRecords | src/sqlite/eventstore.rs:360-391 | one record per row, in order |
| SQLiteEventStore.AlertQuery | src/sqlite/eventstore.rs:73-214 | the alert conditions, and the reply listing one record per grouped row |
| SQLiteEventStore.EventQuery | src/sqlite/eventstore.rs:267-402 | the event query, and the reply of the retried rows or the retry error as an `AnyhowError` |
| SQLiteEventStore.EventStore.constructor | src/sqlite/eventstore.rs:57-67 | a store over the given rows |
| SQLiteEventStore.EventStore.Execute | src/sqlite/eventstore.rs:446-632 | the table becomes the updated rows and the count is the number of rows selected |
| SQLiteEventStore.EventStore.UpdateById | src/sqlite/eventstore.rs:598-632 | the update by rowid, `EventNotFound` exactly when no row changed |
| SQLiteEventStore.EventStore.ArchiveEventById | src/sqlite/eventstore.rs:598-608 | `archived = 1` on the row with that id, `EventNotFound` when there is none |
| SQLiteEventStore.EventStore.EscalateEventById | src/sqlite/eventstore.rs:610-620 | `escalated = 1` on the row with that id, `EventNotFound` when there is none |
| SQLiteEventStore.EventStore.DeescalateEventById | src/sqlite/eventstore.rs:622-632 | `escalated = 0` on the row with that id, `EventNotFound` when there is none |
| SQLiteEventStore.EventStore.ArchiveByAlertGroup | src/sqlite/eventstore.rs:446-490 | `archived = 1` on the group's rows with `archived = 0` |
| SQLiteEventStore.EventStore.EscalateByAlertGroup | src/sqlite/eventstore.rs:514-554 | `escalated = 1` on the group's rows with `escalated = 0` |
| SQLiteEventStore.EventStore.DeescalateByAlertGroup | src/sqlite/eventstore.rs:556-596 | `escalated = 0` on the group's rows with `escalated = 1` |
| SQLiteEventStore.EventStore.GetEventById | src/sqlite/eventstore.rs:404-442 | nothing exactly when no row has that id; otherwise the by-id record of such a row |

## Left out

- Network and database I/O: the Elasticsearch client, connection pools and SQL
  evaluation are not modelled. Search responses and the rows a SELECT returns are
  inputs. Transport, serde and connection errors are not modelled either.
- The free-text `query_string` clause has no matching semantics. The
  `EventQueryScope` lemma speaks only of the structured filters.
- The two query-string parsers are parameters of the model: the query-string
  parser of `src/elastic` and the `queryparser` of `src/sqlite`. Neither is part
  of this model.
- The tag and action constants of `src/elastic/mod.rs` are not part of this model.
  They are taken as `evebox.archived` and `evebox.escalated`, each paired with its
  plain word.
- Clocks (`format_timestamp`, the current time in history entries) are a `now`
  parameter. Timestamps are integer nanoseconds, so the following are out:
  - the textual timestamps Elasticsearch receives;
  - `parse_eve_timestamp`'s `TimestampParseError` path in the SQLite group updates;
  - `nanos_to_rfc3339`.
- `retry_execute_loop` (its wall-clock retry deadline) is not modelled. The SQLite
  group updates change the table as one UPDATE and always succeed.
- SQLiteEventStore.AlertQuery: takes the rows of the grouped SELECT as input. The
  `unwrap` panic of a failed retry is not modelled, and neither is the SELECT's
  GROUP BY self-join.
- SQLiteEventStore.EventQuery: the requested size and sort field are ignored, as in
  the source, and the limit is fixed at 500. `LIKE` and `json_extract` are not
  evaluated.
- SQLiteEventStore.EventStore.GetEventById, SQLiteEventStore.EventStore.UpdateById,
  SQLiteEventStore.EventStore.ArchiveEventById, SQLiteEventStore.EventStore.EscalateEventById
  and SQLiteEventStore.EventStore.DeescalateEventById (and the facade's by-id
  operations built on them): a text id selects the row whose rowid it reads as,
  through `parse::<i64>` rules (`Selects` on `RowIdText`). SQLite's own
  text-to-integer affinity, such as tolerated surrounding spaces, is not modelled.
- SQLiteQuery.TermCondOnePlaceholder: proved only for keys without `?`. The source
  splices the key unescaped into the SQL, so a key holding `?` would add a
  placeholder.
- `get_sensors` (both backends) is not modelled. It is a plain aggregation with no
  reshaping logic beyond listing bucket keys.
- ElasticQuery.StatsAggRequest: takes the engine's major version as an input. A
  failed version request propagates with `?` in `stats_agg` and panics in
  `stats_agg_deriv`; neither path is modelled. The stats replies are not
  modelled. Both methods rebuild each histogram bucket as `{timestamp, value}`:
  `timestamp` is `key_as_string`, and `value` is the float `memuse.value`
  (`stats_agg`) or `values_deriv.value` (`stats_agg_deriv`), with 0 when absent,
  cast to `u64`. A bucket that does not deserialize, such as one without
  `key_as_string`, is an error. `stats_agg_deriv` also fails with the response
  text on a non-200 status. JSON numbers in the model are integers, so the float
  values and their casts have no counterpart.
- The SQLite `stats_agg` only reformats the rows of the bucket query and is not
  modelled beyond its query (`StatsQueryFor`).
- Integer widths: the overflow of `e.0 * 1000000000` and the `signature_id as i64`
  cast are not modelled. Integers are unbounded.
- Escalate and de-escalate by group on SQLite use a plain `execute` rather than the
  retry loop. The model treats all three group updates alike.
