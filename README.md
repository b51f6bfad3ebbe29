# thehive_incidents_pusher, modelled in Dafny

The service reads security incidents, each one message naming a correlated
event and the stored events behind it. For each incident it opens a case in
TheHive, the case-management system. It then adds one alert per correlated
event, merges those alerts into the case and marks the case `FINAL`. Along
the way it fetches stored events by id from an HBase column store. It also
flattens protobuf messages into TheHive custom fields.

The model covers four parts, one Dafny module each, plus shared vocabulary:

- `Flattener` (`modules/protobuf_message_flattener.py`). This is the
  depth-first walk over a typed message.
  - The class `ProtobufMessageFlattener` keeps the shared `pathStack` and the
    insertion-ordered `result` dictionary, just as the source shares them.
  - Its recursive methods are proved against the specification functions
    `FlattenMsg`, `FlattenFields`, `FlattenField` and `FlattenItems`.
  - Path keys (`_full_path`) are the method `FullPath`, proved against
    `PathKey`. `PathKey` is related to an independent reference: ignoring
    case, the key is the stack's text with its underscores removed.
- `CustomFields` and `SocEventParser` (`modules/soc_event_parser.py`).
  - The method `Build` is the classification loop, proved against the
    left fold `BuildFields`.
  - The `SocEventParser` derivations are pure functions.
  - A Python `bool` is an `int`, and the model says so explicitly (`IsPyInt`).
- `HbaseEventLoader` (`modules/hbase_event_loader.py`).
  - The store is an oracle: it answers each lookup given every earlier one.
  - `HbasePool.log` records the lookups made.
  - The `@retry(tries=3)` decorator is an explicit attempt loop, proved
    against `FetchSpec`.
- `Pusher` (`modules/pusher.py`).
  - TheHive's API is an oracle from the call history and the next call to
    `Ok(id)`, `HttpErr(status)` or `HiveErr`.
  - `TheHiveApi.log` records every call made.
  - Each `@retry` is an attempt loop (`CallWithRetry`, `SetFinalTag`), and
    `push` is the method `TheHivePusher.Push`. Every method is proved equal
    to a specification function.
  - Lemmas over those functions state the ordering: the case is created
    first, a 400 is scoped to one alert, the merge happens exactly when
    alerts were created, and the run ends with the final tag.
- `Common`, `Strings`, `OrderedDict`, `Records` hold the vocabulary:
  - `Option`;
  - Python's `str.split` / `str.join` / `lower`;
  - dictionaries with `dict.update` semantics (an existing key keeps its
    place);
  - the reflective view of a protobuf message (field name, label, kind and
    value, fixed together by one constructor).

Exceptions become values.
- An undeclared enum number (`KeyError`) becomes `None`.
- The loader's outcome is `Outcome.Raised`.
- The push's outcome is `PushOutcome.Aborted`.
- A message that does not parse becomes `PushOutcome.Dropped`.

The services enter the model as parameters:
- `ParseDict` is the `parse` function given to `Push`.
- The two protobuf deserializers are decode functions held by the loader.
- TheHive and HBase are the oracles above.

## Model

| member | source | states |
|---|---|---|
| Records.EnumName | modules/protobuf_message_flattener.py:9-10 | an enum number gives its declared member's name, and fails (`KeyError`) exactly when the number has no member |
| Records.EnumNames | modules/protobuf_message_flattener.py:63 | a repeated enum gives one name per number, in order, each the member's name; it fails exactly when some number is undeclared |
| Strings.SplitNoSep | modules/protobuf_message_flattener.py:19 | no piece of a split holds the separator |
| Strings.JoinSplit | modules/soc_event_parser.py:85 | joining the pieces of a split with the separator gives back the string |
| Strings.SplitJoin | modules/soc_event_parser.py:85 | splitting a join of separator-free parts gives back the parts |
| Strings.SplitAppend | modules/soc_event_parser.py:73 | appending a separator and a separator-free tail adds exactly that tail as a last piece |
| Strings.SplitPrepend | modules/hbase_event_loader.py:25 | a separator-free head followed by the separator is the first piece, and the rest splits as before |
| Strings.NatToStringValue | modules/protobuf_message_flattener.py:47 | the decimal text of an index reads back as that index |
| OrderedDict.Put | modules/protobuf_message_flattener.py:52-77 | `dict.update` with one key: a present key keeps its position and takes the new value, a new key goes last, no other key changes, and distinct keys stay distinct |
| OrderedDict.PutExtends | modules/protobuf_message_flattener.py:52-77 | an update keeps the existing keys as a prefix and adds at most one entry |
| OrderedDict.PutNewKeys | modules/protobuf_message_flattener.py:52-77 | the only key an update can add is its own |
| Flattener.Pieces | modules/protobuf_message_flattener.py:17-19 | the pieces list is at least as long as the stack and no piece holds `_` |
| Flattener.ProtobufMessageFlattener.FlattenObject | modules/protobuf_message_flattener.py:26-80 | walks the fields in declaration order; on return the path stack equals its value on entry and the dictionary is the specification's result; it fails exactly when an enum number is undeclared |
| Flattener.ProtobufMessageFlattener.FlattenOneField | modules/protobuf_message_flattener.py:34-79 | one field: an unset optional message is skipped without a push; otherwise push the name, emit or recurse by kind, and pop, leaving the stack as on entry |
| Flattener.ProtobufMessageFlattener.FlattenElements | modules/protobuf_message_flattener.py:44-49 | a repeated non-wrapper message recurses into each element in index order under its own `[i]` segment, popping it afterwards |
| Flattener.FlattenRecord | modules/protobuf_message_flattener.py:26-31 | with no stack and no dictionary given, both start empty and the result is the specification's flattening |
| Flattener.FullPath | modules/protobuf_message_flattener.py:13-23 | the extend-then-join loops compute `PathKey`: the stack's pieces, the first unchanged, the later ones capitalized, with no separator |
| Flattener.PathKeyFolds | modules/protobuf_message_flattener.py:13-23 | independent description of the key: up to letter case, the stack's text with its underscores removed; the key holds no `_` |
| Flattener.PathKeyStartsWithFirstPiece | modules/protobuf_message_flattener.py:20-21 | the key starts with the first piece, unchanged |
| Flattener.PathKeyExample | modules/protobuf_message_flattener.py:13-23 | `["event_source", "vendor"]` gives `eventSourceVendor` |
| Flattener.PathKeyTwo | modules/protobuf_message_flattener.py:13-23 | a stack `[x_y, z]` of underscore-free names gives `x` followed by the capitalized `y` and `z` |
| Flattener.PathKeyIndexMarker | modules/protobuf_message_flattener.py:47 | an index marker `[j]` on top of the stack is appended to the key verbatim |
| Flattener.PathKeyPushVerbatim | modules/protobuf_message_flattener.py:15-22 | a one-piece segment not starting with a lower-case letter is appended verbatim |
| Flattener.PathKeyPushPrefix | modules/protobuf_message_flattener.py:40-47 | the key of a deeper stack extends the key of the stack below it |
| Flattener.IndexMarkerValid | modules/protobuf_message_flattener.py:47 | an index marker is a valid name and splits into itself |
| Flattener.SegmentsPathOk | modules/protobuf_message_flattener.py:16-21 | a non-empty stack of valid names never makes `_full_path` index an empty piece |
| Flattener.LeafValue | modules/protobuf_message_flattener.py:50-77 | an enum field emits its member's name, never its number, and fails exactly on an undeclared number; repeated enums fail exactly when one number is undeclared |
| Flattener.LeafEntry | modules/protobuf_message_flattener.py:50-77 | a leaf field adds exactly one entry at its own path key holding its leaf value, and changes no other key |
| Flattener.UnsetFieldInvisible | modules/protobuf_message_flattener.py:36-38 | an optional message field, wrapper or not, whose value encodes to nothing (not set, or set with no field of its own encoded) walks exactly as if it were not declared |
| Records.SetFieldIsEncoded | modules/protobuf_message_flattener.py:36-38 | a message holding a set sub-message, even an empty one, is not empty, so the walk does not skip it |
| Flattener.FieldsAppend | modules/protobuf_message_flattener.py:33 | the fields are walked in declaration order: walking `x + y` walks `x`, then `y` from where `x` stopped |
| Flattener.FieldsFailureSticks | modules/protobuf_message_flattener.py:33-68 | a `KeyError` in any field ends the whole walk |
| Flattener.ItemsFailureSticks | modules/protobuf_message_flattener.py:46-48 | a `KeyError` in any element ends the walk of the repeated field |
| Flattener.MsgGrows | modules/protobuf_message_flattener.py:33-80 | a walk keeps the existing keys first and in place, keeps keys distinct, and every new key extends the path key of the starting stack |
| Flattener.FieldGrows | modules/protobuf_message_flattener.py:34-79 | the same for one field |
| Flattener.ItemsGrows | modules/protobuf_message_flattener.py:44-49 | the same for the elements of a repeated message field |
| Flattener.LeafGrows | modules/protobuf_message_flattener.py:50-77 | the same for a leaf field, which adds at most its own key |
| Flattener.FlattenDistinct | modules/protobuf_message_flattener.py:33-77 | the flattened record has one entry per key: a colliding key overwrites in place |
| Flattener.ElementKeys | modules/protobuf_message_flattener.py:44-49 | every key added by element `j` of a repeated message starts with the field's key followed by `[j]` |
| CustomFields.AddField | modules/soc_event_parser.py:18-29 | the helper stores the entry under its name, numbered with the count of entries already present, and changes no other name |
| CustomFields.Classify | modules/soc_event_parser.py:17-31 | the branch order: a time/date key with an int or bool is a date ×1000; a datetime is a number of ms; otherwise a bool is boolean, an int a number, a str a string; only a value `add_string` rejects is dropped |
| CustomFields.Build | modules/soc_event_parser.py:14-32 | the loop adds the entries in input order as the fold `BuildFields` does |
| CustomFields.BuildFieldsShape | modules/soc_event_parser.py:14-32 | exactly the kept entries are emitted, in input order, one per key, numbered by position, typed and valued as `Classify` says |
| CustomFields.BuildFieldsBound | modules/soc_event_parser.py:16 | never more fields than input keys |
| CustomFields.Kept | modules/soc_event_parser.py:16-31 | dropping entries never gives more entries than the input |
| CustomFields.KeptEntries | modules/soc_event_parser.py:16-31 | the kept entries are exactly the input entries `Classify` accepts: every kept entry is an accepted input entry, and every accepted input entry is kept |
| CustomFields.KeptDistinct | modules/soc_event_parser.py:16 | dropping entries keeps the keys distinct |
| CustomFields.ClassifyExamples | modules/soc_event_parser.py:17-22 | `eventTime: 1000` becomes a date of 1000000; `active: True` becomes a boolean, not a number |
| SocEventParser.Severity | modules/soc_event_parser.py:110-118 | never below 1, and below the level from 2 on |
| SocEventParser.SeverityFacts | modules/soc_event_parser.py:110-118 | 0, 1 and 2 map to 1, 5 maps to 4, and from 2 upward the result is one less than the level |
| SocEventParser.Millis | modules/soc_event_parser.py:91-97 | seconds to milliseconds: divisible by 1000, and dividing gives back the seconds |
| SocEventParser.AlertType | modules/soc_event_parser.py:75-79 | fails exactly when the category number is undeclared |
| SocEventParser.AlertTags | modules/soc_event_parser.py:134-143 | exactly four tags, failing exactly when the category or the importance is undeclared |
| SocEventParser.CaseTags | modules/soc_event_parser.py:145-154 | exactly four tags, failing exactly when the severity level is undeclared |
| SocEventParser.PrepareCustomFields | modules/soc_event_parser.py:156-161 | fails exactly when the flattening fails |
| SocEventParser.AlertShape | modules/soc_event_parser.py:37-52 | when an alert can be made and what it holds: title and sourceRef are the event id, the source is `vendor:title:subsys`, the description is the event source's id, the date is eventTime×1000, the template is `Alert_template_full`, four tags in order, no artifacts, the coerced flattened fields |
| SocEventParser.CaseShape | modules/soc_event_parser.py:54-65 | when a case can be made and what it holds: title `usecaseId_id`, startDate detectedTime×1000, template `Case_template_full`, four tags in order, empty metrics, no id yet, the coerced flattened fields |
| SocEventParser.PrepareAlert | modules/soc_event_parser.py:37-52 | builds the alert; `AlertShape` states when it exists and what it holds |
| SocEventParser.PrepareCase | modules/soc_event_parser.py:54-65 | builds the case; `CaseShape` states when it exists and what it holds |
| SocEventParser.AlertSource | modules/soc_event_parser.py:81-85 | joins vendor, title and subsystem with `:`; `AlertSourceSplits` states that the three parts come back |
| SocEventParser.CaseTitle | modules/soc_event_parser.py:71-73 | joins the use-case id and the incident id with `_`; `CaseTitleSplits` states that both come back |
| SocEventParser.AlertSourceSplits | modules/soc_event_parser.py:81-85 | the source `vendor:title:subsys` splits back into its three parts |
| SocEventParser.CaseTitleSplits | modules/soc_event_parser.py:71-73 | the case title's last `_`-piece is the incident id, and the pieces before it join back to the use-case id |
| SocEventParser.CustomFieldsShape | modules/soc_event_parser.py:156-161 | the custom fields of a message have distinct names, those of the kept flattened entries, numbered by position |
| HbaseEventLoader.FullTableName | modules/hbase_event_loader.py:24-25 | joins the namespace and the table name with `:`; `FullTableNameSplits` states that both come back |
| HbaseEventLoader.FullTableNameSplits | modules/hbase_event_loader.py:24-33 | the full name `namespace:table` splits back into the namespace and the table name |
| HbaseEventLoader.ReadCells | modules/hbase_event_loader.py:64 | one `n:e` cell per row, in row order; fails exactly when a row lacks the cell |
| HbaseEventLoader.FetchAttempts | modules/hbase_event_loader.py:51-63 | between one and three identical lookups, every answer but the last transient; the error escapes only after all three attempts were transient |
| HbaseEventLoader.GetEventsLookups | modules/hbase_event_loader.py:51-59 | an empty id list makes no lookup; otherwise the batch lookup of the `n:e` column is made one to three times |
| HbaseEventLoader.DecodeAll | modules/hbase_event_loader.py:66-74 | one decoded element per cell, in order; fails exactly when a cell cannot be decoded |
| HbaseEventLoader.RawTexts | modules/hbase_event_loader.py:66-69 | a raw event is read as its `.raw` text, in order |
| HbaseEventLoader.HbasePool.Rows | modules/hbase_event_loader.py:56-59 | one lookup is recorded and answered by the store |
| HbaseEventLoader.HbaseEventsLoader.GetEventsFromHbase | modules/hbase_event_loader.py:51-64 | the retry loop computes `GetEventsSpec`: the result and the lookups made |
| HbaseEventLoader.HbaseEventsLoader.GetRawEvents | modules/hbase_event_loader.py:35-41 | computes `GetRawEventsSpec`: transient failures that outlast the retries give `[]` |
| HbaseEventLoader.HbaseEventsLoader.GetNormalizedEvents | modules/hbase_event_loader.py:43-49 | computes `GetNormalizedEventsSpec`, likewise |
| HbaseEventLoader.HbaseEventsLoader.RawEventsShape | modules/hbase_event_loader.py:35-41 | no ids give no events; exhausted retries give `[]`; otherwise one text per returned row in row order, or an escaping error exactly when a cell does not decode |
| Pusher.WithRaw | modules/pusher.py:172-174 | the `raw` field is a string field of the events joined with `";\n"`, numbered with the count of fields before it; other fields are unchanged |
| Pusher.RetryAttempts | modules/pusher.py:33-43 | a retried call is made one to `tries` times, every answer but the last a failure, and the result is a failure only when all `tries` attempts failed |
| Pusher.RetryCalls | modules/pusher.py:33-43 | the same, stated on the calls added |
| Pusher.TagCalls | modules/pusher.py:78-83 | `n` tag attempts are `n` tag updates |
| Pusher.TagCallsAt | modules/pusher.py:80-83 | attempt `j` sends the case with `j + 1` more `FINAL` tags |
| Pusher.FinalTagAttempts | modules/pusher.py:78-89 | `set_final_tag` makes one to five tag updates, and fails only when all five failed |
| Pusher.FinalTagCase | modules/pusher.py:81 | `k` attempts leave the case with `k` more `FINAL` tags |
| Pusher.FinalTagCalls | modules/pusher.py:78-89 | the tag attempts neither create a case nor merge, and the last one sends the tags ending in `FINAL` |
| Pusher.TheHiveApi.Send | modules/pusher.py:37-38 | one request is recorded and answered by the API |
| Pusher.TheHivePusher.AlertAttemptOutcome | modules/pusher.py:111-121 | an alert that cannot be prepared stops the loop with no call; the id of a created alert is kept; a 400 skips only this event, after all five attempts; any other failure stops the loop |
| Pusher.TheHivePusher.AlertLoopCalls | modules/pusher.py:109-121 | the alert loop sends only alert creations, and keeps the ids it started with as a prefix, adding at most one per event |
| Pusher.TheHivePusher.AlertLoopOutcomes | modules/pusher.py:109-121 | against the outcome of each attempted event (`Attempts`): the events are attempted in order and only a stopping failure ends the loop early, so a 400 goes on with the next event; the loop completes exactly when every event was attempted and none stopped it; the ids are those of the created alerts, in event order |
| Pusher.TheHivePusher.SkipMiddleEvent | modules/pusher.py:109-121 | three events, the second answered 400 on all five attempts: the loop completes with the ids of the first and third alerts |
| Pusher.TheHivePusher.SkipMiddleEventMerged | modules/pusher.py:109-125 | the same three events once the case exists: the run keeps the ids of the first and third alerts, and a completed run merged exactly those two into the case |
| Pusher.TheHivePusher.AlertsOutcome | modules/pusher.py:109-125 | from the loop on, the run keeps the case id and the created alerts' ids in event order; it completes only when every event was attempted and none stopped the loop, and a stopped loop aborts with nothing sent after its alerts |
| Pusher.TheHivePusher.MergeCalls | modules/pusher.py:123-124 | no merge call for no ids; otherwise the first call added merges exactly those ids into the case |
| Pusher.TheHivePusher.AlertsCalls | modules/pusher.py:107-125 | from the alert loop on no case is created, and a completed run is merged and tagged |
| Pusher.TheHivePusher.CreateCalls | modules/pusher.py:102-125 | the first call creates the case, case creations precede all other calls, and a completed run is merged and tagged |
| Pusher.TheHivePusher.CreateOutcome | modules/pusher.py:102-125 | when all ten attempts to create the case fail, the run aborts with no case id and no alert, having sent only those ten attempts; otherwise the run keeps the id the creation answered with, and the ids of the alerts created over the normalized events |
| Pusher.TheHivePusher.PushCreatesCaseFirst | modules/pusher.py:94-103 | a parse error returns with no call and no lookup; otherwise the first call creates the prepared case with the `raw` field added, holding the raw events joined by `;\n` and numbered with the field count before it; case creations precede every other call |
| Pusher.TheHivePusher.PushCreateFails | modules/pusher.py:102-103 | when all ten attempts to create the case fail, the run aborts with no case id and no alert, having sent only those attempts |
| Pusher.TheHivePusher.PushMergesAndTags | modules/pusher.py:102-125 | once the case is created, the run keeps the id the creation answered with and the ids of the alerts created over the normalized events, in event order; a completed run merged exactly when alerts were created, with exactly their ids, into its case, and its last call set the tags ending in `FINAL` |
| Pusher.TheHivePusher.CallWithRetry | modules/pusher.py:33-43 | the attempt loop computes `Retry` |
| Pusher.TheHivePusher.SendAlert | modules/pusher.py:33-43 | `send_alert`: `Retry` with 5 attempts |
| Pusher.TheHivePusher.CreateCaseCall | modules/pusher.py:54-64 | `create_case`: `Retry` with 10 attempts |
| Pusher.TheHivePusher.MergeAlertsInCase | modules/pusher.py:66-76 | `merge_alerts_in_case`: `Retry` with 5 attempts |
| Pusher.TheHivePusher.SetFinalTag | modules/pusher.py:78-89 | `set_final_tag`: each of at most 5 attempts appends `FINAL` and sends the tags |
| Pusher.TheHivePusher.LoadRawEvents | modules/pusher.py:146-160 | any loader exception gives `[]` |
| Pusher.TheHivePusher.LoadNormalizedEvents | modules/pusher.py:130-144 | any loader exception gives `[]` |
| Pusher.TheHivePusher.PrepareAlertFromEvent | modules/pusher.py:162-181 | the parser's alert, with `raw` added only when the raw events could be read |
| Pusher.TheHivePusher.SendAlerts | modules/pusher.py:109-121 | the alert loop computes `AlertLoopSpec`, which `AlertLoopOutcomes` relates to the outcome of each event: a 400 skips one event, another failure stops the loop, the ids are the created alerts' in event order |
| Pusher.TheHivePusher.AfterCreate | modules/pusher.py:107-125 | loading, the alert loop, the conditional merge and the final tag compute `AfterCreateSpec`, of which `AlertsOutcome` and `AlertsCalls` state the ids kept, the abort on a stopped loop, and the merge and the tag of a completed run |
| Pusher.TheHivePusher.Push | modules/pusher.py:91-128 | `push` computes `PushSpec`: `PushCreatesCaseFirst` states the dropped message and the case sent first with its `raw` field, `PushCreateFails` the abort after a failed creation; `PushMergesAndTags` states the case id from the creation's answer, the created alerts' ids, the merge and the final tag |

## Left out

- Metrics, logging, timers and the retry delays are not modelled. They change no state the pipeline reads.
- `create_case_from_alert` (modules/pusher.py:45-52) is never called, and is not part of this model.
- `table.scan()` (modules/hbase_event_loader.py:58): its result is unused. It is not part of this model.
- `ParseDict`, `ByteSize`, `FromString` and protobuf reflection are modelled as follows:
  - `ParseDict` is the `parse` parameter of `Push`;
  - the deserializers are the loader's decode functions;
  - reflection is the `Records` view of a message;
  - `ByteSize() == 0` is `IsEmpty`: no field is encoded. A scalar is encoded when it differs from its default and a sub-message when it is set, even if it is empty itself (`Records.SetFieldIsEncoded`).
- `ProtobufMessageFlattener.FlattenObject`: when it raises `KeyError`, the source leaves the stack and the dictionary half-updated. The model promises nothing about them then.
- Repeated scalar and repeated wrapper fields hold text only. `'; '.join` raises `TypeError` on anything else, and the model does not carry that error path.
- Field names whose `_`-pieces are not all non-empty make `_full_path` raise `IndexError`. This is a schema property: the model requires it (`Records.WellNamed`, `SocEventParser.ValidSocEvent`) instead of modelling the error.
- `Strings.Lower` and `Strings.UpperChar` fold ASCII letters only. Python's `str.lower` and `str.upper` also fold non-ASCII letters.
- `CustomFields.AddField`: the numbering of TheHive's `CustomFieldHelper` is assumed to be the count of entries already present. That library is not part of this model.
- A `datetime` value is reduced to its whole seconds (`int(timestamp())`). Floating-point timestamps are not modelled.
- TheHive responses are reduced to the created object's id. The rest of the JSON body is not modelled.
- All exceptions other than the ones the source distinguishes are collapsed:
  - TheHive: `HttpErr(status)` or `HiveErr`;
  - HBase: transient, or `Broken`.
- The `Case` object is a value that `push` reassigns. `push` never shares it, so an in-place update and a reassignment cannot be told apart.
- The case id and the alert ids that `push` keeps in local variables are returned as out-parameters, so the contracts can refer to them.
- The encoding of row keys (`event_id.encode()`) is not modelled: lookups carry the ids as text.
- `SocEvent` and `Incident` carry the fields the pipeline reads next to `record`, the message the flattener walks. The model takes the two as independent parameters and does not link a typed field to the leaf of `record` that holds the same value.
- The source comment says TheHive severities lie in {1, 2, 3}. The code only shifts the level down by one above 1, so level 5 gives 4. The model follows the code (`SocEventParser.Severity`).
