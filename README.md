# kafka-emitter-http-rs, modelled in Dafny

kafka-emitter-http-rs is an HTTP service that measures Kafka latency.
- A client *begins* an experiment. The service registers it and starts one background consume loop per listener configuration (broker list, topic, TLS flag, timeout, consumer group).
- A *send* request produces a batch of random alphanumeric payloads. Each record carries two correlation headers: the message id and the experiment id. Each completed delivery records the message and a `Sent` event in a shared in-memory index.
- Each consume loop parses the headers of the records it receives. For a tracked message it appends a `Received` event, and a `KafkaTimestampSet` event when the broker stamped the record.
- The measurement routes correlate those events into send→receive and receive→receive latencies. They also report message sizes.
- *End* stops the experiment's loops and removes the experiment from the index. *Reset* ends every experiment and clears the index.
- A Python companion tool summarises latency lists, decides when all messages have arrived, and derives the series it plots.

The model is split into these modules, one per source file or concern:

| module (file) | models |
|---|---|
| `Wrappers` (wrappers.dfy) | `Option`/`Result`, map lookup with a default, hash-map key enumeration |
| `Formatting` (formatting.dfy) | decimal `to_string` and hexadecimal digits, with round trips |
| `Uuids` (uuids.dfy) | `Uuid::to_string` and `Uuid::try_parse` |
| `Models` (models.dfy) | the records of `src/models/mod.rs`, `Experiment::new`, `ByteSize`, the defaults |
| `Index` (index.dfy) | `MessagesState`, its five maps, `insert_message`, the id-removal loop of `end_experiment` |
| `App` (app.dfy) | header names, `experiment_related_data`, `into_values().collect()` |
| `Consumers` (consumers.dfy) | `LoopHandler`, `Consumers`, the consumer client configuration, one consume-loop iteration |
| `Lifecycle` (lifecycle.dfy) | `State`: `new_experiment`, `restore_experiment`, `end_experiment` |
| `Messages` (messages.dfy) | the `send` handler |
| `Measurements` (measurements.dfy) | the three measurement handlers |
| `ExperimentRoutes` (experiment_routes.dfy) | the experiment handlers, including `reset` |
| `AnalyzeUtils` (analyze_utils.dfy) | `list_of_ints_stats`, `default_list_of_ints_stats`, `int_similar_percentage` |
| `PlotMode` (plotmode.dfy) | `calculate_expected_messages` and the series of `generate_graphs` |

Code that changes state in place stays imperative:
- `MessagesState`, `LoopHandler`, `Consumers` and `State` are classes with `modifies` frames.
- Every loop of the source is a `while`/`for` loop with invariants: the handle-abort loop, the start loop, the id-removal loop, the reset loop, the source-timestamp loop, the latency loop, the delivery join loop and the expected-messages loop.
- Each such method is proved against a specification function on values. Examples: `Index.Insert`, `Lifecycle.Register`, `Lifecycle.RemoveExperiment`, `Consumers.ConsumeStep`, `Messages.RecordAll`, `Measurements.Latencies`, `PlotMode.ExpectedMessages`.
- The properties of those functions are lemmas.

Index invariant: `Index.Consistent` is what every operation keeps. The experiment→messages index and the event lists only exist for registered experiments. Every entry m→e of the message→experiment index is listed under e.

Inputs the source reads from its environment become parameters:
- The clock: `now`.
- `Uuid::new_v4`: `freshId` and `ids`.
- The payload's random draws: `pick`.
- The order in which delivery tasks complete, and their delivery status: `completions`.
- A hash map's iteration order: a ghost `order` result.

## Model

| member | source | states |
|---|---|---|
| Wrappers.Enumerate | src/routes/experiment.rs:124 | `keys().cloned().collect()`: every key exactly once, as many as the map has, in an order the hash map leaves open |
| Formatting.DecimalRoundTrip | src/consumers.rs:96-103 | the decimal text `to_string` gives a number reads back as that number |
| Formatting.DecimalInjective | src/routes/messages.rs:87 | different indices give different decimal texts |
| Formatting.HexRoundTrip | src/routes/messages.rs:92 | the hexadecimal digits of a number read back as that number |
| Formatting.HexNumberBound | src/consumers.rs:142 | `k` hexadecimal digits denote a number below 16^k |
| Uuids.ToString | src/routes/messages.rs:92 | `Uuid::to_string` is always 36 characters long |
| Uuids.ParseToString | src/consumers.rs:141-144 | `try_parse` of the hyphenated text of a UUID gives that UUID back |
| Uuids.ToStringInjective | src/routes/messages.rs:89-97 | distinct UUIDs have distinct header texts |
| Models.AsBytes | src/models/mod.rs:24-26 | `as_bytes` widens the `u64` count, so the result stays below 2^64 |
| Models.AsBytesFromByteCount | src/models/mod.rs:29-33 | wrapping a byte count into `ByteSize` and reading it back loses nothing |
| Models.AsMillis | src/consumers.rs:98 | `as_millis` truncates: the whole milliseconds contained in the duration |
| Models.MakeExperiment | src/models/mod.rs:167-174 | `Experiment::new` keeps the id and consumers, starts at the clock reading, has no end |
| Models.DefaultBodySize | src/models/mod.rs:85-87 | the default body is 6 KiB = 6144 bytes |
| Models.DefaultMessagesNumber | src/models/mod.rs:89-91 | one message by default |
| Models.DefaultTimeout | src/models/mod.rs:93-95 | the default timeout is 60 000 ms |
| Models.DefaultBufferingMs | src/models/mod.rs:202-204 | buffering is 5 ms by default |
| Index.InsertUnknownExperiment | src/state.rs:60-62 | an unknown experiment id leaves all five maps unchanged |
| Index.InsertKnownExperiment | src/state.rs:42-59 | a known id: the message is indexed both ways and added to the experiment's mapping with the rest of that mapping kept, and the id is appended to its list; a missing event list is created empty, an existing one is untouched; the message index gains exactly the new id, and no other experiment's mapping, id list or event list changes |
| Index.InsertKeepsExperiments | src/state.rs:41-63 | `insert_message` never changes the registered experiments |
| Index.InsertTwice | src/state.rs:47-57 | a repeated insert lists the id twice, while the mapping, the message index and the events stay as after one insert |
| Index.InsertConsistent | src/state.rs:41-63 | `insert_message` preserves `Consistent` |
| Index.MessagesState.InsertMessage | src/state.rs:41-63 | the in-place update yields `Insert` of the old maps and stays consistent |
| Index.MessagesState.RemoveMessageIds | src/state.rs:134-139 | the loop removes every listed id from the message index and, as a key, from the experiment-keyed `messages` map; nothing else changes |
| App.HeaderNamesDiffer | src/main.rs:20-21 | the two correlation header names differ |
| App.RelatedDataComponents | src/main.rs:41-83 | a read fails exactly for an unregistered id; otherwise it returns the stored experiment, the stored mapping or an empty one, and the stored events or an empty list |
| App.ExperimentRelatedData | src/main.rs:41-83 | on the live index: `None` exactly for an unregistered id, else that id's experiment |
| App.MappingValues | src/routes/experiment.rs:147 | `into_values().collect()`: one entry per message of the mapping, each message once, in the map's iteration order |
| Consumers.LoopHandler.RegisterExperiment | src/consumers.rs:25-32 | replaces the whole handle list of the id; nothing is aborted |
| Consumers.LoopHandler.DeregisterExperiment | src/consumers.rs:34-42 | drops the id's entry and aborts exactly the handles it held; an unknown id changes nothing |
| Consumers.Consumers.Start | src/consumers.rs:59-73 | spawns one loop with that config and offset mode; its handle is new and is appended to the id's list, which is created if absent |
| Consumers.Consumers.Stop | src/consumers.rs:75-78 | deregisters the id, aborting all of its loops |
| Consumers.ConsumerConfigSettings | src/consumers.rs:90-114 | group and brokers from the config; auto-commit ends up off (the later `set` wins); session timeout = the timeout in ms and poll interval = twice that; TLS without certificate verification iff `ssl`; `earliest` iff replaying |
| Consumers.ConsumerConfigKeys | src/consumers.rs:90-114 | the configuration sets no other key |
| Consumers.CorrelationHeadersRoundTrip | src/consumers.rs:128-144 | the consumer recovers exactly the two ids the producer wrote |
| Consumers.I64ToU128 | src/consumers.rs:188-192 | `millis as u128` keeps a non-negative timestamp and wraps a negative one modulo 2^128 |
| Consumers.ConsumeStepSkipsMalformed | src/consumers.rs:141-145 | a record without both headers, or with a header that does not parse, changes nothing |
| Consumers.ConsumeStepUntrackedAppendsNothing | src/consumers.rs:161-203 | a message not in its experiment's mapping adds no event |
| Consumers.ConsumeStepRecords | src/consumers.rs:161-198 | a tracked message appends exactly `Received` at `now`, then `KafkaTimestampSet` iff the broker stamped the record, to the list of the experiment the message index names; other lists are unchanged |
| Consumers.ConsumeStepConsistent | src/consumers.rs:146-199 | a record step preserves `Consistent`, whatever its outcome |
| Consumers.ConsumeStepPanicsWhen | src/consumers.rs:168-174 | on a consistent index, the step panics iff the message is in its experiment's surviving mapping while the message index lacks it |
| Consumers.ConsumeStepCheckedNeverPanics | src/consumers.rs:168-174 | the corrected step never panics; where the written one panics it skips the record; otherwise it behaves identically |
| Consumers.ConsumeRecord | src/consumers.rs:126-204 | the in-place iteration yields exactly `ConsumeStep` of the old index, with the same outcome, and keeps it consistent |
| Lifecycle.RegisterConsistent | src/state.rs:88-94 | registering preserves `Consistent` |
| Lifecycle.RegisterStoresExperiment | src/state.rs:88-94 | registering stores the experiment (id, consumers, no end) and changes nothing else |
| Lifecycle.RemoveExperimentConsistent | src/state.rs:130-140 | the removal block preserves `Consistent` |
| Lifecycle.EndRemovesExperiment | src/state.rs:130-140 | after ending, the id has no experiment, event list or id list; its listed messages leave the message index; no message maps to it; a related-data read fails |
| Lifecycle.EndKeepsMessageMapping | src/state.rs:137 | the experiment's own message mapping survives the end |
| Lifecycle.BeginThenEnd | src/state.rs:81-143 | registering a fresh id and ending it restores all five maps |
| Lifecycle.ConsumerTasksOnePerConfig | src/state.rs:96-98 | one consume loop per config, in order, all in the call's offset mode |
| Lifecycle.State.constructor | src/state.rs:73-79 | a fresh supervisor with no handles and an empty index |
| Lifecycle.State.NewExperiment | src/state.rs:81-101 | registers the experiment, then starts one loop per config that reads only new records; the new handles go under the id |
| Lifecycle.State.RestoreExperiment | src/state.rs:103-123 | the same as `NewExperiment`, but the loops replay from the earliest offset |
| Lifecycle.State.EndExperiment | src/state.rs:125-143 | aborts the id's loops and drops its handle entry, then leaves the index as `RemoveExperiment` of the old one |
| Lifecycle.RecordAfterEndPanics | src/consumers.rs:161-174 | a concrete consistent index and record on which the written step panics |
| Measurements.Filter | src/routes/measurements.rs:56-69 | the events kept are exactly those satisfying the predicate, and there are no more of them than events |
| Measurements.FilterMultiplicity | src/routes/measurements.rs:56-69 | each kept event occurs in the result as often as in the list, a rejected one not at all |
| Measurements.FilterConcat | src/routes/measurements.rs:56-69 | filtering a concatenation gives the filtered parts in order, so the list order is kept |
| Measurements.FilterAppendRejected | src/routes/measurements.rs:56-69 | a rejected event appended to the list changes nothing |
| Measurements.LastTimestampsKeys | src/routes/measurements.rs:71-75 | the source map has an entry for exactly the sources' message ids |
| Measurements.LastTimestampsLastWins | src/routes/measurements.rs:71-75 | for a repeated message id, the last source event wins |
| Measurements.MatchedIndicesCharacterized | src/routes/measurements.rs:79-87 | the contributing destination events are exactly those with a source timestamp no later than their own, in order |
| Measurements.LatenciesCharacterized | src/routes/measurements.rs:77-89 | latency k is the destination timestamp minus the source timestamp of the k-th contributing event; there are no more latencies than destination events |
| Measurements.SourceTimestamps | src/routes/measurements.rs:71-75 | the insert loop builds `LastTimestamps` |
| Measurements.CollectLatencies | src/routes/measurements.rs:77-87 | the push loop builds `Latencies` |
| Measurements.BrokerTimestampsIgnored | src/routes/measurements.rs:56-69 | neither correlation reads `KafkaTimestampSet` events |
| Measurements.SendReceiveSources | src/routes/measurements.rs:56-61 | the send→receive sources are exactly the `Sent` events on the source topic and brokers |
| Measurements.SendReceiveLatencies | src/routes/measurements.rs:46-90 | not found iff the experiment is unregistered; otherwise `Sent`→`Received` correlation of its events |
| Measurements.KafkaLatencies | src/routes/measurements.rs:100-147 | not found iff unregistered; otherwise `Received`→`Received` correlation between two consumer groups |
| Measurements.MessagedBytesSize | src/routes/measurements.rs:17-34 | not found iff unregistered; otherwise one byte size per message of the mapping |
| Messages.CharRun | src/routes/messages.rs:14-16 | a run of consecutive characters |
| Messages.CharsetShape | src/routes/messages.rs:14-16 | the alphabet is 62 distinct characters, exactly the ASCII letters and digits |
| Messages.Payload | src/routes/messages.rs:49-54 | the payload has one character per byte of `body_size`, each from the alphabet |
| Messages.Deliveries | src/routes/messages.rs:68-98 | record i has the topic, the payload, key `msg-i` and the headers (its id, the experiment id) |
| Messages.DeliveryKeysDistinct | src/routes/messages.rs:87 | no two records of one request share a key |
| Messages.DeliveryHeadersRoundTrip | src/routes/messages.rs:89-97 | a consumer recovers record i's id and the experiment id |
| Messages.RecordSentEffect | src/routes/messages.rs:104-122 | one task panics iff the experiment is gone, and then changes nothing; otherwise it stores the message and appends one `Sent` event; consistency and the experiments are preserved |
| Messages.RecordDelivery | src/routes/messages.rs:104-122 | the locked block in place yields `RecordSent` of the old index and reports the panic |
| Messages.RecordCompletions | src/routes/messages.rs:139-150 | the join loop yields `RecordAll`: each completed task's locked block, in completion order |
| Messages.AllCompletedStoresEveryMessage | src/routes/messages.rs:104-112 | once every task has completed with the experiment registered, every message id of the request is in the mapping with the payload size |
| Messages.SentEvents | src/routes/messages.rs:116-122 | one `Sent` event per completed task, in completion order |
| Messages.RecordAllSentEvents | src/routes/messages.rs:139-150 | while registered: exactly the `Sent` events are appended to the experiment's list; other lists unchanged; consistent |
| Messages.RecordAllStoresMessages | src/routes/messages.rs:104-112 | while registered: every completed task's message is in the mapping with the payload size |
| Messages.RecordAllIgnoresStatus | src/routes/messages.rs:124 | the delivery status never changes what is recorded |
| Messages.Totals | src/routes/messages.rs:129-137 | the response echoes the id and count; the total is length × count modulo 2^64, and equals the product when that fits |
| Messages.TotalIsDeliveredBytes | src/routes/messages.rs:129 | without overflow, the reported total is what the records carry |
| Messages.Send | src/routes/messages.rs:27-159 | not found iff the experiment is unregistered at the check, recording nothing; otherwise the totals, the records, and the index after the completed tasks in completion order |
| ExperimentRoutes.Begin | src/routes/experiment.rs:17-28 | registers under the fresh id, starts one new-records loop per listener whose handles are appended under the id, aborts nothing, and answers with that id |
| ExperimentRoutes.Restore | src/routes/experiment.rs:39-47 | registers under the caller's id, starts one replaying loop per listener whose handles are appended under the id, aborts nothing, and echoes the id |
| ExperimentRoutes.End | src/routes/experiment.rs:57-66 | ends the experiment (index entry removed, its handle entry dropped and exactly its handles aborted) and echoes the id, registered or not |
| ExperimentRoutes.HandlesOfListIsHandlesOf | src/routes/experiment.rs:85-88 | gathering handles one experiment at a time collects exactly the handles of the listed experiments |
| ExperimentRoutes.EndAll | src/routes/experiment.rs:85-88 | ending each listed experiment in turn: the index is the old one with each removed in order, their handle entries are dropped and exactly their handles aborted |
| ExperimentRoutes.RemoveExperimentsKeys | src/routes/experiment.rs:85-88 | ending a list of experiments keeps the index consistent and unregisters exactly those |
| ExperimentRoutes.EndingAllEmptiesIndices | src/routes/experiment.rs:85-88 | ending every registered experiment leaves no experiment, event list or index entry; only experiment-keyed message mappings can survive until the maps are cleared |
| ExperimentRoutes.Reset | src/routes/experiment.rs:76-101 | afterwards the index is empty; every registered experiment's loops are aborted and their handle entries dropped |
| ExperimentRoutes.ListExperiments | src/routes/experiment.rs:111-125 | every registered id exactly once |
| ExperimentRoutes.GetInsights | src/routes/experiment.rs:138-154 | not found iff unregistered; otherwise the experiment, its events and each message of its mapping once |
| ExperimentRoutes.GetConfig | src/routes/experiment.rs:167-181 | not found iff unregistered; otherwise the experiment and the sizes of its mapping and event list |
| AnalyzeUtils.NonZero | kafka-http-emitter-analyze/src/kafka_http_emitter_analyze/utils.py:6 | keeps exactly the non-zero values, no more entries than the input |
| AnalyzeUtils.NonZeroMultiplicity | kafka-http-emitter-analyze/src/kafka_http_emitter_analyze/utils.py:6 | each non-zero value is kept as often as it occurs, zeros not at all, so `len` counts the non-zero entries |
| AnalyzeUtils.NonZeroConcat | kafka-http-emitter-analyze/src/kafka_http_emitter_analyze/utils.py:6 | dropping zeros from a concatenation gives the parts' results in order, so input order is kept |
| AnalyzeUtils.Min | kafka-http-emitter-analyze/src/kafka_http_emitter_analyze/utils.py:11 | `min` is a member, no larger than any other |
| AnalyzeUtils.Max | kafka-http-emitter-analyze/src/kafka_http_emitter_analyze/utils.py:12 | `max` is a member, no smaller than any other |
| AnalyzeUtils.SortInts | kafka-http-emitter-analyze/src/kafka_http_emitter_analyze/utils.py:14 | the sort behind `median` is sorted and a permutation |
| AnalyzeUtils.MeanBetween | kafka-http-emitter-analyze/src/kafka_http_emitter_analyze/utils.py:13 | min ≤ mean ≤ max |
| AnalyzeUtils.MedianBetween | kafka-http-emitter-analyze/src/kafka_http_emitter_analyze/utils.py:14 | min ≤ median ≤ max |
| AnalyzeUtils.ListOfIntsStats | kafka-http-emitter-analyze/src/kafka_http_emitter_analyze/utils.py:5-16 | zeros are dropped; an empty or all-zero input gives 0,0,0,0 with one entry; otherwise the entries are the non-zero count, min and max are the extreme non-zero inputs, and mean and median lie between them |
| AnalyzeUtils.DefaultListOfIntsStats | kafka-http-emitter-analyze/src/kafka_http_emitter_analyze/utils.py:19-26 | all statistics 0, with no entries |
| AnalyzeUtils.DefaultIsNotComputed | kafka-http-emitter-analyze/src/kafka_http_emitter_analyze/utils.py:5-26 | no computed summary equals the default one |
| AnalyzeUtils.IntSimilarSymmetric | kafka-http-emitter-analyze/src/kafka_http_emitter_analyze/utils.py:36-42 | the similarity test is symmetric |
| AnalyzeUtils.IntSimilarReflexive | kafka-http-emitter-analyze/src/kafka_http_emitter_analyze/utils.py:41-42 | a value is similar to itself for a non-negative margin |
| PlotMode.CalculateExpectedMessages | kafka-http-emitter-analyze/src/kafka_http_emitter_analyze/modes/plotmode.py:137-147 | the loop computes `ExpectedMessages`, the sum over "job" and "batch" entries |
| PlotMode.ExpectedMessagesAppend | kafka-http-emitter-analyze/src/kafka_http_emitter_analyze/modes/plotmode.py:139-146 | the count of a concatenated plan is the sum of the parts' counts |
| PlotMode.WaitAddsNothing | kafka-http-emitter-analyze/src/kafka_http_emitter_analyze/modes/plotmode.py:145-146 | a "wait" entry anywhere in the plan adds nothing |
| PlotMode.ExpectedMessagesNonNegative | kafka-http-emitter-analyze/src/kafka_http_emitter_analyze/modes/plotmode.py:137-147 | entries with non-negative counts never give a negative total |
| PlotMode.Differences | kafka-http-emitter-analyze/src/kafka_http_emitter_analyze/modes/plotmode.py:44-47 | the pairwise `zip` differences: one fewer than the totals, each the next total minus this one |
| PlotMode.RelativeTimestamps | kafka-http-emitter-analyze/src/kafka_http_emitter_analyze/modes/plotmode.py:38-39 | one per point, starting at 0, each the time since the first point |
| PlotMode.SentBytesSeries | kafka-http-emitter-analyze/src/kafka_http_emitter_analyze/modes/plotmode.py:40-48 | one per point, 0 first, then each total minus the previous one |
| PlotMode.GraphSeries | kafka-http-emitter-analyze/src/kafka_http_emitter_analyze/modes/plotmode.py:34-61 | fails iff there are no points; otherwise six series, one entry per point in order: relative time, sent-bytes deltas, and the two latency summaries' mean and median |
| PlotMode.SentBytesTelescope | kafka-http-emitter-analyze/src/kafka_http_emitter_analyze/modes/plotmode.py:40-48 | the first k+1 deltas add up to the total at point k minus the first total |
| PlotMode.RelativeTimestampsKeepDistances | kafka-http-emitter-analyze/src/kafka_http_emitter_analyze/modes/plotmode.py:38-39 | relative timestamps keep the distances between points |

## Left out

- Kafka and tokio I/O are not modelled:
  - creating the producer and consumers, subscribing, and the `recv` loop with its transport-error warning;
  - spawning and aborting tasks. A handle is a task number, and "aborted" is a ghost set of handles.
  - Each received record, each delivery's outcome and the completion order of the send tasks are inputs.
- Messages.Send: handles only the tasks of its own request between the experiment check and the answer. An `end` that interleaves with them is covered only one task at a time, by `Messages.RecordSentEffect`: such a task panics and records nothing.
- Locking: each locked block is one atomic step. `experiment_related_data` takes three separate locks and is read here as one snapshot. Races between consume loops, send tasks and handlers are not modelled beyond the completion order.
- Clock, randomness and UUID generation are parameters (`now`, `pick`, `freshId`, `ids`). The payload is specified by its length and alphabet.
- HTTP server, routing, the OpenAPI schema, health and readiness routes, and the environment-based defaults (`default_brokers`, `default_topic`) are framework glue and are left out.
- The producer's `ClientConfig` in `send` (src/routes/messages.rs:33-46) is left out: the model has no producer to give it to.
- `send_job`, `async_mode`, `blocking` and delivery-failure counting are referenced but implemented nowhere in the source, so they are not modelled. `SentMessage` has no `delivery_failures` field because the `send` handler's literal omits it.
- The consumer passes a third argument to `insert_message` (src/consumers.rs:151-158), but src/state.rs:41 takes two. The model follows the two-argument behaviour of src/state.rs.
- Header bytes: a header value is absent, valid UTF-8 text, or not UTF-8. UTF-8 decoding itself is not modelled.
- Hash-map iteration order is unspecified in the model. Results that depend on it (`list_experiments`, `get_insights`, `messaged_bytes_size`) are specified for every order, through a ghost `order`.
- Messages.Totals: models the `usize` wrap of `payload.len() * messages_number` as a release build does. The overflow panic of a debug build is not modelled.
- Python floats are exact reals: `mean`, `median`, `entries * mean` and `max(a, b) * pct`. Rounding is not modelled.
- The Python tool's collector thread, sleeps, HTTP calls, file output and matplotlib calls are left out. So are `default_experiment_summary`, `typeadapters.py` and `models.py`, which hold no logic.
- The `insert(0, 0)` of the sent-bytes list is modelled as prepending to a value (`PlotMode.SentBytesSeries`); the list has no other alias.
- Consumers.ConsumeRecord: keeps the written `unwrap()`. Its `Panicked` outcome stops the step without unwinding the task, so the consume loop ending after a panic is not modelled.

## Findings

| source | as written | input that shows it | evidently intended | confidence | as-written member | corrected member |
|---|---|---|---|---|---|---|
| src/consumers.rs:161-174 | `end_experiment` removes message ids from the experiment-keyed `messages` map, so an ended experiment's mapping survives. The consume step then sees the message as tracked and calls `unwrap()` on the message index, which `end_experiment` did clear. | Experiment 1 sends message 2 and ends. A loop still consuming the topic then receives a record with headers (2, 1). | A message the index no longer knows is skipped, like any record not destined for this service. | not executed | Consumers.ConsumeStep (lemma Lifecycle.RecordAfterEndPanics) | Consumers.ConsumeStepChecked (lemma Consumers.ConsumeStepCheckedNeverPanics) |
