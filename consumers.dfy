/**
 * `src/consumers.rs`: the supervisor of the background consume loops
 * (`LoopHandler`, `Consumers`), the client configuration each loop builds, and
 * what one loop iteration does with a record once `recv` has returned it.
 */
module Consumers {
  import opened Wrappers
  import opened Formatting
  import opened Uuids
  import opened Models
  import opened Index
  import opened App

  /** A tokio `AbortHandle`, identified by the number of the task it controls. */
  type Handle = nat

  /** What one spawned `consumer_loop` task was started with. */
  datatype ConsumerTask = ConsumerTask(cfg: KafkaBrokerCfg, offsetReset: bool)

  /** `LoopHandler`: experiment id to the abort handles of its consume loops. */
  class LoopHandler {
    var handles: map<Uuid, seq<Handle>>
    /** Every handle `abort` has been called on. */
    ghost var aborted: set<Handle>

    constructor ()
      ensures handles == map[] && aborted == {}
    {
      handles := map[];
      aborted := {};
    }

    /** `register_experiment`: replaces the whole handle list of `uuid`. */
    method RegisterExperiment(uuid: Uuid, newHandles: seq<Handle>)
      modifies this
      ensures handles == old(handles)[uuid := newHandles]
      ensures aborted == old(aborted)
    {
      handles := handles[uuid := newHandles];
    }

    /**
     * `deregister_experiment`: drops the entry of `uuid` and aborts every handle
     * it held; an unknown id changes nothing.
     */
    method DeregisterExperiment(uuid: Uuid)
      modifies this
      ensures handles == old(handles) - {uuid}
      ensures aborted == old(aborted) + (if uuid in old(handles) then Elements(old(handles)[uuid]) else {})
    {
      if uuid in handles {
        var removed := handles[uuid];
        handles := handles - {uuid};
        var i := 0;
        while i < |removed|
          invariant 0 <= i <= |removed|
          invariant handles == old(handles) - {uuid}
          invariant aborted == old(aborted) + Elements(removed[..i])
        {
          assert removed[..i + 1] == removed[..i] + [removed[i]];
          aborted := aborted + {removed[i]};  // handle.abort()
          i := i + 1;
        }
        assert removed[..i] == removed;
      }
    }
  }

  /** `Consumers`: spawns consume loops and keeps their handles. */
  class Consumers {
    const loops: LoopHandler
    /** How many tasks have been spawned; the next handle. */
    var spawnedCount: nat
    /** The consume loops spawned so far: handle `h` controls `tasks[h]`. */
    ghost var tasks: seq<ConsumerTask>

    ghost predicate Valid()
      reads this, loops
    {
      && |tasks| == spawnedCount
      && forall uuid, h :: uuid in loops.handles && h in loops.handles[uuid] ==> h < spawnedCount
    }

    constructor ()
      ensures Valid() && fresh(loops)
      ensures loops.handles == map[] && loops.aborted == {} && tasks == []
    {
      loops := new LoopHandler();
      spawnedCount := 0;
      tasks := [];
    }

    /**
     * `start`: spawns one consume loop and appends its handle, a handle no
     * experiment held before, to the list of `uuid` (created if absent).
     */
    method Start(uuid: Uuid, cfg: KafkaBrokerCfg, offsetReset: bool)
      requires Valid()
      modifies this, loops
      ensures Valid()
      ensures spawnedCount == old(spawnedCount) + 1
      ensures tasks == old(tasks) + [ConsumerTask(cfg, offsetReset)]
      ensures loops.handles == old(loops.handles)[uuid := Lookup(old(loops.handles), uuid, []) + [old(spawnedCount)]]
      ensures forall x, h :: x in old(loops.handles) && h in old(loops.handles)[x] ==> h != old(spawnedCount)
      ensures loops.aborted == old(loops.aborted)
    {
      var handle := spawnedCount;  // tokio::spawn(consumer_loop(cfg, state, offset_reset)).abort_handle()
      spawnedCount := spawnedCount + 1;
      tasks := tasks + [ConsumerTask(cfg, offsetReset)];
      loops.handles := loops.handles[uuid := Lookup(loops.handles, uuid, []) + [handle]];
    }

    /** `stop`: deregisters `uuid`, aborting all of its loops. */
    method Stop(uuid: Uuid)
      requires Valid()
      modifies loops
      ensures Valid()
      ensures loops.handles == old(loops.handles) - {uuid}
      ensures loops.aborted == old(loops.aborted) +
        (if uuid in old(loops.handles) then Elements(old(loops.handles)[uuid]) else {})
    {
      loops.DeregisterExperiment(uuid);
    }
  }

  // ----------------------------------------------------- client configuration

  /** An rdkafka `ClientConfig`: a string map where a later `set` overrides. */
  type ClientConfig = map<string, string>

  /** The settings `consumer_loop` applies, in order, before creating its consumer. */
  function ConsumerConfig(cfg: KafkaBrokerCfg, offsetReset: bool): ClientConfig
  {
    var timeoutMs := AsMillis(cfg.messageTimeout);
    var base := map[]
      ["group.id" := cfg.consumerGroupId]
      ["bootstrap.servers" := cfg.brokers]
      ["enable.auto.commit" := "true"]
      ["max.poll.interval.ms" := Decimal(timeoutMs * 2)]
      ["session.timeout.ms" := Decimal(timeoutMs)]
      ["enable.auto.commit" := "false"];
    var secured := if cfg.ssl then
        base["security.protocol" := "ssl"]["enable.ssl.certificate.verification" := "false"]
      else base;
    if offsetReset then secured["auto.offset.reset" := "earliest"] else secured
  }

  /**
   * The configuration a consume loop runs with: the group and brokers of its
   * config; auto-commit finally off; a session timeout of the message timeout in
   * milliseconds and a poll interval of twice that; TLS without certificate
   * verification exactly when `ssl` is set; replay from the earliest offset
   * exactly when asked.
   */
  lemma {:induction false} ConsumerConfigSettings(cfg: KafkaBrokerCfg, offsetReset: bool)
    ensures var c := ConsumerConfig(cfg, offsetReset);
      && c["group.id"] == cfg.consumerGroupId
      && c["bootstrap.servers"] == cfg.brokers
      && c["enable.auto.commit"] == "false"
      && AllDecimal(c["session.timeout.ms"]) && AllDecimal(c["max.poll.interval.ms"])
      && DecimalValue(c["session.timeout.ms"]) == AsMillis(cfg.messageTimeout)
      && DecimalValue(c["max.poll.interval.ms"]) == 2 * DecimalValue(c["session.timeout.ms"])
      && ("security.protocol" in c <==> cfg.ssl)
      && ("enable.ssl.certificate.verification" in c <==> cfg.ssl)
      && (cfg.ssl ==> c["security.protocol"] == "ssl" && c["enable.ssl.certificate.verification"] == "false")
      && ("auto.offset.reset" in c <==> offsetReset)
      && (offsetReset ==> c["auto.offset.reset"] == "earliest")
  {
    var timeoutMs := AsMillis(cfg.messageTimeout);
    DecimalRoundTrip(timeoutMs);
    DecimalRoundTrip(timeoutMs * 2);
  }

  /** The consume loop's configuration sets no key beyond those. */
  lemma ConsumerConfigKeys(cfg: KafkaBrokerCfg, offsetReset: bool)
    ensures ConsumerConfig(cfg, offsetReset).Keys ==
      {"group.id", "bootstrap.servers", "enable.auto.commit", "max.poll.interval.ms", "session.timeout.ms"}
      + (if cfg.ssl then {"security.protocol", "enable.ssl.certificate.verification"} else {})
      + (if offsetReset then {"auto.offset.reset"} else {})
  {
  }

  // ------------------------------------------------------------ record step

  /**
   * A header value as the consumer sees it after `std::str::from_utf8`: absent,
   * valid UTF-8 text, or bytes that are not UTF-8.
   */
  datatype HeaderValue = NoValue | Text(text: string) | NotUtf8

  datatype Header = Header(key: string, value: HeaderValue)

  /** The parts of a received Kafka record the loop uses. */
  datatype ConsumedRecord = ConsumedRecord(
    headers: Option<seq<Header>>,
    payloadLen: U64,
    topic: string,
    brokerTimestamp: Option<I64>)

  /**
   * The `filter_map(...).collect()` of the headers into a `HashMap`: headers
   * without a UTF-8 value are dropped and a later key overrides an earlier one.
   */
  function HeaderMap(hs: seq<Header>): map<string, string>
  {
    if hs == [] then map[]
    else
      var m := HeaderMap(hs[..|hs| - 1]);
      var last := hs[|hs| - 1];
      if last.value.Text? then m[last.key := last.value.text] else m
  }

  function RecordHeaders(rec: ConsumedRecord): map<string, string>
  {
    if rec.headers.Some? then HeaderMap(rec.headers.value) else map[]
  }

  /** The message and experiment ids of the two headers, if both are present and parse. */
  function CorrelationIds(headers: map<string, string>): Option<(Uuid, Uuid)>
  {
    if MESSAGE_UUID_HEADER in headers && EXPERIMENT_UUID_HEADER in headers then
      var m := TryParse(headers[MESSAGE_UUID_HEADER]);
      var e := TryParse(headers[EXPERIMENT_UUID_HEADER]);
      if m.Some? && e.Some? then Some((m.value, e.value)) else None
    else None
  }

  /**
   * The two headers every delivery carries (`src/routes/messages.rs`), as the
   * consumer reads them back: message id first, then experiment id, each in
   * hyphenated form.
   */
  function CorrelationHeaders(m: Uuid, e: Uuid): seq<Header>
  {
    [Header(MESSAGE_UUID_HEADER, Text(ToString(m))), Header(EXPERIMENT_UUID_HEADER, Text(ToString(e)))]
  }

  /** What the producer writes, the consumer reads back as the same pair of ids. */
  lemma CorrelationHeadersRoundTrip(m: Uuid, e: Uuid)
    ensures CorrelationIds(HeaderMap(CorrelationHeaders(m, e))) == Some((m, e))
  {
    var hs := CorrelationHeaders(m, e);
    HeaderNamesDiffer();
    ParseToString(m);
    ParseToString(e);
    assert hs[..1][..0] == [];
    assert hs[..1] == hs[..|hs| - 1];
    assert HeaderMap(hs[..1]) == map[MESSAGE_UUID_HEADER := ToString(m)];
    assert HeaderMap(hs) == map[MESSAGE_UUID_HEADER := ToString(m), EXPERIMENT_UUID_HEADER := ToString(e)];
  }

  const U128_BOUND: nat := 0x1_0000_0000_0000_0000_0000_0000_0000_0000

  /** `millis as u128` on an `i64`: a negative value wraps around. */
  function I64ToU128(t: I64): (u: nat)
    ensures u < U128_BOUND
    ensures t >= 0 ==> u == t
    ensures t < 0 ==> u == U128_BOUND + t
  {
    if t >= 0 then t else U128_BOUND + t
  }

  /** The events one tracked record appends: `Received`, then `KafkaTimestampSet` if the broker stamped it. */
  function ReceivedEvents(cfg: KafkaBrokerCfg, rec: ConsumedRecord, m: Uuid, now: nat): seq<MessageEvent>
  {
    var received := MessageEvent(m, now, cfg.brokers, rec.topic, Received(cfg.consumerGroupId));
    if rec.brokerTimestamp.Some? then
      [received, MessageEvent(m, I64ToU128(rec.brokerTimestamp.value), cfg.brokers, rec.topic,
                              KafkaTimestampSet(cfg.consumerGroupId))]
    else [received]
  }

  /** How a record step ended. `Panicked` is the `unwrap()` on a missing index entry. */
  datatype StepOutcome = Skipped | NotTracked | Recorded | Panicked

  datatype StepResult = StepResult(view: IndexView, outcome: StepOutcome)

  /**
   * The insertion a record triggers: when its message id is not a key of the
   * experiment-keyed `messages` map and its experiment is registered.
   */
  function RecordInsertion(v: IndexView, rec: ConsumedRecord, m: Uuid, e: Uuid): IndexView
  {
    if m !in v.messages && e in v.experiments then Insert(v, Message(m, FromByteCount(rec.payloadLen)), e)
    else v
  }

  /** Whether the message is in the mapping of the header's experiment. */
  predicate Tracked(v: IndexView, m: Uuid, e: Uuid)
  {
    e in v.messages && m in v.messages[e]
  }

  /** The body of one `consumer_loop` iteration after `recv` returned a record, as written. */
  function ConsumeStep(v: IndexView, cfg: KafkaBrokerCfg, rec: ConsumedRecord, now: nat): StepResult
  {
    var ids := CorrelationIds(RecordHeaders(rec));
    if ids.None? then StepResult(v, Skipped)
    else
      var m, e := ids.value.0, ids.value.1;
      var v1 := RecordInsertion(v, rec, m, e);
      if !Tracked(v1, m, e) then StepResult(v1, NotTracked)
      else if m !in v1.messageToExperiment then StepResult(v1, Panicked)
      else
        var target := v1.messageToExperiment[m];
        StepResult(v1.(events := v1.events[target := Lookup(v1.events, target, []) + ReceivedEvents(cfg, rec, m, now)]),
                   Recorded)
  }

  /** A record without both headers, or with a value that is not a UUID, changes nothing. */
  lemma ConsumeStepSkipsMalformed(v: IndexView, cfg: KafkaBrokerCfg, rec: ConsumedRecord, now: nat)
    requires CorrelationIds(RecordHeaders(rec)).None?
    ensures ConsumeStep(v, cfg, rec, now) == StepResult(v, Skipped)
  {
  }

  /** An untracked message appends no event. */
  lemma ConsumeStepUntrackedAppendsNothing(v: IndexView, cfg: KafkaBrokerCfg, rec: ConsumedRecord, now: nat)
    requires ConsumeStep(v, cfg, rec, now).outcome == NotTracked
    ensures ConsumeStep(v, cfg, rec, now).view.events == v.events
  {
  }

  /**
   * A tracked message gets exactly its `Received` event stamped `now`, followed
   * by one `KafkaTimestampSet` event exactly when the broker stamped the record,
   * both appended to the list of the experiment the message index names (the
   * header's experiment when the record was just inserted); every other list is
   * unchanged.
   */
  lemma ConsumeStepRecords(v: IndexView, cfg: KafkaBrokerCfg, rec: ConsumedRecord, now: nat)
    requires ConsumeStep(v, cfg, rec, now).outcome == Recorded
    ensures var ids := CorrelationIds(RecordHeaders(rec));
      var m, e := ids.value.0, ids.value.1;
      var r := ConsumeStep(v, cfg, rec, now).view;
      var v1 := RecordInsertion(v, rec, m, e);
      var target := v1.messageToExperiment[m];
      var added := r.events[target][|Lookup(v1.events, target, [])|..];
      && ids.Some?
      && target in r.events
      && r.events[target][..|Lookup(v1.events, target, [])|] == Lookup(v1.events, target, [])
      && |added| == (if rec.brokerTimestamp.Some? then 2 else 1)
      && added[0].eventType == Received(cfg.consumerGroupId) && added[0].timestampMillis == now
      && added[0].messageUuid == m
      && (rec.brokerTimestamp.Some? ==>
            added[1].eventType == KafkaTimestampSet(cfg.consumerGroupId)
            && added[1].timestampMillis == I64ToU128(rec.brokerTimestamp.value))
      && (forall x :: x != target ==> Lookup(r.events, x, []) == Lookup(v1.events, x, []))
      && (m !in v.messages && e in v.experiments ==> target == e)
  {
  }

  lemma SetEventsConsistent(v: IndexView, target: Uuid, list: seq<MessageEvent>)
    requires Consistent(v) && target in v.experiments
    ensures Consistent(v.(events := v.events[target := list]))
  {
  }

  /** A record step keeps the index consistent, whatever its outcome. */
  lemma ConsumeStepConsistent(v: IndexView, cfg: KafkaBrokerCfg, rec: ConsumedRecord, now: nat)
    requires Consistent(v)
    ensures Consistent(ConsumeStep(v, cfg, rec, now).view)
  {
    var ids := CorrelationIds(RecordHeaders(rec));
    if ids.Some? {
      var m, e := ids.value.0, ids.value.1;
      if m !in v.messages && e in v.experiments {
        InsertConsistent(v, Message(m, FromByteCount(rec.payloadLen)), e);
      }
      var v1 := RecordInsertion(v, rec, m, e);
      if Tracked(v1, m, e) && m in v1.messageToExperiment {
        var target := v1.messageToExperiment[m];
        SetEventsConsistent(v1, target, Lookup(v1.events, target, []) + ReceivedEvents(cfg, rec, m, now));
      }
    }
  }

  /**
   * On a consistent index the step panics exactly when the message sits in the
   * mapping of its header's experiment while the message index has no entry for
   * it: the experiment's mapping outlived the experiment.
   */
  lemma ConsumeStepPanicsWhen(v: IndexView, cfg: KafkaBrokerCfg, rec: ConsumedRecord, now: nat)
    requires Consistent(v)
    requires CorrelationIds(RecordHeaders(rec)).Some?
    ensures var ids := CorrelationIds(RecordHeaders(rec));
      var m, e := ids.value.0, ids.value.1;
      ConsumeStep(v, cfg, rec, now).outcome == Panicked <==>
        && !(m !in v.messages && e in v.experiments)
        && Tracked(v, m, e)
        && m !in v.messageToExperiment
  {
  }

  /**
   * The record step with the message-index lookup checked: a message the index
   * no longer knows is treated as not destined for this consumer.
   */
  function ConsumeStepChecked(v: IndexView, cfg: KafkaBrokerCfg, rec: ConsumedRecord, now: nat): (r: StepResult)
  {
    var s := ConsumeStep(v, cfg, rec, now);
    if s.outcome == Panicked then StepResult(s.view, NotTracked) else s
  }

  /** The checked step never panics, skips the record where the written one panics, and otherwise does what it does. */
  lemma ConsumeStepCheckedNeverPanics(v: IndexView, cfg: KafkaBrokerCfg, rec: ConsumedRecord, now: nat)
    ensures ConsumeStepChecked(v, cfg, rec, now).outcome != Panicked
    ensures ConsumeStep(v, cfg, rec, now).outcome != Panicked ==>
      ConsumeStepChecked(v, cfg, rec, now) == ConsumeStep(v, cfg, rec, now)
    ensures ConsumeStep(v, cfg, rec, now).outcome == Panicked ==>
      ConsumeStepChecked(v, cfg, rec, now) == StepResult(ConsumeStep(v, cfg, rec, now).view, NotTracked)
  {
  }

  /**
   * One iteration of `consumer_loop` on a received record, against the shared
   * index (the lock is held for the whole step).
   */
  method ConsumeRecord(state: MessagesState, cfg: KafkaBrokerCfg, rec: ConsumedRecord, now: nat)
    returns (outcome: StepOutcome)
    requires state.Valid()
    modifies state
    ensures state.Valid()
    ensures StepResult(state.View(), outcome) == ConsumeStep(old(state.View()), cfg, rec, now)
  {
    ConsumeStepConsistent(state.View(), cfg, rec, now);
    var ids := CorrelationIds(RecordHeaders(rec));
    if ids.None? {
      return Skipped;
    }
    var m, e := ids.value.0, ids.value.1;
    if m !in state.messages && e in state.experiments {
      state.InsertMessage(Message(m, FromByteCount(rec.payloadLen)), e);
    }
    assert state.View() == RecordInsertion(old(state.View()), rec, m, e);
    if e in state.messages && m in state.messages[e] {
      if m !in state.messageToExperiment {
        return Panicked;  // `.unwrap()` on `None`
      }
      var target := state.messageToExperiment[m];
      var list := Lookup(state.events, target, []);
      list := list + [MessageEvent(m, now, cfg.brokers, rec.topic, Received(cfg.consumerGroupId))];
      if rec.brokerTimestamp.Some? {
        list := list + [MessageEvent(m, I64ToU128(rec.brokerTimestamp.value), cfg.brokers, rec.topic,
                                     KafkaTimestampSet(cfg.consumerGroupId))];
      }
      assert list == Lookup(state.events, target, []) + ReceivedEvents(cfg, rec, m, now);
      state.events := state.events[target := list];
      outcome := Recorded;
    } else {
      outcome := NotTracked;  // "Message is not destined for us"
    }
  }
}
