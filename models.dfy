/**
 * The records of `src/models/mod.rs` that the core reads and writes, with the
 * constructor `Experiment::new`, the `ByteSize` wrapper and the request defaults.
 */
module Models {
  import opened Wrappers
  import opened Uuids

  const U64_BOUND: nat := 0x1_0000_0000_0000_0000

  /** Rust `u64`; `usize` on the 64-bit targets the service is built for. */
  type U64 = n: nat | n < U64_BOUND

  /** Rust `i64`, as returned for a broker timestamp. */
  type I64 = t: int | -0x8000_0000_0000_0000 <= t < 0x8000_0000_0000_0000

  /** `models::ByteSize`: a wrapped `bytesize::ByteSize`, itself a `u64` byte count. */
  datatype ByteSize = ByteSize(bytes: U64)

  /** `ByteSize::as_bytes`: the count widened to `u128`. */
  function AsBytes(size: ByteSize): (n: nat)
    ensures n < U64_BOUND
  {
    size.bytes
  }

  /** `From<bytesize::ByteSize> for ByteSize`, applied to `bytesize::ByteSize::b(count)`. */
  function FromByteCount(count: U64): ByteSize
  {
    ByteSize(count)
  }

  /** Wrapping a byte count and unwrapping it again loses nothing. */
  lemma AsBytesFromByteCount(count: U64)
    ensures AsBytes(FromByteCount(count)) == count
  {
  }

  /** `bytesize::ByteSize::kib(n)`: `n` binary kilobytes. */
  function KiB(n: nat): ByteSize
    requires n * 1024 < U64_BOUND
  {
    ByteSize(n * 1024)
  }

  /** `models::Duration`: a `std::time::Duration`, kept as whole nanoseconds. */
  datatype Duration = Duration(nanos: nat)

  /** `Duration::as_millis`: truncates the sub-millisecond part. */
  function AsMillis(d: Duration): (ms: nat)
    ensures ms * 1_000_000 <= d.nanos < (ms + 1) * 1_000_000
  {
    d.nanos / 1_000_000
  }

  /** `KafkaBrokerCfg`: one consumer (or producer) endpoint. */
  datatype KafkaBrokerCfg = KafkaBrokerCfg(
    brokers: string,
    topic: string,
    ssl: bool,
    messageTimeout: Duration,
    consumerGroupId: string)

  /** `EventType`: what happened to a message. */
  datatype EventType =
    | Sent
    | KafkaTimestampSet(consumerGroup: string)
    | Received(consumerGroup: string)

  /** `MessageEvent`: one timestamped fact about a message. */
  datatype MessageEvent = MessageEvent(
    messageUuid: Uuid,
    timestampMillis: nat,
    brokers: string,
    topic: string,
    eventType: EventType)

  /** `Experiment`: the root of one measurement run. */
  datatype Experiment = Experiment(
    uuid: Uuid,
    consumers: seq<KafkaBrokerCfg>,
    startTimestampMillis: nat,
    endTimestampMillis: Option<nat>)

  /**
   * `Experiment::new`; the clock reading `get_now_millis()` is the parameter `now`.
   */
  function MakeExperiment(uuid: Uuid, consumers: seq<KafkaBrokerCfg>, now: nat): (e: Experiment)
    ensures e.uuid == uuid && e.consumers == consumers
    ensures e.endTimestampMillis.None? && e.startTimestampMillis == now
  {
    Experiment(uuid, consumers, now, None)
  }

  /** `Message`: one emitted payload. */
  datatype Message = Message(uuid: Uuid, bytesSize: ByteSize)

  /**
   * `SentMessage` as the `send` handler builds it: the literal there sets these
   * five fields and leaves out `delivery_failures`.
   */
  datatype SentMessage = SentMessage(
    experimentUuid: Uuid,
    messageNumber: nat,
    bytesSize: nat,
    totalSentBytes: nat,
    totalSentBytesHumanReadable: ByteSize)

  /** `Insights`: everything recorded about one experiment. */
  datatype Insights = Insights(messages: seq<Message>, experiment: Experiment, events: seq<MessageEvent>)

  /** `ExperimentOverview`: an experiment with the sizes of its message mapping and event list. */
  datatype ExperimentOverview = ExperimentOverview(experiment: Experiment, messages: nat, events: nat)

  /** `SendMessage`: the body of a send request. */
  datatype SendMessage = SendMessage(
    bufferingMs: nat,
    brokers: string,
    topic: string,
    ssl: bool,
    messageTimeout: Duration,
    bodySize: ByteSize,
    messagesNumber: U64,
    experimentUuid: Uuid,
    blocking: bool)

  /** `NewExperiment`, `RestoreExperiment`, `BeginResponse`, `EndRequest`, `EndResponse`. */
  datatype NewExperiment = NewExperiment(listeners: seq<KafkaBrokerCfg>)
  datatype RestoreExperiment = RestoreExperiment(experimentUuid: Uuid, listeners: seq<KafkaBrokerCfg>)
  datatype BeginResponse = BeginResponse(experimentUuid: Uuid)
  datatype EndRequest = EndRequest(experimentUuid: Uuid)
  datatype EndResponse = EndResponse(experimentUuid: Uuid)

  /** The one error the core reports to its HTTP layer (`ErrorNotFound`). */
  datatype HttpError = ExperimentNotFound

  /** `default_body_size`: 6 KiB. */
  function DefaultBodySize(): (size: ByteSize)
    ensures AsBytes(size) == 6144
  {
    KiB(6)
  }

  /** `default_messages_number`. */
  function DefaultMessagesNumber(): (n: nat)
    ensures n == 1
  {
    1
  }

  /** `default_timeout`: 60 seconds. */
  function DefaultTimeout(): (d: Duration)
    ensures AsMillis(d) == 60_000
  {
    Duration(60 * 1_000_000_000)
  }

  /** `default_buffering_ms`. */
  function DefaultBufferingMs(): (ms: nat)
    ensures ms == 5
  {
    5
  }
}
