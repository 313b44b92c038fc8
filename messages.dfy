/**
 * `send` from `src/routes/messages.rs`: the random payload, the experiment
 * check, the deliveries handed to the producer, what each completed delivery
 * records in the index, and the response totals.
 */
module Messages {
  import opened Wrappers
  import opened Formatting
  import opened Uuids
  import opened Models
  import opened Index
  import opened Consumers

  /** `count` consecutive characters starting at `first`. */
  function CharRun(first: char, count: nat): (s: string)
    requires first as int + count <= 0x80
    ensures |s| == count && forall i :: 0 <= i < count ==> s[i] as int == first as int + i
  {
    seq(count, i requires 0 <= i < count => (first as int + i) as char)
  }

  /** The payload alphabet: upper case, lower case, then digits (62 characters). */
  const CHARSET: string := CharRun('A', 26) + CharRun('a', 26) + CharRun('0', 10)

  predicate Alphanumeric(c: char)
  {
    ('A' <= c <= 'Z') || ('a' <= c <= 'z') || ('0' <= c <= '9')
  }

  /** The alphabet has 62 distinct characters, exactly the ASCII letters and digits. */
  lemma CharsetShape()
    ensures |CHARSET| == 62
    ensures Distinct(CHARSET)
    ensures forall c :: c in CHARSET <==> Alphanumeric(c)
  {
    assert forall i :: 0 <= i < 26 ==> CHARSET[i] as int == 'A' as int + i;
    assert forall i :: 26 <= i < 52 ==> CHARSET[i] as int == 'a' as int + (i - 26);
    assert forall i :: 52 <= i < 62 ==> CHARSET[i] as int == '0' as int + (i - 52);
    forall c | Alphanumeric(c)
      ensures c in CHARSET
    {
      if 'A' <= c <= 'Z' {
        assert CHARSET[c as int - 'A' as int] == c;
      } else if 'a' <= c <= 'z' {
        assert CHARSET[26 + c as int - 'a' as int] == c;
      } else {
        assert CHARSET[52 + c as int - '0' as int] == c;
      }
    }
  }

  /**
   * The payload: one alphabet character per byte of `body_size`, the `i`-th
   * drawn by `random_range(0..62)`, whose draws are the parameter `pick`.
   */
  function Payload(bodySize: ByteSize, pick: nat -> nat): (p: string)
    ensures |p| == AsBytes(bodySize)
    ensures forall i :: 0 <= i < |p| ==> p[i] in CHARSET
  {
    seq(AsBytes(bodySize), i requires 0 <= i => CHARSET[pick(i) % |CHARSET|])
  }

  /** A `FutureRecord` as handed to the producer. */
  datatype Delivery = Delivery(topic: string, payload: string, key: string, headers: seq<Header>)

  /**
   * The `messages_number` records of one request; `ids` are the `new_v4()`
   * draws, one per record.
   */
  function Deliveries(params: SendMessage, payload: string, ids: seq<Uuid>): (ds: seq<Delivery>)
    requires |ids| == params.messagesNumber
    ensures |ds| == params.messagesNumber
    ensures forall i :: 0 <= i < |ds| ==>
      ds[i] == Delivery(params.topic, payload, "msg-" + Decimal(i), CorrelationHeaders(ids[i], params.experimentUuid))
  {
    seq(|ids|, i requires 0 <= i < |ids| =>
      Delivery(params.topic, payload, "msg-" + Decimal(i), CorrelationHeaders(ids[i], params.experimentUuid)))
  }

  /** No two records of one request share a key. */
  lemma DeliveryKeysDistinct(params: SendMessage, payload: string, ids: seq<Uuid>, i: nat, j: nat)
    requires |ids| == params.messagesNumber
    requires i < j < |ids|
    ensures Deliveries(params, payload, ids)[i].key != Deliveries(params, payload, ids)[j].key
  {
    var ds := Deliveries(params, payload, ids);
    DecimalInjective(i, j);
    assert ds[i].key[4..] == Decimal(i) && ds[j].key[4..] == Decimal(j);
  }

  /** A consumer reading any record of the request recovers that record's message id and the request's experiment id. */
  lemma DeliveryHeadersRoundTrip(params: SendMessage, payload: string, ids: seq<Uuid>, i: nat)
    requires |ids| == params.messagesNumber
    requires i < |ids|
    ensures CorrelationIds(HeaderMap(Deliveries(params, payload, ids)[i].headers)) == Some((ids[i], params.experimentUuid))
  {
    CorrelationHeadersRoundTrip(ids[i], params.experimentUuid);
  }

  /** The `Sent` event a completed delivery records. */
  function SentEvent(params: SendMessage, m: Uuid, now: nat): MessageEvent
  {
    MessageEvent(m, now, params.brokers, params.topic, Sent)
  }

  /** The index after one delivery's task, and whether its `unwrap()` panicked. */
  datatype DeliveryResult = DeliveryResult(view: IndexView, panicked: bool)

  /**
   * The locked block of one delivery task: insert the message, then push a
   * `Sent` event onto the experiment's list, which must exist. The delivery
   * status is not consulted.
   */
  function RecordSent(v: IndexView, params: SendMessage, m: Uuid, payloadLen: U64, now: nat): DeliveryResult
  {
    var e := params.experimentUuid;
    var v1 := Insert(v, Message(m, FromByteCount(payloadLen)), e);
    if e in v1.events then
      DeliveryResult(v1.(events := v1.events[e := v1.events[e] + [SentEvent(params, m, now)]]), false)
    else DeliveryResult(v1, true)
  }

  /**
   * On a consistent index a delivery task panics exactly when the experiment
   * has been ended since the check, and then changes nothing; otherwise the
   * message is in the experiment's mapping with the payload's size and exactly
   * one `Sent` event is appended to its list, which no other list notices.
   */
  lemma RecordSentEffect(v: IndexView, params: SendMessage, m: Uuid, payloadLen: U64, now: nat)
    requires Consistent(v)
    ensures var e, r := params.experimentUuid, RecordSent(v, params, m, payloadLen, now);
      && (r.panicked <==> e !in v.experiments)
      && (r.panicked ==> r.view == v)
      && Consistent(r.view)
      && r.view.experiments == v.experiments
      && (!r.panicked ==>
            && e in r.view.messages && r.view.messages[e][m] == Message(m, FromByteCount(payloadLen))
            && r.view.messageToExperiment[m] == e
            && r.view.events[e] == Lookup(v.events, e, []) + [SentEvent(params, m, now)]
            && (forall x :: x != e ==> Lookup(r.view.events, x, []) == Lookup(v.events, x, [])))
  {
    var e := params.experimentUuid;
    var message := Message(m, FromByteCount(payloadLen));
    InsertConsistent(v, message, e);
    if e in v.experiments {
      InsertKnownExperiment(v, message, e);
      var v1 := Insert(v, message, e);
      SetEventsConsistent(v1, e, v1.events[e] + [SentEvent(params, m, now)]);
    } else {
      InsertUnknownExperiment(v, message, e);
    }
  }

  /**
   * The locked block of one delivery task on the shared state: after it the
   * state is what `RecordSent` describes, and `panicked` says whether the
   * `unwrap()` on the experiment's event list failed.
   */
  method RecordDelivery(state: MessagesState, params: SendMessage, m: Uuid, payloadLen: U64, now: nat)
    returns (panicked: bool)
    requires state.Valid()
    modifies state
    ensures state.Valid()
    ensures RecordSent(old(state.View()), params, m, payloadLen, now) == DeliveryResult(state.View(), panicked)
  {
    var e := params.experimentUuid;
    RecordSentEffect(state.View(), params, m, payloadLen, now);
    state.InsertMessage(Message(m, FromByteCount(payloadLen)), e);
    if e in state.events {
      state.events := state.events[e := state.events[e] + [SentEvent(params, m, now)]];
      panicked := false;
    } else {
      panicked := true;
    }
  }

  /** A delivery task as the scheduler completes it: which record, whether Kafka acknowledged it, and the clock reading. */
  datatype Completion = Completion(index: nat, delivered: bool, now: nat)

  /** Every completion names one of the `count` records. */
  predicate ValidCompletions(cs: seq<Completion>, count: nat)
  {
    forall k :: 0 <= k < |cs| ==> cs[k].index < count
  }

  /**
   * The join loop drains the set: each of the `count` tasks completes exactly
   * once, so the completions are a reordering of the records.
   */
  predicate AllCompleted(cs: seq<Completion>, count: nat)
  {
    var indices := CompletedIndices(cs);
    && ValidCompletions(cs, count)
    && |cs| == count && Distinct(indices)
    && forall i :: 0 <= i < count ==> i in indices
  }

  /** The records in the order their tasks completed. */
  function CompletedIndices(cs: seq<Completion>): (indices: seq<nat>)
    ensures |indices| == |cs| && forall k :: 0 <= k < |cs| ==> indices[k] == cs[k].index
  {
    seq(|cs|, k requires 0 <= k < |cs| => cs[k].index)
  }

  /** The tasks' locked blocks, one after the other in completion order. */
  function RecordAll(v: IndexView, params: SendMessage, payloadLen: U64, ids: seq<Uuid>, cs: seq<Completion>): IndexView
    requires ValidCompletions(cs, |ids|)
  {
    if cs == [] then v
    else
      var c := cs[|cs| - 1];
      RecordSent(RecordAll(v, params, payloadLen, ids, cs[..|cs| - 1]), params, ids[c.index], payloadLen, c.now).view
  }

  /** The `Sent` events of the completed tasks, in completion order. */
  function SentEvents(params: SendMessage, ids: seq<Uuid>, cs: seq<Completion>): (es: seq<MessageEvent>)
    requires ValidCompletions(cs, |ids|)
    ensures |es| == |cs|
    ensures forall k :: 0 <= k < |cs| ==> es[k] == SentEvent(params, ids[cs[k].index], cs[k].now)
  {
    seq(|cs|, k requires 0 <= k < |cs| => SentEvent(params, ids[cs[k].index], cs[k].now))
  }

  /**
   * With the experiment still registered, the request appends exactly one
   * `Sent` event per completed task to the experiment's list, in completion
   * order, whether or not the delivery succeeded; no other list changes.
   */
  lemma {:induction false} RecordAllSentEvents(v: IndexView, params: SendMessage, payloadLen: U64,
                                               ids: seq<Uuid>, cs: seq<Completion>)
    requires Consistent(v) && params.experimentUuid in v.experiments
    requires ValidCompletions(cs, |ids|)
    ensures var e, r := params.experimentUuid, RecordAll(v, params, payloadLen, ids, cs);
      && Consistent(r) && r.experiments == v.experiments
      && Lookup(r.events, e, []) == Lookup(v.events, e, []) + SentEvents(params, ids, cs)
      && (forall x :: x != e ==> Lookup(r.events, x, []) == Lookup(v.events, x, []))
  {
    if cs != [] {
      var prefix := cs[..|cs| - 1];
      var c := cs[|cs| - 1];
      assert ValidCompletions(prefix, |ids|);
      RecordAllSentEvents(v, params, payloadLen, ids, prefix);
      var before := RecordAll(v, params, payloadLen, ids, prefix);
      RecordSentEffect(before, params, ids[c.index], payloadLen, c.now);
      SentEventsSnoc(params, ids, cs);
    }
  }

  lemma SentEventsSnoc(params: SendMessage, ids: seq<Uuid>, cs: seq<Completion>)
    requires ValidCompletions(cs, |ids|) && cs != []
    ensures ValidCompletions(cs[..|cs| - 1], |ids|)
    ensures var c := cs[|cs| - 1];
      SentEvents(params, ids, cs) == SentEvents(params, ids, cs[..|cs| - 1]) + [SentEvent(params, ids[c.index], c.now)]
  {
  }

  /**
   * With the experiment still registered, every completed task's message is
   * in the experiment's mapping, with the payload's size.
   */
  lemma {:induction false} RecordAllStoresMessages(v: IndexView, params: SendMessage, payloadLen: U64,
                                                   ids: seq<Uuid>, cs: seq<Completion>)
    requires Consistent(v) && params.experimentUuid in v.experiments
    requires ValidCompletions(cs, |ids|)
    ensures var e, r := params.experimentUuid, RecordAll(v, params, payloadLen, ids, cs);
      forall k :: 0 <= k < |cs| ==>
        && e in r.messages && ids[cs[k].index] in r.messages[e]
        && r.messages[e][ids[cs[k].index]] == Message(ids[cs[k].index], FromByteCount(payloadLen))
  {
    if cs != [] {
      var e := params.experimentUuid;
      var prefix := cs[..|cs| - 1];
      var c := cs[|cs| - 1];
      assert ValidCompletions(prefix, |ids|);
      RecordAllStoresMessages(v, params, payloadLen, ids, prefix);
      RecordAllSentEvents(v, params, payloadLen, ids, prefix);
      var before := RecordAll(v, params, payloadLen, ids, prefix);
      var added := Message(ids[c.index], FromByteCount(payloadLen));
      InsertKnownExperiment(before, added, e);
      var r := RecordAll(v, params, payloadLen, ids, cs);
      assert r.messages == Insert(before, added, e).messages;
      forall k | 0 <= k < |cs|
        ensures e in r.messages && ids[cs[k].index] in r.messages[e]
        ensures r.messages[e][ids[cs[k].index]] == Message(ids[cs[k].index], FromByteCount(payloadLen))
      {
        if k < |prefix| {
          assert prefix[k] == cs[k];
        }
      }
    }
  }

  /**
   * Once every task has completed with the experiment still registered, each
   * message id of the request is in the experiment's mapping with the
   * payload's size.
   */
  lemma AllCompletedStoresEveryMessage(v: IndexView, params: SendMessage, payloadLen: U64,
                                       ids: seq<Uuid>, cs: seq<Completion>, i: nat)
    requires Consistent(v) && params.experimentUuid in v.experiments
    requires AllCompleted(cs, |ids|) && i < |ids|
    ensures var e, r := params.experimentUuid, RecordAll(v, params, payloadLen, ids, cs);
      e in r.messages && ids[i] in r.messages[e] && r.messages[e][ids[i]] == Message(ids[i], FromByteCount(payloadLen))
  {
    RecordAllStoresMessages(v, params, payloadLen, ids, cs);
    assert i in CompletedIndices(cs);
    var k :| 0 <= k < |cs| && CompletedIndices(cs)[k] == i;
    assert cs[k].index == i;
  }

  /** The delivery status of a task never changes what the request records. */
  lemma {:induction false} RecordAllIgnoresStatus(v: IndexView, params: SendMessage, payloadLen: U64, ids: seq<Uuid>,
                                                  cs: seq<Completion>, ds: seq<Completion>)
    requires ValidCompletions(cs, |ids|) && |ds| == |cs|
    requires forall k :: 0 <= k < |cs| ==> ds[k].index == cs[k].index && ds[k].now == cs[k].now
    ensures ValidCompletions(ds, |ids|)
    ensures RecordAll(v, params, payloadLen, ids, cs) == RecordAll(v, params, payloadLen, ids, ds)
  {
    if cs != [] {
      RecordAllIgnoresStatus(v, params, payloadLen, ids, cs[..|cs| - 1], ds[..|ds| - 1]);
    }
  }

  /**
   * The response: payload length, request count and their product as a
   * `usize` (which wraps around at 2^64), fixed before any task runs.
   */
  function Totals(params: SendMessage, payloadLen: U64): (m: SentMessage)
    ensures m.experimentUuid == params.experimentUuid
    ensures m.messageNumber == params.messagesNumber && m.bytesSize == payloadLen
    ensures m.totalSentBytes < U64_BOUND && (payloadLen * params.messagesNumber - m.totalSentBytes) % U64_BOUND == 0
    ensures payloadLen * params.messagesNumber < U64_BOUND ==> m.totalSentBytes == payloadLen * params.messagesNumber
    ensures AsBytes(m.totalSentBytesHumanReadable) == m.totalSentBytes
  {
    var total := (payloadLen * params.messagesNumber) % U64_BOUND;
    SentMessage(params.experimentUuid, params.messagesNumber, payloadLen, total, FromByteCount(total))
  }

  /** The bytes a list of records carries. */
  function PayloadBytes(ds: seq<Delivery>): nat
  {
    if ds == [] then 0 else PayloadBytes(ds[..|ds| - 1]) + |ds[|ds| - 1].payload|
  }

  /** The reported total is what the records carry, as long as that fits in a `usize`. */
  lemma {:induction false} TotalIsDeliveredBytes(params: SendMessage, payload: string, ids: seq<Uuid>)
    requires |ids| == params.messagesNumber && |payload| < U64_BOUND
    requires |payload| * params.messagesNumber < U64_BOUND
    ensures Totals(params, |payload|).totalSentBytes == PayloadBytes(Deliveries(params, payload, ids))
  {
    var ds := Deliveries(params, payload, ids);
    forall n | 0 <= n <= |ds|
      ensures PayloadBytes(ds[..n]) == n * |payload|
    {
      PayloadBytesOfPrefix(ds, payload, n);
    }
    assert ds[..|ds|] == ds;
  }

  lemma {:induction false} PayloadBytesOfPrefix(ds: seq<Delivery>, payload: string, n: nat)
    requires n <= |ds|
    requires forall i :: 0 <= i < |ds| ==> ds[i].payload == payload
    ensures PayloadBytes(ds[..n]) == n * |payload|
  {
    if n > 0 {
      PayloadBytesOfPrefix(ds, payload, n - 1);
      assert ds[..n][..n - 1] == ds[..n - 1];
    }
  }

  /** The join loop: each completed task's locked block, in completion order. */
  method RecordCompletions(state: MessagesState, params: SendMessage, payloadLen: U64, ids: seq<Uuid>,
                           completions: seq<Completion>)
    requires state.Valid() && ValidCompletions(completions, |ids|)
    modifies state
    ensures state.Valid()
    ensures state.View() == RecordAll(old(state.View()), params, payloadLen, ids, completions)
  {
    var k := 0;
    while k < |completions|
      invariant 0 <= k <= |completions|
      invariant state.Valid()
      invariant state.View() == RecordAll(old(state.View()), params, payloadLen, ids, completions[..k])
    {
      var c := completions[k];
      assert completions[..k + 1][..k] == completions[..k];
      var panicked := RecordDelivery(state, params, ids[c.index], payloadLen, c.now);
      // a panicked task is only logged by the join loop
      k := k + 1;
    }
    assert completions[..k] == completions;
  }

  /**
   * `send`: builds the payload, answers not found (building and recording
   * nothing) for an unregistered experiment, and otherwise hands the records to
   * the producer, runs every completed task's locked block in completion order
   * and answers with the totals; a task's panic or failed delivery is only logged.
   */
  method Send(state: MessagesState, params: SendMessage, pick: nat -> nat, ids: seq<Uuid>, completions: seq<Completion>)
    returns (r: Result<SentMessage, HttpError>, deliveries: seq<Delivery>)
    requires state.Valid()
    requires |ids| == params.messagesNumber && AllCompleted(completions, |ids|)
    modifies state
    ensures state.Valid()
    ensures r.Failure? <==> params.experimentUuid !in old(state.experiments)
    ensures r.Failure? ==> deliveries == [] && state.View() == old(state.View())
    ensures r.Success? ==>
      var payload := Payload(params.bodySize, pick);
      && r.value == Totals(params, |payload|)
      && deliveries == Deliveries(params, payload, ids)
      && state.View() == RecordAll(old(state.View()), params, |payload|, ids, completions)
  {
    var payload := Payload(params.bodySize, pick);
    if params.experimentUuid !in state.experiments {
      return Failure(ExperimentNotFound), [];
    }
    deliveries := Deliveries(params, payload, ids);
    var response := Totals(params, |payload|);
    RecordCompletions(state, params, |payload|, ids, completions);
    return Success(response), deliveries;
  }
}
