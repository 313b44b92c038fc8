/**
 * `src/routes/measurements.rs`: the message sizes of an experiment and the two
 * latency correlations (send -> receive, receive -> receive) over its event list.
 */
module Measurements {
  import opened Wrappers
  import opened Uuids
  import opened Models
  import opened Index
  import opened App

  /** `SendReceiveLatencyRequestBrokerSource`: where the messages were produced. */
  datatype SourceFilter = SourceFilter(brokers: string, topic: string)

  /** `KafkaLatencyRequestBroker`: one consumer group on one topic of one cluster. */
  datatype GroupFilter = GroupFilter(brokers: string, topic: string, consumerGroup: string)

  /** A `Sent` event on the filter's topic and brokers (the consumer group plays no part). */
  predicate IsSentFrom(e: MessageEvent, f: SourceFilter)
  {
    e.eventType.Sent? && e.topic == f.topic && e.brokers == f.brokers
  }

  /** A `Received` event of the filter's consumer group, topic and brokers. */
  predicate IsReceivedAt(e: MessageEvent, f: GroupFilter)
  {
    e.eventType.Received? && e.eventType.consumerGroup == f.consumerGroup
    && e.topic == f.topic && e.brokers == f.brokers
  }

  /** The iterator `filter`: the events satisfying `p`, in list order. */
  function Filter(events: seq<MessageEvent>, p: MessageEvent -> bool): (r: seq<MessageEvent>)
    ensures |r| <= |events|
    ensures forall e :: e in r <==> e in events && p(e)
  {
    if events == [] then []
    else
      var prefix := Filter(events[..|events| - 1], p);
      var last := events[|events| - 1];
      assert forall e :: e in events <==> e in events[..|events| - 1] || e == last;
      if p(last) then prefix + [last] else prefix
  }

  /** Each kept event occurs in the result as often as in the list; a rejected one not at all. */
  lemma {:induction false} FilterMultiplicity(events: seq<MessageEvent>, p: MessageEvent -> bool)
    ensures forall e :: multiset(Filter(events, p))[e] == if p(e) then multiset(events)[e] else 0
  {
    if events != [] {
      var prefix := events[..|events| - 1];
      FilterMultiplicity(prefix, p);
      assert events == prefix + [events[|events| - 1]];
    }
  }

  /**
   * Filtering works piece by piece: the kept events of a concatenation are the
   * kept events of the first part followed by those of the second, so the
   * order of the list is kept.
   */
  lemma {:induction false} FilterConcat(a: seq<MessageEvent>, b: seq<MessageEvent>, p: MessageEvent -> bool)
    ensures Filter(a + b, p) == Filter(a, p) + Filter(b, p)
  {
    if b == [] {
      assert a + b == a;
    } else {
      var prefix := b[..|b| - 1];
      var last := b[|b| - 1];
      FilterConcat(a, prefix, p);
      assert (a + b)[..|a + b| - 1] == a + prefix;
      assert (a + b)[|a + b| - 1] == last;
      var tail := Filter(a + prefix, p);
      assert Filter(a + b, p) == if p(last) then tail + [last] else tail;
      assert Filter(b, p) == if p(last) then Filter(prefix, p) + [last] else Filter(prefix, p);
    }
  }

  /** An event `p` rejects, appended to the list, leaves the filtered list as it was. */
  lemma FilterAppendRejected(events: seq<MessageEvent>, x: MessageEvent, p: MessageEvent -> bool)
    requires !p(x)
    ensures Filter(events + [x], p) == Filter(events, p)
  {
    assert (events + [x])[..|events + [x]| - 1] == events;
  }

  /**
   * The `source_timestamps` map: each source event's message id to its
   * timestamp, inserted in list order so that a later event overrides.
   */
  function LastTimestamps(sources: seq<MessageEvent>): map<Uuid, nat>
  {
    if sources == [] then map[]
    else
      var last := sources[|sources| - 1];
      LastTimestamps(sources[..|sources| - 1])[last.messageUuid := last.timestampMillis]
  }

  /** The map has an entry for exactly the message ids of the source events. */
  lemma {:induction false} LastTimestampsKeys(sources: seq<MessageEvent>)
    ensures forall m :: m in LastTimestamps(sources) <==> exists i :: 0 <= i < |sources| && sources[i].messageUuid == m
  {
    if sources != [] {
      var prefix := sources[..|sources| - 1];
      LastTimestampsKeys(prefix);
      forall m | m in LastTimestamps(sources)
        ensures exists i :: 0 <= i < |sources| && sources[i].messageUuid == m
      {
        if m != sources[|sources| - 1].messageUuid {
          assert m in LastTimestamps(prefix);
          var i :| 0 <= i < |prefix| && prefix[i].messageUuid == m;
          assert sources[i].messageUuid == m;
        }
      }
      forall m | exists i :: 0 <= i < |sources| && sources[i].messageUuid == m
        ensures m in LastTimestamps(sources)
      {
        var i :| 0 <= i < |sources| && sources[i].messageUuid == m;
        if i < |prefix| {
          assert prefix[i].messageUuid == m;
        }
      }
    }
  }

  /** When several source events carry the same message id, the last one in list order supplies the timestamp. */
  lemma {:induction false} LastTimestampsLastWins(sources: seq<MessageEvent>, i: nat)
    requires i < |sources|
    requires forall j :: i < j < |sources| ==> sources[j].messageUuid != sources[i].messageUuid
    ensures sources[i].messageUuid in LastTimestamps(sources)
    ensures LastTimestamps(sources)[sources[i].messageUuid] == sources[i].timestampMillis
  {
    if i < |sources| - 1 {
      var prefix := sources[..|sources| - 1];
      LastTimestampsLastWins(prefix, i);
    }
  }

  /**
   * The `result` loop: for each destination event in order whose message has a
   * source timestamp, the difference, unless the destination is earlier.
   */
  function Latencies(dests: seq<MessageEvent>, sourceTs: map<Uuid, nat>): seq<nat>
  {
    if dests == [] then []
    else
      var d := dests[|dests| - 1];
      Latencies(dests[..|dests| - 1], sourceTs) +
        (if d.messageUuid in sourceTs && d.timestampMillis >= sourceTs[d.messageUuid]
         then [d.timestampMillis - sourceTs[d.messageUuid]] else [])
  }

  /** A destination event contributes a latency: its message has a source timestamp no later than its own. */
  predicate Matched(d: MessageEvent, sourceTs: map<Uuid, nat>)
  {
    d.messageUuid in sourceTs && d.timestampMillis >= sourceTs[d.messageUuid]
  }

  /** The positions of the destination events that contribute, in increasing order. */
  function MatchedIndices(dests: seq<MessageEvent>, sourceTs: map<Uuid, nat>): seq<nat>
  {
    if dests == [] then []
    else
      MatchedIndices(dests[..|dests| - 1], sourceTs) +
        (if Matched(dests[|dests| - 1], sourceTs) then [|dests| - 1] else [])
  }

  /**
   * The matched positions are, in increasing order, exactly the destination
   * events whose source timestamp exists and is not later.
   */
  lemma {:induction false} MatchedIndicesCharacterized(dests: seq<MessageEvent>, sourceTs: map<Uuid, nat>)
    ensures var idx := MatchedIndices(dests, sourceTs);
      && |idx| <= |dests|
      && (forall k :: 0 <= k < |idx| ==> idx[k] < |dests| && Matched(dests[idx[k]], sourceTs))
      && (forall k, l :: 0 <= k < l < |idx| ==> idx[k] < idx[l])
      && (forall j :: 0 <= j < |dests| && Matched(dests[j], sourceTs) ==> j in idx)
  {
    if dests != [] {
      var prefix := dests[..|dests| - 1];
      MatchedIndicesCharacterized(prefix, sourceTs);
      var pidx := MatchedIndices(prefix, sourceTs);
      assert forall k :: 0 <= k < |pidx| ==> dests[pidx[k]] == prefix[pidx[k]];
      forall j | 0 <= j < |dests| && Matched(dests[j], sourceTs)
        ensures j in MatchedIndices(dests, sourceTs)
      {
        if j < |prefix| {
          assert prefix[j] == dests[j];
        }
      }
    }
  }

  /**
   * The latencies are, in destination order, exactly `dest - source` for the
   * matched destination events; every other destination event is dropped. So
   * there are at most as many latencies as destination events.
   */
  lemma {:induction false} LatenciesCharacterized(dests: seq<MessageEvent>, sourceTs: map<Uuid, nat>)
    ensures var idx := MatchedIndices(dests, sourceTs);
      var r := Latencies(dests, sourceTs);
      && |r| == |idx| <= |dests|
      && (forall k :: 0 <= k < |idx| ==>
            && idx[k] < |dests| && Matched(dests[idx[k]], sourceTs)
            && r[k] == dests[idx[k]].timestampMillis - sourceTs[dests[idx[k]].messageUuid])
  {
    MatchedIndicesCharacterized(dests, sourceTs);
    if dests != [] {
      var prefix := dests[..|dests| - 1];
      LatenciesCharacterized(prefix, sourceTs);
      MatchedIndicesCharacterized(prefix, sourceTs);
      var pidx := MatchedIndices(prefix, sourceTs);
      assert forall k :: 0 <= k < |pidx| ==> dests[pidx[k]] == prefix[pidx[k]];
    }
  }

  /** The source loop of both latency routes, proved to build `LastTimestamps`. */
  method SourceTimestamps(sources: seq<MessageEvent>) returns (ts: map<Uuid, nat>)
    ensures ts == LastTimestamps(sources)
  {
    ts := map[];
    var i := 0;
    while i < |sources|
      invariant 0 <= i <= |sources|
      invariant ts == LastTimestamps(sources[..i])
    {
      assert sources[..i + 1][..i] == sources[..i];
      ts := ts[sources[i].messageUuid := sources[i].timestampMillis];
      i := i + 1;
    }
    assert sources[..i] == sources;
  }

  /** The destination loop of both latency routes, proved to build `Latencies`. */
  method CollectLatencies(dests: seq<MessageEvent>, sourceTs: map<Uuid, nat>) returns (result: seq<nat>)
    ensures result == Latencies(dests, sourceTs)
  {
    result := [];
    var i := 0;
    while i < |dests|
      invariant 0 <= i <= |dests|
      invariant result == Latencies(dests[..i], sourceTs)
    {
      assert dests[..i + 1][..i] == dests[..i];
      var d := dests[i];
      if d.messageUuid in sourceTs {
        var sourceValue := sourceTs[d.messageUuid];
        if d.timestampMillis >= sourceValue {
          result := result + [d.timestampMillis - sourceValue];
        }
        // otherwise the source only logs a warning
      }
      i := i + 1;
    }
    assert dests[..i] == dests;
  }

  /** What `send_receive_latencies` computes from an event list. */
  function SendReceiveLatencyOf(events: seq<MessageEvent>, source: SourceFilter, dest: GroupFilter): seq<nat>
  {
    Latencies(Filter(events, e => IsReceivedAt(e, dest)), LastTimestamps(Filter(events, e => IsSentFrom(e, source))))
  }

  /** What `kafka_latencies` computes from an event list. */
  function KafkaLatencyOf(events: seq<MessageEvent>, source: GroupFilter, dest: GroupFilter): seq<nat>
  {
    Latencies(Filter(events, e => IsReceivedAt(e, dest)), LastTimestamps(Filter(events, e => IsReceivedAt(e, source))))
  }

  /**
   * Neither correlation reads `KafkaTimestampSet` events: appending one leaves
   * both results unchanged.
   */
  lemma BrokerTimestampsIgnored(events: seq<MessageEvent>, x: MessageEvent,
                                sendSource: SourceFilter, source: GroupFilter, dest: GroupFilter)
    requires x.eventType.KafkaTimestampSet?
    ensures SendReceiveLatencyOf(events + [x], sendSource, dest) == SendReceiveLatencyOf(events, sendSource, dest)
    ensures KafkaLatencyOf(events + [x], source, dest) == KafkaLatencyOf(events, source, dest)
  {
    FilterAppendRejected(events, x, e => IsReceivedAt(e, dest));
    FilterAppendRejected(events, x, e => IsSentFrom(e, sendSource));
    FilterAppendRejected(events, x, e => IsReceivedAt(e, source));
  }

  /** The send/receive route is the kafka route with `Sent` events as sources. */
  lemma SendReceiveSources(events: seq<MessageEvent>, source: SourceFilter, dest: GroupFilter)
    ensures forall e :: e in Filter(events, e => IsSentFrom(e, source)) <==>
      e in events && e.eventType == Sent && e.topic == source.topic && e.brokers == source.brokers
  {
  }

  /** `send_receive_latencies`: not found for an unregistered experiment, else the correlation. */
  method SendReceiveLatencies(state: MessagesState, experimentUuid: Uuid, source: SourceFilter, dest: GroupFilter)
    returns (r: Result<seq<nat>, HttpError>)
    ensures r.Failure? <==> experimentUuid !in state.experiments
    ensures r.Success? ==> r.value == SendReceiveLatencyOf(Lookup(state.events, experimentUuid, []), source, dest)
  {
    var data := ExperimentRelatedData(state, experimentUuid);
    if data.None? {
      return Failure(ExperimentNotFound);
    }
    var events := data.value.events;
    var ts := SourceTimestamps(Filter(events, e => IsSentFrom(e, source)));
    var result := CollectLatencies(Filter(events, e => IsReceivedAt(e, dest)), ts);
    return Success(result);
  }

  /** `kafka_latencies`: not found for an unregistered experiment, else the correlation. */
  method KafkaLatencies(state: MessagesState, experimentUuid: Uuid, source: GroupFilter, dest: GroupFilter)
    returns (r: Result<seq<nat>, HttpError>)
    ensures r.Failure? <==> experimentUuid !in state.experiments
    ensures r.Success? ==> r.value == KafkaLatencyOf(Lookup(state.events, experimentUuid, []), source, dest)
  {
    var data := ExperimentRelatedData(state, experimentUuid);
    if data.None? {
      return Failure(ExperimentNotFound);
    }
    var events := data.value.events;
    var ts := SourceTimestamps(Filter(events, e => IsReceivedAt(e, source)));
    var result := CollectLatencies(Filter(events, e => IsReceivedAt(e, dest)), ts);
    return Success(result);
  }

  /**
   * `messaged_bytes_size`: not found for an unregistered experiment, else the
   * byte size of every message of its mapping, one per entry, in the map's
   * iteration order (`order`, which the hash map leaves unspecified).
   */
  method MessagedBytesSize(state: MessagesState, experimentUuid: Uuid)
    returns (r: Result<seq<nat>, HttpError>, ghost order: seq<Uuid>)
    ensures r.Failure? <==> experimentUuid !in state.experiments
    ensures r.Success? ==>
      var mapping := Lookup(state.messages, experimentUuid, map[]);
      && |r.value| == |mapping| == |order|
      && Distinct(order) && Elements(order) == mapping.Keys
      && forall i :: 0 <= i < |order| ==> r.value[i] == AsBytes(mapping[order[i]].bytesSize)
  {
    var data := ExperimentRelatedData(state, experimentUuid);
    if data.None? {
      return Failure(ExperimentNotFound), [];
    }
    var values;
    values, order := MappingValues(data.value.messages);
    var sizes := seq(|values|, i requires 0 <= i < |values| => AsBytes(values[i].bytesSize));
    return Success(sizes), order;
  }
}
