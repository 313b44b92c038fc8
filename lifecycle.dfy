/**
 * `State` from `src/state.rs`: the consumer supervisor together with the index,
 * and the experiment lifecycle on top of them (`new_experiment`,
 * `restore_experiment`, `end_experiment`).
 */
module Lifecycle {
  import opened Wrappers
  import opened Uuids
  import opened Models
  import opened Index
  import opened App
  import opened Consumers

  /** The index after registering an experiment (the locked block of `new_experiment`). */
  function Register(v: IndexView, uuid: Uuid, cfgs: seq<KafkaBrokerCfg>, now: nat): IndexView
  {
    v.(experiments := v.experiments[uuid := MakeExperiment(uuid, cfgs, now)])
  }

  /**
   * The index after the locked block of `end_experiment`: the experiment, its
   * event list and its id list go, and every listed message id is removed from
   * the message index and (as the key it is passed as) from `messages`, a map
   * keyed by experiment ids.
   */
  function RemoveExperiment(v: IndexView, uuid: Uuid): IndexView
  {
    var gone := Elements(Lookup(v.experimentToMessages, uuid, []));
    v.(experiments := v.experiments - {uuid},
       events := v.events - {uuid},
       experimentToMessages := v.experimentToMessages - {uuid},
       messageToExperiment := v.messageToExperiment - gone,
       messages := v.messages - gone)
  }

  lemma RegisterConsistent(v: IndexView, uuid: Uuid, cfgs: seq<KafkaBrokerCfg>, now: nat)
    requires Consistent(v)
    ensures Consistent(Register(v, uuid, cfgs, now))
  {
  }

  /** Registering stores an experiment with that id and those consumers, not yet ended, and nothing else. */
  lemma RegisterStoresExperiment(v: IndexView, uuid: Uuid, cfgs: seq<KafkaBrokerCfg>, now: nat)
    ensures var r := Register(v, uuid, cfgs, now);
      && uuid in r.experiments
      && r.experiments[uuid].uuid == uuid
      && r.experiments[uuid].consumers == cfgs
      && r.experiments[uuid].endTimestampMillis.None?
      && r.experiments - {uuid} == v.experiments - {uuid}
      && r.messages == v.messages && r.events == v.events
      && r.experimentToMessages == v.experimentToMessages
      && r.messageToExperiment == v.messageToExperiment
  {
  }

  lemma RemoveExperimentConsistent(v: IndexView, uuid: Uuid)
    requires Consistent(v)
    ensures Consistent(RemoveExperiment(v, uuid))
  {
    var r := RemoveExperiment(v, uuid);
    var gone := Elements(Lookup(v.experimentToMessages, uuid, []));
    forall m | m in r.messageToExperiment
      ensures r.messageToExperiment[m] in r.experimentToMessages
      ensures m in r.experimentToMessages[r.messageToExperiment[m]]
    {
      var x := v.messageToExperiment[m];
      assert m in v.experimentToMessages[x];
      assert x == uuid ==> m in gone;
    }
  }

  /**
   * After `end_experiment` the id has no experiment, no event list and no id
   * list, none of the message ids listed under it stays in the message index,
   * and no message is indexed under it any more; a read of its related data fails.
   */
  lemma EndRemovesExperiment(v: IndexView, uuid: Uuid)
    requires Consistent(v)
    ensures var r := RemoveExperiment(v, uuid);
      && uuid !in r.experiments && uuid !in r.events && uuid !in r.experimentToMessages
      && (forall m :: m in Lookup(v.experimentToMessages, uuid, []) ==> m !in r.messageToExperiment)
      && (forall m :: m in r.messageToExperiment ==> r.messageToExperiment[m] != uuid)
      && RelatedDataOf(r, uuid).None?
  {
    var r := RemoveExperiment(v, uuid);
    forall m | m in r.messageToExperiment
      ensures r.messageToExperiment[m] != uuid
    {
      assert m in v.experimentToMessages[v.messageToExperiment[m]];
    }
  }

  /**
   * `end_experiment` leaves the experiment's own message mapping in place
   * (unless one of its message ids happens to equal the experiment id).
   */
  lemma EndKeepsMessageMapping(v: IndexView, uuid: Uuid)
    requires uuid in v.messages
    requires uuid !in Lookup(v.experimentToMessages, uuid, [])
    ensures var r := RemoveExperiment(v, uuid);
      uuid in r.messages && r.messages[uuid] == v.messages[uuid]
  {
  }

  /**
   * Registering a fresh id and ending it again gives back the index it started
   * from, on all five maps.
   */
  lemma BeginThenEnd(v: IndexView, uuid: Uuid, cfgs: seq<KafkaBrokerCfg>, now: nat)
    requires Consistent(v)
    requires uuid !in v.experiments
    ensures RemoveExperiment(Register(v, uuid, cfgs, now), uuid) == v
  {
    var r := RemoveExperiment(Register(v, uuid, cfgs, now), uuid);
    assert uuid !in v.experimentToMessages && uuid !in v.events;
    assert r.experiments == v.experiments;
    assert r.events == v.events;
    assert r.messages == v.messages;
    assert r.messageToExperiment == v.messageToExperiment;
  }

  /** The consume loops one call starts: one per config, all in the same offset mode. */
  function ConsumerTasks(cfgs: seq<KafkaBrokerCfg>, offsetReset: bool): seq<ConsumerTask>
  {
    if cfgs == [] then [] else ConsumerTasks(cfgs[..|cfgs| - 1], offsetReset) + [ConsumerTask(cfgs[|cfgs| - 1], offsetReset)]
  }

  /** Exactly one loop per config, in order, each with the given offset mode. */
  lemma {:induction false} ConsumerTasksOnePerConfig(cfgs: seq<KafkaBrokerCfg>, offsetReset: bool)
    ensures |ConsumerTasks(cfgs, offsetReset)| == |cfgs|
    ensures forall i :: 0 <= i < |cfgs| ==>
      ConsumerTasks(cfgs, offsetReset)[i].cfg == cfgs[i] && ConsumerTasks(cfgs, offsetReset)[i].offsetReset == offsetReset
  {
    if cfgs != [] {
      ConsumerTasksOnePerConfig(cfgs[..|cfgs| - 1], offsetReset);
    }
  }

  /** The handles `count` consecutive spawns starting at `first` produce. */
  function HandleRange(first: nat, count: nat): (hs: seq<Handle>)
    ensures |hs| == count && forall k :: 0 <= k < count ==> hs[k] == first + k
  {
    seq(count, k => first + k)
  }

  /**
   * The handle map after `count` consecutive starts for `uuid`, the first
   * spawning task `first`: the entry is only created by a start.
   */
  function HandlesAfterStarts(h: map<Uuid, seq<Handle>>, uuid: Uuid, first: nat, count: nat): map<Uuid, seq<Handle>>
  {
    if count == 0 then h else h[uuid := Lookup(h, uuid, []) + HandleRange(first, count)]
  }

  /** One more start appends the next task's handle to the experiment's entry. */
  lemma HandlesAfterOneMoreStart(h: map<Uuid, seq<Handle>>, uuid: Uuid, first: nat, count: nat)
    ensures var before := HandlesAfterStarts(h, uuid, first, count);
      HandlesAfterStarts(h, uuid, first, count + 1) == before[uuid := Lookup(before, uuid, []) + [first + count]]
  {
    var start := Lookup(h, uuid, []);
    assert HandleRange(first, count + 1) == HandleRange(first, count) + [first + count];
    if count > 0 {
      assert Lookup(HandlesAfterStarts(h, uuid, first, count), uuid, []) == start + HandleRange(first, count);
      assert start + HandleRange(first, count) + [first + count] == start + HandleRange(first, count + 1);
    } else {
      assert HandleRange(first, 1) == [first];
      assert HandlesAfterStarts(h, uuid, first, 1) == h[uuid := start + [first]];
    }
  }

  /** `State`: the consumer supervisor and the index it shares with the loops. */
  class State {
    const consumers: Consumers
    const messagesState: MessagesState

    ghost predicate Valid()
      reads this, consumers, consumers.loops, messagesState
    {
      consumers.Valid() && messagesState.Valid()
    }

    /** `State::new`. */
    constructor ()
      ensures Valid() && fresh(consumers) && fresh(consumers.loops) && fresh(messagesState)
      ensures messagesState.View() == EmptyIndex
      ensures consumers.loops.handles == map[] && consumers.loops.aborted == {} && consumers.tasks == []
    {
      consumers := new Consumers();
      messagesState := new MessagesState();
    }

    /**
     * `new_experiment`: registers the experiment, then starts one consume loop
     * per config reading only new records.
     */
    method NewExperiment(uuid: Uuid, cfgs: seq<KafkaBrokerCfg>, now: nat)
      requires Valid()
      modifies consumers, consumers.loops, messagesState
      ensures Valid()
      ensures messagesState.View() == Register(old(messagesState.View()), uuid, cfgs, now)
      ensures consumers.tasks == old(consumers.tasks) + ConsumerTasks(cfgs, false)
      ensures consumers.loops.handles == HandlesAfterStarts(old(consumers.loops.handles), uuid, old(consumers.spawnedCount), |cfgs|)
      ensures consumers.loops.aborted == old(consumers.loops.aborted)
    {
      StartExperiment(uuid, cfgs, now, false);
    }

    /**
     * `restore_experiment`: as `new_experiment` with the caller's id, but the
     * loops replay from the earliest offset.
     */
    method RestoreExperiment(uuid: Uuid, cfgs: seq<KafkaBrokerCfg>, now: nat)
      requires Valid()
      modifies consumers, consumers.loops, messagesState
      ensures Valid()
      ensures messagesState.View() == Register(old(messagesState.View()), uuid, cfgs, now)
      ensures consumers.tasks == old(consumers.tasks) + ConsumerTasks(cfgs, true)
      ensures consumers.loops.handles == HandlesAfterStarts(old(consumers.loops.handles), uuid, old(consumers.spawnedCount), |cfgs|)
      ensures consumers.loops.aborted == old(consumers.loops.aborted)
    {
      StartExperiment(uuid, cfgs, now, true);
    }

    /** The body `new_experiment` and `restore_experiment` share. */
    method StartExperiment(uuid: Uuid, cfgs: seq<KafkaBrokerCfg>, now: nat, offsetReset: bool)
      requires Valid()
      modifies consumers, consumers.loops, messagesState
      ensures Valid()
      ensures messagesState.View() == Register(old(messagesState.View()), uuid, cfgs, now)
      ensures consumers.tasks == old(consumers.tasks) + ConsumerTasks(cfgs, offsetReset)
      ensures consumers.loops.handles == HandlesAfterStarts(old(consumers.loops.handles), uuid, old(consumers.spawnedCount), |cfgs|)
      ensures consumers.loops.aborted == old(consumers.loops.aborted)
    {
      RegisterConsistent(messagesState.View(), uuid, cfgs, now);
      messagesState.experiments := messagesState.experiments[uuid := MakeExperiment(uuid, cfgs, now)];
      ghost var registered := messagesState.View();
      var i := 0;
      while i < |cfgs|
        invariant 0 <= i <= |cfgs|
        invariant Valid()
        invariant messagesState.View() == registered
        invariant consumers.spawnedCount == old(consumers.spawnedCount) + i
        invariant consumers.tasks == old(consumers.tasks) + ConsumerTasks(cfgs[..i], offsetReset)
        invariant consumers.loops.handles == HandlesAfterStarts(old(consumers.loops.handles), uuid, old(consumers.spawnedCount), i)
        invariant consumers.loops.aborted == old(consumers.loops.aborted)
      {
        consumers.Start(uuid, cfgs[i], offsetReset);
        assert cfgs[..i + 1][..i] == cfgs[..i];
        HandlesAfterOneMoreStart(old(consumers.loops.handles), uuid, old(consumers.spawnedCount), i);
        i := i + 1;
      }
      assert cfgs[..i] == cfgs;
    }

    /**
     * `end_experiment`: stops the experiment's consume loops, then removes it
     * from the index.
     */
    method EndExperiment(uuid: Uuid)
      requires Valid()
      modifies consumers.loops, messagesState
      ensures Valid()
      ensures consumers.loops.handles == old(consumers.loops.handles) - {uuid}
      ensures consumers.loops.aborted == old(consumers.loops.aborted) +
        (if uuid in old(consumers.loops.handles) then Elements(old(consumers.loops.handles)[uuid]) else {})
      ensures messagesState.View() == RemoveExperiment(old(messagesState.View()), uuid)
    {
      consumers.Stop(uuid);
      RemoveExperimentConsistent(messagesState.View(), uuid);
      var st := messagesState;
      st.experiments := st.experiments - {uuid};
      st.events := st.events - {uuid};
      if uuid in st.experimentToMessages {
        var ids := st.experimentToMessages[uuid];
        st.experimentToMessages := st.experimentToMessages - {uuid};
        st.RemoveMessageIds(ids);
      }
    }
  }

  // ------------------------------------------------------------------ finding

  /**
   * A concrete run of the written record step that panics: experiment 1 sends
   * message 2 and ends; a record carrying (2, 1) then reaches another
   * experiment's consume loop reading the same topic. The experiment's message
   * mapping survived `end_experiment`, so the message looks tracked, and the
   * `unwrap()` on the message index finds nothing.
   */
  lemma RecordAfterEndPanics(cfg: KafkaBrokerCfg, now: nat)
    ensures var experiment: Uuid, message: Uuid := 1, 2;
      var ended := RemoveExperiment(Insert(Register(EmptyIndex, experiment, [], 0),
                                           Message(message, FromByteCount(10)), experiment), experiment);
      var rec := ConsumedRecord(Some(CorrelationHeaders(message, experiment)), 10, cfg.topic, None);
      Consistent(ended) && ConsumeStep(ended, cfg, rec, now).outcome == Panicked
  {
    var experiment: Uuid, message: Uuid := 1, 2;
    var ended := RemoveExperiment(Insert(Register(EmptyIndex, experiment, [], 0),
                                         Message(message, FromByteCount(10)), experiment), experiment);
    CorrelationHeadersRoundTrip(message, experiment);
    assert ended.messages[experiment][message] == Message(message, FromByteCount(10));
    RemoveExperimentConsistent(Insert(Register(EmptyIndex, experiment, [], 0),
                                      Message(message, FromByteCount(10)), experiment), experiment);
  }
}
