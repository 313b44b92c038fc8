/**
 * `src/routes/experiment.rs`: the experiment handlers. `begin`, `restore` and
 * `end` run the lifecycle and answer with an id, `reset` ends everything and
 * clears the index, and `list_experiments`, `get_insights` and `get_config`
 * are reads.
 */
module ExperimentRoutes {
  import opened Wrappers
  import opened Uuids
  import opened Models
  import opened Index
  import opened App
  import opened Consumers
  import opened Lifecycle

  /** `begin`: registers the experiment under the freshly drawn id and answers with that id. */
  method Begin(app: State, body: NewExperiment, freshId: Uuid, now: nat) returns (resp: BeginResponse)
    requires app.Valid()
    modifies app.consumers, app.consumers.loops, app.messagesState
    ensures app.Valid()
    ensures resp.experimentUuid == freshId
    ensures app.messagesState.View() == Register(old(app.messagesState.View()), freshId, body.listeners, now)
    ensures app.consumers.tasks == old(app.consumers.tasks) + ConsumerTasks(body.listeners, false)
    ensures app.consumers.loops.handles ==
      HandlesAfterStarts(old(app.consumers.loops.handles), freshId, old(app.consumers.spawnedCount), |body.listeners|)
    ensures app.consumers.loops.aborted == old(app.consumers.loops.aborted)
  {
    app.NewExperiment(freshId, body.listeners, now);
    resp := BeginResponse(freshId);
  }

  /** `restore`: registers the caller's id again, replaying from the start, and echoes it. */
  method Restore(app: State, body: RestoreExperiment, now: nat) returns (resp: BeginResponse)
    requires app.Valid()
    modifies app.consumers, app.consumers.loops, app.messagesState
    ensures app.Valid()
    ensures resp.experimentUuid == body.experimentUuid
    ensures app.messagesState.View() == Register(old(app.messagesState.View()), body.experimentUuid, body.listeners, now)
    ensures app.consumers.tasks == old(app.consumers.tasks) + ConsumerTasks(body.listeners, true)
    ensures app.consumers.loops.handles ==
      HandlesAfterStarts(old(app.consumers.loops.handles), body.experimentUuid, old(app.consumers.spawnedCount), |body.listeners|)
    ensures app.consumers.loops.aborted == old(app.consumers.loops.aborted)
  {
    app.RestoreExperiment(body.experimentUuid, body.listeners, now);
    resp := BeginResponse(body.experimentUuid);
  }

  /** `end`: ends the experiment and echoes its id, registered or not. */
  method End(app: State, body: EndRequest) returns (resp: EndResponse)
    requires app.Valid()
    modifies app.consumers.loops, app.messagesState
    ensures app.Valid()
    ensures resp.experimentUuid == body.experimentUuid
    ensures app.messagesState.View() == RemoveExperiment(old(app.messagesState.View()), body.experimentUuid)
    ensures app.consumers.loops.handles == old(app.consumers.loops.handles) - {body.experimentUuid}
    ensures app.consumers.loops.aborted == old(app.consumers.loops.aborted) +
      (if body.experimentUuid in old(app.consumers.loops.handles)
       then Elements(old(app.consumers.loops.handles)[body.experimentUuid]) else {})
  {
    app.EndExperiment(body.experimentUuid);
    resp := EndResponse(body.experimentUuid);
  }

  /** Every handle held by one of the experiments `ids`. */
  ghost function HandlesOf(handles: map<Uuid, seq<Handle>>, ids: set<Uuid>): set<Handle>
  {
    set u, h | u in ids && u in handles && h in handles[u] :: h
  }

  /** The handles of the experiments `ids`, gathered one experiment at a time. */
  ghost function HandlesOfList(handles: map<Uuid, seq<Handle>>, ids: seq<Uuid>): set<Handle>
  {
    if ids == [] then {}
    else
      var u := ids[|ids| - 1];
      HandlesOfList(handles, ids[..|ids| - 1]) + (if u in handles then Elements(handles[u]) else {})
  }

  /** Gathering one experiment at a time collects exactly the handles of the listed experiments. */
  lemma {:induction false} HandlesOfListIsHandlesOf(handles: map<Uuid, seq<Handle>>, ids: seq<Uuid>)
    ensures HandlesOfList(handles, ids) == HandlesOf(handles, Elements(ids))
  {
    if ids != [] {
      var prefix := ids[..|ids| - 1];
      HandlesOfListIsHandlesOf(handles, prefix);
      assert Elements(ids) == Elements(prefix) + {ids[|ids| - 1]};
    }
  }

  /** The index after ending each of `ids` in turn. */
  function RemoveExperiments(v: IndexView, ids: seq<Uuid>): IndexView
  {
    if ids == [] then v else RemoveExperiment(RemoveExperiments(v, ids[..|ids| - 1]), ids[|ids| - 1])
  }

  /** Ending a list of experiments unregisters exactly those and keeps the index consistent. */
  lemma {:induction false} RemoveExperimentsKeys(v: IndexView, ids: seq<Uuid>)
    requires Consistent(v)
    ensures Consistent(RemoveExperiments(v, ids))
    ensures RemoveExperiments(v, ids).experiments == v.experiments - Elements(ids)
  {
    if ids != [] {
      var prefix := ids[..|ids| - 1];
      RemoveExperimentsKeys(v, prefix);
      RemoveExperimentConsistent(RemoveExperiments(v, prefix), ids[|ids| - 1]);
      assert Elements(ids) == Elements(prefix) + {ids[|ids| - 1]};
    }
  }

  /**
   * Once every registered experiment is ended, no experiment, event list or
   * index entry is left; only the experiment-keyed message mappings can remain,
   * which is why `reset` clears the maps afterwards.
   */
  lemma EndingAllEmptiesIndices(v: IndexView, ids: seq<Uuid>)
    requires Consistent(v) && Elements(ids) == v.experiments.Keys
    ensures var r := RemoveExperiments(v, ids);
      r.experiments == map[] && r.events == map[] && r.experimentToMessages == map[] && r.messageToExperiment == map[]
  {
    RemoveExperimentsKeys(v, ids);
    var r := RemoveExperiments(v, ids);
    assert r.experiments.Keys == {};
  }

  /** The loop of `reset`: ends each listed experiment in turn. */
  method EndAll(app: State, ids: seq<Uuid>)
    requires app.Valid() && Distinct(ids)
    modifies app.consumers.loops, app.messagesState
    ensures app.Valid()
    ensures app.consumers.loops.handles == old(app.consumers.loops.handles) - Elements(ids)
    ensures app.consumers.loops.aborted == old(app.consumers.loops.aborted) + HandlesOfList(old(app.consumers.loops.handles), ids)
    ensures app.messagesState.View() == RemoveExperiments(old(app.messagesState.View()), ids)
  {
    for i := 0 to |ids|
      invariant app.Valid()
      invariant app.messagesState.View() == RemoveExperiments(old(app.messagesState.View()), ids[..i])
      invariant app.consumers.loops.handles == old(app.consumers.loops.handles) - Elements(ids[..i])
      invariant app.consumers.loops.aborted == old(app.consumers.loops.aborted) + HandlesOfList(old(app.consumers.loops.handles), ids[..i])
    {
      assert ids[..i + 1][..i] == ids[..i];
      assert Elements(ids[..i + 1]) == Elements(ids[..i]) + {ids[i]};
      assert ids[i] !in Elements(ids[..i]);
      app.EndExperiment(ids[i]);
    }
    assert ids[..|ids|] == ids;
  }

  /**
   * `reset`: collects the registered ids, ends each of those experiments, which
   * stops their consume loops, then clears all five maps.
   */
  method Reset(app: State)
    requires app.Valid()
    modifies app.consumers.loops, app.messagesState
    ensures app.Valid()
    ensures app.messagesState.View() == EmptyIndex
    ensures app.consumers.loops.handles == old(app.consumers.loops.handles) - old(app.messagesState.experiments).Keys
    ensures app.consumers.loops.aborted ==
      old(app.consumers.loops.aborted) + HandlesOf(old(app.consumers.loops.handles), old(app.messagesState.experiments).Keys)
  {
    var ids := ListExperiments(app.messagesState);
    EndAll(app, ids);
    HandlesOfListIsHandlesOf(old(app.consumers.loops.handles), ids);
    var st := app.messagesState;
    st.experiments := map[];
    st.messageToExperiment := map[];
    st.experimentToMessages := map[];
    st.messages := map[];
    st.events := map[];
  }

  /** `list_experiments`: every registered id once, in the map's iteration order. */
  method ListExperiments(state: MessagesState) returns (ids: seq<Uuid>)
    ensures Distinct(ids) && Elements(ids) == state.experiments.Keys
    ensures |ids| == |state.experiments|
  {
    ids := Enumerate(state.experiments.Keys);
  }

  /**
   * `get_insights`: not found for an unregistered experiment, else the
   * experiment, its event list and the messages of its mapping, each once, in
   * the map's iteration order `order`.
   */
  method GetInsights(state: MessagesState, experimentUuid: Uuid)
    returns (r: Result<Insights, HttpError>, ghost order: seq<Uuid>)
    ensures r.Failure? <==> experimentUuid !in state.experiments
    ensures r.Success? ==>
      var mapping := Lookup(state.messages, experimentUuid, map[]);
      && r.value.experiment == state.experiments[experimentUuid]
      && r.value.events == Lookup(state.events, experimentUuid, [])
      && |r.value.messages| == |order| == |mapping|
      && Distinct(order) && Elements(order) == mapping.Keys
      && forall i :: 0 <= i < |order| ==> r.value.messages[i] == mapping[order[i]]
  {
    var data := ExperimentRelatedData(state, experimentUuid);
    if data.None? {
      return Failure(ExperimentNotFound), [];
    }
    var values;
    values, order := MappingValues(data.value.messages);
    r := Success(Insights(values, data.value.experiment, data.value.events));
  }

  /**
   * `get_config`: not found for an unregistered experiment, else the
   * experiment with the number of entries of its mapping and of its event list.
   */
  function GetConfig(state: MessagesState, experimentUuid: Uuid): (r: Result<ExperimentOverview, HttpError>)
    reads state
    ensures r.Failure? <==> experimentUuid !in state.experiments
    ensures r.Success? ==>
      && r.value.experiment == state.experiments[experimentUuid]
      && r.value.messages == |Lookup(state.messages, experimentUuid, map[])|
      && r.value.events == |Lookup(state.events, experimentUuid, [])|
  {
    var data := ExperimentRelatedData(state, experimentUuid);
    if data.None? then Failure(ExperimentNotFound)
    else Success(ExperimentOverview(data.value.experiment, |data.value.messages|, |data.value.events|))
  }
}
