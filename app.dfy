/**
 * `src/main.rs`: the header names shared by producer and consumer, and
 * `AppData::experiment_related_data`, the read every query starts from.
 */
module App {
  import opened Wrappers
  import opened Uuids
  import opened Models
  import opened Index

  const MESSAGE_UUID_HEADER: string := "x-message-uuid"
  const EXPERIMENT_UUID_HEADER: string := "x-experiment-uuid"

  /** The two correlation headers have different names. */
  lemma HeaderNamesDiffer()
    ensures MESSAGE_UUID_HEADER != EXPERIMENT_UUID_HEADER
  {
    assert MESSAGE_UUID_HEADER[2] != EXPERIMENT_UUID_HEADER[2];
  }

  /** An experiment with its message mapping and event list. */
  datatype RelatedData = RelatedData(
    experiment: Experiment,
    messages: map<Uuid, Message>,
    events: seq<MessageEvent>)

  /**
   * `experiment_related_data` on one snapshot of the index: nothing for an
   * unregistered id; otherwise the experiment, its message mapping (empty if
   * absent) and its event list (empty if absent).
   */
  function RelatedDataOf(v: IndexView, experimentUuid: Uuid): Option<RelatedData>
  {
    if experimentUuid in v.experiments then
      Some(RelatedData(v.experiments[experimentUuid],
                       Lookup(v.messages, experimentUuid, map[]),
                       Lookup(v.events, experimentUuid, [])))
    else None
  }

  /**
   * The three components of a successful read, stated one by one: the stored
   * experiment, the stored mapping or the empty one, the stored list or the
   * empty one; a read fails exactly when the experiment is not registered.
   */
  lemma RelatedDataComponents(v: IndexView, experimentUuid: Uuid)
    ensures RelatedDataOf(v, experimentUuid).None? <==> experimentUuid !in v.experiments
    ensures RelatedDataOf(v, experimentUuid).Some? ==>
      var d := RelatedDataOf(v, experimentUuid).value;
      && d.experiment == v.experiments[experimentUuid]
      && (experimentUuid in v.events ==> d.events == v.events[experimentUuid])
      && (experimentUuid !in v.events ==> d.events == [])
      && (experimentUuid in v.messages ==> d.messages == v.messages[experimentUuid])
      && (experimentUuid !in v.messages ==> d.messages == map[])
  {
  }

  /** `AppData::experiment_related_data`, with the index locked once for the whole read. */
  function ExperimentRelatedData(state: MessagesState, experimentUuid: Uuid): (r: Option<RelatedData>)
    reads state
    ensures r.None? <==> experimentUuid !in state.experiments
    ensures r.Some? ==> r.value.experiment == state.experiments[experimentUuid]
  {
    RelatedDataOf(state.View(), experimentUuid)
  }

  /**
   * `into_values().collect()` on a message mapping: every message once, in the
   * map's iteration order `order`, which the hash map leaves unspecified.
   */
  method MappingValues(mapping: map<Uuid, Message>) returns (values: seq<Message>, ghost order: seq<Uuid>)
    ensures |values| == |order| == |mapping|
    ensures Distinct(order) && Elements(order) == mapping.Keys
    ensures forall i :: 0 <= i < |order| ==> values[i] == mapping[order[i]]
  {
    var keys := Enumerate(mapping.Keys);
    values := seq(|keys|, i requires 0 <= i < |keys| => mapping[keys[i]]);
    order := keys;
  }
}
