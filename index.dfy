/**
 * `MessagesState` from `src/state.rs`: the in-memory event index. It holds five
 * maps: the registered experiments, a message mapping per experiment, an event
 * list per experiment, and the two reverse indices experiment -> message ids and
 * message -> experiment.
 */
module Index {
  import opened Wrappers
  import opened Uuids
  import opened Models

  /** The five maps of the index as one value. */
  datatype IndexView = IndexView(
    experiments: map<Uuid, Experiment>,
    messages: map<Uuid, map<Uuid, Message>>,
    events: map<Uuid, seq<MessageEvent>>,
    experimentToMessages: map<Uuid, seq<Uuid>>,
    messageToExperiment: map<Uuid, Uuid>)

  const EmptyIndex := IndexView(map[], map[], map[], map[], map[])

  /**
   * What every operation on the index keeps: the experiment -> messages index
   * and the event lists only exist for registered experiments, and each entry
   * m -> e of the message -> experiment index is listed under e. Nothing ties the
   * keys of `messages` to the registered experiments: ending an experiment
   * leaves its message mapping behind.
   */
  ghost predicate Consistent(v: IndexView)
  {
    && v.experimentToMessages.Keys <= v.experiments.Keys
    && v.events.Keys <= v.experiments.Keys
    && forall m :: m in v.messageToExperiment ==>
         && v.messageToExperiment[m] in v.experimentToMessages
         && m in v.experimentToMessages[v.messageToExperiment[m]]
  }

  /** `MessagesState::insert_message` on the index value. */
  function Insert(v: IndexView, message: Message, experimentUuid: Uuid): IndexView
  {
    var e := experimentUuid;
    if e in v.experiments then
      v.(messageToExperiment := v.messageToExperiment[message.uuid := e],
         experimentToMessages := v.experimentToMessages[e := Lookup(v.experimentToMessages, e, []) + [message.uuid]],
         messages := v.messages[e := Lookup(v.messages, e, map[])[message.uuid := message]],
         events := if e in v.events then v.events else v.events[e := []])
    else
      v
  }

  /** An unknown experiment id leaves all five maps as they were. */
  lemma InsertUnknownExperiment(v: IndexView, message: Message, e: Uuid)
    requires e !in v.experiments
    ensures Insert(v, message, e) == v
  {
  }

  /**
   * A known experiment id: the message is recorded under the experiment in the
   * mapping and in both indices, the experiment gets an event list if it had none,
   * an existing event list is untouched, and no other experiment's entries change.
   */
  lemma InsertKnownExperiment(v: IndexView, message: Message, e: Uuid)
    requires e in v.experiments
    ensures var r := Insert(v, message, e);
      && r.experiments == v.experiments
      && r.messageToExperiment[message.uuid] == e
      && e in r.messages && r.messages[e][message.uuid] == message
      && e in r.experimentToMessages && r.experimentToMessages[e] == Lookup(v.experimentToMessages, e, []) + [message.uuid]
      && e in r.events && (e in v.events ==> r.events[e] == v.events[e])
      && r.events.Keys == v.events.Keys + {e}
      && (forall x :: x != e && x in v.events ==> x in r.events && r.events[x] == v.events[x])
      && r.messages[e] == Lookup(v.messages, e, map[])[message.uuid := message]
      && (e !in v.events ==> r.events[e] == [])
      && (forall x :: x != e ==> Lookup(r.messages, x, map[]) == Lookup(v.messages, x, map[]))
      && (forall x :: x != e ==> Lookup(r.experimentToMessages, x, []) == Lookup(v.experimentToMessages, x, []))
      && r.messageToExperiment.Keys == v.messageToExperiment.Keys + {message.uuid}
      && (forall m :: m != message.uuid && m in v.messageToExperiment ==>
            m in r.messageToExperiment && r.messageToExperiment[m] == v.messageToExperiment[m])
  {
  }

  /** `insert_message` never changes the registered experiments. */
  lemma InsertKeepsExperiments(v: IndexView, message: Message, e: Uuid)
    ensures Insert(v, message, e).experiments == v.experiments
  {
  }

  /**
   * Inserting the same message twice appends its id twice to the experiment's
   * id list, while the message mapping and the message -> experiment index end
   * up as after one insertion.
   */
  lemma InsertTwice(v: IndexView, message: Message, e: Uuid)
    requires e in v.experiments
    ensures var once := Insert(v, message, e);
      var twice := Insert(once, message, e);
      && twice.experimentToMessages[e] == Lookup(v.experimentToMessages, e, []) + [message.uuid, message.uuid]
      && twice.messages == once.messages
      && twice.messageToExperiment == once.messageToExperiment
      && twice.events == once.events
  {
    var once := Insert(v, message, e);
    assert once.messages[e][message.uuid := message] == once.messages[e];
  }

  /** `insert_message` keeps the index consistent. */
  lemma InsertConsistent(v: IndexView, message: Message, e: Uuid)
    requires Consistent(v)
    ensures Consistent(Insert(v, message, e))
  {
    if e in v.experiments {
      var r := Insert(v, message, e);
      forall m | m in r.messageToExperiment
        ensures r.messageToExperiment[m] in r.experimentToMessages
        ensures m in r.experimentToMessages[r.messageToExperiment[m]]
      {
        if m != message.uuid {
          var x := v.messageToExperiment[m];
          assert m in v.experimentToMessages[x];
          if x == e {
            assert r.experimentToMessages[e] == v.experimentToMessages[e] + [message.uuid];
          }
        }
      }
    }
  }

  /** The index of `src/state.rs`, updated in place. */
  class MessagesState {
    var experiments: map<Uuid, Experiment>
    /** Experiment uuid to its message mapping. */
    var messages: map<Uuid, map<Uuid, Message>>
    /** Experiment uuid to its event list. */
    var events: map<Uuid, seq<MessageEvent>>
    var experimentToMessages: map<Uuid, seq<Uuid>>
    var messageToExperiment: map<Uuid, Uuid>

    function View(): IndexView
      reads this
    {
      IndexView(experiments, messages, events, experimentToMessages, messageToExperiment)
    }

    ghost predicate Valid()
      reads this
    {
      Consistent(View())
    }

    /** `MessagesState::default()`. */
    constructor ()
      ensures View() == EmptyIndex && Valid()
    {
      experiments := map[];
      messages := map[];
      events := map[];
      experimentToMessages := map[];
      messageToExperiment := map[];
    }

    /** `insert_message`: records a message under a known experiment, else only warns. */
    method InsertMessage(message: Message, experimentUuid: Uuid)
      requires Valid()
      modifies this
      ensures Valid()
      ensures View() == Insert(old(View()), message, experimentUuid)
    {
      InsertConsistent(View(), message, experimentUuid);
      if experimentUuid in experiments {
        messageToExperiment := messageToExperiment[message.uuid := experimentUuid];
        experimentToMessages := experimentToMessages[experimentUuid :=
          Lookup(experimentToMessages, experimentUuid, []) + [message.uuid]];
        messages := messages[experimentUuid := Lookup(messages, experimentUuid, map[])[message.uuid := message]];
        if experimentUuid !in events {
          events := events[experimentUuid := []];
        }
      }
      // otherwise the source logs "Unknown experiment" and changes nothing
    }

    /**
     * The loop of `end_experiment` over the removed id list: each id leaves the
     * message index, and is also removed as a key of `messages`, a map keyed by
     * experiment ids.
     */
    method RemoveMessageIds(ids: seq<Uuid>)
      modifies this
      ensures messageToExperiment == old(messageToExperiment) - Elements(ids)
      ensures messages == old(messages) - Elements(ids)
      ensures experiments == old(experiments) && events == old(events)
      ensures experimentToMessages == old(experimentToMessages)
    {
      var i := 0;
      while i < |ids|
        invariant 0 <= i <= |ids|
        invariant messageToExperiment == old(messageToExperiment) - Elements(ids[..i])
        invariant messages == old(messages) - Elements(ids[..i])
        invariant experiments == old(experiments) && events == old(events)
        invariant experimentToMessages == old(experimentToMessages)
      {
        assert ids[..i + 1] == ids[..i] + [ids[i]];
        messageToExperiment := messageToExperiment - {ids[i]};
        messages := messages - {ids[i]};
        i := i + 1;
      }
      assert ids[..i] == ids;
    }
  }
}
