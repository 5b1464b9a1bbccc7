/**
 * The live-update channel (backend/src/websocket/websocket.gateway.ts). The hub keeps
 * the trace of everything it has broadcast and, per connected client, the events that
 * client has received. Events carry a name and a timestamp and nothing else.
 */
module Gateway {

  type ClientId = string

  datatype EventName = TasksUpdated | AnalyticsUpdated {
    /** The event name on the wire. */
    function Wire(): string {
      match this
      case TasksUpdated => "tasks:updated"
      case AnalyticsUpdated => "analytics:updated"
    }
  }

  /** One broadcast: `{ timestamp }` under an event name. */
  datatype Event = Event(name: EventName, timestamp: int)

  datatype Hub = Hub(emitted: seq<Event>, inboxes: map<ClientId, seq<Event>>)

  function Connected(h: Hub): set<ClientId> {
    h.inboxes.Keys
  }

  /** How many times an event of this name occurs in a trace. */
  function Occurrences(trace: seq<Event>, n: EventName): nat {
    if trace == [] then 0
    else Occurrences(trace[..|trace| - 1], n) + (if trace[|trace| - 1].name == n then 1 else 0)
  }

  /** The server-wide broadcast: every connected client gets the event, once, at the end. */
  function Emit(h: Hub, e: Event): (h': Hub)
    ensures h'.emitted == h.emitted + [e]
    ensures Connected(h') == Connected(h)
    ensures forall c :: c in h.inboxes ==> h'.inboxes[c] == h.inboxes[c] + [e]
  {
    Hub(h.emitted + [e], map c | c in h.inboxes :: h.inboxes[c] + [e])
  }

  function NotifyTasksUpdate(h: Hub, now: int): (h': Hub)
    ensures h'.emitted == h.emitted + [Event(TasksUpdated, now)]
    ensures Occurrences(h'.emitted, TasksUpdated) == Occurrences(h.emitted, TasksUpdated) + 1
    ensures Occurrences(h'.emitted, AnalyticsUpdated) == Occurrences(h.emitted, AnalyticsUpdated)
    ensures Connected(h') == Connected(h)
  {
    Emit(h, Event(TasksUpdated, now))
  }

  function NotifyAnalyticsUpdate(h: Hub, now: int): (h': Hub)
    ensures h'.emitted == h.emitted + [Event(AnalyticsUpdated, now)]
    ensures Occurrences(h'.emitted, AnalyticsUpdated) == Occurrences(h.emitted, AnalyticsUpdated) + 1
    ensures Occurrences(h'.emitted, TasksUpdated) == Occurrences(h.emitted, TasksUpdated)
    ensures Connected(h') == Connected(h)
  {
    Emit(h, Event(AnalyticsUpdated, now))
  }

  /**
   * Both signals, tasks first. `t1` and `t2` are the two clock readings the two
   * emissions take.
   */
  function NotifyAllUpdates(h: Hub, t1: int, t2: int): (h': Hub)
    ensures h'.emitted == h.emitted + [Event(TasksUpdated, t1), Event(AnalyticsUpdated, t2)]
    ensures Occurrences(h'.emitted, TasksUpdated) == Occurrences(h.emitted, TasksUpdated) + 1
    ensures Occurrences(h'.emitted, AnalyticsUpdated) == Occurrences(h.emitted, AnalyticsUpdated) + 1
    ensures Connected(h') == Connected(h)
    ensures forall c :: c in h.inboxes ==>
              h'.inboxes[c] == h.inboxes[c] + [Event(TasksUpdated, t1), Event(AnalyticsUpdated, t2)]
  {
    NotifyAnalyticsUpdate(NotifyTasksUpdate(h, t1), t2)
  }

  /** A client that connects starts with an empty inbox: nothing emitted earlier is replayed. */
  function HandleConnection(h: Hub, c: ClientId): (h': Hub)
    ensures h'.emitted == h.emitted
    ensures Connected(h') == Connected(h) + {c}
    ensures h'.inboxes[c] == []
    ensures forall d :: d in h.inboxes && d != c ==> h'.inboxes[d] == h.inboxes[d]
  {
    h.(inboxes := h.inboxes[c := []])
  }

  /** A client that disconnects receives nothing further. */
  function HandleDisconnect(h: Hub, c: ClientId): (h': Hub)
    ensures h'.emitted == h.emitted
    ensures Connected(h') == Connected(h) - {c}
    ensures forall d :: d in h'.inboxes ==> h'.inboxes[d] == h.inboxes[d]
  {
    h.(inboxes := h.inboxes - {c})
  }

  /** A client only ever holds a suffix of the emitted trace: the events since it connected. */
  ghost predicate InboxesAreSuffixes(h: Hub) {
    forall c :: c in h.inboxes ==>
      |h.inboxes[c]| <= |h.emitted| &&
      h.inboxes[c] == h.emitted[|h.emitted| - |h.inboxes[c]|..]
  }

  lemma EmitKeepsSuffixes(h: Hub, e: Event)
    requires InboxesAreSuffixes(h)
    ensures InboxesAreSuffixes(Emit(h, e))
  {
    var h' := Emit(h, e);
    forall c | c in h'.inboxes
      ensures |h'.inboxes[c]| <= |h'.emitted|
      ensures h'.inboxes[c] == h'.emitted[|h'.emitted| - |h'.inboxes[c]|..]
    {
      var n := |h.emitted| - |h.inboxes[c]|;
      assert h'.emitted[n..] == h.emitted[n..] + [e];
    }
  }

  lemma ConnectionsKeepSuffixes(h: Hub, c: ClientId)
    requires InboxesAreSuffixes(h)
    ensures InboxesAreSuffixes(HandleConnection(h, c))
    ensures InboxesAreSuffixes(HandleDisconnect(h, c))
  {
  }
}
