/**
 * The notification producer (backend/src/notifications/notifications.service.ts).
 * The broker's queues are one sequence of published messages, oldest first; `fault`
 * stands for a failed send, which the producer catches.
 */
module Notifications {
  import opened Types

  /** The message body: five fields copied from the task. */
  datatype Notification = Notification(
    taskId: string,
    title: string,
    priority: TaskPriority,
    userId: string,
    createdAt: string)

  /** What a consumer finds in a delivery: a parsable JSON body, or bytes that do not parse. */
  datatype Payload = Json(body: Notification) | Malformed(raw: string)

  datatype QueuedMessage = QueuedMessage(queue: string, content: Payload, persistent: bool)

  function BuildNotification(t: Task): (n: Notification)
    ensures n.taskId == t.id && n.title == t.title && n.priority == t.priority
    ensures n.userId == t.userId && n.createdAt == t.createdAt
  {
    Notification(t.id, t.title, t.priority, t.userId, t.createdAt)
  }

  /**
   * `sendHighPriorityNotification`: sends one persistent message to the configured
   * queue. It always returns normally; on a failed send the queue is unchanged.
   */
  function SendHighPriorityNotification(q: seq<QueuedMessage>, t: Task, queueName: string, fault: bool)
    : (q': seq<QueuedMessage>)
    ensures |q| <= |q'| <= |q| + 1
    ensures q'[..|q|] == q
    ensures |q'| == |q| + 1 <==> !fault
    ensures |q'| == |q| + 1 ==>
              && q'[|q|].queue == queueName
              && q'[|q|].persistent
              && q'[|q|].content == Json(BuildNotification(t))
  {
    if fault then q
    else q + [QueuedMessage(queueName, Json(BuildNotification(t)), true)]
  }
}

/**
 * The notification consumer (backend/src/notifications/notifications.worker.ts) and the
 * broker behaviour it relies on. Messages move from `ready` to `unacked` when the broker
 * delivers them, and leave `unacked` when the consumer settles them. The consumer asks
 * for prefetch 1, so the broker keeps at most one delivered message unsettled.
 */
module NotificationsWorker {
  import opened Wrappers
  import opened Notifications

  const Prefetch := 1

  datatype Delivery = Delivery(tag: nat, content: Payload)

  datatype Settlement =
    | Ack(tag: nat)
    | Nack(tag: nat, allUpTo: bool, requeue: bool)

  datatype Channel = Channel(
    ready: seq<Delivery>,
    unacked: seq<Delivery>,
    settled: seq<Settlement>,
    processed: seq<Notification>)

  function Tags(ds: seq<Delivery>): set<nat> {
    set i | 0 <= i < |ds| :: ds[i].tag
  }

  function SettledTags(ss: seq<Settlement>): set<nat> {
    set i | 0 <= i < |ss| :: ss[i].tag
  }

  predicate DistinctTags(ds: seq<Delivery>) {
    forall i, j :: 0 <= i < j < |ds| ==> ds[i].tag != ds[j].tag
  }

  predicate DistinctSettlements(ss: seq<Settlement>) {
    forall i, j :: 0 <= i < j < |ss| ==> ss[i].tag != ss[j].tag
  }

  /**
   * The channel invariant: delivery tags are unique, a message is in exactly one of
   * ready / unacked / settled, each tag is settled at most once, and no more than
   * Prefetch messages are unsettled.
   */
  predicate Valid(ch: Channel) {
    && DistinctTags(ch.ready)
    && DistinctTags(ch.unacked)
    && Tags(ch.ready) !! Tags(ch.unacked)
    && DistinctSettlements(ch.settled)
    && Tags(ch.ready) !! SettledTags(ch.settled)
    && Tags(ch.unacked) !! SettledTags(ch.settled)
    && |ch.unacked| <= Prefetch
  }

  /** The channel a worker starts from: the queue's backlog, nothing delivered yet. */
  function Start(backlog: seq<Delivery>): (ch: Channel)
    requires DistinctTags(backlog)
    ensures Valid(ch)
    ensures ch.unacked == [] && ch.settled == []
  {
    Channel(backlog, [], [], [])
  }

  /** The broker hands the oldest ready message over only while under the prefetch bound. */
  function Deliver(ch: Channel): (ch': Channel)
    requires Valid(ch)
    ensures ch'.settled == ch.settled && ch'.processed == ch.processed
    ensures ch.unacked == [] && ch.ready != [] ==>
              ch'.unacked == [ch.ready[0]] && ch'.ready == ch.ready[1..]
    ensures ch.unacked != [] || ch.ready == [] ==> ch' == ch
  {
    if |ch.unacked| < Prefetch && ch.ready != [] then
      Channel(ch.ready[1..], ch.unacked + [ch.ready[0]], ch.settled, ch.processed)
    else ch
  }

  /** Delivery keeps the channel invariant, in particular the prefetch bound. */
  lemma DeliverKeepsValid(ch: Channel)
    requires Valid(ch)
    ensures Valid(Deliver(ch))
  {
    if ch.unacked == [] && ch.ready != [] {
      var x := ch.ready[0];
      assert Tags(ch.ready) == Tags(ch.ready[1..]) + {x.tag} by {
        forall t | t in Tags(ch.ready) ensures t in Tags(ch.ready[1..]) + {x.tag} {
          var i :| 0 <= i < |ch.ready| && ch.ready[i].tag == t;
          if i > 0 { assert ch.ready[1..][i - 1].tag == t; }
        }
      }
      assert x.tag !in Tags(ch.ready[1..]) by {
        forall i | 0 <= i < |ch.ready[1..]| ensures ch.ready[1..][i].tag != x.tag {
          assert ch.ready[1..][i] == ch.ready[i + 1];
        }
      }
      assert ch.unacked + [x] == [x];
      assert Tags([x]) == {x.tag} by { assert [x][0].tag == x.tag; }
    }
  }

  /**
   * The consume callback. A null delivery is ignored. Otherwise the body is parsed
   * and processed: on success the message is acked; if parsing fails or processing
   * throws, it is nacked for this message only and not requeued, which drops it.
   * `processOk` is the outcome of the processing step, which as written only logs.
   */
  function OnMessage(ch: Channel, msg: Option<Delivery>, processOk: bool): (ch': Channel)
    requires Valid(ch)
    requires msg.Some? ==> msg.value in ch.unacked
    ensures msg.None? ==> ch' == ch
    ensures msg.Some? ==>
              && |ch'.settled| == |ch.settled| + 1
              && ch'.settled[..|ch.settled|] == ch.settled
              && ch'.settled[|ch.settled|].tag == msg.value.tag
              && ch'.unacked == []
              && ch'.ready == ch.ready
    ensures msg.Some? ==>
              (ch'.settled[|ch.settled|].Ack? <==> msg.value.content.Json? && processOk)
    ensures msg.Some? && ch'.settled[|ch.settled|].Nack? ==>
              ch'.settled[|ch.settled|] == Nack(msg.value.tag, false, false)
    ensures msg.Some? ==>
              ch'.processed == ch.processed + (if processOk && msg.value.content.Json? then [msg.value.content.body] else [])
  {
    match msg
    case None => ch
    case Some(d) =>
      // Prefetch 1: the unsettled message is the one being settled.
      assert ch.unacked == [d];
      if d.content.Json? && processOk then
        Channel(ch.ready, [], ch.settled + [Ack(d.tag)], ch.processed + [d.content.body])
      else
        Channel(ch.ready, [], ch.settled + [Nack(d.tag, false, false)], ch.processed)
  }

  /**
   * Settling keeps the channel invariant. In particular the settled message was not
   * settled before and, being neither ready nor unacked any more, never will be again.
   */
  lemma OnMessageKeepsValid(ch: Channel, msg: Option<Delivery>, processOk: bool)
    requires Valid(ch)
    requires msg.Some? ==> msg.value in ch.unacked
    ensures Valid(OnMessage(ch, msg, processOk))
    ensures msg.Some? ==> msg.value.tag !in SettledTags(ch.settled)
    ensures msg.Some? ==> msg.value.tag !in Tags(OnMessage(ch, msg, processOk).ready)
  {
    if msg.Some? {
      var d := msg.value;
      var ch' := OnMessage(ch, msg, processOk);
      assert ch.unacked == [d];
      assert d.tag in Tags(ch.unacked) by { assert ch.unacked[0] == d; }
      assert SettledTags(ch'.settled) == SettledTags(ch.settled) + {d.tag} by {
        var n := |ch.settled|;
        forall t | t in SettledTags(ch'.settled) ensures t in SettledTags(ch.settled) + {d.tag} {
          var i :| 0 <= i < |ch'.settled| && ch'.settled[i].tag == t;
          if i < n { assert ch.settled[i].tag == t; }
        }
        assert ch'.settled[n].tag == d.tag;
        forall t | t in SettledTags(ch.settled) ensures t in SettledTags(ch'.settled) {
          var i :| 0 <= i < n && ch.settled[i].tag == t;
          assert ch'.settled[i].tag == t;
        }
      }
    }
  }
}
