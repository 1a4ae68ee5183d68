/**
 The local subscription registry of the MQTT transport, the topics it asks the
 broker for, and the commands and acknowledgements exchanged with the broker.
 */
module Registry {

  type Topic = string
  type QoS = q: nat | q <= 2

  /** One local subscription: `id` stands for the identity of the Go pointer. */
  datatype Item = Item(id: nat, topic: Topic, qos: QoS, maximum: nat)

  type Subscriptions = map<Topic, set<Item>>

  ghost predicate WellFormed(subs: Subscriptions) {
    forall t :: t in subs ==> subs[t] != {} && forall i :: i in subs[t] ==> i.topic == t
  }

  function Registered(subs: Subscriptions, t: Topic): set<Item> {
    if t in subs then subs[t] else {}
  }

  function Add(subs: Subscriptions, item: Item): Subscriptions {
    subs[item.topic := Registered(subs, item.topic) + {item}]
  }

  /** A topic whose last subscriber leaves is deleted from the map. */
  function Remove(subs: Subscriptions, item: Item): Subscriptions {
    var rest := Registered(subs, item.topic) - {item};
    if rest == {} then subs - {item.topic} else subs[item.topic := rest]
  }

  /** The greatest QoS requested by any subscriber in a non-empty set. */
  function Highest(items: set<Item>): QoS {
    if exists i :: i in items && i.qos == 2 then 2
    else if exists i :: i in items && i.qos == 1 then 1
    else 0
  }

  function Desired(subs: Subscriptions): map<Topic, QoS> {
    map t | t in subs :: Highest(subs[t])
  }

  lemma HighestIsMaximum(items: set<Item>)
    requires items != {}
    ensures exists i :: i in items && i.qos == Highest(items)
    ensures forall i :: i in items ==> i.qos <= Highest(items)
  {
    var i :| i in items;
    assert i.qos == 0 || i.qos == 1 || i.qos == 2;
  }

  /** The maximum is the only value with both properties. */
  lemma HighestUnique(items: set<Item>, q: QoS)
    requires exists i :: i in items && i.qos == q
    requires forall i :: i in items ==> i.qos <= q
    ensures q == Highest(items)
  {
    var i :| i in items && i.qos == q;
    HighestIsMaximum(items);
  }

  lemma EditsKeepWellFormed(subs: Subscriptions, item: Item)
    requires WellFormed(subs)
    ensures WellFormed(Add(subs, item))
    ensures WellFormed(Remove(subs, item))
    ensures forall t :: WellFormed(subs - {t})
    ensures item !in Registered(Remove(subs, item), item.topic)
    ensures item in Registered(Add(subs, item), item.topic)
  {
  }

  // Broker commands and their answers (MQTT 5.0 sections 3.9.3 and 3.11.3).

  datatype Command = Subscribe(topic: Topic, qos: QoS) | Unsubscribe(topic: Topic)

  type ReasonCode = c: nat | c < 256

  /** What one manager call returned; `down` marks the connection-down error. */
  datatype Reply = Failed(down: bool) | NilAck | Ack(reasons: seq<ReasonCode>)

  predicate ValidSuback(reply: Reply) {
    reply.Ack? && |reply.reasons| == 1 && reply.reasons[0] < 0x80
  }

  /** Reason 0x11, no subscription existed, also completes an unsubscribe. */
  predicate ValidUnsuback(reply: Reply) {
    reply.Ack? && |reply.reasons| == 1 && (reply.reasons[0] < 0x80 || reply.reasons[0] == 0x11)
  }

  predicate Accepted(command: Command, reply: Reply) {
    match command
    case Subscribe(_, _) => ValidSuback(reply)
    case Unsubscribe(_) => ValidUnsuback(reply)
  }

  /** The effect of an acknowledged command, on a session or on the loop's cache. */
  function Perform(held: map<Topic, QoS>, command: Command): map<Topic, QoS> {
    match command
    case Subscribe(t, q) => held[t := q]
    case Unsubscribe(t) => held - {t}
  }
}
