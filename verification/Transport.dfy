/**
 The MQTT transport object: the lock sections that edit the registry, the
 one-slot wake-up channels, and the reconcile pass with its loops over maps.
 */
module Transport {
  import opened Registry

  datatype PassResult = Completed | Refused(command: Command, reply: Reply)

  /** A pass must subscribe missing or changed topics and unsubscribe stale ones. */
  ghost predicate Needed(desired: map<Topic, QoS>, cache: map<Topic, QoS>, c: Command) {
    match c
    case Subscribe(t, q) => t in desired && desired[t] == q && !(t in cache && cache[t] == q)
    case Unsubscribe(t) => t in cache && t !in desired
  }

  ghost predicate Distinct(log: seq<Command>) {
    forall i, j :: 0 <= i < j < |log| ==> log[i] != log[j]
  }

  ghost predicate SubscribesFirst(log: seq<Command>) {
    forall i, j :: 0 <= i < j < |log| && log[i].Unsubscribe? ==> log[j].Unsubscribe?
  }

  /** The acknowledged commands of a pass, which are all but a refused last one. */
  function Acknowledged(result: PassResult, log: seq<Command>): seq<Command> {
    if result.Refused? && log != [] then log[..|log| - 1] else log
  }

  function PerformAll(held: map<Topic, QoS>, log: seq<Command>): map<Topic, QoS> {
    if log == [] then held else Perform(PerformAll(held, log[..|log| - 1]), log[|log| - 1])
  }

  lemma PerformAllGrows(held: map<Topic, QoS>, log: seq<Command>, c: Command)
    ensures PerformAll(held, log + [c]) == Perform(PerformAll(held, log), c)
  {
    assert (log + [c])[..|log|] == log;
  }

  predicate Reflected(cache: map<Topic, QoS>, c: Command) {
    match c
    case Subscribe(t, q) => t in cache && cache[t] == q
    case Unsubscribe(t) => t !in cache
  }

  /** The commands issued so far are needed, distinct, and exactly the needed ones the cache reflects. */
  ghost predicate Issued(desired: map<Topic, QoS>, before: map<Topic, QoS>, cache: map<Topic, QoS>, log: seq<Command>) {
    && WellIssued(desired, before, log)
    && (forall c :: Needed(desired, before, c) ==> (c in log <==> Reflected(cache, c)))
    && cache == PerformAll(before, log)
  }

  ghost predicate WellIssued(desired: map<Topic, QoS>, before: map<Topic, QoS>, log: seq<Command>) {
    Distinct(log) && SubscribesFirst(log) && forall c :: c in log ==> Needed(desired, before, c)
  }

  ghost predicate AllSubscribed(desired: map<Topic, QoS>, before: map<Topic, QoS>, log: seq<Command>) {
    forall c :: Needed(desired, before, c) && c.Subscribe? ==> c in log
  }

  lemma SubscribesAreIssued(desired: map<Topic, QoS>, before: map<Topic, QoS>, cache: map<Topic, QoS>,
                            log: seq<Command>)
    requires Issued(desired, before, cache, log)
    requires forall t :: t in desired ==> t in cache && cache[t] == desired[t]
    ensures AllSubscribed(desired, before, log)
  {
    forall c | Needed(desired, before, c) && c.Subscribe? ensures c in log {
      assert Reflected(cache, c);
    }
  }

  lemma StillSubscribed(desired: map<Topic, QoS>, before: map<Topic, QoS>, first: seq<Command>, log: seq<Command>)
    requires AllSubscribed(desired, before, first) && first <= log
    ensures AllSubscribed(desired, before, log)
  {
    forall c | c in first ensures c in log {
      var i :| 0 <= i < |first| && first[i] == c;
      assert log[i] == c;
    }
  }

  /** No unsubscribe is issued before every needed subscribe. */
  ghost predicate SubscribesDone(desired: map<Topic, QoS>, before: map<Topic, QoS>, log: seq<Command>) {
    (exists c :: c in log && c.Unsubscribe?) ==> AllSubscribed(desired, before, log)
  }

  lemma WellIssueOne(desired: map<Topic, QoS>, before: map<Topic, QoS>, log: seq<Command>, c: Command)
    requires WellIssued(desired, before, log) && Needed(desired, before, c) && c !in log
    requires c.Subscribe? ==> forall d :: d in log ==> d.Subscribe?
    ensures WellIssued(desired, before, log + [c])
  {
    var log' := log + [c];
    forall i, j | 0 <= i < j < |log'| ensures log'[i] != log'[j] && (log'[i].Unsubscribe? ==> log'[j].Unsubscribe?) {
      assert log'[i] == log[i] && log[i] in log;
    }
  }

  /** Different needed commands concern different topics. */
  lemma OthersUnaffected(desired: map<Topic, QoS>, before: map<Topic, QoS>, cache: map<Topic, QoS>,
                         c: Command, d: Command)
    requires Needed(desired, before, c) && Needed(desired, before, d) && c != d
    ensures Reflected(Perform(cache, c), d) <==> Reflected(cache, d)
  {
    assert c.topic != d.topic;
  }

  lemma IssueOne(desired: map<Topic, QoS>, before: map<Topic, QoS>, cache: map<Topic, QoS>, log: seq<Command>,
                 c: Command)
    requires Issued(desired, before, cache, log) && Needed(desired, before, c) && !Reflected(cache, c)
    requires c.Subscribe? ==> forall d :: d in log ==> d.Subscribe?
    ensures WellIssued(desired, before, log + [c])
    ensures Issued(desired, before, Perform(cache, c), log + [c])
  {
    PerformAllGrows(before, log, c);
    WellIssueOne(desired, before, log, c);
    forall d | Needed(desired, before, d) ensures d in log + [c] <==> Reflected(Perform(cache, c), d) {
      if d != c {
        OthersUnaffected(desired, before, cache, c, d);
      } else {
        assert (log + [c])[|log|] == c;
      }
    }
  }

  /** `todo` is what is still stale, of a cache that holds everything desired. */
  ghost predicate OnlyStale(desired: map<Topic, QoS>, before: map<Topic, QoS>, cache: map<Topic, QoS>,
                            todo: set<Topic>)
  {
    && (forall t :: t in todo <==> t in cache && t !in desired)
    && (forall t :: t in todo ==> t in before)
    && (forall t :: t in desired ==> t in cache && cache[t] == desired[t])
  }

  lemma OneLessStale(desired: map<Topic, QoS>, before: map<Topic, QoS>, cache: map<Topic, QoS>, todo: set<Topic>,
                     t: Topic)
    requires OnlyStale(desired, before, cache, todo) && t in todo
    ensures OnlyStale(desired, before, cache - {t}, todo - {t})
    ensures Needed(desired, before, Unsubscribe(t)) && !Reflected(cache, Unsubscribe(t))
  {
  }

  /** `todo` is what is still to be visited of the desired topics; other cached topics are old. */
  ghost predicate OnlyMissing(desired: map<Topic, QoS>, before: map<Topic, QoS>, cache: map<Topic, QoS>,
                              todo: set<Topic>)
  {
    && (forall t :: t in todo ==> t in desired && (t in cache <==> t in before))
    && (forall t :: t in todo && t in cache && t in before ==> cache[t] == before[t])
    && (forall t :: t in desired && t !in todo ==> t in cache && cache[t] == desired[t])
    && (forall t :: t in cache && t !in desired ==> t in before)
  }

  /** Visiting one topic that is up to date by then. */
  lemma OneLessMissing(desired: map<Topic, QoS>, before: map<Topic, QoS>, cache: map<Topic, QoS>,
                       todo: set<Topic>, t: Topic)
    requires OnlyMissing(desired, before, cache, todo) && t in todo
    ensures OnlyMissing(desired, before, cache[t := desired[t]], todo - {t})
    ensures t in cache && cache[t] == desired[t] ==> cache[t := desired[t]] == cache
  {
  }

  /** The log and the cache after one more subscribe, acknowledged or refused. */
  lemma SubscribeIssued(desired: map<Topic, QoS>, before: map<Topic, QoS>, cache: map<Topic, QoS>,
                        issued: seq<Command>, todo: set<Topic>, t: Topic, answer: nat -> Reply)
    requires Issued(desired, before, cache, issued) && AllAccepted(issued, answer) && AllSubscribes(issued)
    requires OnlyMissing(desired, before, cache, todo) && t in todo && !(t in cache && cache[t] == desired[t])
    ensures var command, reply := Subscribe(t, desired[t]), answer(|issued|);
            var log := issued + [command];
            && AllSubscribes(log)
            && if ValidSuback(reply)
               then Issued(desired, before, cache[t := desired[t]], log) && AllAccepted(log, answer)
               else Reported(desired, before, cache, answer, Refused(command, reply), log)
  {
    var command := Subscribe(t, desired[t]);
    IssueOne(desired, before, cache, issued, command);
    assert (issued + [command])[..|issued|] == issued;
    if ValidSuback(answer(|issued|)) {
      AcceptOne(issued, command, answer);
    }
  }

  ghost predicate AllSubscribes(log: seq<Command>) {
    forall c :: c in log ==> c.Subscribe?
  }

  lemma NothingStale(desired: map<Topic, QoS>, before: map<Topic, QoS>, cache: map<Topic, QoS>)
    requires OnlyStale(desired, before, cache, {})
    ensures cache == desired
  {
    assert forall t :: t in cache <==> t in desired;
  }

  /** The log and the cache after one more unsubscribe, acknowledged or refused. */
  lemma UnsubscribeIssued(desired: map<Topic, QoS>, before: map<Topic, QoS>, cache: map<Topic, QoS>,
                          issued: seq<Command>, todo: set<Topic>, t: Topic, answer: nat -> Reply)
    requires Issued(desired, before, cache, issued) && AllAccepted(issued, answer)
    requires OnlyStale(desired, before, cache, todo) && t in todo
    ensures var command, reply := Unsubscribe(t), answer(|issued|);
            var log := issued + [command];
            if ValidUnsuback(reply)
            then Issued(desired, before, cache - {t}, log) && AllAccepted(log, answer)
                 && Reported(desired, before, cache - {t}, answer, Completed, log)
            else Reported(desired, before, cache, answer, Refused(command, reply), log)
  {
    var command := Unsubscribe(t);
    OneLessStale(desired, before, cache, todo, t);
    IssueOne(desired, before, cache, issued, command);
    assert (issued + [command])[..|issued|] == issued;
    if ValidUnsuback(answer(|issued|)) {
      AcceptOne(issued, command, answer);
    }
  }

  /** What both loops report about their log and the cache. */
  ghost predicate Reported(desired: map<Topic, QoS>, before: map<Topic, QoS>, cache: map<Topic, QoS>,
                           answer: nat -> Reply, result: PassResult, log: seq<Command>)
  {
    && WellIssued(desired, before, log) && RefusedLast(result, log, answer)
    && AllAccepted(Acknowledged(result, log), answer)
    && cache == PerformAll(before, Acknowledged(result, log))
  }

  ghost predicate AllAccepted(log: seq<Command>, answer: nat -> Reply) {
    forall i :: 0 <= i < |log| ==> Accepted(log[i], answer(i))
  }

  lemma AcceptOne(log: seq<Command>, c: Command, answer: nat -> Reply)
    requires AllAccepted(log, answer) && Accepted(c, answer(|log|))
    ensures AllAccepted(log + [c], answer)
  {
  }

  /** A pass stops at, and reports, the first command that is not acknowledged. */
  ghost predicate RefusedLast(result: PassResult, log: seq<Command>, answer: nat -> Reply) {
    result.Refused? ==>
      && log != [] && log[|log| - 1] == result.command && answer(|log| - 1) == result.reply
      && !Accepted(result.command, result.reply)
  }

  /**
   An acknowledgement with exactly one reason code grants a subscribe below 0x80
   and an unsubscribe below 0x80 or at 0x11, no subscription existed (MQTT 5.0
   sections 3.9.3 and 3.11.3).
   */
  predicate Grants(c: Command, reply: Reply) {
    && reply.Ack? && |reply.reasons| == 1
    && (reply.reasons[0] < 0x80 || (c.Unsubscribe? && reply.reasons[0] == 0x11))
  }

  /** Every command was granted, except the last one of a refused pass. */
  ghost predicate GrantedUpToEnd(result: PassResult, log: seq<Command>, answer: nat -> Reply) {
    forall i :: 0 <= i < |log| ==> (Grants(log[i], answer(i)) <==> result.Completed? || i < |log| - 1)
  }

  lemma AcceptedIsGranted(result: PassResult, log: seq<Command>, answer: nat -> Reply)
    requires RefusedLast(result, log, answer) && AllAccepted(Acknowledged(result, log), answer)
    ensures GrantedUpToEnd(result, log, answer)
  {
    forall i | 0 <= i < |log| ensures Grants(log[i], answer(i)) <==> result.Completed? || i < |log| - 1 {
      assert i < |Acknowledged(result, log)| ==> Acknowledged(result, log)[i] == log[i];
    }
  }

  /** Only topics with a subscriber are subscribed, if new or at another QoS; only topics without one are dropped. */
  ghost predicate ChangesOnly(subs: Subscriptions, before: map<Topic, QoS>, log: seq<Command>) {
    forall i :: 0 <= i < |log| ==>
      match log[i]
      case Subscribe(t, q) =>
        && t in subs && (exists item :: item in subs[t] && item.qos == q)
        && (forall item :: item in subs[t] ==> item.qos <= q)
        && (t !in before || before[t] != q)
      case Unsubscribe(t) => t !in subs && t in before
  }

  lemma NeededIsChange(subs: Subscriptions, before: map<Topic, QoS>, log: seq<Command>)
    requires WellFormed(subs) && WellIssued(Desired(subs), before, log)
    ensures ChangesOnly(subs, before, log)
  {
    forall i | 0 <= i < |log|
      ensures Needed(Desired(subs), before, log[i])
      ensures log[i].topic in subs ==>
                && (exists item :: item in subs[log[i].topic] && item.qos == Highest(subs[log[i].topic]))
                && (forall item :: item in subs[log[i].topic] ==> item.qos <= Highest(subs[log[i].topic]))
    {
      assert log[i] in log;
      if log[i].topic in subs { HighestIsMaximum(subs[log[i].topic]); }
    }
  }

  predicate ValidTopic(t: Topic) {
    t != "" && forall c :: c in t ==> c != '+' && c != '#' && c != '\0'
  }

  class Transport {
    var subscriptions: Subscriptions
    var broker: map<Topic, QoS>
    var reconcile: bool
    var reconnect: bool
    var retry: bool
    var closed: bool

    ghost predicate Valid() reads this { WellFormed(subscriptions) }

    constructor ()
      ensures Valid() && subscriptions == map[] && broker == map[]
      ensures !reconcile && !reconnect && !retry && !closed
    {
      subscriptions, broker := map[], map[];
      reconcile, reconnect, retry, closed := false, false, false, false;
    }

    method RequestReconcile()
      modifies this`reconcile
      ensures reconcile == (old(reconcile) || !closed)
    {
      if !closed { reconcile := true; }
    }

    method RequestReconnect()
      modifies this`reconnect
      ensures reconnect == (old(reconnect) || !closed)
    {
      if !closed { reconnect := true; }
    }

    /** Subscribe up to its first unlock: validation and registration. */
    method RegisterItem(id: nat, topic: Topic, qos: nat, maximum: int) returns (ok: bool)
      requires Valid()
      modifies this`subscriptions
      ensures Valid()
      ensures ok == (!closed && topic != "" && '+' !in topic && '#' !in topic && '\0' !in topic
                     && qos <= 2 && maximum > 0)
      ensures !ok ==> subscriptions == old(subscriptions)
      ensures ok ==> subscriptions == Add(old(subscriptions), Item(id, topic, qos, maximum))
    {
      ok := !closed && ValidTopic(topic) && qos <= 2 && maximum > 0;
      if ok {
        var item := Item(id, topic, qos, maximum);
        EditsKeepWellFormed(subscriptions, item);
        if item.topic !in subscriptions {
          subscriptions := subscriptions[item.topic := {}];
        }
        subscriptions := subscriptions[item.topic := subscriptions[item.topic] + {item}];
      }
    }

    method RemoveItem(item: Item)
      requires Valid()
      modifies this`subscriptions, this`reconcile
      ensures Valid()
      ensures subscriptions == Remove(old(subscriptions), item)
      ensures reconcile == (old(reconcile) || !closed)
    {
      EditsKeepWellFormed(subscriptions, item);
      if item.topic in subscriptions {
        subscriptions := subscriptions[item.topic := subscriptions[item.topic] - {item}];
        if subscriptions[item.topic] == {} {
          subscriptions := subscriptions - {item.topic};
        }
      }
      RequestReconcile();
    }

    /** Returns the subscribers that must be failed. */
    method FailTopic(t: Topic) returns (failed: set<Item>)
      requires Valid()
      modifies this`subscriptions, this`reconcile
      ensures Valid()
      ensures failed == Registered(old(subscriptions), t)
      ensures subscriptions == old(subscriptions) - {t}
      ensures reconcile == (old(reconcile) || !closed)
    {
      failed := if t in subscriptions then subscriptions[t] else {};
      subscriptions := subscriptions - {t};
      RequestReconcile();
    }

    /** The snapshot under the read lock: the highest QoS of every topic. */
    method TakeSnapshot() returns (desired: map<Topic, QoS>)
      requires Valid()
      ensures desired == Desired(subscriptions)
    {
      desired := map[];
      var topics := subscriptions.Keys;
      while topics != {}
        invariant topics <= subscriptions.Keys
        invariant desired.Keys == subscriptions.Keys - topics
        invariant forall t :: t in desired ==> desired[t] == Highest(subscriptions[t])
      {
        var t :| t in topics;
        var items := subscriptions[t];
        ghost var before := desired;
        while items != {}
          invariant items <= subscriptions[t]
          invariant desired.Keys == before.Keys + (if items == subscriptions[t] then {} else {t})
          invariant forall u :: u in before ==> desired[u] == before[u]
          invariant t in desired ==> exists i :: i in subscriptions[t] && i.qos == desired[t]
          invariant forall i :: i in subscriptions[t] - items ==> t in desired && i.qos <= desired[t]
        {
          var item :| item in items;
          if t !in desired || item.qos > desired[t] {
            desired := desired[t := item.qos];
          }
          items := items - {item};
        }
        HighestUnique(subscriptions[t], desired[t]);
        topics := topics - {t};
      }
    }

    /** The first loop of a pass: subscribe what is missing or changed. */
    method SubscribeMissing(desired: map<Topic, QoS>, answer: nat -> Reply)
      returns (result: PassResult, log: seq<Command>)
      modifies this`broker
      ensures result.Completed? ==> Issued(desired, old(broker), broker, log)
      ensures result.Completed? ==> OnlyMissing(desired, old(broker), broker, {})
      ensures Reported(desired, old(broker), broker, answer, result, log) && AllSubscribes(log)
    {
      log := [];
      var todo := desired.Keys;
      while todo != {}
        invariant OnlyMissing(desired, old(broker), broker, todo)
        invariant Issued(desired, old(broker), broker, log) && AllAccepted(log, answer) && AllSubscribes(log)
      {
        var t :| t in todo;
        OneLessMissing(desired, old(broker), broker, todo, t);
        if !(t in broker && broker[t] == desired[t]) {
          SubscribeIssued(desired, old(broker), broker, log, todo, t, answer);
          var reply := answer(|log|);
          log := log + [Subscribe(t, desired[t])];
          if !ValidSuback(reply) {
            return Refused(Subscribe(t, desired[t]), reply), log;
          }
          broker := broker[t := desired[t]];
        }
        todo := todo - {t};
      }
      result := Completed;
    }

    /** One unsubscribe: its acknowledgement removes the topic from the cache, its refusal ends the pass. */
    method UnsubscribeOne(desired: map<Topic, QoS>, t: Topic, answer: nat -> Reply, issued: seq<Command>,
                          ghost before: map<Topic, QoS>, ghost todo: set<Topic>)
      returns (result: PassResult, log: seq<Command>)
      requires Issued(desired, before, broker, issued) && AllAccepted(issued, answer)
      requires OnlyStale(desired, before, broker, todo) && t in todo
      modifies this`broker
      ensures log == issued + [Unsubscribe(t)] && Reported(desired, before, broker, answer, result, log)
      ensures result.Completed? ==> Issued(desired, before, broker, log) && AllAccepted(log, answer)
      ensures result.Completed? ==> OnlyStale(desired, before, broker, todo - {t})
    {
      UnsubscribeIssued(desired, before, broker, issued, todo, t, answer);
      OneLessStale(desired, before, broker, todo, t);
      var reply := answer(|issued|);
      log := issued + [Unsubscribe(t)];
      if !ValidUnsuback(reply) {
        return Refused(Unsubscribe(t), reply), log;
      }
      broker := broker - {t};
      result := Completed;
    }

    /** The second loop: unsubscribe what is stale, after the commands in `first`. */
    method UnsubscribeStale(desired: map<Topic, QoS>, answer: nat -> Reply, first: seq<Command>,
                            ghost before: map<Topic, QoS>)
      returns (result: PassResult, log: seq<Command>)
      requires Issued(desired, before, broker, first) && AllAccepted(first, answer)
      requires forall t :: t in desired ==> t in broker && broker[t] == desired[t]
      requires forall t :: t in broker && t !in desired ==> t in before
      modifies this`broker
      ensures result.Completed? ==> Issued(desired, before, broker, log) && broker == desired
      ensures first <= log && AllSubscribed(desired, before, first)
      ensures Reported(desired, before, broker, answer, result, log)
    {
      SubscribesAreIssued(desired, before, broker, first);
      result, log := Completed, first;
      var todo := set t | t in broker && t !in desired;
      while todo != {}
        invariant OnlyStale(desired, before, broker, todo)
        invariant Issued(desired, before, broker, log) && AllAccepted(log, answer) && first <= log
        invariant result.Completed?
      {
        var t :| t in todo;
        result, log := UnsubscribeOne(desired, t, answer, log, before, todo);
        if result.Refused? {
          return;
        }
        todo := todo - {t};
      }
      NothingStale(desired, before, broker);
    }

    /**
     One reconcile pass against a broker whose i-th answer is `answer(i)`. A pass
     that completes leaves the cache equal to the snapshot and has issued each
     needed command exactly once; a refused one leaves exactly the effect of the
     acknowledged commands.
     */
    method ReconcileBroker(answer: nat -> Reply) returns (result: PassResult, log: seq<Command>)
      requires Valid()
      modifies this`broker
      ensures WellIssued(Desired(subscriptions), old(broker), log)
      ensures SubscribesDone(Desired(subscriptions), old(broker), log)
      ensures result.Completed? ==> broker == Desired(subscriptions)
      ensures result.Completed? ==> forall c :: Needed(Desired(subscriptions), old(broker), c) ==> c in log
      ensures RefusedLast(result, log, answer) && AllAccepted(Acknowledged(result, log), answer)
      ensures broker == PerformAll(old(broker), Acknowledged(result, log))
      ensures GrantedUpToEnd(result, log, answer) && ChangesOnly(subscriptions, old(broker), log)
    {
      var desired := TakeSnapshot();
      result, log := SubscribeMissing(desired, answer);
      if result.Completed? {
        ghost var first := log;
        result, log := UnsubscribeStale(desired, answer, log, old(broker));
        StillSubscribed(desired, old(broker), first, log);
      }
      AcceptedIsGranted(result, log, answer);
      NeededIsChange(subscriptions, old(broker), log);
    }

    /** handleResult: returns the topic whose subscribers must be failed, if any. */
    method HandleResult(result: PassResult) returns (fail: set<Topic>)
      modifies this`retry
      ensures retry == (result.Refused? && result.command.Unsubscribe? && result.reply != Failed(true))
      ensures fail == if result.Refused? && result.command.Subscribe? && result.reply != Failed(true)
                      then {result.command.topic} else {}
    {
      fail := {};
      if result.Completed? || IsDown(result.reply) {
        retry := false;
      } else if result.command.Subscribe? {
        retry := false;
        fail := {result.command.topic};
      } else {
        retry := true;
      }
    }
  }

  predicate IsDown(reply: Reply) { reply.Failed? && reply.down }
}
