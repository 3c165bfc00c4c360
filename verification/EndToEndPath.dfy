/** One message's way from the broker to the browser, and what joining, leaving and clearing do. */
module EndToEndPath {
  import opened Basics
  import opened Domain
  import P = Protocol
  import opened HubService
  import opened EndToEnd
  import opened ProtocolSequential

  /** The consumer's callback from delivery to broadcast, uninterrupted. */
  function Delivers(s: System, ch: Chan, d: Delivery): System {
    var s1 := Apply(s, Server(P.Deliveries(P.Deliver(ch, d))));
    var s2 := Apply(s1, Server(P.Deliveries(P.Lookup(ch))));
    var s3 := Apply(s2, Server(P.Deliveries(P.EnqueueMessage(ch))));
    Apply(s3, Server(P.Deliveries(P.Broadcast(ch))))
  }

  predicate Listens(s: System, ch: Chan, h: Handle) {
    && ch in s.server.consumers && s.server.consumers[ch] == P.Consumer(Some(h), P.Idle)
    && h in s.server.coordinator.registry && s.server.coordinator.registry[h] < |s.server.coordinator.queues|
  }

  /** Not blank, on the default exchange or on one that is not blank. */
  predicate Acceptable(d: Delivery) {
    !NetBlank(d.body) && (d.exchange == "" || !NetBlank(d.exchange))
  }

  /** What the server does with one delivery for a registered handle: it is buffered last, with the fields it came
      with, and pushed, with the same fields, exactly to a browser in the group. */
  lemma DeliveryIsBufferedAndPushed(s: System, ch: Chan, h: Handle, d: Delivery)
    requires Listens(s, ch, h) && Acceptable(d)
    ensures var s', q := Delivers(s, ch, d), s.server.coordinator.registry[h];
            var exchange := if d.exchange == "" then "(default)" else d.exchange;
            && s'.server.coordinator.queues[q] == s.server.coordinator.queues[q]
                 + [BusMessage(exchange, Some(d.routingKey), d.body, d.replyTo, d.correlationId, map[])]
            && s'.wire == s.wire + (if h in s.joined
                                    then [MessageReceivedDto(h, exchange, d.routingKey, d.body, d.replyTo, d.correlationId)]
                                    else [])
            && s'.joined == s.joined && s'.hub == s.hub && Listens(s', ch, h)
  {
    DeliveryExactly(d);
    var m := FromDelivery(d).value;
    var s1 := s.(server := P.SetStage(s.server, ch, P.Arrived(h, m)));
    assert Apply(s, Server(P.Deliveries(P.Deliver(ch, d)))) == s1;
    var s2 := s1.(server := P.DoLookup(s1.server, ch));
    assert Apply(s1, Server(P.Deliveries(P.Lookup(ch)))) == s2;
    var s3 := s2.(server := P.DoEnqueue(s2.server, ch));
    assert Apply(s2, Server(P.Deliveries(P.EnqueueMessage(ch)))) == s3;
    assert s3.server.consumers[ch].stage == P.Enqueued(h, m);
  }

  /** An uninterrupted subscribe leaves a consumer that listens for its handle. */
  lemma SubscribedListens(s: System, op: P.Op, h: Handle)
    requires op !in s.server.ops && s.server.adapter.connection.Some? && s.server.adapter.lockedBy.None?
    requires h !in s.server.log.known
    ensures Listens(s.(server := Opens(s.server, op, h, false)), s.server.broker.nextChan, h)
  {
    OpensOneSubscription(s.server, op, h, false);
  }

  /** A delivery the constructor refuses leaves no trace. */
  lemma RefusedDeliveryIsLost(s: System, ch: Chan, h: Handle, d: Delivery)
    requires Listens(s, ch, h) && !Acceptable(d)
    ensures Delivers(s, ch, d) == s
  {
    DeliveryExactly(d);
    assert s.wire + [] == s.wire;
  }

  /** From the broker to the browser's store: once the browser is in the group, an accepted delivery for a registered
      handle is put first in the store, under that handle, with every field it came with. */
  lemma OneDeliveryArrives(s: System, ch: Chan, h: Handle, d: Delivery)
    requires Listens(s, ch, h) && Acceptable(d) && s.wire == []
    ensures var s' := Apply(Delivers(Apply(s, JoinSubscription(h)), ch, d), Push);
            var exchange := if d.exchange == "" then "(default)" else d.exchange;
            && s'.hub.messages == [Received(MessageReceivedDto(h, exchange, d.routingKey, d.body, d.replyTo, d.correlationId),
                                            s.hub.nextSeq)] + s.hub.messages
            && s'.wire == []
  {
    DeliveryIsBufferedAndPushed(Apply(s, JoinSubscription(h)), ch, h, d);
  }

  /** The browser is in exactly the groups it joined and has not left, nor lost with its connection, since. */
  predicate JoinedSince(steps: seq<Step>, i: nat, h: Handle) {
    && i < |steps| && steps[i] == JoinSubscription(h)
    && forall j :: i < j < |steps| ==> steps[j] != LeaveSubscription(h) && !steps[j].ConnectionLost?
  }

  lemma {:induction false} JoinedExactlyWhen(steps: seq<Step>, h: Handle)
    ensures h in Run(steps).joined <==> exists i :: JoinedSince(steps, i, h)
  {
    if steps != [] {
      var before, step := Init(steps), Last(steps);
      JoinedExactlyWhen(before, h);
      assert forall i :: 0 <= i < |before| ==> before[i] == steps[i];
      if step == JoinSubscription(h) {
        assert JoinedSince(steps, |before|, h);
      } else if h in Run(steps).joined {
        var i :| JoinedSince(before, i, h);
        assert JoinedSince(steps, i, h);
      } else if i :| JoinedSince(steps, i, h) {
        assert steps[|before|] == step;
        assert JoinedSince(before, i, h);
      }
    }
  }

  /** Clearing a subscription empties it in the store and leaves every other list as it was. */
  lemma ClearEmpties(s: System, id: Handle, h: Handle)
    ensures var s' := Apply(s, Clear(id));
            OldestFirst(s'.hub.messages, h) == (if h == id then [] else OldestFirst(s.hub.messages, h))
            && s'.wire == s.wire && s'.joined == s.joined && s'.server == s.server
  {
    StoredCleared(s.hub.messages, id, h);
  }
}
