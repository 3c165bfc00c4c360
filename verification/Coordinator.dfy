/** The registry of live subscriptions and their buffers
    (src/BusTester.Application/Subscriptions/SubscriptionCoordinator.cs). */
module Coordinators {
  import opened Domain

  /** `registry` names each handle's queue by its index in `queues`; an unregistered queue stays reachable
      for a delivery that looked it up before. */
  datatype Coordinator = Coordinator(registry: map<Handle, nat>, queues: seq<seq<BusMessage>>)

  predicate ValidCoordinator(c: Coordinator) {
    forall h :: h in c.registry ==> c.registry[h] < |c.queues|
  }

  function Register(c: Coordinator, h: Handle): Coordinator {
    Coordinator(c.registry[h := |c.queues|], c.queues + [[]])
  }

  function Unregister(c: Coordinator, h: Handle): Coordinator {
    c.(registry := c.registry - {h})
  }

  function Enqueue(c: Coordinator, q: nat, m: BusMessage): Coordinator {
    if q < |c.queues| then c.(queues := c.queues[q := c.queues[q] + [m]]) else c
  }

  function GetMessages(c: Coordinator, h: Handle): seq<BusMessage> {
    if h in c.registry && c.registry[h] < |c.queues| then c.queues[c.registry[h]] else []
  }

  /** Registering starts a subscription empty and unregistering forgets it; no other handle's messages move. */
  lemma RegistryOpsAreLocal(c: Coordinator, h: Handle, other: Handle)
    requires ValidCoordinator(c)
    ensures ValidCoordinator(Register(c, h)) && ValidCoordinator(Unregister(c, h))
    ensures GetMessages(Register(c, h), h) == [] == GetMessages(Unregister(c, h), h)
    ensures other != h ==> GetMessages(Register(c, h), other) == GetMessages(c, other)
    ensures other != h ==> GetMessages(Unregister(c, h), other) == GetMessages(c, other)
  {
  }

  class Broadcaster {
    var sent: seq<MessageReceivedDto>

    constructor ()
      ensures sent == []
    {
      sent := [];
    }

    method Broadcast(h: Handle, m: BusMessage)
      modifies this
      ensures sent == old(sent) + [FromDomain(h, m)]
    {
      sent := sent + [FromDomain(h, m)];
    }
  }

  class SubscriptionCoordinator {
    var registry: map<Handle, nat>
    var queues: seq<seq<BusMessage>>
    const broadcaster: Broadcaster

    ghost function View(): Coordinator
      reads this
    {
      Coordinator(registry, queues)
    }

    ghost predicate Valid()
      reads this
    {
      ValidCoordinator(View())
    }

    constructor (broadcaster: Broadcaster)
      ensures Valid() && View() == Coordinator(map[], []) && this.broadcaster == broadcaster
    {
      registry, queues := map[], [];
      this.broadcaster := broadcaster;
    }

    method RegisterHandle(h: Handle)
      requires Valid()
      modifies this
      ensures Valid() && View() == Register(old(View()), h)
    {
      registry, queues := registry[h := |queues|], queues + [[]];
    }

    method UnregisterHandle(h: Handle)
      requires Valid()
      modifies this
      ensures Valid() && View() == Unregister(old(View()), h)
    {
      registry := registry - {h};
    }

    /** `OnMessageReceivedAsync` run without interruption: a registered handle's message is buffered last
        and broadcast once, any other is dropped without effect. */
    method OnMessageReceived(h: Handle, m: BusMessage)
      requires Valid()
      modifies this, broadcaster
      ensures Valid() && registry == old(registry)
      ensures h in registry ==> View() == Enqueue(old(View()), registry[h], m)
                                && broadcaster.sent == old(broadcaster.sent) + [FromDomain(h, m)]
      ensures h !in registry ==> View() == old(View()) && broadcaster.sent == old(broadcaster.sent)
    {
      if h !in registry { return; }
      var q := registry[h];
      queues := queues[q := queues[q] + [m]];
      broadcaster.Broadcast(h, m);
    }

    method Messages(h: Handle) returns (ms: seq<BusMessage>)
      requires Valid()
      ensures ms == GetMessages(View(), h)
    {
      ms := if h in registry then queues[registry[h]] else [];
    }
  }
}
