/** What each subscription buffers and broadcasts, in every interleaving of deliveries with the
    subscribe, unsubscribe, send-with-reply and teardown steps. */
module ProtocolDelivery {
  import opened Basics
  import opened Domain
  import opened Coordinators
  import opened Protocol
  import opened ProtocolChannels
  import opened ProtocolHandles

  /** The reference: reading the event log, a handle accepts the messages whose lookup ran after its
      registration and before its unregistration. */
  datatype Window = Window(on: bool, accepted: seq<BusMessage>)

  function Observe(w: Window, e: Event, h: Handle): Window {
    if e.h != h then w
    else match e
      case Registered(_) => w.(on := true)
      case Unregistered(_) => w.(on := false)
      case LookedUp(_, m) => if w.on then w.(accepted := w.accepted + [m]) else w
  }

  function Scan(events: seq<Event>, h: Handle): Window {
    if events == [] then Window(false, []) else Observe(Scan(Init(events), h), Last(events), h)
  }

  function BroadcastsOf(log: seq<(Handle, BusMessage)>, h: Handle): seq<BusMessage> {
    if log == [] then [] else BroadcastsOf(Init(log), h) + if Last(log).0 == h then [Last(log).1] else []
  }

  /** Everything ever enqueued for a handle. */
  function Buffer(s: Server, h: Handle): seq<BusMessage> {
    if h in s.log.queueOf && s.log.queueOf[h] < |s.coordinator.queues| then s.coordinator.queues[s.log.queueOf[h]] else []
  }

  function StageOf(s: Server, h: Handle): Stage {
    if h in s.log.chanOf && s.log.chanOf[h] in s.consumers then s.consumers[s.log.chanOf[h]].stage else Idle
  }

  function PendingEnqueue(s: Server, h: Handle): seq<BusMessage> {
    if StageOf(s, h).Found? then [StageOf(s, h).m] else []
  }

  function PendingBroadcast(s: Server, h: Handle): seq<BusMessage> {
    if StageOf(s, h).Enqueued? then [StageOf(s, h).m] else []
  }

  /** Consumers, handles and queues belong together one to one. */
  predicate Links(s: Server) {
    && |s.log.owners| == |s.coordinator.queues|
    && s.log.queueOf.Keys <= s.log.known
    && (forall h :: h in s.log.queueOf ==>
          s.log.queueOf[h] < |s.log.owners| && s.log.owners[s.log.queueOf[h]] == h)
    && (forall h :: h in s.coordinator.registry ==>
          h in s.log.queueOf && s.log.queueOf[h] == s.coordinator.registry[h])
    && (forall ch :: ch in s.consumers ==> ConsumerLinked(s, ch))
    && (forall op :: op in s.ops && (s.ops[op].Returned? || s.ops[op].Assigned?) ==> s.ops[op].h !in s.log.queueOf)
    && (forall op :: op in s.ops && s.ops[op].Returned? ==>
          s.ops[op].ch in s.consumers && s.consumers[s.ops[op].ch].closure.None?)
    && (forall op :: op in s.ops && s.ops[op].Inserting? ==> s.ops[op].ch in s.consumers)
  }

  predicate ConsumerLinked(s: Server, ch: Chan)
    requires ch in s.consumers
  {
    var c := s.consumers[ch];
    && (c.closure.Some? ==> c.closure.value in s.log.chanOf && s.log.chanOf[c.closure.value] == ch)
    && (!c.stage.Idle? ==> c.closure == Some(c.stage.h))
    && (c.stage.Found? ==> c.stage.h in s.log.queueOf && s.log.queueOf[c.stage.h] == c.stage.q)
  }

  /** The buffer is the accepted messages up to one about to be enqueued, and the broadcasts are the
      buffer up to one about to be sent. */
  predicate Buffered(s: Server, h: Handle) {
    && Scan(s.log.events, h).on == (h in s.coordinator.registry)
    && Scan(s.log.events, h).accepted == Buffer(s, h) + PendingEnqueue(s, h)
    && Buffer(s, h) == BroadcastsOf(s.log.broadcasts, h) + PendingBroadcast(s, h)
  }

  ghost predicate DeliveryInv(s: Server) {
    Links(s) && forall h :: Buffered(s, h)
  }

  lemma ScanSnoc(events: seq<Event>, e: Event, h: Handle)
    ensures Scan(events + [e], h) == Observe(Scan(events, h), e, h)
  {
    assert Init(events + [e]) == events;
  }

  lemma BroadcastsSnoc(log: seq<(Handle, BusMessage)>, b: (Handle, BusMessage), h: Handle)
    ensures BroadcastsOf(log + [b], h) == BroadcastsOf(log, h) + if b.0 == h then [b.1] else []
  {
    assert Init(log + [b]) == log;
  }

  // ---- steps that touch neither queues, nor consumers, nor the logs ----

  /** Only the consumer of the handle at that channel moves. */
  lemma OnlyStage(s: Server, ch: Chan, i: Handle)
    requires Structure(s) && Links(s) && ch in s.consumers && s.consumers[ch].closure.Some?
    ensures i != s.consumers[ch].closure.value <==> !(i in s.log.chanOf && s.log.chanOf[i] == ch)
  {
    assert ConsumerLinked(s, ch);
  }

  ghost predicate Silent(s: Server, s': Server, op: Op) {
    && SameElsewhere(s.ops, s'.ops, op)
    && (op in s'.ops ==> !s'.ops[op].Returned? && !s'.ops[op].Assigned? && !s'.ops[op].Inserting?)
    && s'.coordinator == s.coordinator && s'.consumers == s.consumers
    && s'.log.chanOf == s.log.chanOf && s'.log.queueOf == s.log.queueOf
    && s'.log.owners == s.log.owners && s'.log.events == s.log.events
    && s'.log.broadcasts == s.log.broadcasts && s.log.known <= s'.log.known
  }

  lemma SilentKeepsLinks(s: Server, s': Server, op: Op)
    requires Links(s) && Silent(s, s', op)
    ensures Links(s')
  {
    forall ch | ch in s'.consumers ensures ConsumerLinked(s', ch) {
      assert ConsumerLinked(s, ch);
    }
  }

  lemma SilentBuffers(s: Server, s': Server, op: Op, i: Handle)
    requires Silent(s, s', op) && Buffered(s, i)
    ensures Buffered(s', i)
  {
  }

  lemma SilentKeepsDelivery(s: Server, s': Server, op: Op)
    requires DeliveryInv(s) && Silent(s, s', op)
    ensures DeliveryInv(s')
  {
    SilentKeepsLinks(s, s', op);
    forall i ensures Buffered(s', i) {
      SilentBuffers(s, s', op, i);
    }
  }

  // ---- opening a subscription ----

  lemma StartKeepsLinks(s: Server, op: Op)
    requires Structure(s) && Links(s)
    requires op in s.ops && s.ops[op].Wiring?
    ensures Links(DoStart(s, op))
  {
    forall c | c in DoStart(s, op).consumers ensures ConsumerLinked(DoStart(s, op), c) {
      assert c in s.consumers ==> ConsumerLinked(s, c);
    }
  }

  lemma StartBuffers(s: Server, op: Op, i: Handle)
    requires Structure(s) && Links(s) && Buffered(s, i)
    requires op in s.ops && s.ops[op].Wiring?
    ensures Buffered(DoStart(s, op), i)
  {
    assert i in s.log.chanOf ==> s.log.chanOf[i] != s.ops[op].ch;
    assert StageOf(DoStart(s, op), i) == StageOf(s, i);
  }

  lemma StartKeepsDelivery(s: Server, op: Op)
    requires HandlesInv(s) && Structure(s) && DeliveryInv(s)
    requires op in s.ops && s.ops[op].Wiring?
    ensures DeliveryInv(DoStart(s, op))
  {
    StartKeepsLinks(s, op);
    forall i ensures Buffered(DoStart(s, op), i) {
      StartBuffers(s, op, i);
    }
  }

  lemma InsertLinks(s: Server, op: Op, h: Handle, c: Chan)
    requires Structure(s) && op in s.ops && s.ops[op].Inserting? && h !in s.log.known
    requires c in s.consumers && ConsumerLinked(s, c)
    ensures ConsumerLinked(DoInsert(s, op, h), c)
  {
  }

  lemma InsertKeepsLinks(s: Server, op: Op, h: Handle)
    requires Structure(s) && Links(s)
    requires op in s.ops && s.ops[op].Inserting? && h !in s.log.known
    ensures Links(DoInsert(s, op, h))
  {
    forall c | c in DoInsert(s, op, h).consumers ensures ConsumerLinked(DoInsert(s, op, h), c) {
      InsertLinks(s, op, h, c);
    }
  }

  /** The consumer of a new handle's channel is idle: its closure still holds null. */
  lemma InsertKeepsStages(s: Server, op: Op, h: Handle, i: Handle)
    requires Structure(s) && Links(s)
    requires op in s.ops && s.ops[op].Inserting? && h !in s.log.known
    ensures StageOf(DoInsert(s, op, h), i) == StageOf(s, i)
  {
    assert ConsumerLinked(s, s.ops[op].ch);
    assert i == h ==> StageOf(DoInsert(s, op, h), i).Idle? && StageOf(s, i).Idle?;
  }

  lemma InsertBuffers(s: Server, op: Op, h: Handle, i: Handle)
    requires Structure(s) && Links(s) && Buffered(s, i)
    requires op in s.ops && s.ops[op].Inserting? && h !in s.log.known
    ensures Buffered(DoInsert(s, op, h), i)
  {
    InsertKeepsStages(s, op, h, i);
    assert Buffer(DoInsert(s, op, h), i) == Buffer(s, i);
  }

  lemma InsertKeepsDelivery(s: Server, op: Op, h: Handle)
    requires HandlesInv(s) && Structure(s) && DeliveryInv(s)
    requires op in s.ops && s.ops[op].Inserting? && h !in s.log.known
    ensures DeliveryInv(DoInsert(s, op, h))
  {
    InsertKeepsLinks(s, op, h);
    forall i ensures Buffered(DoInsert(s, op, h), i) {
      InsertBuffers(s, op, h, i);
    }
  }

  lemma AssignKeepsLinks(s: Server, op: Op)
    requires HandlesInv(s) && Structure(s) && Links(s)
    requires op in s.ops && s.ops[op].Returned?
    ensures Links(DoAssign(s, op))
  {
    forall c | c in DoAssign(s, op).consumers ensures ConsumerLinked(DoAssign(s, op), c) {
      assert c in s.consumers ==> ConsumerLinked(s, c);
    }
  }

  lemma AssignBuffers(s: Server, op: Op, i: Handle)
    requires HandlesInv(s) && Structure(s) && Links(s) && Buffered(s, i)
    requires op in s.ops && s.ops[op].Returned?
    ensures Buffered(DoAssign(s, op), i)
  {
    assert StageOf(DoAssign(s, op), i) == StageOf(s, i);
  }

  lemma AssignKeepsDelivery(s: Server, op: Op)
    requires HandlesInv(s) && Structure(s) && DeliveryInv(s)
    requires op in s.ops && s.ops[op].Returned?
    ensures DeliveryInv(DoAssign(s, op))
  {
    AssignKeepsLinks(s, op);
    forall i ensures Buffered(DoAssign(s, op), i) {
      AssignBuffers(s, op, i);
    }
  }

  lemma RegisterKeepsLinks(s: Server, op: Op)
    requires HandlesInv(s) && Structure(s) && Links(s)
    requires op in s.ops && s.ops[op].Assigned?
    ensures Links(DoRegister(s, op))
  {
    forall c | c in DoRegister(s, op).consumers ensures ConsumerLinked(DoRegister(s, op), c) {
      assert c in s.consumers ==> ConsumerLinked(s, c);
    }
  }

  lemma RegisterBuffers(s: Server, op: Op, i: Handle)
    requires HandlesInv(s) && Structure(s) && Links(s) && Buffered(s, i)
    requires op in s.ops && s.ops[op].Assigned?
    ensures Buffered(DoRegister(s, op), i)
  {
    ScanSnoc(s.log.events, Registered(s.ops[op].h), i);
    assert StageOf(DoRegister(s, op), i) == StageOf(s, i);
    assert Buffer(DoRegister(s, op), i) == Buffer(s, i);
  }

  lemma RegisterKeepsDelivery(s: Server, op: Op)
    requires HandlesInv(s) && Structure(s) && DeliveryInv(s)
    requires op in s.ops && s.ops[op].Assigned?
    ensures DeliveryInv(DoRegister(s, op))
  {
    RegisterKeepsLinks(s, op);
    forall i ensures Buffered(DoRegister(s, op), i) {
      RegisterBuffers(s, op, i);
    }
  }

  lemma UnregisterKeepsLinks(s: Server, op: Op)
    requires HandlesInv(s) && Structure(s) && Links(s)
    requires op in s.ops && s.ops[op].Unregistering?
    ensures Links(DoUnregister(s, op))
  {
    forall c | c in DoUnregister(s, op).consumers ensures ConsumerLinked(DoUnregister(s, op), c) {
      assert c in s.consumers ==> ConsumerLinked(s, c);
    }
  }

  lemma UnregisterBuffers(s: Server, op: Op, i: Handle)
    requires HandlesInv(s) && Structure(s) && Links(s) && Buffered(s, i)
    requires op in s.ops && s.ops[op].Unregistering?
    ensures Buffered(DoUnregister(s, op), i)
  {
    ScanSnoc(s.log.events, Unregistered(s.ops[op].h), i);
    assert StageOf(DoUnregister(s, op), i) == StageOf(s, i);
  }

  lemma UnregisterKeepsDelivery(s: Server, op: Op)
    requires HandlesInv(s) && Structure(s) && DeliveryInv(s)
    requires op in s.ops && s.ops[op].Unregistering?
    ensures DeliveryInv(DoUnregister(s, op))
  {
    UnregisterKeepsLinks(s, op);
    forall i ensures Buffered(DoUnregister(s, op), i) {
      UnregisterBuffers(s, op, i);
    }
  }

  // ---- deliveries ----

  lemma ArriveKeepsLinks(s: Server, ch: Chan, m: BusMessage)
    requires Structure(s) && Links(s)
    requires ch in s.consumers && s.consumers[ch].stage.Idle? && s.consumers[ch].closure.Some?
    ensures Links(SetStage(s, ch, Arrived(s.consumers[ch].closure.value, m)))
  {
    var s' := SetStage(s, ch, Arrived(s.consumers[ch].closure.value, m));
    forall c | c in s'.consumers ensures ConsumerLinked(s', c) {
      assert c in s.consumers ==> ConsumerLinked(s, c);
    }
  }

  lemma ArriveBuffers(s: Server, ch: Chan, m: BusMessage, i: Handle)
    requires Structure(s) && Links(s) && Buffered(s, i)
    requires ch in s.consumers && s.consumers[ch].stage.Idle? && s.consumers[ch].closure.Some?
    ensures Buffered(SetStage(s, ch, Arrived(s.consumers[ch].closure.value, m)), i)
  {
    OnlyStage(s, ch, i);
  }

  lemma ArriveKeepsDelivery(s: Server, ch: Chan, m: BusMessage)
    requires HandlesInv(s) && Structure(s) && DeliveryInv(s)
    requires ch in s.consumers && s.consumers[ch].stage.Idle? && s.consumers[ch].closure.Some?
    ensures DeliveryInv(SetStage(s, ch, Arrived(s.consumers[ch].closure.value, m)))
  {
    ArriveKeepsLinks(s, ch, m);
    forall i ensures Buffered(SetStage(s, ch, Arrived(s.consumers[ch].closure.value, m)), i) {
      ArriveBuffers(s, ch, m, i);
    }
  }

  lemma LookupKeepsLinks(s: Server, ch: Chan)
    requires Structure(s) && Links(s)
    requires ch in s.consumers && s.consumers[ch].stage.Arrived?
    ensures Links(DoLookup(s, ch))
  {
    assert ConsumerLinked(s, ch);
    forall c | c in DoLookup(s, ch).consumers ensures ConsumerLinked(DoLookup(s, ch), c) {
      assert c in s.consumers ==> ConsumerLinked(s, c);
    }
  }

  lemma LookupStages(s: Server, ch: Chan, i: Handle)
    requires Structure(s) && Links(s) && ch in s.consumers && s.consumers[ch].stage.Arrived?
    ensures i != s.consumers[ch].stage.h ==> StageOf(DoLookup(s, ch), i) == StageOf(s, i)
    ensures i == s.consumers[ch].stage.h ==>
              StageOf(s, i) == s.consumers[ch].stage && StageOf(DoLookup(s, ch), i) == DoLookup(s, ch).consumers[ch].stage
    ensures Buffer(DoLookup(s, ch), i) == Buffer(s, i)
  {
    assert ConsumerLinked(s, ch);
    OnlyStage(s, ch, i);
  }

  lemma LookupBuffers(s: Server, ch: Chan, i: Handle)
    requires Structure(s) && Links(s) && Buffered(s, i)
    requires ch in s.consumers && s.consumers[ch].stage.Arrived?
    ensures Buffered(DoLookup(s, ch), i)
  {
    var at := s.consumers[ch].stage;
    LookupStages(s, ch, i);
    ScanSnoc(s.log.events, LookedUp(at.h, at.m), i);
    if i == at.h {
      assert PendingEnqueue(s, i) == [] && PendingBroadcast(s, i) == [];
      assert Scan(s.log.events, i).accepted == Buffer(s, i) + [] == Buffer(s, i);
    }
  }

  lemma LookupKeepsDelivery(s: Server, ch: Chan)
    requires HandlesInv(s) && Structure(s) && DeliveryInv(s)
    requires ch in s.consumers && s.consumers[ch].stage.Arrived?
    ensures DeliveryInv(DoLookup(s, ch))
  {
    LookupKeepsLinks(s, ch);
    forall i ensures Buffered(DoLookup(s, ch), i) {
      LookupBuffers(s, ch, i);
    }
  }

  lemma EnqueueKeepsLinks(s: Server, ch: Chan)
    requires Structure(s) && Links(s)
    requires ch in s.consumers && s.consumers[ch].stage.Found?
    ensures Links(DoEnqueue(s, ch))
  {
    forall c | c in DoEnqueue(s, ch).consumers ensures ConsumerLinked(DoEnqueue(s, ch), c) {
      assert c in s.consumers ==> ConsumerLinked(s, c);
    }
  }

  lemma EnqueueOwn(s: Server, ch: Chan)
    requires Structure(s) && Links(s) && ch in s.consumers && s.consumers[ch].stage.Found?
    ensures var h, m := s.consumers[ch].stage.h, s.consumers[ch].stage.m;
            && StageOf(s, h) == s.consumers[ch].stage && StageOf(DoEnqueue(s, ch), h) == Enqueued(h, m)
            && Buffer(DoEnqueue(s, ch), h) == Buffer(s, h) + [m]
  {
    assert ConsumerLinked(s, ch);
  }

  lemma EnqueueOther(s: Server, ch: Chan, i: Handle)
    requires Structure(s) && Links(s) && ch in s.consumers && s.consumers[ch].stage.Found?
    requires i != s.consumers[ch].stage.h
    ensures StageOf(DoEnqueue(s, ch), i) == StageOf(s, i) && Buffer(DoEnqueue(s, ch), i) == Buffer(s, i)
  {
    assert ConsumerLinked(s, ch);
    OnlyStage(s, ch, i);
  }

  lemma EnqueueBuffers(s: Server, ch: Chan, i: Handle)
    requires Structure(s) && Links(s) && Buffered(s, i)
    requires ch in s.consumers && s.consumers[ch].stage.Found?
    ensures Buffered(DoEnqueue(s, ch), i)
  {
    if i == s.consumers[ch].stage.h {
      EnqueueOwn(s, ch);
    } else {
      EnqueueOther(s, ch, i);
    }
  }

  lemma EnqueueKeepsDelivery(s: Server, ch: Chan)
    requires HandlesInv(s) && Structure(s) && DeliveryInv(s)
    requires ch in s.consumers && s.consumers[ch].stage.Found?
    ensures DeliveryInv(DoEnqueue(s, ch))
  {
    EnqueueKeepsLinks(s, ch);
    forall i ensures Buffered(DoEnqueue(s, ch), i) {
      EnqueueBuffers(s, ch, i);
    }
  }

  lemma SendKeepsLinks(s: Server, ch: Chan)
    requires Structure(s) && Links(s)
    requires ch in s.consumers && s.consumers[ch].stage.Enqueued?
    ensures Links(DoBroadcast(s, ch))
  {
    forall c | c in DoBroadcast(s, ch).consumers ensures ConsumerLinked(DoBroadcast(s, ch), c) {
      assert c in s.consumers ==> ConsumerLinked(s, c);
    }
  }

  lemma SendMoves(s: Server, ch: Chan, i: Handle)
    requires Structure(s) && Links(s) && ch in s.consumers && s.consumers[ch].stage.Enqueued?
    ensures i != s.consumers[ch].stage.h ==> StageOf(DoBroadcast(s, ch), i) == StageOf(s, i)
    ensures i == s.consumers[ch].stage.h ==>
              StageOf(s, i) == s.consumers[ch].stage && StageOf(DoBroadcast(s, ch), i) == Idle
    ensures Buffer(DoBroadcast(s, ch), i) == Buffer(s, i)
  {
    assert ConsumerLinked(s, ch);
    OnlyStage(s, ch, i);
  }

  lemma SendBuffers(s: Server, ch: Chan, i: Handle)
    requires Structure(s) && Links(s) && Buffered(s, i)
    requires ch in s.consumers && s.consumers[ch].stage.Enqueued?
    ensures Buffered(DoBroadcast(s, ch), i)
  {
    var at, s' := s.consumers[ch].stage, DoBroadcast(s, ch);
    SendMoves(s, ch, i);
    BroadcastsSnoc(s.log.broadcasts, (at.h, at.m), i);
    var sent := BroadcastsOf(s.log.broadcasts, i);
    if i == at.h {
      assert Buffer(s, i) == sent + [at.m] == (sent + [at.m]) + [];
      assert BroadcastsOf(s'.log.broadcasts, i) == sent + [at.m];
    } else {
      assert BroadcastsOf(s'.log.broadcasts, i) == sent + [] == sent;
    }
  }

  lemma SendKeepsDelivery(s: Server, ch: Chan)
    requires HandlesInv(s) && Structure(s) && DeliveryInv(s)
    requires ch in s.consumers && s.consumers[ch].stage.Enqueued?
    ensures DeliveryInv(DoBroadcast(s, ch))
  {
    SendKeepsLinks(s, ch);
    forall i ensures Buffered(DoBroadcast(s, ch), i) {
      SendBuffers(s, ch, i);
    }
  }

  // ---- every run ----

  lemma OpenKeepsDelivery(s: Server, step: OpenStep)
    requires HandlesInv(s) && Structure(s) && DeliveryInv(s)
    ensures DeliveryInv(ApplyOpen(s, step))
  {
    if ApplyOpen(s, step) != s {
      match step
      case StartConsumer(op) => StartKeepsDelivery(s, op);
      case Insert(op, h) => InsertKeepsDelivery(s, op, h);
      case Assign(op) => AssignKeepsDelivery(s, op);
      case RegisterHandle(op) => RegisterKeepsDelivery(s, op);
      case _ =>
        OpenIsSilent(s, step);
        SilentKeepsDelivery(s, ApplyOpen(s, step), step.op);
    }
  }

  lemma OpenIsSilent(s: Server, step: OpenStep)
    requires ApplyOpen(s, step) != s
    requires !step.StartConsumer? && !step.Insert? && !step.Assign? && !step.RegisterHandle?
    ensures Silent(s, ApplyOpen(s, step), step.op)
  {
  }

  lemma CloseIsSilent(s: Server, step: CloseStep)
    requires ApplyClose(s, step) != s && !step.UnregisterHandle?
    ensures Silent(s, ApplyClose(s, step), step.op)
  {
  }

  lemma TeardownIsSilent(s: Server, step: TeardownStep)
    requires ApplyTeardown(s, step) != s && !step.ChannelDrops?
    ensures Silent(s, ApplyTeardown(s, step), step.op)
  {
  }

  lemma CloseKeepsDelivery(s: Server, step: CloseStep)
    requires HandlesInv(s) && Structure(s) && DeliveryInv(s)
    ensures DeliveryInv(ApplyClose(s, step))
  {
    if ApplyClose(s, step) != s {
      match step
      case UnregisterHandle(op) => UnregisterKeepsDelivery(s, op);
      case _ =>
        CloseIsSilent(s, step);
        SilentKeepsDelivery(s, ApplyClose(s, step), step.op);
    }
  }

  lemma DropKeepsDelivery(s: Server, ch: Chan)
    requires HandlesInv(s) && Structure(s) && DeliveryInv(s)
    ensures DeliveryInv(ApplyTeardown(s, ChannelDrops(ch)))
  {
    var s' := ApplyTeardown(s, ChannelDrops(ch));
    forall c | c in s'.consumers ensures ConsumerLinked(s', c) {
      assert ConsumerLinked(s, c);
    }
    forall i ensures Buffered(s', i) {
      assert Buffered(s, i) && StageOf(s', i) == StageOf(s, i);
    }
  }

  lemma TeardownKeepsDelivery(s: Server, step: TeardownStep)
    requires HandlesInv(s) && Structure(s) && DeliveryInv(s)
    ensures DeliveryInv(ApplyTeardown(s, step))
  {
    if ApplyTeardown(s, step) != s {
      match step
      case ChannelDrops(ch) => DropKeepsDelivery(s, ch);
      case _ =>
        TeardownIsSilent(s, step);
        SilentKeepsDelivery(s, ApplyTeardown(s, step), step.op);
    }
  }

  lemma DeliveryKeepsDelivery(s: Server, step: DeliveryStep)
    requires HandlesInv(s) && Structure(s) && DeliveryInv(s)
    ensures DeliveryInv(ApplyDelivery(s, step))
  {
    if ApplyDelivery(s, step) != s {
      match step
      case Deliver(ch, d) => ArriveKeepsDelivery(s, ch, FromDelivery(d).value);
      case Lookup(ch) => LookupKeepsDelivery(s, ch);
      case EnqueueMessage(ch) => EnqueueKeepsDelivery(s, ch);
      case Broadcast(ch) => SendKeepsDelivery(s, ch);
    }
  }

  lemma ApplyKeepsDelivery(s: Server, step: Step)
    requires HandlesInv(s) && Structure(s) && DeliveryInv(s)
    ensures DeliveryInv(Apply(s, step))
  {
    match step
    case Open(o) => OpenKeepsDelivery(s, o);
    case Close(c) => CloseKeepsDelivery(s, c);
    case Teardown(t) => TeardownKeepsDelivery(s, t);
    case Deliveries(d) => DeliveryKeepsDelivery(s, d);
  }

  lemma StartHolds()
    ensures DeliveryInv(START)
  {
  }

  lemma {:induction false} RunKeepsDelivery(steps: seq<Step>)
    ensures DeliveryInv(Run(steps))
  {
    if steps == [] {
      StartHolds();
    } else {
      RunKeepsHandles(Init(steps));
      RunKeepsChannels(Init(steps));
      RunKeepsDelivery(Init(steps));
      ApplyKeepsDelivery(Run(Init(steps)), Last(steps));
    }
  }

  /** In every interleaving a handle's queue is exactly the deliveries whose lookup ran between its
      registration and its unregistration, in order, but for one whose enqueue is still to come. */
  lemma {:induction false} BufferIsAcceptedDeliveries(steps: seq<Step>, h: Handle)
    ensures var s := Run(steps);
            Buffer(s, h) + PendingEnqueue(s, h) == Scan(s.log.events, h).accepted
  {
    RunKeepsDelivery(steps);
    assert Buffered(Run(steps), h);
  }

  /** What GetMessages answers: that queue while the handle is registered, nothing before or after. */
  lemma {:induction false} MessagesAreTheBuffer(steps: seq<Step>, h: Handle)
    ensures var s := Run(steps);
            GetMessages(s.coordinator, h) == if Scan(s.log.events, h).on then Buffer(s, h) else []
  {
    RunKeepsDelivery(steps);
    assert Buffered(Run(steps), h);
  }

  /** The broadcasts for a handle are its queue, or its queue without the last message, still to be sent. */
  lemma {:induction false} BroadcastsFollowTheBuffer(steps: seq<Step>, h: Handle)
    ensures var s := Run(steps);
            var sent := BroadcastsOf(s.log.broadcasts, h);
            sent == Buffer(s, h) || (Buffer(s, h) != [] && sent == Init(Buffer(s, h)))
  {
    RunKeepsDelivery(steps);
    var s := Run(steps);
    assert Buffered(s, h);
    var sent := BroadcastsOf(s.log.broadcasts, h);
    if PendingBroadcast(s, h) == [] {
      assert sent + [] == sent;
    } else {
      assert Init(sent + PendingBroadcast(s, h)) == sent;
    }
  }

  /** The `i`-th event is a lookup that ran while the handle was registered. */
  predicate InWindow(events: seq<Event>, i: nat, h: Handle, m: BusMessage) {
    i < |events| && events[i] == LookedUp(h, m) && Scan(events[..i], h).on
  }

  lemma {:induction false} AcceptedExactlyWhen(events: seq<Event>, h: Handle, m: BusMessage)
    ensures m in Scan(events, h).accepted <==> exists i :: InWindow(events, i, h, m)
  {
    if events != [] {
      var before := Init(events);
      AcceptedExactlyWhen(before, h, m);
      forall i | 0 <= i < |before| ensures InWindow(before, i, h, m) <==> InWindow(events, i, h, m) {
        assert before[..i] == events[..i];
      }
      assert events[..|before|] == before;
      if InWindow(events, |before|, h, m) {
        assert m in Scan(events, h).accepted;
      } else if m in Scan(before, h).accepted {
        var i :| InWindow(before, i, h, m);
        assert InWindow(events, i, h, m);
      }
    }
  }

  /** A delivery looked up before the registration or after the unregistration leaves no trace: a message is
      buffered, or about to be, exactly if some lookup of it ran while the handle was registered; and nothing
      else is broadcast. */
  lemma {:induction false} UnregisteredLookupDrops(steps: seq<Step>, h: Handle, m: BusMessage)
    ensures var s := Run(steps);
            && (m in Buffer(s, h) + PendingEnqueue(s, h) <==> exists i :: InWindow(s.log.events, i, h, m))
            && (m in BroadcastsOf(s.log.broadcasts, h) ==> exists i :: InWindow(s.log.events, i, h, m))
  {
    BufferIsAcceptedDeliveries(steps, h);
    AcceptedExactlyWhen(Run(steps).log.events, h, m);
    RunKeepsDelivery(steps);
    assert Buffered(Run(steps), h);
  }

  // ---- nothing is invented ----

  /** Every message held by a consumer or a queue came from a delivery. */
  ghost predicate Genuine(s: Server) {
    && (forall ch :: ch in s.consumers && !s.consumers[ch].stage.Idle? ==> Delivered(s.consumers[ch].stage.m))
    && (forall q, i :: 0 <= q < |s.coordinator.queues| && 0 <= i < |s.coordinator.queues[q]| ==>
          Delivered(s.coordinator.queues[q][i]))
  }

  lemma OpenKeepsGenuine(s: Server, step: OpenStep)
    requires Genuine(s)
    ensures Genuine(ApplyOpen(s, step))
  {
  }

  lemma CloseKeepsGenuine(s: Server, step: CloseStep)
    requires Genuine(s)
    ensures Genuine(ApplyClose(s, step))
  {
  }

  lemma TeardownKeepsGenuine(s: Server, step: TeardownStep)
    requires Genuine(s)
    ensures Genuine(ApplyTeardown(s, step))
  {
  }

  lemma DeliveryKeepsGenuine(s: Server, step: DeliveryStep)
    requires Genuine(s)
    ensures Genuine(ApplyDelivery(s, step))
  {
    if step.Deliver? && FromDelivery(step.d).Ok? {
      assert Delivered(FromDelivery(step.d).value);
    }
  }

  lemma {:induction false} RunKeepsGenuine(steps: seq<Step>)
    ensures Genuine(Run(steps))
  {
    if steps != [] {
      var s := Run(Init(steps));
      RunKeepsGenuine(Init(steps));
      match Last(steps)
      case Open(o) => OpenKeepsGenuine(s, o);
      case Close(c) => CloseKeepsGenuine(s, c);
      case Teardown(t) => TeardownKeepsGenuine(s, t);
      case Deliveries(d) => DeliveryKeepsGenuine(s, d);
    }
  }
}
