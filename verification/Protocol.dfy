/** The server's subscription protocol as interleaved steps: one step per stretch between two awaits of
    subscribe, send-with-reply, unsubscribe, connect and disconnect, and of each delivery callback.
    Every list of steps is a run: a step whose guard fails changes nothing. */
module Protocol {
  import opened Basics
  import opened Domain
  import opened Coordinators

  type Op = nat

  /** Where an operation waits. `reply` marks send-with-reply, `reconnect` a connect's teardown. */
  datatype Phase =
    | Opening(conn: Conn, reply: bool)                  // connection captured, awaiting the channel
    | Wiring(ch: Chan, reply: bool)                     // awaiting the consumer
    | Inserting(ch: Chan, reply: bool)                  // consuming; awaiting _subscriptionsLock
    | Returned(h: Handle, ch: Chan, reply: bool)        // handle drawn, the closure still sees null
    | Assigned(h: Handle, reply: bool)                  // the closure sees the handle
    | Publishing(h: Handle)                             // registered; awaiting SendAsync
    | Removing(h: Handle)                               // unsubscribe: awaiting the lock
    | Closing(h: Handle, ch: Chan)                      // out of the map; awaiting the close
    | Unregistering(h: Handle)
    | Waiting(reconnect: bool)                          // teardown: awaiting the lock
    | Clearing(rest: set<Handle>, reconnect: bool)      // holding the lock, `rest` still to be closed
    | Disconnecting(reconnect: bool)                    // past the lock
    | Forgetting(conn: Conn, reconnect: bool)           // connection closed, still referenced
    | Connecting

  datatype Adapter = Adapter(connection: Option<Conn>, channels: map<Handle, Chan>, lockedBy: Option<Op>)

  /** The broker client's channels: the connection each was made on, and those open. */
  datatype Broker = Broker(nextConn: Conn, nextChan: Chan, home: map<Chan, Conn>, open: set<Chan>)

  /** One consumer handles one delivery at a time. `closure` is the captured `handle` variable. */
  datatype Stage =
    | Idle
    | Arrived(h: Handle, m: BusMessage)                 // past the null test, before TryGetValue
    | Found(h: Handle, q: nat, m: BusMessage)           // holding the queue, before Enqueue
    | Enqueued(h: Handle, m: BusMessage)                // before BroadcastAsync

  datatype Consumer = Consumer(closure: Option<Handle>, stage: Stage)

  /** Who took a handle out of the map. */
  datatype Taker = Unsubscriber(op: Op) | Cleaner(op: Op)

  datatype Event = Registered(h: Handle) | Unregistered(h: Handle) | LookedUp(h: Handle, m: BusMessage)

  /** What happened, for the statements only; no step reads it except to keep drawn handles fresh. */
  datatype Log = Log(
    known: set<Handle>,               // handles drawn or named by a request
    maker: map<Chan, Op>,             // the operation that created each channel
    chanOf: map<Handle, Chan>,        // every channel ever put in the map
    handleOf: map<Chan, Handle>,      // and under which handle
    opener: map<Handle, Op>,          // the operation that put it there
    takers: map<Handle, seq<Taker>>,  // the unsubscribes and teardowns that took it out
    releases: map<Chan, seq<Op>>,     // the operations that disposed it, closed if it was open
    aborts: map<Chan, seq<Op>>,       // the teardowns that reached it and then failed at another channel
    failed: set<Chan>,                // the channels an unsubscribe took out but could not close
    queueOf: map<Handle, nat>,        // every queue ever registered
    owners: seq<Handle>,              // and under which handle
    events: seq<Event>,
    broadcasts: seq<(Handle, BusMessage)>)

  datatype Server = Server(
    adapter: Adapter, broker: Broker, coordinator: Coordinator,
    ops: map<Op, Phase>, consumers: map<Chan, Consumer>, log: Log)

  const START := Server(
    Adapter(None, map[], None), Broker(0, 0, map[], {}), Coordinator(map[], []), map[], map[],
    Log({}, map[], map[], map[], map[], map[], map[], map[], {}, map[], [], [], []))

  datatype OpenStep =
    | BeginSubscribe(op: Op, reply: bool)
    | CreateChannel(op: Op)
    | StartConsumer(op: Op)
    | OpenFails(op: Op)
    | Insert(op: Op, h: Handle)
    | Assign(op: Op)
    | RegisterHandle(op: Op)
    // SendAsync returned, or the message could not be built; `made` says it had made a channel of its own
    | PublishEnds(op: Op, made: bool)
    | PublishFails(op: Op, made: bool)    // SendAsync threw: clean up

  datatype CloseStep =
    | BeginUnsubscribe(op: Op, h: Handle)
    | Remove(op: Op)
    | CloseChannel(op: Op)
    | CloseThrows(op: Op)
    | UnregisterHandle(op: Op)

  datatype TeardownStep =
    | BeginTeardown(op: Op, reconnect: bool)
    | Acquire(op: Op)
    | CloseOne(op: Op, h: Handle)
    | CloseOneThrows(op: Op)
    | Clear(op: Op)
    | CloseConnection(op: Op)
    | ForgetConnection(op: Op)
    | DisconnectThrows(op: Op)        // the connection's CloseAsync or DisposeAsync threw
    | ConnectEnds(op: Op, ok: bool)
    | ChannelDrops(ch: Chan)          // closed from the broker's side

  datatype DeliveryStep =
    | Deliver(ch: Chan, d: Delivery)
    | Lookup(ch: Chan)
    | EnqueueMessage(ch: Chan)
    | Broadcast(ch: Chan)

  datatype Step = Open(o: OpenStep) | Close(c: CloseStep) | Teardown(t: TeardownStep) | Deliveries(d: DeliveryStep)

  function SetOp(s: Server, op: Op, p: Phase): Server { s.(ops := s.ops[op := p]) }

  function EndOp(s: Server, op: Op): Server { s.(ops := s.ops - {op}) }

  /** Every other operation waits where it did. */
  ghost predicate SameElsewhere(ops: map<Op, Phase>, ops': map<Op, Phase>, op: Op) {
    forall o :: o != op ==> (o in ops <==> o in ops') && (o in ops ==> ops[o] == ops'[o])
  }

  function Takers(s: Server, h: Handle): seq<Taker> {
    if h in s.log.takers then s.log.takers[h] else []
  }

  function Releases(s: Server, ch: Chan): seq<Op> {
    if ch in s.log.releases then s.log.releases[ch] else []
  }

  function Aborts(s: Server, ch: Chan): seq<Op> {
    if ch in s.log.aborts then s.log.aborts[ch] else []
  }

  /** DisposeAsync of one channel, after CloseAsync if it is open. */
  function Release(s: Server, ch: Chan, op: Op): Server {
    s.(broker := s.broker.(open := s.broker.open - {ch}),
       log := s.log.(releases := s.log.releases[ch := Releases(s, ch) + [op]]))
  }

  // ---- subscribe and send-with-reply ----

  function DoCreate(s: Server, op: Op): Server
    requires op in s.ops && s.ops[op].Opening?
  {
    var ch := s.broker.nextChan;
    s.(broker := Broker(s.broker.nextConn, ch + 1, s.broker.home[ch := s.ops[op].conn], s.broker.open + {ch}),
       log := s.log.(maker := s.log.maker[ch := op]),
       ops := s.ops[op := Wiring(ch, s.ops[op].reply)])
  }

  function DoStart(s: Server, op: Op): Server
    requires op in s.ops && s.ops[op].Wiring?
  {
    s.(consumers := s.consumers[s.ops[op].ch := Consumer(None, Idle)],
       ops := s.ops[op := Inserting(s.ops[op].ch, s.ops[op].reply)])
  }

  /** A handle is drawn, never drawn or named before, and its channel enters the map. */
  function DoInsert(s: Server, op: Op, h: Handle): Server
    requires op in s.ops && s.ops[op].Inserting?
  {
    var ch := s.ops[op].ch;
    s.(adapter := s.adapter.(channels := s.adapter.channels[h := ch]),
       log := s.log.(known := s.log.known + {h}, chanOf := s.log.chanOf[h := ch],
                             handleOf := s.log.handleOf[ch := h], opener := s.log.opener[h := op]),
       ops := s.ops[op := Returned(h, ch, s.ops[op].reply)])
  }

  function DoAssign(s: Server, op: Op): Server
    requires op in s.ops && s.ops[op].Returned?
  {
    var p := s.ops[op];
    var stage := if p.ch in s.consumers then s.consumers[p.ch].stage else Idle;
    s.(consumers := s.consumers[p.ch := Consumer(Some(p.h), stage)], ops := s.ops[op := Assigned(p.h, p.reply)])
  }

  function DoRegister(s: Server, op: Op): Server
    requires op in s.ops && s.ops[op].Assigned?
  {
    var h := s.ops[op].h;
    s.(coordinator := Register(s.coordinator, h),
       log := s.log.(queueOf := s.log.queueOf[h := |s.coordinator.queues|],
                             owners := s.log.owners + [h], events := s.log.events + [Registered(h)]),
       ops := if s.ops[op].reply then s.ops[op := Publishing(h)] else s.ops - {op})
  }

  /** SendAsync's own channel, made and disposed of again. */
  function DoSend(s: Server, made: bool): Server {
    if !made || s.adapter.connection.None? then s
    else s.(broker := s.broker.(nextChan := s.broker.nextChan + 1,
                                home := s.broker.home[s.broker.nextChan := s.adapter.connection.value]))
  }

  function ApplyOpen(s: Server, step: OpenStep): Server {
    match step
    case BeginSubscribe(op, reply) =>
      if op in s.ops || s.adapter.connection.None? then s
      else SetOp(s, op, Opening(s.adapter.connection.value, reply))
    case CreateChannel(op) => if op in s.ops && s.ops[op].Opening? then DoCreate(s, op) else s
    case StartConsumer(op) => if op in s.ops && s.ops[op].Wiring? then DoStart(s, op) else s
    case OpenFails(op) =>
      if op in s.ops && (s.ops[op].Opening? || s.ops[op].Wiring?) then EndOp(s, op) else s
    case Insert(op, h) =>
      if op in s.ops && s.ops[op].Inserting? && s.adapter.lockedBy.None? && h !in s.log.known then DoInsert(s, op, h)
      else s
    case Assign(op) => if op in s.ops && s.ops[op].Returned? then DoAssign(s, op) else s
    case RegisterHandle(op) => if op in s.ops && s.ops[op].Assigned? then DoRegister(s, op) else s
    case PublishEnds(op, made) => if op in s.ops && s.ops[op].Publishing? then EndOp(DoSend(s, made), op) else s
    case PublishFails(op, made) =>
      if op in s.ops && s.ops[op].Publishing? then SetOp(DoSend(s, made), op, Removing(s.ops[op].h)) else s
  }

  // ---- unsubscribe, and send-with-reply's cleanup ----

  function DoRequest(s: Server, op: Op, h: Handle): Server {
    s.(log := s.log.(known := s.log.known + {h}), ops := s.ops[op := Removing(h)])
  }

  function DoRemove(s: Server, op: Op): Server
    requires op in s.ops && s.ops[op].Removing? && s.ops[op].h in s.adapter.channels
  {
    var h := s.ops[op].h;
    s.(adapter := s.adapter.(channels := s.adapter.channels - {h}),
       log := s.log.(takers := s.log.takers[h := Takers(s, h) + [Unsubscriber(op)]]),
       ops := s.ops[op := Closing(h, s.adapter.channels[h])])
  }

  function DoFailClose(s: Server, op: Op): Server
    requires op in s.ops && s.ops[op].Closing?
  {
    EndOp(s.(log := s.log.(failed := s.log.failed + {s.ops[op].ch})), op)
  }

  function DoUnregister(s: Server, op: Op): Server
    requires op in s.ops && s.ops[op].Unregistering?
  {
    var h := s.ops[op].h;
    s.(coordinator := Unregister(s.coordinator, h),
       log := s.log.(events := s.log.events + [Unregistered(h)]),
       ops := s.ops - {op})
  }

  function ApplyClose(s: Server, step: CloseStep): Server {
    match step
    case BeginUnsubscribe(op, h) => if op in s.ops then s else DoRequest(s, op, h)
    case Remove(op) =>
      if op in s.ops && s.ops[op].Removing? && s.adapter.lockedBy.None? then
        if s.ops[op].h in s.adapter.channels then DoRemove(s, op) else SetOp(s, op, Unregistering(s.ops[op].h))
      else s
    case CloseChannel(op) =>
      if op in s.ops && s.ops[op].Closing? then
        SetOp(Release(s, s.ops[op].ch, op), op, Unregistering(s.ops[op].h))
      else s
    case CloseThrows(op) =>
      if op in s.ops && s.ops[op].Closing? then DoFailClose(s, op) else s
    case UnregisterHandle(op) => if op in s.ops && s.ops[op].Unregistering? then DoUnregister(s, op) else s
  }

  // ---- connect and disconnect ----

  function DoAcquire(s: Server, op: Op): Server
    requires op in s.ops && s.ops[op].Waiting?
  {
    s.(adapter := s.adapter.(lockedBy := Some(op)),
       ops := s.ops[op := Clearing(s.adapter.channels.Keys, s.ops[op].reconnect)])
  }

  function DoCloseOne(s: Server, op: Op, h: Handle): Server
    requires op in s.ops && s.ops[op].Clearing? && h in s.adapter.channels
  {
    SetOp(Release(s, s.adapter.channels[h], op), op, Clearing(s.ops[op].rest - {h}, s.ops[op].reconnect))
  }

  /** The channels a teardown has closed so far. */
  function Reached(s: Server, op: Op): set<Chan>
    requires op in s.ops && s.ops[op].Clearing?
  {
    set h | h in s.adapter.channels && h !in s.ops[op].rest :: s.adapter.channels[h]
  }

  function AbortsAfter(s: Server, op: Op): map<Chan, seq<Op>>
    requires op in s.ops && s.ops[op].Clearing?
  {
    map ch | ch in s.log.aborts.Keys + Reached(s, op) :: Aborts(s, ch) + if ch in Reached(s, op) then [op] else []
  }

  function DoAbort(s: Server, op: Op): Server
    requires op in s.ops && s.ops[op].Clearing?
  {
    s.(adapter := s.adapter.(lockedBy := None), log := s.log.(aborts := AbortsAfter(s, op)), ops := s.ops - {op})
  }

  function TakersAfterClear(s: Server, op: Op): map<Handle, seq<Taker>> {
    map h | h in s.log.takers.Keys + s.adapter.channels.Keys ::
      Takers(s, h) + if h in s.adapter.channels then [Cleaner(op)] else []
  }

  function DoClear(s: Server, op: Op): Server
    requires op in s.ops && s.ops[op].Clearing?
  {
    s.(adapter := s.adapter.(channels := map[], lockedBy := None),
       log := s.log.(takers := TakersAfterClear(s, op)),
       ops := s.ops[op := Disconnecting(s.ops[op].reconnect)])
  }

  function DoCloseConnection(s: Server, op: Op): Server
    requires op in s.ops && s.ops[op].Disconnecting?
  {
    match s.adapter.connection
    case None => if s.ops[op].reconnect then SetOp(s, op, Connecting) else EndOp(s, op)
    case Some(conn) =>
      SetOp(s.(broker := s.broker.(open := set ch | ch in s.broker.open && !(ch in s.broker.home && s.broker.home[ch] == conn))),
            op, Forgetting(conn, s.ops[op].reconnect))
  }

  function DoForget(s: Server, op: Op): Server
    requires op in s.ops && s.ops[op].Forgetting?
  {
    s.(adapter := s.adapter.(connection := None),
       ops := if s.ops[op].reconnect then s.ops[op := Connecting] else s.ops - {op})
  }

  /** A connect that fails leaves whatever connection there is. */
  function DoConnect(s: Server, op: Op, ok: bool): Server {
    s.(adapter := s.adapter.(connection := if ok then Some(s.broker.nextConn) else s.adapter.connection),
       broker := s.broker.(nextConn := s.broker.nextConn + 1), ops := s.ops - {op})
  }

  function ApplyTeardown(s: Server, step: TeardownStep): Server {
    match step
    case BeginTeardown(op, reconnect) => if op in s.ops then s else SetOp(s, op, Waiting(reconnect))
    case Acquire(op) =>
      if op in s.ops && s.ops[op].Waiting? && s.adapter.lockedBy.None? then DoAcquire(s, op) else s
    case CloseOne(op, h) =>
      if op in s.ops && s.ops[op].Clearing? && h in s.ops[op].rest && h in s.adapter.channels then DoCloseOne(s, op, h)
      else s
    case CloseOneThrows(op) =>
      if op in s.ops && s.ops[op].Clearing? && s.ops[op].rest != {} then DoAbort(s, op) else s
    case Clear(op) =>
      if op in s.ops && s.ops[op].Clearing? && s.ops[op].rest == {} then DoClear(s, op) else s
    case CloseConnection(op) => if op in s.ops && s.ops[op].Disconnecting? then DoCloseConnection(s, op) else s
    case ForgetConnection(op) => if op in s.ops && s.ops[op].Forgetting? then DoForget(s, op) else s
    case DisconnectThrows(op) =>
      if op in s.ops && ((s.ops[op].Disconnecting? && s.adapter.connection.Some?) || s.ops[op].Forgetting?) then EndOp(s, op)
      else s
    case ConnectEnds(op, ok) =>
      if op in s.ops && s.ops[op].Connecting? then DoConnect(s, op, ok) else s
    case ChannelDrops(ch) => s.(broker := s.broker.(open := s.broker.open - {ch}))
  }

  // ---- deliveries ----

  function SetStage(s: Server, ch: Chan, stage: Stage): Server
    requires ch in s.consumers
  {
    s.(consumers := s.consumers[ch := s.consumers[ch].(stage := stage)])
  }

  function DoLookup(s: Server, ch: Chan): Server
    requires ch in s.consumers && s.consumers[ch].stage.Arrived?
  {
    var h, m := s.consumers[ch].stage.h, s.consumers[ch].stage.m;
    SetStage(s.(log := s.log.(events := s.log.events + [LookedUp(h, m)])), ch,
             if h in s.coordinator.registry then Found(h, s.coordinator.registry[h], m) else Idle)
  }

  function DoEnqueue(s: Server, ch: Chan): Server
    requires ch in s.consumers && s.consumers[ch].stage.Found?
  {
    var at := s.consumers[ch].stage;
    SetStage(s.(coordinator := Enqueue(s.coordinator, at.q, at.m)), ch, Enqueued(at.h, at.m))
  }

  function DoBroadcast(s: Server, ch: Chan): Server
    requires ch in s.consumers && s.consumers[ch].stage.Enqueued?
  {
    var at := s.consumers[ch].stage;
    SetStage(s.(log := s.log.(broadcasts := s.log.broadcasts + [(at.h, at.m)])), ch, Idle)
  }

  function ApplyDelivery(s: Server, step: DeliveryStep): Server {
    match step
    case Deliver(ch, d) =>
      if ch in s.consumers && s.consumers[ch].stage.Idle? && s.consumers[ch].closure.Some? && FromDelivery(d).Ok? then
        SetStage(s, ch, Arrived(s.consumers[ch].closure.value, FromDelivery(d).value))
      else s
    case Lookup(ch) => if ch in s.consumers && s.consumers[ch].stage.Arrived? then DoLookup(s, ch) else s
    case EnqueueMessage(ch) => if ch in s.consumers && s.consumers[ch].stage.Found? then DoEnqueue(s, ch) else s
    case Broadcast(ch) => if ch in s.consumers && s.consumers[ch].stage.Enqueued? then DoBroadcast(s, ch) else s
  }

  function Apply(s: Server, step: Step): Server {
    match step
    case Open(o) => ApplyOpen(s, o)
    case Close(c) => ApplyClose(s, c)
    case Teardown(t) => ApplyTeardown(s, t)
    case Deliveries(d) => ApplyDelivery(s, d)
  }

  function Run(steps: seq<Step>): Server {
    if steps == [] then START else Apply(Run(Init(steps)), Last(steps))
  }

  function Continue(s: Server, steps: seq<Step>): Server {
    if steps == [] then s else Apply(Continue(s, Init(steps)), Last(steps))
  }

  lemma {:induction false} RunContinues(before: seq<Step>, steps: seq<Step>)
    ensures Run(before + steps) == Continue(Run(before), steps)
  {
    if steps == [] {
      assert before + steps == before;
    } else {
      assert Init(before + steps) == before + Init(steps) && Last(before + steps) == Last(steps);
      RunContinues(before, Init(steps));
    }
  }

  ghost predicate Reachable(s: Server) {
    exists steps :: Run(steps) == s
  }

  lemma StepReaches(s: Server, step: Step)
    requires Reachable(s)
    ensures Reachable(Apply(s, step))
  {
    var steps :| Run(steps) == s;
    assert Init(steps + [step]) == steps && Last(steps + [step]) == step;
    assert Run(steps + [step]) == Apply(s, step);
  }
}
