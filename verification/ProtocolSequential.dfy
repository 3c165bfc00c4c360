/** The interleaved steps, run without interruption, are the use cases as they read. */
module ProtocolSequential {
  import opened Basics
  import opened Domain
  import opened Coordinators
  import opened Protocol
  import A = Adapters
  import U = UseCases

  /** Up to the wired consumer. */
  function Prepares(s: Server, op: Op, reply: bool): Server {
    var s1 := ApplyOpen(s, BeginSubscribe(op, reply));
    var s2 := ApplyOpen(s1, CreateChannel(op));
    ApplyOpen(s2, StartConsumer(op))
  }

  /** From the lock to the coordinator. */
  function Finishes(s: Server, op: Op, h: Handle): Server {
    var s1 := ApplyOpen(s, Insert(op, h));
    var s2 := ApplyOpen(s1, Assign(op));
    ApplyOpen(s2, RegisterHandle(op))
  }

  function Opens(s: Server, op: Op, h: Handle, reply: bool): Server {
    Finishes(Prepares(s, op, reply), op, h)
  }

  function Closes(s: Server, op: Op, h: Handle): Server {
    var s1 := ApplyClose(s, BeginUnsubscribe(op, h));
    var s2 := ApplyClose(s1, Remove(op));
    var s3 := ApplyClose(s2, CloseChannel(op));
    ApplyClose(s3, UnregisterHandle(op))
  }

  lemma PreparesChannel(s: Server, op: Op, reply: bool)
    requires op !in s.ops && s.adapter.connection.Some?
    ensures var s', ch := Prepares(s, op, reply), s.broker.nextChan;
            && s'.adapter == s.adapter && s'.coordinator == s.coordinator
            && s'.broker == Broker(s.broker.nextConn, ch + 1, s.broker.home[ch := s.adapter.connection.value],
                                   s.broker.open + {ch})
            && s'.consumers == s.consumers[ch := Consumer(None, Idle)]
            && s'.ops == s.ops[op := Inserting(ch, reply)]
            && s'.log == s.log.(maker := s.log.maker[ch := op])
  {
    var s1 := SetOp(s, op, Opening(s.adapter.connection.value, reply));
    assert Prepares(s, op, reply) == DoStart(DoCreate(s1, op), op);
  }

  lemma FinishesSubscription(s: Server, op: Op, h: Handle)
    requires op in s.ops && s.ops[op].Inserting? && s.adapter.lockedBy.None? && h !in s.log.known
    requires s.ops[op].ch in s.consumers
    ensures var s', ch := Finishes(s, op, h), s.ops[op].ch;
            && s'.adapter == s.adapter.(channels := s.adapter.channels[h := ch])
            && s'.coordinator == Register(s.coordinator, h) && s'.broker == s.broker
            && s'.consumers == s.consumers[ch := Consumer(Some(h), s.consumers[ch].stage)]
            && s'.ops == (if s.ops[op].reply then s.ops[op := Publishing(h)] else s.ops - {op})
            && s'.log.releases == s.log.releases && s'.log.aborts == s.log.aborts
            && s'.log.known == s.log.known + {h} && s'.log.chanOf == s.log.chanOf[h := ch]
  {
    var s1 := DoInsert(s, op, h);
    assert Finishes(s, op, h) == DoRegister(DoAssign(s1, op), op);
  }

  /** An uninterrupted subscribe adds one channel to the map, open and listening for its handle,
      registers that handle, and ends; send-with-reply is then at its publish. */
  lemma OpensOneSubscription(s: Server, op: Op, h: Handle, reply: bool)
    requires op !in s.ops && s.adapter.connection.Some? && s.adapter.lockedBy.None? && h !in s.log.known
    ensures var s', ch := Opens(s, op, h, reply), s.broker.nextChan;
            && s'.adapter == s.adapter.(channels := s.adapter.channels[h := ch])
            && s'.coordinator == Register(s.coordinator, h)
            && s'.broker == Broker(s.broker.nextConn, ch + 1, s.broker.home[ch := s.adapter.connection.value],
                                   s.broker.open + {ch})
            && s'.consumers == s.consumers[ch := Consumer(Some(h), Idle)]
            && s'.ops == (if reply then s.ops[op := Publishing(h)] else s.ops)
            && s'.log.releases == s.log.releases && s'.log.aborts == s.log.aborts
            && s'.log.known == s.log.known + {h} && s'.log.chanOf == s.log.chanOf[h := ch]
  {
    PreparesChannel(s, op, reply);
    FinishesSubscription(Prepares(s, op, reply), op, h);
    OpsAfterOpening(s.ops, op, Inserting(s.broker.nextChan, reply), Publishing(h));
  }

  lemma OpsAfterOpening(ops: map<Op, Phase>, op: Op, p: Phase, q: Phase)
    requires op !in ops
    ensures ops[op := p] - {op} == ops && ops[op := p][op := q] == ops[op := q]
  {
  }

  /** An uninterrupted unsubscribe takes the channel out of the map, closes it, unregisters the handle, and ends. */
  lemma ClosesOneSubscription(s: Server, op: Op, h: Handle)
    requires op !in s.ops && s.adapter.lockedBy.None? && h in s.adapter.channels
    ensures var s' := Closes(s, op, h);
            && s'.adapter == s.adapter.(channels := s.adapter.channels - {h})
            && s'.coordinator == Unregister(s.coordinator, h)
            && s'.broker.open == s.broker.open - {s.adapter.channels[h]}
            && s'.consumers == s.consumers && s'.ops == s.ops
  {
    var s1 := DoRequest(s, op, h);
    var s2 := DoRemove(s1, op);
    var s3 := ApplyClose(s2, CloseChannel(op));
    assert Closes(s, op, h) == DoUnregister(s3, op);
  }

  // ---- the use cases, failures included ----

  /** The state the use cases see; the protocol leaves out what was published and which handle is next. */
  function Abstract(s: Server, nextHandle: Handle, published: seq<BusMessage>): U.World {
    U.World(
      A.State(s.adapter.connection, s.adapter.channels, nextHandle,
              A.Client(s.broker.nextConn, s.broker.nextChan, s.broker.home, s.broker.open, published)),
      s.coordinator)
  }

  /** Up to the wired consumer, or to the call that fails. */
  function Attaches(f: A.Faults, s: Server, op: Op, reply: bool): Server {
    var ch, s1 := s.broker.nextChan, ApplyOpen(s, BeginSubscribe(op, reply));
    if s.adapter.connection.None? then s1
    else if (f.channel)(ch) then ApplyOpen(s1, OpenFails(op))
    else
      var s2 := ApplyOpen(s1, CreateChannel(op));
      if (reply && (f.declare)(ch)) || (f.consume)(ch) then ApplyOpen(s2, OpenFails(op))
      else ApplyOpen(s2, StartConsumer(op))
  }

  function Subscribes(f: A.Faults, s: Server, op: Op, h: Handle, reply: bool): Server {
    var s1 := Attaches(f, s, op, reply);
    if op in s1.ops then Finishes(s1, op, h) else s1
  }

  /** From the lock on; a close that throws ends the operation. */
  function CleansUp(f: A.Faults, s: Server, op: Op): Server {
    var s1 := ApplyClose(s, Remove(op));
    if op in s1.ops && s1.ops[op].Closing? then
      if (f.close)(s1.ops[op].ch) then ApplyClose(s1, CloseThrows(op))
      else ApplyClose(ApplyClose(s1, CloseChannel(op)), UnregisterHandle(op))
    else ApplyClose(s1, UnregisterHandle(op))
  }

  function Unsubscribes(f: A.Faults, s: Server, op: Op, h: Handle): Server {
    CleansUp(f, ApplyClose(s, BeginUnsubscribe(op, h)), op)
  }

  /** From the registered handle to the end. */
  function Publishes(f: A.Faults, s: Server, op: Op, m: Result<BusMessage>): Server {
    if m.Err? then ApplyOpen(s, PublishEnds(op, false))
    else
      var a := Abstract(s, 0, []).adapter;
      var (a', sent) := A.Publish(f, a, m.value);
      var made := a'.client.nextChan != a.client.nextChan;
      if sent.Ok? then ApplyOpen(s, PublishEnds(op, made)) else CleansUp(f, ApplyOpen(s, PublishFails(op, made)), op)
  }

  function SendsWithReply(f: A.Faults, s: Server, op: Op, h: Handle, c: U.Command, generated: string): Server {
    var s1 := Subscribes(f, s, op, h, true);
    if op in s1.ops then Publishes(f, s1, op, U.MessageOf(c, (f.queueName)(s.broker.nextChan), generated)) else s1
  }

  /** A subscribe in a row is the subscribe use case, whichever calls fail. */
  lemma SubscribeCommutes(f: A.Faults, s: Server, op: Op, h: Handle, published: seq<BusMessage>)
    requires op !in s.ops && s.adapter.lockedBy.None? && h !in s.log.known
    ensures var (w, r), s' := U.Subscribe(f, Abstract(s, h, published)), Subscribes(f, s, op, h, false);
            Abstract(s', w.adapter.nextHandle, published) == w && s'.ops == s.ops
  {
    AttachCommutes(f, s, op, h, false, published);
  }

  lemma AttachCommutes(f: A.Faults, s: Server, op: Op, h: Handle, reply: bool, published: seq<BusMessage>)
    requires op !in s.ops && s.adapter.lockedBy.None? && h !in s.log.known
    ensures var (a, r), s' := A.Attach(f, Abstract(s, h, published).adapter, reply), Subscribes(f, s, op, h, reply);
            && Abstract(s', a.nextHandle, published)
               == U.World(a, if r.Ok? then Register(s.coordinator, r.value) else s.coordinator)
            && (r.Ok? ==> r.value == h)
            && s'.ops == (if r.Ok? && reply then s.ops[op := Publishing(h)] else s.ops)
            && s'.adapter.lockedBy.None?
  {
    if s.adapter.connection.Some? {
      if (f.channel)(s.broker.nextChan) {
        ChannelRefused(f, s, op, reply);
      } else if (reply && (f.declare)(s.broker.nextChan)) || (f.consume)(s.broker.nextChan) {
        ConsumerRefused(f, s, op, reply);
      } else {
        assert Attaches(f, s, op, reply) == Prepares(s, op, reply);
        OpensOneSubscription(s, op, h, reply);
        PreparesChannel(s, op, reply);
      }
    }
  }

  lemma ChannelRefused(f: A.Faults, s: Server, op: Op, reply: bool)
    requires op !in s.ops && s.adapter.connection.Some? && (f.channel)(s.broker.nextChan)
    ensures Attaches(f, s, op, reply) == s
  {
    assert s.ops[op := Opening(s.adapter.connection.value, reply)] - {op} == s.ops;
  }

  lemma ConsumerRefused(f: A.Faults, s: Server, op: Op, reply: bool)
    requires op !in s.ops && s.adapter.connection.Some? && !(f.channel)(s.broker.nextChan)
    requires (reply && (f.declare)(s.broker.nextChan)) || (f.consume)(s.broker.nextChan)
    ensures var s', ch := Attaches(f, s, op, reply), s.broker.nextChan;
            && s'.adapter == s.adapter && s'.coordinator == s.coordinator && s'.ops == s.ops
            && s'.broker == Broker(s.broker.nextConn, ch + 1, s.broker.home[ch := s.adapter.connection.value],
                                   s.broker.open + {ch})
  {
    var ch := s.broker.nextChan;
    var s1 := SetOp(s, op, Opening(s.adapter.connection.value, reply));
    assert Attaches(f, s, op, reply) == EndOp(DoCreate(s1, op), op);
    assert s1.ops[op := Wiring(ch, reply)] - {op} == s.ops;
  }

  lemma CleanUpCommutes(f: A.Faults, s: Server, op: Op, h: Handle, next: Handle, published: seq<BusMessage>)
    requires op in s.ops && s.ops[op] == Removing(h) && s.adapter.lockedBy.None?
    ensures var w, s' := U.Unsubscribe(f, Abstract(s, next, published), h).0, CleansUp(f, s, op);
            Abstract(s', next, published) == w && s'.ops == s.ops - {op}
  {
    if h in s.adapter.channels {
      var s1 := DoRemove(s, op);
      assert ApplyClose(s, Remove(op)) == s1;
      assert s1.ops - {op} == s.ops - {op};
      assert s1.ops[op := Unregistering(h)] - {op} == s.ops - {op};
    } else {
      assert s.ops[op := Unregistering(h)] - {op} == s.ops - {op};
    }
  }

  /** So is an unsubscribe, of any handle. */
  lemma UnsubscribeCommutes(f: A.Faults, s: Server, op: Op, h: Handle, next: Handle, published: seq<BusMessage>)
    requires op !in s.ops && s.adapter.lockedBy.None?
    ensures var w, s' := U.Unsubscribe(f, Abstract(s, next, published), h).0, Unsubscribes(f, s, op, h);
            Abstract(s', next, published) == w && s'.ops == s.ops
  {
    var s1 := DoRequest(s, op, h);
    CleanUpCommutes(f, s1, op, h, next, published);
    assert Abstract(s1, next, published) == Abstract(s, next, published);
    assert s1.ops - {op} == s.ops;
  }

  /** What send-with-reply does once the message is built, or not. */
  function AfterBuild(f: A.Faults, w: U.World, h: Handle, built: Result<BusMessage>): U.World {
    if built.Err? then w
    else
      var (a, sent) := A.Publish(f, w.adapter, built.value);
      if sent.Ok? then w.(adapter := a) else U.Unsubscribe(f, w.(adapter := a), h).0
  }

  lemma PublishCommutes(f: A.Faults, s: Server, op: Op, h: Handle, m: BusMessage, next: Handle, published: seq<BusMessage>)
    requires op in s.ops && s.ops[op] == Publishing(h) && s.adapter.lockedBy.None?
    ensures var end := AfterBuild(f, Abstract(s, next, published), h, Ok(m));
            var s' := Publishes(f, s, op, Ok(m));
            Abstract(s', next, end.adapter.client.published) == end && s'.ops == s.ops - {op}
  {
    var w := Abstract(s, next, published);
    var (a, sent) := A.Publish(f, w.adapter, m);
    PublishIgnores(f, s, m, next, published);
    var made := a.client.nextChan != s.broker.nextChan;
    var s1 := DoSend(s, made);
    PublishAbstract(f, s, m, next, published);
    if sent.Ok? {
      assert Publishes(f, s, op, Ok(m)) == EndOp(s1, op);
    } else {
      assert Publishes(f, s, op, Ok(m)) == CleansUp(f, SetOp(s1, op, Removing(h)), op);
      CompensationCommutes(f, s1, op, h, next, published);
    }
  }

  lemma CompensationCommutes(f: A.Faults, s: Server, op: Op, h: Handle, next: Handle, published: seq<BusMessage>)
    requires s.adapter.lockedBy.None?
    ensures var w, s' := U.Unsubscribe(f, Abstract(s, next, published), h).0, CleansUp(f, SetOp(s, op, Removing(h)), op);
            Abstract(s', next, published) == w && s'.ops == s.ops - {op}
  {
    var s1 := SetOp(s, op, Removing(h));
    CleanUpCommutes(f, s1, op, h, next, published);
    assert s1.ops - {op} == s.ops - {op};
  }

  lemma PublishIgnores(f: A.Faults, s: Server, m: BusMessage, next: Handle, published: seq<BusMessage>)
    ensures var (a, sent) := A.Publish(f, Abstract(s, next, published).adapter, m);
            var (a0, sent0) := A.Publish(f, Abstract(s, 0, []).adapter, m);
            sent0 == sent && a0.client.nextChan == a.client.nextChan
  {
  }

  lemma PublishAbstract(f: A.Faults, s: Server, m: BusMessage, next: Handle, published: seq<BusMessage>)
    ensures var w := Abstract(s, next, published);
            var (a, sent) := A.Publish(f, w.adapter, m);
            var s1 := DoSend(s, a.client.nextChan != s.broker.nextChan);
            && Abstract(s1, next, a.client.published) == w.(adapter := a)
            && s1 == s.(broker := s1.broker)
            && (sent.Err? ==> a.client.published == published)
  {
  }

  /** And so is a send-with-reply, compensation included. */
  lemma SendWithReplyCommutes(f: A.Faults, s: Server, op: Op, h: Handle, c: U.Command, generated: string,
                              published: seq<BusMessage>)
    requires op !in s.ops && s.adapter.lockedBy.None? && h !in s.log.known
    ensures var w := U.SendWithReply(f, Abstract(s, h, published), true, c, generated).0;
            var s' := SendsWithReply(f, s, op, h, c, generated);
            Abstract(s', w.adapter.nextHandle, w.adapter.client.published) == w && s'.ops == s.ops
  {
    AttachCommutes(f, s, op, h, true, published);
    var (a, attached) := A.Attach(f, Abstract(s, h, published).adapter, true);
    var s1 := Subscribes(f, s, op, h, true);
    if attached.Ok? {
      var built := U.MessageOf(c, (f.queueName)(s.broker.nextChan), generated);
      assert s1.ops - {op} == s.ops;
      BuiltCommutes(f, s1, op, h, built, a.nextHandle, published);
    }
  }

  lemma BuiltCommutes(f: A.Faults, s: Server, op: Op, h: Handle, built: Result<BusMessage>, next: Handle,
                      published: seq<BusMessage>)
    requires op in s.ops && s.ops[op] == Publishing(h) && s.adapter.lockedBy.None?
    ensures var end := AfterBuild(f, Abstract(s, next, published), h, built);
            var s' := Publishes(f, s, op, built);
            Abstract(s', next, end.adapter.client.published) == end && s'.ops == s.ops - {op}
  {
    if built.Ok? {
      PublishCommutes(f, s, op, h, built.value, next, published);
    }
  }

  // ---- connect and disconnect ----

  /** Each handle of the map once, in the order the teardown meets them. */
  predicate Enumerates(order: seq<Handle>, keys: set<Handle>) {
    if order == [] then keys == {} else order[0] in keys && Enumerates(order[1..], keys - {order[0]})
  }

  /** The loop over the channels, up to the one that refuses to close. */
  function ClosesAll(f: A.Faults, s: Server, op: Op, order: seq<Handle>): Server
    decreases |order|
  {
    if order == [] || order[0] !in s.adapter.channels then s
    else
      var ch := s.adapter.channels[order[0]];
      if ch in s.broker.open && (f.close)(ch) then ApplyTeardown(s, CloseOneThrows(op))
      else ClosesAll(f, ApplyTeardown(s, CloseOne(op, order[0])), op, order[1..])
  }

  /** From the closed channels to the forgotten connection. */
  function Disconnects(f: A.Faults, s: Server, op: Op): Server {
    var s1 := ApplyTeardown(s, Clear(op));
    if s1.adapter.connection.Some? && (f.disconnect)(s1.adapter.connection.value) then ApplyTeardown(s1, DisconnectThrows(op))
    else ApplyTeardown(ApplyTeardown(s1, CloseConnection(op)), ForgetConnection(op))
  }

  function TearsDown(f: A.Faults, s: Server, op: Op, order: seq<Handle>, reconnect: bool): Server {
    var s1 := ApplyTeardown(ApplyTeardown(s, BeginTeardown(op, reconnect)), Acquire(op));
    var s2 := ClosesAll(f, s1, op, order);
    if op in s2.ops then Disconnects(f, s2, op) else s2
  }

  function Connects(f: A.Faults, s: Server, op: Op, order: seq<Handle>): Server {
    var s1 := TearsDown(f, s, op, order, true);
    ApplyTeardown(s1, ConnectEnds(op, !(f.connect)(s1.broker.nextConn)))
  }

  /** Some channel still to be met is open and refuses to close. */
  predicate Refuses(f: A.Faults, s: Server, rest: set<Handle>) {
    exists h :: h in rest && h in s.adapter.channels
      && s.adapter.channels[h] in s.broker.open && (f.close)(s.adapter.channels[h])
  }

  /** The channels still to be met. */
  function ChannelsOf(s: Server, rest: set<Handle>): set<Chan> {
    set h | h in rest && h in s.adapter.channels :: s.adapter.channels[h]
  }

  lemma {:induction false} ClosesAllDoes(f: A.Faults, s: Server, op: Op, order: seq<Handle>)
    requires op in s.ops && s.ops[op].Clearing? && Enumerates(order, s.ops[op].rest)
    requires s.ops[op].rest <= s.adapter.channels.Keys && s.adapter.lockedBy == Some(op)
    ensures var s', rest := ClosesAll(f, s, op, order), s.ops[op].rest;
            && s'.coordinator == s.coordinator && s'.broker == s.broker.(open := s'.broker.open)
            && s'.broker.open <= s.broker.open
            && (forall ch :: ch in s.broker.open && ch !in s'.broker.open ==> ch in ChannelsOf(s, rest) && !(f.close)(ch))
            && (Refuses(f, s, rest) ==>
                  s'.ops == s.ops - {op} && s'.adapter == s.adapter.(lockedBy := None))
            && (!Refuses(f, s, rest) ==>
                  && s'.ops == s.ops[op := Clearing({}, s.ops[op].reconnect)] && s'.adapter == s.adapter
                  && s'.broker.open == s.broker.open - ChannelsOf(s, rest))
    decreases |order|
  {
    var rest := s.ops[op].rest;
    if order == [] {
      assert ChannelsOf(s, {}) == {};
      assert s.ops[op := Clearing({}, s.ops[op].reconnect)] == s.ops;
    } else {
      var h, ch := order[0], s.adapter.channels[order[0]];
      if ch in s.broker.open && (f.close)(ch) {
        assert Refuses(f, s, rest);
        assert ClosesAll(f, s, op, order) == DoAbort(s, op);
      } else {
        var s1 := DoCloseOne(s, op, h);
        assert ClosesAll(f, s, op, order) == ClosesAll(f, s1, op, order[1..]);
        ClosesAllDoes(f, s1, op, order[1..]);
        CloseOneSteps(f, s, op, h);
      }
    }
  }

  lemma CloseOneSteps(f: A.Faults, s: Server, op: Op, h: Handle)
    requires op in s.ops && s.ops[op].Clearing? && h in s.ops[op].rest && h in s.adapter.channels
    requires !(s.adapter.channels[h] in s.broker.open && (f.close)(s.adapter.channels[h]))
    ensures var s1, rest := DoCloseOne(s, op, h), s.ops[op].rest;
            && (Refuses(f, s1, rest - {h}) <==> Refuses(f, s, rest))
            && ChannelsOf(s, rest) == ChannelsOf(s1, rest - {h}) + {s.adapter.channels[h]}
            && s1.broker.open == s.broker.open - {s.adapter.channels[h]}
            && s1.ops[op := Clearing({}, s.ops[op].reconnect)] == s.ops[op := Clearing({}, s.ops[op].reconnect)]
            && s1.ops - {op} == s.ops - {op}
  {
    var s1, rest := DoCloseOne(s, op, h), s.ops[op].rest;
    if Refuses(f, s, rest) {
      var i :| i in rest && i in s.adapter.channels
        && s.adapter.channels[i] in s.broker.open && (f.close)(s.adapter.channels[i]);
      assert i in rest - {h} && i in s1.adapter.channels && s1.adapter.channels[i] in s1.broker.open;
    }
  }

  lemma StartsClosing(s: Server, op: Op, reconnect: bool)
    requires op !in s.ops && s.adapter.lockedBy.None?
    ensures ApplyTeardown(ApplyTeardown(s, BeginTeardown(op, reconnect)), Acquire(op))
            == s.(adapter := s.adapter.(lockedBy := Some(op)),
                  ops := s.ops[op := Clearing(s.adapter.channels.Keys, reconnect)])
  {
    assert DoAcquire(SetOp(s, op, Waiting(reconnect)), op).ops == s.ops[op := Clearing(s.adapter.channels.Keys, reconnect)];
  }

  /** The loop ends the operation exactly if some channel refuses to close. */
  lemma ClosesCommute(f: A.Faults, s: Server, op: Op, order: seq<Handle>, reconnect: bool)
    requires op !in s.ops && s.adapter.lockedBy.None? && Enumerates(order, s.adapter.channels.Keys)
    ensures var a := Abstract(s, 0, []).adapter;
            var s1 := ApplyTeardown(ApplyTeardown(s, BeginTeardown(op, reconnect)), Acquire(op));
            var s' := ClosesAll(f, s1, op, order);
            && s'.coordinator == s.coordinator && s'.broker == s.broker.(open := s'.broker.open)
            && A.ClosesSome(f, a, s'.broker.open)
            && (A.CloseWillThrow(f, a) ==> s'.ops == s.ops && s'.adapter == s.adapter)
            && (!A.CloseWillThrow(f, a) ==>
                  && s'.ops == s.ops[op := Clearing({}, reconnect)] && s'.adapter == s.adapter.(lockedBy := Some(op))
                  && s'.broker.open == s.broker.open - s.adapter.channels.Values)
  {
    StartsClosing(s, op, reconnect);
    var s1 := s.(adapter := s.adapter.(lockedBy := Some(op)),
                 ops := s.ops[op := Clearing(s.adapter.channels.Keys, reconnect)]);
    ClosesAllDoes(f, s1, op, order);
    assert ChannelsOf(s1, s.adapter.channels.Keys) == s.adapter.channels.Values;
    assert s1.ops - {op} == s.ops;
    assert Refuses(f, s1, s.adapter.channels.Keys) <==> A.CloseWillThrow(f, Abstract(s, 0, []).adapter);
  }

  /** The connection's part. */
  lemma ConnectionCommutes(f: A.Faults, s: Server, op: Op)
    requires op in s.ops && s.ops[op].Clearing? && s.ops[op].rest == {}
    requires forall ch :: ch in s.broker.open ==> ch in s.broker.home && s.adapter.connection == Some(s.broker.home[ch])
    ensures var s', conn := Disconnects(f, s, op), s.adapter.connection;
            var throws, reconnect := conn.Some? && (f.disconnect)(conn.value), s.ops[op].reconnect;
            && s'.coordinator == s.coordinator
            && s'.adapter == Adapter(if throws then conn else None, map[], None)
            && s'.broker == (if throws then s.broker else s.broker.(open := {}))
            && s'.ops == if reconnect && !throws then s.ops[op := Connecting] else s.ops - {op}
  {
    var s1 := DoClear(s, op);
    match s.adapter.connection
    case None =>
      assert s.broker.open == {};
      assert ApplyTeardown(s1, CloseConnection(op)) == if s.ops[op].reconnect then SetOp(s1, op, Connecting) else EndOp(s1, op);
    case Some(conn) =>
      if !(f.disconnect)(conn) {
        var s2 := DoCloseConnection(s1, op);
        assert s2.broker.open == {};
        assert Disconnects(f, s, op) == DoForget(s2, op);
      }
  }

  /** A disconnect in a row leaves what the adapter's teardown leaves, whichever calls fail and in whatever order
      the channels come; the coordinator is not told. */
  lemma TeardownCommutes(f: A.Faults, s: Server, op: Op, order: seq<Handle>, reconnect: bool, next: Handle,
                                       published: seq<BusMessage>)
    requires op !in s.ops && s.adapter.lockedBy.None? && Enumerates(order, s.adapter.channels.Keys)
    requires A.ValidState(Abstract(s, next, published).adapter)
    ensures var a, s' := Abstract(s, next, published).adapter, TearsDown(f, s, op, order, reconnect);
            var r := if A.TearsDown(f, a) then Ok(()) else Err(CloseError);
            && A.TornDown(f, a, Abstract(s', next, published).adapter, r)
            && s'.coordinator == s.coordinator && s'.adapter.lockedBy.None?
            && s'.ops == if reconnect && r.Ok? then s.ops[op := Connecting] else s.ops
  {
    var a := Abstract(s, next, published).adapter;
    ClosesCommute(f, s, op, order, reconnect);
    SameFaults(f, s, next, published);
    var s2 := ClosesAll(f, ApplyTeardown(ApplyTeardown(s, BeginTeardown(op, reconnect)), Acquire(op)), op, order);
    if !A.CloseWillThrow(f, a) {
      ConnectionCommutes(f, s2, op);
      assert s.ops[op := Clearing({}, reconnect)] - {op} == s.ops;
    }
  }

  lemma SameFaults(f: A.Faults, s: Server, next: Handle, published: seq<BusMessage>)
    ensures A.CloseWillThrow(f, Abstract(s, next, published).adapter) <==> A.CloseWillThrow(f, Abstract(s, 0, []).adapter)
    ensures forall open :: A.ClosesSome(f, Abstract(s, next, published).adapter, open)
                           <==> A.ClosesSome(f, Abstract(s, 0, []).adapter, open)
  {
  }

  lemma ConnectFinishes(f: A.Faults, s: Server, op: Op)
    ensures var s' := ApplyTeardown(s, ConnectEnds(op, !(f.connect)(s.broker.nextConn)));
            if op in s.ops && s.ops[op] == Connecting then s' == DoConnect(s, op, !(f.connect)(s.broker.nextConn)) else s' == s
  {
  }

  lemma ConnectedAfter(f: A.Faults, a: A.State, s: Server, op: Op, next: Handle, published: seq<BusMessage>)
    requires A.TearsDown(f, a) && A.TornDown(f, a, Abstract(s, next, published).adapter, Ok(()))
    ensures var refused := (f.connect)(s.broker.nextConn);
            A.Connected(f, a, Abstract(DoConnect(s, op, !refused), next, published).adapter,
                        if refused then Err(ConnectionError) else Ok(()))
  {
  }

  /** And a connect in a row leaves what the adapter's connect leaves. */
  lemma ConnectCommutes(f: A.Faults, s: Server, op: Op, order: seq<Handle>, next: Handle, published: seq<BusMessage>)
    requires op !in s.ops && s.adapter.lockedBy.None? && Enumerates(order, s.adapter.channels.Keys)
    requires A.ValidState(Abstract(s, next, published).adapter)
    ensures var a, s' := Abstract(s, next, published).adapter, Connects(f, s, op, order);
            var r := if !A.TearsDown(f, a) then Err(CloseError)
                     else if (f.connect)(s.broker.nextConn) then Err(ConnectionError) else Ok(());
            && A.Connected(f, a, Abstract(s', next, published).adapter, r)
            && s'.coordinator == s.coordinator && s'.ops == s.ops
  {
    var a, s1 := Abstract(s, next, published).adapter, TearsDown(f, s, op, order, true);
    TeardownCommutes(f, s, op, order, true, next, published);
    ConnectFinishes(f, s1, op);
    if A.TearsDown(f, a) {
      ConnectedAfter(f, a, s1, op, next, published);
      assert s.ops[op := Connecting] - {op} == s.ops;
    }
  }
}
