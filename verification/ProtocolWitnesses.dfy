/** Runs from the start that reach what the protocol does not rule out. */
module ProtocolWitnesses {
  import opened Basics
  import opened Domain
  import opened Protocol
  import opened ProtocolSequential

  /** Connected for the first time. */
  const CONNECTED := START.(adapter := Adapter(Some(0), map[], None), broker := Broker(1, 0, map[], {}))

  lemma StartReaches()
    ensures Reachable(START)
  {
    assert Run([]) == START;
  }

  lemma Connects()
    ensures Reachable(CONNECTED)
  {
    StartReaches();
    StartsReaches(START, 0, true);
    var s2 := Starts(START, 0, true);
    assert s2.ops[0].rest == {};
    var s3 := DoClear(s2, 0);
    StepReaches(s2, Teardown(Clear(0)));
    var s4 := SetOp(s3, 0, Connecting);
    StepReaches(s3, Teardown(CloseConnection(0)));
    StepReaches(s4, Teardown(ConnectEnds(0, true)));
    assert s4.log.takers == map[] && s4.ops - {0} == map[];
    assert DoConnect(s4, 0, true) == CONNECTED;
  }

  lemma PreparesReaches(s: Server, op: Op, reply: bool)
    requires Reachable(s)
    ensures Reachable(Prepares(s, op, reply))
  {
    var s1 := ApplyOpen(s, BeginSubscribe(op, reply));
    StepReaches(s, Open(BeginSubscribe(op, reply)));
    StepReaches(s1, Open(CreateChannel(op)));
    StepReaches(ApplyOpen(s1, CreateChannel(op)), Open(StartConsumer(op)));
  }

  lemma OpensReaches(s: Server, op: Op, h: Handle, reply: bool)
    requires Reachable(s)
    ensures Reachable(Opens(s, op, h, reply))
  {
    PreparesReaches(s, op, reply);
    var s1 := Prepares(s, op, reply);
    var s2 := ApplyOpen(s1, Insert(op, h));
    StepReaches(s1, Open(Insert(op, h)));
    StepReaches(s2, Open(Assign(op)));
    StepReaches(ApplyOpen(s2, Assign(op)), Open(RegisterHandle(op)));
  }

  /** A teardown that has just taken the lock. */
  function Starts(s: Server, op: Op, reconnect: bool): Server {
    ApplyTeardown(ApplyTeardown(s, BeginTeardown(op, reconnect)), Acquire(op))
  }

  lemma StartsReaches(s: Server, op: Op, reconnect: bool)
    requires Reachable(s) && op !in s.ops && s.adapter.lockedBy.None?
    ensures Reachable(Starts(s, op, reconnect))
    ensures Starts(s, op, reconnect) == s.(adapter := s.adapter.(lockedBy := Some(op)),
                                           ops := s.ops[op := Clearing(s.adapter.channels.Keys, reconnect)])
  {
    var s1 := SetOp(s, op, Waiting(reconnect));
    StepReaches(s, Teardown(BeginTeardown(op, reconnect)));
    StepReaches(s1, Teardown(Acquire(op)));
    assert DoAcquire(s1, op).ops == s.ops[op := Clearing(s.adapter.channels.Keys, reconnect)];
  }

  /** From the emptied map to the end of a disconnect. */
  lemma EndsReaches(s: Server, op: Op)
    requires Reachable(s) && op in s.ops && s.ops[op] == Clearing({}, false) && s.adapter.connection.Some?
    ensures exists s' :: Reachable(s') && s'.ops == s.ops - {op} && s'.adapter == Adapter(None, map[], None)
                         && s'.coordinator == s.coordinator
  {
    var s1 := DoClear(s, op);
    StepReaches(s, Teardown(Clear(op)));
    var s2 := DoCloseConnection(s1, op);
    StepReaches(s1, Teardown(CloseConnection(op)));
    var s3 := DoForget(s2, op);
    StepReaches(s2, Teardown(ForgetConnection(op)));
    assert s3.ops == s.ops - {op};
  }

  /** A teardown never unregisters: connect, subscribe and disconnect, with nothing failing, leave a registered
      handle without a channel. */
  lemma TeardownLeavesHandlesRegistered()
    ensures exists steps, h :: var s := Run(steps);
              s.ops == map[] && h in s.coordinator.registry && h !in s.adapter.channels
  {
    Connects();
    var s := Opens(CONNECTED, 1, 1, false);
    OpensReaches(CONNECTED, 1, 1, false);
    OpensOneSubscription(CONNECTED, 1, 1, false);
    StartsReaches(s, 2, false);
    var s1 := Starts(s, 2, false);
    var s2 := DoCloseOne(s1, 2, 1);
    StepReaches(s1, Teardown(CloseOne(2, 1)));
    assert s2.ops[2].rest == {};
    EndsReaches(s2, 2);
    var s3 :| Reachable(s3) && s3.ops == s2.ops - {2} && s3.adapter == Adapter(None, map[], None)
              && s3.coordinator == s2.coordinator;
    assert s3.ops == map[];
    var steps :| Run(steps) == s3;
    assert 1 in s3.coordinator.registry;
  }

  lemma SecondSubscription(s: Server)
    requires Reachable(s) && s.ops == map[] && s.adapter == Adapter(Some(0), map[1 := 0], None)
    requires s.broker.nextChan == 1 && s.log.known == {1} && s.log.releases == map[] && s.log.chanOf == map[1 := 0]
    ensures exists t :: Reachable(t) && t.ops == map[] && t.adapter == Adapter(Some(0), map[1 := 0, 2 := 1], None)
                        && t.log.releases == map[] && t.log.chanOf == map[1 := 0, 2 := 1]
  {
    OpensReaches(s, 2, 2, false);
    OpensOneSubscription(s, 2, 2, false);
    var t := Opens(s, 2, 2, false);
    assert t.adapter.channels == map[1 := 0, 2 := 1];
  }

  lemma TwoSubscriptions()
    ensures exists s :: Reachable(s) && s.ops == map[] && s.adapter == Adapter(Some(0), map[1 := 0, 2 := 1], None)
                        && s.log.releases == map[] && s.log.chanOf == map[1 := 0, 2 := 1]
  {
    Connects();
    OpensReaches(CONNECTED, 1, 1, false);
    OpensOneSubscription(CONNECTED, 1, 1, false);
    SecondSubscription(Opens(CONNECTED, 1, 1, false));
  }

  /** A teardown closes channel 0 and then fails at channel 1. */
  lemma AbortsReaches(s: Server)
    requires Reachable(s) && s.ops == map[] && s.adapter == Adapter(Some(0), map[1 := 0, 2 := 1], None)
    requires s.log.releases == map[]
    ensures exists s' :: Reachable(s') && s'.ops == map[] && s'.adapter == s.adapter
                         && s'.log.chanOf == s.log.chanOf && Releases(s', 0) == [3]
  {
    StartsReaches(s, 3, false);
    var s1 := Starts(s, 3, false);
    var s2 := DoCloseOne(s1, 3, 1);
    StepReaches(s1, Teardown(CloseOne(3, 1)));
    assert 2 in s2.ops[3].rest;
    var s3 := DoAbort(s2, 3);
    StepReaches(s2, Teardown(CloseOneThrows(3)));
    assert s3.ops == map[];
  }

  /** Two subscriptions; a teardown closes one channel and fails at the other; the next teardown disposes of
      the first again. */
  lemma FailedTeardownDisposesTwice()
    ensures exists steps, h :: var s := Run(steps);
              h in s.log.chanOf && Releases(s, s.log.chanOf[h]) == [3, 4]
  {
    TwoSubscriptions();
    var s :| Reachable(s) && s.ops == map[] && s.adapter == Adapter(Some(0), map[1 := 0, 2 := 1], None)
             && s.log.releases == map[] && s.log.chanOf == map[1 := 0, 2 := 1];
    AbortsReaches(s);
    var s1 :| Reachable(s1) && s1.ops == map[] && s1.adapter == s.adapter
              && s1.log.chanOf == s.log.chanOf && Releases(s1, 0) == [3];
    StartsReaches(s1, 4, false);
    var s2 := Starts(s1, 4, false);
    var s3 := DoCloseOne(s2, 4, 1);
    StepReaches(s2, Teardown(CloseOne(4, 1)));
    var steps :| Run(steps) == s3;
    assert Releases(s3, s3.log.chanOf[1]) == [3, 4];
  }

  /** From the emptied map to the closed connection. */
  lemma ConnectionCloses(s: Server, op: Op)
    requires Reachable(s) && op in s.ops && s.ops[op] == Clearing({}, true) && s.adapter.connection.Some?
    ensures exists s' :: Reachable(s') && s'.ops == s.ops[op := Forgetting(s.adapter.connection.value, true)]
                         && s'.adapter == Adapter(s.adapter.connection, map[], None) && s'.log.known == s.log.known
                         && s'.broker == s.broker.(open := Surviving(s))
  {
    var s1 := DoClear(s, op);
    StepReaches(s, Teardown(Clear(op)));
    StepReaches(s1, Teardown(CloseConnection(op)));
    assert DoCloseConnection(s1, op).ops == s.ops[op := Forgetting(s.adapter.connection.value, true)];
  }

  /** The open channels that are not the current connection's. */
  function Surviving(s: Server): set<Chan>
    requires s.adapter.connection.Some?
  {
    set ch | ch in s.broker.open && !(ch in s.broker.home && s.broker.home[ch] == s.adapter.connection.value)
  }

  lemma ReconnectReaches(s: Server, op: Op)
    requires Reachable(s) && op in s.ops && s.ops[op] == Clearing({}, true) && s.adapter.connection.Some?
    ensures exists s' :: Reachable(s') && Reconnected(s, s', op)
  {
    ConnectionCloses(s, op);
    var s1 :| Reachable(s1) && s1.ops == s.ops[op := Forgetting(s.adapter.connection.value, true)]
              && s1.adapter == Adapter(s.adapter.connection, map[], None) && s1.log.known == s.log.known
              && s1.broker == s.broker.(open := Surviving(s));
    Replaces(s1, op);
    var s2 := DoConnect(DoForget(s1, op), op, true);
    assert s2.ops == s.ops - {op};
    assert Reconnected(s, s2, op);
  }

  lemma Replaces(s: Server, op: Op)
    requires Reachable(s) && op in s.ops && s.ops[op].Forgetting? && s.ops[op].reconnect
    ensures Reachable(DoConnect(DoForget(s, op), op, true))
  {
    StepReaches(s, Teardown(ForgetConnection(op)));
    StepReaches(DoForget(s, op), Teardown(ConnectEnds(op, true)));
  }

  predicate Reconnected(s: Server, s': Server, op: Op)
    requires s.adapter.connection.Some?
  {
    && s'.ops == s.ops - {op} && s'.log.known == s.log.known
    && s'.adapter == Adapter(Some(s.broker.nextConn), map[], None) && s'.broker.home == s.broker.home
    && s'.broker.open == Surviving(s)
  }

  /** A reconnect overtakes a subscribe that captured the old connection: the map then holds a closed channel
      that is not the current connection's. */
  lemma ReconnectOvertakesSubscribe()
    ensures exists steps, h :: var s := Run(steps);
              && h in s.adapter.channels && s.adapter.channels[h] !in s.broker.open
              && s.adapter.channels[h] in s.broker.home && s.adapter.connection.Some?
              && s.broker.home[s.adapter.channels[h]] != s.adapter.connection.value
  {
    BothWait();
    var s :| Reachable(s) && Waits(s);
    ReconnectReaches(s, 2);
    var s1 :| Reachable(s1) && Reconnected(s, s1, 2);
    var s2 := DoInsert(s1, 1, 1);
    StepReaches(s1, Open(Insert(1, 1)));
    var steps :| Run(steps) == s2;
    assert 1 in s2.adapter.channels;
  }

  /** A subscribe with its channel on connection 0 waits for the lock, which a reconnect holds. */
  predicate Waits(s: Server) {
    && s.ops == map[1 := Inserting(0, false), 2 := Clearing({}, true)]
    && s.adapter == Adapter(Some(0), map[], Some(2)) && 1 !in s.log.known
    && s.broker == Broker(1, 1, map[0 := 0], {0})
  }

  lemma BothWait()
    ensures exists s :: Reachable(s) && Waits(s)
  {
    Connects();
    var s := Prepares(CONNECTED, 1, false);
    PreparesReaches(CONNECTED, 1, false);
    PreparesChannel(CONNECTED, 1, false);
    StartsReaches(s, 2, true);
    var s1 := Starts(s, 2, true);
    assert s.adapter.channels.Keys == {};
    assert s1.ops == map[1 := Inserting(0, false), 2 := Clearing({}, true)];
    assert Waits(s1);
  }

  /** A subscribe inserts while a reconnect is past the lock but has not closed the connection. */
  lemma WaitingInserts()
    ensures exists s, op :: Reachable(s) && op in s.ops && s.ops[op] == Disconnecting(true)
              && s.adapter == Adapter(Some(0), map[1 := 0], None) && 0 in s.broker.home && s.broker.home[0] == 0
              && s.broker.nextConn == 1
  {
    BothWait();
    var s :| Reachable(s) && Waits(s);
    ClearThenInsert(s);
  }

  lemma ClearThenInsert(s: Server)
    requires Reachable(s) && Waits(s)
    ensures exists s' :: Reachable(s') && 2 in s'.ops && s'.ops[2] == Disconnecting(true) && s'.broker == s.broker
                         && s'.adapter == Adapter(Some(0), map[1 := 0], None)
  {
    var s1 := DoClear(s, 2);
    StepReaches(s, Teardown(Clear(2)));
    StepReaches(s1, Open(Insert(1, 1)));
    assert DoInsert(s1, 1, 1).ops[2] == Disconnecting(true);
  }

  /** The channel in the map is the current connection's. */
  predicate IsCurrent(s: Server, h: Handle)
    requires h in s.adapter.channels
  {
    s.adapter.channels[h] in s.broker.home && s.adapter.connection == Some(s.broker.home[s.adapter.channels[h]])
  }

  lemma ContinueThree(s: Server, a: Step, b: Step, c: Step)
    ensures Continue(s, [a, b, c]) == Apply(Apply(Apply(s, a), b), c)
  {
    assert Init([a]) == [] && Continue(s, [a]) == Apply(s, a);
    assert Init([a, b]) == [a] && Continue(s, [a, b]) == Apply(Apply(s, a), b);
    assert Init([a, b, c]) == [a, b];
  }

  lemma ReplacesUnder(s: Server, op: Op, h: Handle)
    requires op in s.ops && s.ops[op] == Disconnecting(true) && h in s.adapter.channels && IsCurrent(s, h)
    requires s.adapter.connection.value < s.broker.nextConn
    ensures var s' := Continue(s, [Teardown(CloseConnection(op)), Teardown(ForgetConnection(op)), Teardown(ConnectEnds(op, true))]);
            h in s'.adapter.channels && !IsCurrent(s', h) && s'.adapter.channels[h] !in s'.broker.open
  {
    ContinueThree(s, Teardown(CloseConnection(op)), Teardown(ForgetConnection(op)), Teardown(ConnectEnds(op, true)));
    var s1 := DoCloseConnection(s, op);
    var s2 := DoConnect(DoForget(s1, op), op, true);
    assert s2 == Continue(s, [Teardown(CloseConnection(op)), Teardown(ForgetConnection(op)), Teardown(ConnectEnds(op, true))]);
  }

  /** A channel may also be the current connection's when it is inserted, and later be dead in the map. */
  lemma ReconnectOvertakesInserted()
    ensures exists earlier, later, h ::
              && h in Run(earlier).adapter.channels && IsCurrent(Run(earlier), h)
              && h in Run(earlier + later).adapter.channels && !IsCurrent(Run(earlier + later), h)
              && Run(earlier + later).adapter.channels[h] !in Run(earlier + later).broker.open
  {
    WaitingInserts();
    var s, op :| Reachable(s) && op in s.ops && s.ops[op] == Disconnecting(true)
              && s.adapter == Adapter(Some(0), map[1 := 0], None) && 0 in s.broker.home && s.broker.home[0] == 0
              && s.broker.nextConn == 1;
    var earlier :| Run(earlier) == s;
    var later := [Teardown(CloseConnection(op)), Teardown(ForgetConnection(op)), Teardown(ConnectEnds(op, true))];
    ReplacesUnder(s, op, 1);
    RunContinues(earlier, later);
    assert 1 in Run(earlier + later).adapter.channels;
  }
}
