/** Whose connection a subscription channel is on, in the interleaved protocol. */
module ProtocolConnections {
  import opened Basics
  import opened Domain
  import opened Protocol
  import opened ProtocolChannels

  predicate IsAttaching(p: Phase) { p.Opening? || p.Wiring? || p.Inserting? }

  /** Past the lock: the map is cleared, the connection is being replaced or dropped. */
  predicate IsReplacing(p: Phase) { p.Disconnecting? || p.Forgetting? || p.Connecting? }

  predicate Overlap(s: Server) {
    exists o, t :: o in s.ops && t in s.ops && IsAttaching(s.ops[o]) && IsReplacing(s.ops[t])
  }

  /** No subscribe was ever in flight before its insertion while a connect or disconnect was past the lock. */
  predicate NeverOverlaps(steps: seq<Step>) {
    !Overlap(Run(steps)) && (steps == [] || NeverOverlaps(Init(steps)))
  }

  /** What an operation carries was made on `conn`. */
  predicate Carries(s: Server, op: Op, conn: Conn) {
    && op in s.ops
    && (s.ops[op].Opening? ==> s.ops[op].conn == conn)
    && (s.ops[op].Wiring? || s.ops[op].Inserting? ==> s.ops[op].ch in s.broker.home && s.broker.home[s.ops[op].ch] == conn)
  }

  /** Channels and connections are numbered as they are made. */
  predicate Numbered(s: Server) {
    && (forall ch :: ch in s.broker.home ==> ch < s.broker.nextChan)
    && (s.adapter.connection.Some? ==> s.adapter.connection.value < s.broker.nextConn)
  }

  lemma ApplyKeepsNumbered(s: Server, step: Step)
    requires Numbered(s)
    ensures Numbered(Apply(s, step))
    ensures s.broker.nextConn <= Apply(s, step).broker.nextConn
    ensures forall ch :: ch in s.broker.home ==>
              ch in Apply(s, step).broker.home && Apply(s, step).broker.home[ch] == s.broker.home[ch]
  {
  }

  lemma {:induction false} RunKeepsNumbered(steps: seq<Step>)
    ensures Numbered(Run(steps))
  {
    if steps != [] {
      RunKeepsNumbered(Init(steps));
      ApplyKeepsNumbered(Run(Init(steps)), Last(steps));
    }
  }

  // ---- without overlap ----

  predicate CurrentInv(s: Server) {
    && (forall h :: h in s.adapter.channels ==>
          s.adapter.channels[h] in s.broker.home && s.adapter.connection == Some(s.broker.home[s.adapter.channels[h]]))
    && (forall op :: op in s.ops && IsAttaching(s.ops[op]) ==>
          s.adapter.connection.Some? && Carries(s, op, s.adapter.connection.value))
    && (forall op :: op in s.ops && IsReplacing(s.ops[op]) ==> s.adapter.channels == map[])
  }

  lemma CreateKeepsCurrent(s: Server, op: Op)
    requires Numbered(s) && CurrentInv(s) && op in s.ops && s.ops[op].Opening?
    ensures CurrentInv(DoCreate(s, op))
  {
  }

  lemma InsertKeepsCurrent(s: Server, op: Op, h: Handle)
    requires CurrentInv(s) && !Overlap(s) && op in s.ops && s.ops[op].Inserting?
    ensures CurrentInv(DoInsert(s, op, h))
  {
  }

  lemma PublishKeepsCurrent(s: Server, op: Op, made: bool)
    requires Numbered(s) && CurrentInv(s) && op in s.ops && s.ops[op].Publishing?
    ensures CurrentInv(EndOp(DoSend(s, made), op)) && CurrentInv(SetOp(DoSend(s, made), op, Removing(s.ops[op].h)))
  {
  }

  lemma OpenKeepsCurrent(s: Server, step: OpenStep)
    requires Numbered(s) && CurrentInv(s) && !Overlap(s) && !Overlap(ApplyOpen(s, step))
    ensures CurrentInv(ApplyOpen(s, step))
  {
    if ApplyOpen(s, step) != s {
      match step
      case CreateChannel(op) => CreateKeepsCurrent(s, op);
      case Insert(op, h) => InsertKeepsCurrent(s, op, h);
      case PublishEnds(op, made) => PublishKeepsCurrent(s, op, made);
      case PublishFails(op, made) => PublishKeepsCurrent(s, op, made);
      case _ =>
    }
  }

  lemma CloseKeepsCurrent(s: Server, step: CloseStep)
    requires CurrentInv(s)
    ensures CurrentInv(ApplyClose(s, step))
  {
  }

  lemma TeardownKeepsCurrent(s: Server, step: TeardownStep)
    requires CurrentInv(s) && !Overlap(s) && !Overlap(ApplyTeardown(s, step))
    ensures CurrentInv(ApplyTeardown(s, step))
  {
  }

  lemma DeliveryKeepsCurrent(s: Server, step: DeliveryStep)
    requires CurrentInv(s)
    ensures CurrentInv(ApplyDelivery(s, step))
  {
  }

  lemma {:induction false} RunKeepsCurrent(steps: seq<Step>)
    requires NeverOverlaps(steps)
    ensures CurrentInv(Run(steps))
  {
    if steps != [] {
      var s := Run(Init(steps));
      RunKeepsCurrent(Init(steps));
      RunKeepsNumbered(Init(steps));
      match Last(steps)
      case Open(o) => OpenKeepsCurrent(s, o);
      case Close(c) => CloseKeepsCurrent(s, c);
      case Teardown(t) => TeardownKeepsCurrent(s, t);
      case Deliveries(d) => DeliveryKeepsCurrent(s, d);
    }
  }

  /** As long as no subscribe overlaps a connect or disconnect past its lock, every channel in the map was made on
      the current connection. */
  lemma {:induction false} ChannelsAreCurrent(steps: seq<Step>, h: Handle)
    requires NeverOverlaps(steps) && h in Run(steps).adapter.channels
    ensures var s, ch := Run(steps), Run(steps).adapter.channels[h];
            ch in s.broker.home && s.adapter.connection == Some(s.broker.home[ch])
  {
    RunKeepsCurrent(steps);
  }

  // ---- exactly which channels are current ----

  /** The connection is `conn` at the start, at the end, and after every step in between. */
  predicate Stays(s: Server, steps: seq<Step>, conn: Conn) {
    Continue(s, steps).adapter.connection == Some(conn) && (steps == [] || Stays(s, Init(steps), conn))
  }

  /** The operation is between its capture of the connection and its insertion all along. */
  predicate StaysAttaching(s: Server, steps: seq<Step>, op: Op) {
    var s' := Continue(s, steps);
    op in s'.ops && IsAttaching(s'.ops[op]) && (steps == [] || StaysAttaching(s, Init(steps), op))
  }

  /** A connection once replaced never comes back. */
  lemma ApplyKeepsGone(s: Server, step: Step, conn: Conn)
    requires Numbered(s) && conn < s.broker.nextConn && s.adapter.connection != Some(conn)
    ensures Apply(s, step).adapter.connection != Some(conn)
  {
  }

  lemma {:induction false} GoneForGood(s: Server, steps: seq<Step>, conn: Conn)
    requires Numbered(s) && conn < s.broker.nextConn && s.adapter.connection == Some(conn)
    ensures var s' := Continue(s, steps);
            && Numbered(s') && conn < s'.broker.nextConn
            && (s'.adapter.connection == Some(conn) <==> Stays(s, steps, conn))
  {
    if steps != [] {
      GoneForGood(s, Init(steps), conn);
      var before := Continue(s, Init(steps));
      ApplyKeepsNumbered(before, Last(steps));
      if before.adapter.connection != Some(conn) {
        ApplyKeepsGone(before, Last(steps), conn);
      }
    }
  }

  lemma {:induction false} HomeStays(s: Server, steps: seq<Step>, ch: Chan)
    requires Numbered(s) && ch in s.broker.home
    ensures var s' := Continue(s, steps); Numbered(s') && ch in s'.broker.home && s'.broker.home[ch] == s.broker.home[ch]
  {
    if steps != [] {
      HomeStays(s, Init(steps), ch);
      ApplyKeepsNumbered(Continue(s, Init(steps)), Last(steps));
    }
  }

  lemma ApplyKeepsCarries(s: Server, step: Step, op: Op, conn: Conn)
    requires Numbered(s) && Carries(s, op, conn) && IsAttaching(s.ops[op])
    requires op in Apply(s, step).ops && IsAttaching(Apply(s, step).ops[op])
    ensures Carries(Apply(s, step), op, conn)
  {
    match step
    case Open(o) => OpenKeepsCarries(s, o, op, conn);
    case Close(c) => CloseKeepsCarries(s, c, op, conn);
    case Teardown(t) => TeardownKeepsCarries(s, t, op, conn);
    case Deliveries(d) => assert ApplyDelivery(s, d).ops == s.ops && ApplyDelivery(s, d).broker == s.broker;
  }

  lemma OpenKeepsCarries(s: Server, step: OpenStep, op: Op, conn: Conn)
    requires Numbered(s) && Carries(s, op, conn) && IsAttaching(s.ops[op])
    requires op in ApplyOpen(s, step).ops && IsAttaching(ApplyOpen(s, step).ops[op])
    ensures Carries(ApplyOpen(s, step), op, conn)
  {
  }

  lemma CloseKeepsCarries(s: Server, step: CloseStep, op: Op, conn: Conn)
    requires Carries(s, op, conn) && IsAttaching(s.ops[op])
    ensures Carries(ApplyClose(s, step), op, conn)
  {
  }

  lemma TeardownKeepsCarries(s: Server, step: TeardownStep, op: Op, conn: Conn)
    requires Carries(s, op, conn) && IsAttaching(s.ops[op])
    ensures Carries(ApplyTeardown(s, step), op, conn)
  {
  }

  lemma {:induction false} CarriesOn(s: Server, steps: seq<Step>, op: Op, conn: Conn)
    requires Numbered(s) && Carries(s, op, conn) && StaysAttaching(s, steps, op)
    ensures Numbered(Continue(s, steps)) && Carries(Continue(s, steps), op, conn)
  {
    if steps != [] {
      CarriesOn(s, Init(steps), op, conn);
      var before := Continue(s, Init(steps));
      ApplyKeepsNumbered(before, Last(steps));
      assert StaysAttaching(s, Init(steps), op);
      ApplyKeepsCarries(before, Last(steps), op, conn);
    }
  }

  predicate CanInsert(s: Server, op: Op, h: Handle) {
    op in s.ops && s.ops[op].Inserting? && s.adapter.lockedBy.None? && h !in s.log.known
  }

  /** The operation captured the connection right after `before` and has been attaching since. */
  predicate Captured(steps: seq<Step>, op: Op, before: seq<Step>, reply: bool, between: seq<Step>) {
    && steps == before + [Open(BeginSubscribe(op, reply))] + between
    && op !in Run(before).ops && Run(before).adapter.connection.Some?
    && StaysAttaching(Run(before + [Open(BeginSubscribe(op, reply))]), between, op)
  }

  /** The run captures a connection for a handle, inserts the handle, and goes on. */
  predicate Inserted(steps: seq<Step>, h: Handle, before: seq<Step>, op: Op, reply: bool, between: seq<Step>, after: seq<Step>) {
    var captured := before + [Open(BeginSubscribe(op, reply))] + between;
    && steps == captured + [Open(Insert(op, h))] + after
    && Captured(captured, op, before, reply, between) && CanInsert(Run(captured), op, h)
  }

  /** The captured connection has been the current one ever since. */
  predicate NeverReplaced(h: Handle, before: seq<Step>, op: Op, reply: bool, between: seq<Step>, after: seq<Step>)
    requires Run(before).adapter.connection.Some?
  {
    Stays(Run(before + [Open(BeginSubscribe(op, reply))]), between + [Open(Insert(op, h))] + after,
          Run(before).adapter.connection.value)
  }

  lemma OpenRegisters(s: Server, step: OpenStep)
    ensures var s' := ApplyOpen(s, step);
            && s.log.known <= s'.log.known
            && s'.log.chanOf == if step.Insert? && CanInsert(s, step.op, step.h)
                                then s.log.chanOf[step.h := s.ops[step.op].ch] else s.log.chanOf
  {
  }

  lemma CloseRegistersNothing(s: Server, step: CloseStep)
    ensures s.log.known <= ApplyClose(s, step).log.known && ApplyClose(s, step).log.chanOf == s.log.chanOf
  {
  }

  lemma TeardownRegistersNothing(s: Server, step: TeardownStep)
    ensures s.log.known <= ApplyTeardown(s, step).log.known && ApplyTeardown(s, step).log.chanOf == s.log.chanOf
  {
  }

  lemma DeliveryRegistersNothing(s: Server, step: DeliveryStep)
    ensures s.log.known <= ApplyDelivery(s, step).log.known && ApplyDelivery(s, step).log.chanOf == s.log.chanOf
  {
  }

  lemma ChanOfStays(s: Server, step: Step, h: Handle)
    requires h in s.log.chanOf && h in s.log.known
    ensures var s' := Apply(s, step); h in s'.log.chanOf && h in s'.log.known && s'.log.chanOf[h] == s.log.chanOf[h]
  {
    match step
    case Open(o) => OpenRegisters(s, o);
    case Close(c) => CloseRegistersNothing(s, c);
    case Teardown(t) => TeardownRegistersNothing(s, t);
    case Deliveries(d) => DeliveryRegistersNothing(s, d);
  }

  lemma {:induction false} ChanOfStaysOn(s: Server, steps: seq<Step>, h: Handle)
    requires h in s.log.chanOf && h in s.log.known
    ensures var s' := Continue(s, steps); h in s'.log.chanOf && h in s'.log.known && s'.log.chanOf[h] == s.log.chanOf[h]
  {
    if steps != [] {
      ChanOfStaysOn(s, Init(steps), h);
      ChanOfStays(Continue(s, Init(steps)), Last(steps), h);
    }
  }

  /** What an insertion registers was made on the connection captured for it. */
  lemma {:induction false} InsertsCaptured(steps: seq<Step>, op: Op, before: seq<Step>, reply: bool, between: seq<Step>, h: Handle)
    requires Captured(steps, op, before, reply, between) && CanInsert(Run(steps), op, h)
    ensures var s := Run(steps + [Open(Insert(op, h))]);
            && Numbered(s) && h in s.log.chanOf && h in s.log.known
            && s.log.chanOf[h] in s.broker.home && s.broker.home[s.log.chanOf[h]] == Run(before).adapter.connection.value
  {
    var start, conn := before + [Open(BeginSubscribe(op, reply))], Run(before).adapter.connection.value;
    assert Init(start) == before && Last(start) == Open(BeginSubscribe(op, reply));
    RunKeepsNumbered(before);
    RunContinues(start, between);
    CarriesOn(Run(start), between, op, conn);
    var all := steps + [Open(Insert(op, h))];
    assert Init(all) == steps && Last(all) == Open(Insert(op, h));
  }

  /** And stays registered so. */
  lemma {:induction false} StaysWhereInserted(steps: seq<Step>, h: Handle, before: seq<Step>, op: Op, reply: bool,
                                              between: seq<Step>, after: seq<Step>)
    requires Inserted(steps, h, before, op, reply, between, after)
    ensures var s := Run(steps);
            && h in s.log.chanOf && s.log.chanOf[h] in s.broker.home
            && s.broker.home[s.log.chanOf[h]] == Run(before).adapter.connection.value
            && (h in s.adapter.channels ==> s.adapter.channels[h] == s.log.chanOf[h])
  {
    var captured := before + [Open(BeginSubscribe(op, reply))] + between;
    var inserted := captured + [Open(Insert(op, h))];
    InsertsCaptured(captured, op, before, reply, between, h);
    RunContinues(inserted, after);
    HomeStays(Run(inserted), after, Run(inserted).log.chanOf[h]);
    ChanOfStaysOn(Run(inserted), after, h);
    RunKeepsChannels(steps);
  }

  /** In every run, with overlaps or without, at any time after a subscribe inserted its channel: the channel was made
      on the connection captured, and that is the current one exactly if it never changed since the capture, before
      the insertion or after. */
  lemma {:induction false} CurrentExactlyWhen(steps: seq<Step>, h: Handle, before: seq<Step>, op: Op, reply: bool,
                                              between: seq<Step>, after: seq<Step>)
    requires Inserted(steps, h, before, op, reply, between, after)
    ensures var s := Run(steps);
            && h in s.log.chanOf && s.log.chanOf[h] in s.broker.home
            && (h in s.adapter.channels ==> s.adapter.channels[h] == s.log.chanOf[h])
            && (s.adapter.connection == Some(s.broker.home[s.log.chanOf[h]])
                <==> NeverReplaced(h, before, op, reply, between, after))
  {
    StaysWhereInserted(steps, h, before, op, reply, between, after);
    var start, since := before + [Open(BeginSubscribe(op, reply))], between + [Open(Insert(op, h))] + after;
    assert Init(start) == before && Last(start) == Open(BeginSubscribe(op, reply));
    RunKeepsNumbered(before);
    RunContinues(start, since);
    assert start + since == steps;
    GoneForGood(Run(start), since, Run(before).adapter.connection.value);
  }

  /** At the insertion itself: exactly if the connection never changed between capture and insertion. */
  lemma {:induction false} InsertedIsCurrentExactlyWhen(before: seq<Step>, op: Op, reply: bool, between: seq<Step>, h: Handle)
    requires var captured := before + [Open(BeginSubscribe(op, reply))] + between;
             Captured(captured, op, before, reply, between) && CanInsert(Run(captured), op, h)
    ensures var start := before + [Open(BeginSubscribe(op, reply))];
            var s := Run(start + between + [Open(Insert(op, h))]);
            && h in s.adapter.channels && s.adapter.channels[h] in s.broker.home
            && (s.adapter.connection == Some(s.broker.home[s.adapter.channels[h]])
                <==> Stays(Run(start), between, Run(before).adapter.connection.value))
  {
    var start, insert := before + [Open(BeginSubscribe(op, reply))], Open(Insert(op, h));
    InsertsCaptured(start + between, op, before, reply, between, h);
    RunKeepsNumbered(before);
    assert Init(start) == before && Last(start) == Open(BeginSubscribe(op, reply));
    RunContinues(start, between);
    GoneForGood(Run(start), between, Run(before).adapter.connection.value);
    var all := start + between + [insert];
    assert Init(all) == start + between && Last(all) == insert;
  }

  // ---- every channel in the map was inserted like that ----

  lemma StartsAttaching(s: Server, step: Step, op: Op)
    requires op in Apply(s, step).ops && IsAttaching(Apply(s, step).ops[op])
    ensures || (op in s.ops && IsAttaching(s.ops[op]))
            || (op !in s.ops && s.adapter.connection.Some? && step.Open? && step.o.BeginSubscribe? && step.o.op == op)
  {
  }

  lemma {:induction false} AttachingWasCaptured(steps: seq<Step>, op: Op)
    requires op in Run(steps).ops && IsAttaching(Run(steps).ops[op])
    ensures exists before, reply, between :: Captured(steps, op, before, reply, between)
  {
    if steps != [] {
      var earlier, step := Init(steps), Last(steps);
      assert steps == earlier + [step];
      StartsAttaching(Run(earlier), step, op);
      if op in Run(earlier).ops && IsAttaching(Run(earlier).ops[op]) {
        AttachingWasCaptured(earlier, op);
        var before, reply, between :| Captured(earlier, op, before, reply, between);
        var start := before + [Open(BeginSubscribe(op, reply))];
        RunContinues(start, between + [step]);
        assert Init(between + [step]) == between && start + (between + [step]) == steps;
        assert Captured(steps, op, before, reply, between + [step]);
      } else {
        assert steps == earlier + [Open(BeginSubscribe(op, step.o.reply))] + [];
        assert Captured(steps, op, earlier, step.o.reply, []);
      }
    }
  }

  lemma RegistersByInsert(s: Server, step: Step, h: Handle)
    requires h in Apply(s, step).log.chanOf && h !in s.log.chanOf
    ensures step.Open? && step.o.Insert? && step.o.h == h && CanInsert(s, step.o.op, h)
  {
    match step
    case Open(o) => OpenRegisters(s, o);
    case Close(c) => CloseRegistersNothing(s, c);
    case Teardown(t) => TeardownRegistersNothing(s, t);
    case Deliveries(d) => DeliveryRegistersNothing(s, d);
  }

  lemma InsertedExtends(steps: seq<Step>, step: Step, h: Handle, before: seq<Step>, op: Op, reply: bool,
                        between: seq<Step>, after: seq<Step>)
    requires Inserted(steps, h, before, op, reply, between, after)
    ensures Inserted(steps + [step], h, before, op, reply, between, after + [step])
  {
  }

  lemma InsertedNow(steps: seq<Step>, h: Handle, before: seq<Step>, op: Op, reply: bool, between: seq<Step>)
    requires Captured(steps, op, before, reply, between) && CanInsert(Run(steps), op, h)
    ensures Inserted(steps + [Open(Insert(op, h))], h, before, op, reply, between, [])
  {
  }

  lemma {:induction false} EveryChannelWasInserted(steps: seq<Step>, h: Handle)
    requires h in Run(steps).log.chanOf
    ensures exists before, op, reply, between, after :: Inserted(steps, h, before, op, reply, between, after)
  {
    if steps != [] {
      var earlier, step := Init(steps), Last(steps);
      if h in Run(earlier).log.chanOf {
        EveryChannelWasInserted(earlier, h);
        var before, op, reply, between, after :| Inserted(earlier, h, before, op, reply, between, after);
        InsertedExtends(earlier, step, h, before, op, reply, between, after);
        assert steps == earlier + [step];
      } else {
        RegistersByInsert(Run(earlier), step, h);
        AttachingWasCaptured(earlier, step.o.op);
        var before, reply, between :| Captured(earlier, step.o.op, before, reply, between);
        assert steps == earlier + [step];
        InsertedNow(earlier, h, before, step.o.op, reply, between);
      }
    }
  }

  /** So in every reachable state, every channel in the map was inserted by some subscribe, and it is the current
      connection's exactly if the connection never changed since that subscribe captured it. */
  lemma {:induction false} MappedIsCurrentExactlyWhen(steps: seq<Step>, h: Handle)
    requires h in Run(steps).adapter.channels
    ensures var s, ch := Run(steps), Run(steps).adapter.channels[h];
            && ch in s.broker.home
            && exists before, op, reply, between, after ::
                 && Inserted(steps, h, before, op, reply, between, after)
                 && (s.adapter.connection == Some(s.broker.home[ch]) <==> NeverReplaced(h, before, op, reply, between, after))
  {
    RunKeepsChannels(steps);
    EveryChannelWasInserted(steps, h);
    var before, op, reply, between, after :| Inserted(steps, h, before, op, reply, between, after);
    CurrentExactlyWhen(steps, h, before, op, reply, between, after);
  }
}
