/** Which registered handles have no channel, in every interleaving, and who took the channel. */
module ProtocolRegistry {
  import opened Basics
  import opened Domain
  import opened Protocol
  import opened ProtocolHandles
  import opened ProtocolChannels

  /** An unsubscribe that took the handle is closing its channel, or about to unregister it, or its close threw,
      or it has unregistered the handle. */
  predicate Accountable(s: Server, h: Handle, op: Op)
    requires h in s.log.chanOf
  {
    || StillCloses(s, op, h, s.log.chanOf[h])
    || (op in s.ops && s.ops[op] == Unregistering(h))
    || s.log.chanOf[h] in s.log.failed
    || Unregistered(h) in s.log.events
  }

  predicate TakersAccountable(s: Server) {
    forall h :: h in s.log.takers && h in s.log.chanOf && |s.log.takers[h]| == 1 && s.log.takers[h][0].Unsubscriber? ==>
      Accountable(s, h, s.log.takers[h][0].op)
  }

  ghost predicate RegistryInv(s: Server) {
    && s.coordinator.registry.Keys <= s.log.chanOf.Keys
    && TakersAccountable(s)
    && (forall h :: Unregistered(h) in s.log.events ==> h in s.log.known && h !in s.adapter.channels)
  }

  /** A step that leaves takers, failures, unregistrations and every unsubscribe alone. */
  ghost predicate Aside(s: Server, s': Server, op: Op) {
    && SameElsewhere(s.ops, s'.ops, op)
    && (op in s.ops ==> !s.ops[op].Closing? && !s.ops[op].Unregistering?)
    && s'.coordinator.registry.Keys <= s.coordinator.registry.Keys
    && s'.log.chanOf == s.log.chanOf && s'.log.takers == s.log.takers && s'.log.failed == s.log.failed
    && (forall h :: Unregistered(h) in s'.log.events <==> Unregistered(h) in s.log.events)
    && s.log.known <= s'.log.known && s'.adapter.channels.Keys <= s.adapter.channels.Keys
  }

  lemma AsideKeepsRegistry(s: Server, s': Server, op: Op)
    requires RegistryInv(s) && Aside(s, s', op)
    ensures RegistryInv(s')
  {
    forall h | h in s'.log.takers && h in s'.log.chanOf && |s'.log.takers[h]| == 1 && s'.log.takers[h][0].Unsubscriber?
      ensures Accountable(s', h, s'.log.takers[h][0].op)
    {
      assert Accountable(s, h, s.log.takers[h][0].op);
    }
  }

  lemma InsertKeepsRegistry(s: Server, op: Op, h: Handle)
    requires RegistryInv(s) && Structure(s)
    requires op in s.ops && s.ops[op].Inserting? && h !in s.log.known
    ensures RegistryInv(DoInsert(s, op, h))
  {
    var s' := DoInsert(s, op, h);
    forall i | i in s'.log.takers && |s'.log.takers[i]| == 1 && s'.log.takers[i][0].Unsubscriber?
      ensures Accountable(s', i, s'.log.takers[i][0].op)
    {
      assert Accountable(s, i, s.log.takers[i][0].op);
    }
  }

  lemma RegisterKeepsRegistry(s: Server, op: Op)
    requires RegistryInv(s) && HandlesInv(s)
    requires op in s.ops && s.ops[op].Assigned?
    ensures RegistryInv(DoRegister(s, op))
  {
    var s' := DoRegister(s, op);
    forall i | i in s'.log.takers && i in s'.log.chanOf && |s'.log.takers[i]| == 1 && s'.log.takers[i][0].Unsubscriber?
      ensures Accountable(s', i, s'.log.takers[i][0].op)
    {
      assert Accountable(s, i, s.log.takers[i][0].op);
    }
  }

  lemma OpenIsAside(s: Server, step: OpenStep)
    requires ApplyOpen(s, step) != s && !step.Insert? && !step.RegisterHandle?
    ensures Aside(s, ApplyOpen(s, step), step.op)
  {
  }

  lemma OpenKeepsRegistry(s: Server, step: OpenStep)
    requires RegistryInv(s) && HandlesInv(s) && Structure(s)
    ensures RegistryInv(ApplyOpen(s, step))
  {
    if ApplyOpen(s, step) != s {
      match step
      case Insert(op, h) => InsertKeepsRegistry(s, op, h);
      case RegisterHandle(op) => RegisterKeepsRegistry(s, op);
      case _ =>
        OpenIsAside(s, step);
        AsideKeepsRegistry(s, ApplyOpen(s, step), step.op);
    }
  }

  lemma RemoveKeepsRegistry(s: Server, op: Op)
    requires RegistryInv(s) && Structure(s)
    requires op in s.ops && s.ops[op].Removing? && s.ops[op].h in s.adapter.channels
    ensures RegistryInv(DoRemove(s, op))
  {
    var s' := DoRemove(s, op);
    forall i | i in s'.log.takers && i in s'.log.chanOf && |s'.log.takers[i]| == 1 && s'.log.takers[i][0].Unsubscriber?
      ensures Accountable(s', i, s'.log.takers[i][0].op)
    {
      if i != s.ops[op].h {
        assert Accountable(s, i, s.log.takers[i][0].op);
      }
    }
  }

  lemma CloseDoneKeepsRegistry(s: Server, op: Op)
    requires RegistryInv(s) && Structure(s)
    requires op in s.ops && s.ops[op].Closing?
    ensures RegistryInv(CloseDone(s, op)) && RegistryInv(DoFailClose(s, op))
  {
    var s', s2 := CloseDone(s, op), DoFailClose(s, op);
    forall i | i in s.log.takers && i in s.log.chanOf && |s.log.takers[i]| == 1 && s.log.takers[i][0].Unsubscriber?
      ensures Accountable(s', i, s.log.takers[i][0].op) && Accountable(s2, i, s.log.takers[i][0].op)
    {
      assert Accountable(s, i, s.log.takers[i][0].op);
    }
  }

  lemma UnregisterKeepsRegistry(s: Server, op: Op)
    requires RegistryInv(s) && HandlesInv(s)
    requires op in s.ops && s.ops[op].Unregistering?
    ensures RegistryInv(DoUnregister(s, op))
  {
    var s' := DoUnregister(s, op);
    forall i | i in s'.log.takers && i in s'.log.chanOf && |s'.log.takers[i]| == 1 && s'.log.takers[i][0].Unsubscriber?
      ensures Accountable(s', i, s'.log.takers[i][0].op)
    {
      assert Accountable(s, i, s.log.takers[i][0].op);
    }
  }

  lemma CloseKeepsRegistry(s: Server, step: CloseStep)
    requires RegistryInv(s) && HandlesInv(s) && Structure(s)
    ensures RegistryInv(ApplyClose(s, step))
  {
    if ApplyClose(s, step) != s {
      match step
      case CloseChannel(op) => CloseDoneKeepsRegistry(s, op);
      case CloseThrows(op) => CloseDoneKeepsRegistry(s, op);
      case UnregisterHandle(op) => UnregisterKeepsRegistry(s, op);
      case Remove(op) =>
        if s.ops[op].h in s.adapter.channels {
          RemoveKeepsRegistry(s, op);
        } else {
          AsideKeepsRegistry(s, ApplyClose(s, step), op);
        }
      case BeginUnsubscribe(op, h) => AsideKeepsRegistry(s, ApplyClose(s, step), op);
    }
  }

  lemma ClearKeepsRegistry(s: Server, op: Op)
    requires RegistryInv(s) && Structure(s)
    requires op in s.ops && s.ops[op].Clearing? && s.ops[op].rest == {}
    ensures RegistryInv(DoClear(s, op))
  {
    var s' := DoClear(s, op);
    forall i | i in s'.log.takers && i in s'.log.chanOf && |s'.log.takers[i]| == 1 && s'.log.takers[i][0].Unsubscriber?
      ensures Accountable(s', i, s'.log.takers[i][0].op)
    {
      ClearTakes(s, op, i);
      assert i in s.log.takers && s.log.takers[i] == s'.log.takers[i];
      assert Accountable(s, i, s.log.takers[i][0].op);
    }
  }

  lemma TeardownIsAside(s: Server, step: TeardownStep)
    requires ApplyTeardown(s, step) != s && !step.Clear? && !step.ChannelDrops?
    ensures Aside(s, ApplyTeardown(s, step), step.op)
  {
  }

  lemma DropKeepsRegistry(s: Server, ch: Chan)
    requires RegistryInv(s)
    ensures RegistryInv(ApplyTeardown(s, ChannelDrops(ch)))
  {
    var s' := ApplyTeardown(s, ChannelDrops(ch));
    forall h | h in s.log.takers && h in s.log.chanOf && |s.log.takers[h]| == 1 && s.log.takers[h][0].Unsubscriber?
      ensures Accountable(s', h, s.log.takers[h][0].op)
    {
      assert Accountable(s, h, s.log.takers[h][0].op);
    }
  }

  lemma TeardownKeepsRegistry(s: Server, step: TeardownStep)
    requires RegistryInv(s) && Structure(s)
    ensures RegistryInv(ApplyTeardown(s, step))
  {
    if ApplyTeardown(s, step) != s {
      match step
      case Clear(op) => ClearKeepsRegistry(s, op);
      case ChannelDrops(ch) => DropKeepsRegistry(s, ch);
      case _ =>
        TeardownIsAside(s, step);
        AsideKeepsRegistry(s, ApplyTeardown(s, step), step.op);
    }
  }

  lemma DeliveryKeepsRegistry(s: Server, step: DeliveryStep)
    requires RegistryInv(s)
    ensures RegistryInv(ApplyDelivery(s, step))
  {
    var s' := ApplyDelivery(s, step);
    forall h | h in s.log.takers && h in s.log.chanOf && |s.log.takers[h]| == 1 && s.log.takers[h][0].Unsubscriber?
      ensures Accountable(s', h, s.log.takers[h][0].op)
    {
      assert Accountable(s, h, s.log.takers[h][0].op);
    }
  }

  lemma {:induction false} RunKeepsRegistry(steps: seq<Step>)
    ensures RegistryInv(Run(steps))
  {
    if steps != [] {
      var s := Run(Init(steps));
      RunKeepsRegistry(Init(steps));
      RunKeepsHandles(Init(steps));
      RunKeepsChannels(Init(steps));
      match Last(steps)
      case Open(o) => OpenKeepsRegistry(s, o);
      case Close(c) => CloseKeepsRegistry(s, c);
      case Teardown(t) => TeardownKeepsRegistry(s, t);
      case Deliveries(d) => DeliveryKeepsRegistry(s, d);
    }
  }

  /** A registered handle has no channel exactly if one teardown took it, or one unsubscribe that is not through
      with it, or could not close it, or unregistered it before the subscribe registered it. */
  lemma {:induction false} RegisteredWithoutChannel(steps: seq<Step>, h: Handle)
    requires h in Run(steps).coordinator.registry
    ensures var s := Run(steps);
            && h in s.log.chanOf
            && (h !in s.adapter.channels <==> |Takers(s, h)| == 1)
            && (h !in s.adapter.channels <==>
                  || (exists op :: Takers(s, h) == [Cleaner(op)])
                  || (exists op :: Takers(s, h) == [Unsubscriber(op)] && Accountable(s, h, op)))
  {
    RunKeepsRegistry(steps);
    RunKeepsChannels(steps);
    var s := Run(steps);
    assert Accounted(s, h);
    if h !in s.adapter.channels {
      var t := Takers(s, h)[0];
      assert Takers(s, h) == [t] == s.log.takers[h];
      if t.Unsubscriber? {
        assert Accountable(s, h, t.op) && Takers(s, h) == [Unsubscriber(t.op)];
      } else {
        assert Takers(s, h) == [Cleaner(t.op)];
      }
    }
  }

  /** With nothing in flight: exactly if a teardown took it, its close threw, or it was unregistered too early. */
  lemma {:induction false} QuiescentWithoutChannel(steps: seq<Step>, h: Handle)
    requires Run(steps).ops == map[] && h in Run(steps).coordinator.registry
    ensures var s := Run(steps);
            && h in s.log.chanOf
            && (h !in s.adapter.channels <==>
                  || (exists op :: Takers(s, h) == [Cleaner(op)])
                  || s.log.chanOf[h] in s.log.failed
                  || Unregistered(h) in s.log.events)
  {
    RegisteredWithoutChannel(steps, h);
    RunKeepsRegistry(steps);
    RunKeepsChannels(steps);
  }
}
