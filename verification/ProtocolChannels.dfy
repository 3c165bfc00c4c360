/** Who closes a subscription channel, under every interleaving of unsubscribes, teardowns and reconnects
    at the granularity of the lock. */
module ProtocolChannels {
  import opened Basics
  import opened Domain
  import opened Protocol

  /** Each channel is registered once, under one handle. */
  predicate Paired(chanOf: map<Handle, Chan>, handleOf: map<Chan, Handle>, nextChan: Chan) {
    && (forall h :: h in chanOf ==> chanOf[h] in handleOf && handleOf[chanOf[h]] == h)
    && (forall ch :: ch in handleOf ==> ch < nextChan && handleOf[ch] in chanOf && chanOf[handleOf[ch]] == ch)
  }

  predicate IsBuilding(p: Phase) { p.Wiring? || p.Inserting? }

  predicate OpsHold(ops: map<Op, Phase>, t: Log, channels: map<Handle, Chan>, nextChan: Chan) {
    && (forall op :: op in ops && IsBuilding(ops[op]) ==> ops[op].ch < nextChan && ops[op].ch !in t.handleOf)
    && (forall op :: op in ops && IsBuilding(ops[op]) ==> ops[op].ch in t.maker && t.maker[ops[op].ch] == op)
    && (forall op :: op in ops && ops[op].Returned? ==>
          ops[op].h in t.chanOf && t.chanOf[ops[op].h] == ops[op].ch)
    && (forall op :: op in ops && ops[op].Closing? ==>
          && ops[op].h in t.chanOf && t.chanOf[ops[op].h] == ops[op].ch
          && ops[op].h !in channels
          && ops[op].h in t.takers && t.takers[ops[op].h] == [Unsubscriber(op)]
          && ops[op].ch !in t.failed)
  }

  predicate Locked(s: Server) {
    && (s.adapter.lockedBy.Some? ==>
          var op := s.adapter.lockedBy.value;
          op in s.ops && s.ops[op].Clearing? && s.ops[op].rest <= s.adapter.channels.Keys)
    && (forall op :: op in s.ops && s.ops[op].Clearing? ==> s.adapter.lockedBy == Some(op))
  }

  predicate Structure(s: Server) {
    && Paired(s.log.chanOf, s.log.handleOf, s.broker.nextChan)
    && s.log.chanOf.Keys <= s.log.known
    && OpsHold(s.ops, s.log, s.adapter.channels, s.broker.nextChan)
    && Locked(s)
    && (forall h :: h in s.adapter.channels ==>
          && h in s.log.chanOf && s.log.chanOf[h] == s.adapter.channels[h]
          && s.adapter.channels[h] !in s.log.failed)
    && s.log.failed <= s.log.handleOf.Keys && s.log.aborts.Keys <= s.log.handleOf.Keys
    && (forall h :: h in s.log.takers ==> h in s.log.chanOf)
  }

  /** The operation awaits the close of that channel. */
  predicate StillCloses(s: Server, op: Op, h: Handle, ch: Chan) {
    op in s.ops && s.ops[op] == Closing(h, ch)
  }

  /** The last release of a registered channel: by the teardown holding the lock that has reached it, or by
      the one operation that took it out, unless that one still awaits its close or its close threw. */
  function Due(s: Server, h: Handle): seq<Op>
    requires h in s.log.chanOf
  {
    if h in s.adapter.channels then
      match s.adapter.lockedBy
      case None => []
      case Some(op) => if op in s.ops && s.ops[op].Clearing? && h !in s.ops[op].rest then [op] else []
    else
      var ts, ch := Takers(s, h), s.log.chanOf[h];
      if ts == [] || ch in s.log.failed || StillCloses(s, ts[0].op, h, ch) then [] else [ts[0].op]
  }

  /** A registered channel is in the map or was taken out once; it has been released by every teardown that
      reached it and then failed at another channel, in order, and then as is due. */
  predicate Accounted(s: Server, h: Handle)
    requires h in s.log.chanOf
  {
    && |Takers(s, h)| == (if h in s.adapter.channels then 0 else 1)
    && Releases(s, s.log.chanOf[h]) == Aborts(s, s.log.chanOf[h]) + Due(s, h)
  }

  predicate ReleasedAreClosed(s: Server) {
    forall ch :: ch in s.log.releases ==> ch in s.log.handleOf && ch !in s.broker.open
  }

  predicate ChannelsInv(s: Server) {
    && Structure(s)
    && ReleasedAreClosed(s)
    && (forall h :: h in s.log.chanOf ==> Accounted(s, h))
  }

  predicate Plain(p: Phase) {
    !IsBuilding(p) && !p.Returned? && !p.Closing? && !p.Clearing?
  }

  /** A step that touches neither the map, nor the lock, nor a channel being closed. */
  ghost predicate Passive(s: Server, s': Server, op: Op) {
    && SameElsewhere(s.ops, s'.ops, op)
    && (op in s.ops ==> !s.ops[op].Closing? && !s.ops[op].Clearing?)
    && (op in s'.ops ==> Plain(s'.ops[op]))
    && s'.adapter.channels == s.adapter.channels && s'.adapter.lockedBy == s.adapter.lockedBy
    && s.broker.nextChan <= s'.broker.nextChan && s'.broker.open <= s.broker.open
    && s'.log.chanOf == s.log.chanOf && s'.log.handleOf == s.log.handleOf
    && s'.log.maker == s.log.maker
    && s'.log.takers == s.log.takers && s'.log.releases == s.log.releases
    && s'.log.aborts == s.log.aborts && s'.log.failed == s.log.failed && s.log.known <= s'.log.known
  }

  lemma PassiveKeepsStructure(s: Server, s': Server, op: Op)
    requires Structure(s)
    requires Passive(s, s', op)
    ensures Structure(s')
  {
  }

  /** What no account depends on may change. */
  ghost predicate SameAccounts(s: Server, s': Server, op: Op) {
    && SameElsewhere(s.ops, s'.ops, op)
    && (op in s.ops ==> !s.ops[op].Closing? && !s.ops[op].Clearing?)
    && (op in s'.ops ==> !s'.ops[op].Closing? && !s'.ops[op].Clearing?)
    && s'.adapter.channels == s.adapter.channels && s'.adapter.lockedBy == s.adapter.lockedBy
    && s'.log.chanOf == s.log.chanOf && s'.log.takers == s.log.takers && s'.log.releases == s.log.releases
    && s'.log.aborts == s.log.aborts && s'.log.failed == s.log.failed
  }

  lemma StillAccounted(s: Server, s': Server, op: Op, i: Handle)
    requires i in s.log.chanOf && Accounted(s, i) && SameAccounts(s, s', op)
    ensures Accounted(s', i)
  {
    assert Due(s', i) == Due(s, i);
  }

  lemma PassiveKeepsChannels(s: Server, s': Server, op: Op)
    requires ChannelsInv(s)
    requires Passive(s, s', op)
    ensures ChannelsInv(s')
  {
    PassiveKeepsStructure(s, s', op);
    forall i | i in s'.log.chanOf ensures Accounted(s', i) {
      StillAccounted(s, s', op, i);
    }
  }

  lemma CreateKeepsStructure(s: Server, op: Op)
    requires Structure(s)
    requires op in s.ops && s.ops[op].Opening?
    ensures Structure(DoCreate(s, op))
  {
  }

  lemma CreateKeepsAccounts(s: Server, op: Op)
    requires op in s.ops && s.ops[op].Opening?
    ensures SameAccounts(s, DoCreate(s, op), op)
  {
  }

  lemma CreateKeepsChannels(s: Server, op: Op)
    requires ChannelsInv(s)
    requires op in s.ops && s.ops[op].Opening?
    ensures ChannelsInv(DoCreate(s, op))
  {
    CreateKeepsStructure(s, op);
    CreateKeepsAccounts(s, op);
    forall i | i in DoCreate(s, op).log.chanOf ensures Accounted(DoCreate(s, op), i) {
      StillAccounted(s, DoCreate(s, op), op, i);
    }
  }

  lemma StartKeepsStructure(s: Server, op: Op)
    requires Structure(s)
    requires op in s.ops && s.ops[op].Wiring?
    ensures Structure(DoStart(s, op))
  {
  }

  lemma StartKeepsAccounts(s: Server, op: Op)
    requires op in s.ops && s.ops[op].Wiring?
    ensures SameAccounts(s, DoStart(s, op), op)
  {
  }

  lemma StartKeepsChannels(s: Server, op: Op)
    requires ChannelsInv(s)
    requires op in s.ops && s.ops[op].Wiring?
    ensures ChannelsInv(DoStart(s, op))
  {
    StartKeepsStructure(s, op);
    StartKeepsAccounts(s, op);
    forall i | i in DoStart(s, op).log.chanOf ensures Accounted(DoStart(s, op), i) {
      StillAccounted(s, DoStart(s, op), op, i);
    }
  }

  lemma PairedExtends(chanOf: map<Handle, Chan>, handleOf: map<Chan, Handle>, nextChan: Chan, h: Handle, ch: Chan)
    requires Paired(chanOf, handleOf, nextChan) && h !in chanOf && ch !in handleOf && ch < nextChan
    ensures Paired(chanOf[h := ch], handleOf[ch := h], nextChan)
  {
  }

  lemma InsertKeepsOps(s: Server, op: Op, h: Handle)
    requires Structure(s)
    requires op in s.ops && s.ops[op].Inserting? && h !in s.log.known
    ensures var s' := DoInsert(s, op, h);
            OpsHold(s'.ops, s'.log, s'.adapter.channels, s'.broker.nextChan)
  {
  }

  lemma InsertKeepsStructure(s: Server, op: Op, h: Handle)
    requires Structure(s)
    requires op in s.ops && s.ops[op].Inserting?
    requires s.adapter.lockedBy.None? && h !in s.log.known
    ensures Structure(DoInsert(s, op, h))
  {
    InsertKeepsOps(s, op, h);
    PairedExtends(s.log.chanOf, s.log.handleOf, s.broker.nextChan, h, s.ops[op].ch);
  }

  lemma InsertAccounts(s: Server, op: Op, h: Handle, i: Handle)
    requires Structure(s) && ReleasedAreClosed(s) && (i in s.log.chanOf ==> Accounted(s, i))
    requires op in s.ops && s.ops[op].Inserting?
    requires s.adapter.lockedBy.None? && h !in s.log.known
    requires i in DoInsert(s, op, h).log.chanOf
    ensures Accounted(DoInsert(s, op, h), i)
  {
  }

  lemma InsertKeepsChannels(s: Server, op: Op, h: Handle)
    requires ChannelsInv(s)
    requires op in s.ops && s.ops[op].Inserting?
    requires s.adapter.lockedBy.None? && h !in s.log.known
    ensures ChannelsInv(DoInsert(s, op, h))
  {
    InsertKeepsStructure(s, op, h);
    forall i | i in DoInsert(s, op, h).log.chanOf ensures Accounted(DoInsert(s, op, h), i) {
      InsertAccounts(s, op, h, i);
    }
  }

  lemma RemoveKeepsStructure(s: Server, op: Op)
    requires Structure(s)
    requires op in s.ops && s.ops[op].Removing?
    requires s.adapter.lockedBy.None? && s.ops[op].h in s.adapter.channels
    requires Takers(s, s.ops[op].h) == []
    ensures Structure(DoRemove(s, op))
  {
  }

  lemma RemoveAccounts(s: Server, op: Op, i: Handle)
    requires Structure(s) && ReleasedAreClosed(s) && (i in s.log.chanOf ==> Accounted(s, i))
    requires op in s.ops && s.ops[op].Removing?
    requires s.adapter.lockedBy.None? && s.ops[op].h in s.adapter.channels
    requires i in DoRemove(s, op).log.chanOf
    ensures Accounted(DoRemove(s, op), i)
  {
  }

  lemma RemoveKeepsChannels(s: Server, op: Op)
    requires ChannelsInv(s)
    requires op in s.ops && s.ops[op].Removing?
    requires s.adapter.lockedBy.None? && s.ops[op].h in s.adapter.channels
    ensures ChannelsInv(DoRemove(s, op))
  {
    assert Accounted(s, s.ops[op].h);
    RemoveKeepsStructure(s, op);
    forall i | i in DoRemove(s, op).log.chanOf ensures Accounted(DoRemove(s, op), i) {
      RemoveAccounts(s, op, i);
    }
  }

  function CloseDone(s: Server, op: Op): Server
    requires op in s.ops && s.ops[op].Closing?
  {
    SetOp(Release(s, s.ops[op].ch, op), op, Unregistering(s.ops[op].h))
  }

  lemma CloseDoneKeepsStructure(s: Server, op: Op)
    requires Structure(s)
    requires op in s.ops && s.ops[op].Closing?
    ensures Structure(CloseDone(s, op))
  {
  }

  lemma CloseDoneAccountsOwn(s: Server, op: Op)
    requires op in s.ops && s.ops[op].Closing? && s.ops[op].h in s.log.chanOf && Accounted(s, s.ops[op].h)
    requires OpsHold(s.ops, s.log, s.adapter.channels, s.broker.nextChan)
    ensures Accounted(CloseDone(s, op), s.ops[op].h)
  {
    var h, s' := s.ops[op].h, CloseDone(s, op);
    assert Due(s, h) == [] && Due(s', h) == [op];
    assert Aborts(s, s.ops[op].ch) + [] == Aborts(s, s.ops[op].ch);
  }

  lemma CloseDoneAccountsOther(s: Server, op: Op, i: Handle)
    requires op in s.ops && s.ops[op].Closing? && i in s.log.chanOf && Accounted(s, i)
    requires i != s.ops[op].h && s.log.chanOf[i] != s.ops[op].ch
    ensures Accounted(CloseDone(s, op), i)
  {
    assert Due(CloseDone(s, op), i) == Due(s, i);
  }

  lemma CloseDoneAccounts(s: Server, op: Op, i: Handle)
    requires Structure(s) && i in s.log.chanOf && Accounted(s, i)
    requires op in s.ops && s.ops[op].Closing?
    ensures Accounted(CloseDone(s, op), i)
  {
    if i == s.ops[op].h {
      CloseDoneAccountsOwn(s, op);
    } else {
      CloseDoneAccountsOther(s, op, i);
    }
  }

  lemma CloseDoneKeepsChannels(s: Server, op: Op)
    requires ChannelsInv(s)
    requires op in s.ops && s.ops[op].Closing?
    ensures ChannelsInv(CloseDone(s, op))
  {
    CloseDoneKeepsStructure(s, op);
    forall i | i in CloseDone(s, op).log.chanOf ensures Accounted(CloseDone(s, op), i) {
      CloseDoneAccounts(s, op, i);
    }
  }

  lemma AcquireKeepsStructure(s: Server, op: Op)
    requires Structure(s)
    requires op in s.ops && s.ops[op].Waiting? && s.adapter.lockedBy.None?
    ensures Structure(DoAcquire(s, op))
  {
  }

  lemma AcquireAccounts(s: Server, op: Op, i: Handle)
    requires Structure(s) && ReleasedAreClosed(s) && (i in s.log.chanOf ==> Accounted(s, i))
    requires op in s.ops && s.ops[op].Waiting? && s.adapter.lockedBy.None?
    requires i in DoAcquire(s, op).log.chanOf
    ensures Accounted(DoAcquire(s, op), i)
  {
  }

  lemma AcquireKeepsChannels(s: Server, op: Op)
    requires ChannelsInv(s)
    requires op in s.ops && s.ops[op].Waiting? && s.adapter.lockedBy.None?
    ensures ChannelsInv(DoAcquire(s, op))
  {
    AcquireKeepsStructure(s, op);
    forall i | i in DoAcquire(s, op).log.chanOf ensures Accounted(DoAcquire(s, op), i) {
      AcquireAccounts(s, op, i);
    }
  }

  lemma CloseOneKeepsStructure(s: Server, op: Op, h: Handle)
    requires Structure(s)
    requires op in s.ops && s.ops[op].Clearing? && h in s.ops[op].rest && h in s.adapter.channels
    ensures Structure(DoCloseOne(s, op, h))
  {
  }

  lemma CloseOneAccounts(s: Server, op: Op, h: Handle, i: Handle)
    requires Structure(s) && ReleasedAreClosed(s) && (i in s.log.chanOf ==> Accounted(s, i))
    requires op in s.ops && s.ops[op].Clearing? && h in s.ops[op].rest && h in s.adapter.channels
    requires i in DoCloseOne(s, op, h).log.chanOf
    ensures Accounted(DoCloseOne(s, op, h), i)
  {
  }

  lemma CloseOneKeepsChannels(s: Server, op: Op, h: Handle)
    requires ChannelsInv(s)
    requires op in s.ops && s.ops[op].Clearing? && h in s.ops[op].rest && h in s.adapter.channels
    ensures ChannelsInv(DoCloseOne(s, op, h))
  {
    CloseOneKeepsStructure(s, op, h);
    forall i | i in DoCloseOne(s, op, h).log.chanOf ensures Accounted(DoCloseOne(s, op, h), i) {
      CloseOneAccounts(s, op, h, i);
    }
  }

  lemma ClearTakes(s: Server, op: Op, h: Handle)
    requires op in s.ops && s.ops[op].Clearing?
    ensures Takers(DoClear(s, op), h) == Takers(s, h) + if h in s.adapter.channels then [Cleaner(op)] else []
  {
  }

  lemma ClearKeepsStructure(s: Server, op: Op)
    requires Structure(s)
    requires op in s.ops && s.ops[op].Clearing? && s.ops[op].rest == {}
    ensures Structure(DoClear(s, op))
  {
  }

  lemma ClearAccounts(s: Server, op: Op, i: Handle)
    requires Structure(s) && ReleasedAreClosed(s) && (i in s.log.chanOf ==> Accounted(s, i))
    requires op in s.ops && s.ops[op].Clearing? && s.ops[op].rest == {}
    requires i in DoClear(s, op).log.chanOf
    ensures Accounted(DoClear(s, op), i)
  {
    ClearTakes(s, op, i);
  }

  lemma ClearKeepsChannels(s: Server, op: Op)
    requires ChannelsInv(s)
    requires op in s.ops && s.ops[op].Clearing? && s.ops[op].rest == {}
    ensures ChannelsInv(DoClear(s, op))
  {
    ClearKeepsStructure(s, op);
    forall i | i in DoClear(s, op).log.chanOf ensures Accounted(DoClear(s, op), i) {
      ClearAccounts(s, op, i);
    }
  }

  /** A channel was reached exactly if its handle was. */
  lemma AbortCounts(s: Server, op: Op, i: Handle)
    requires Paired(s.log.chanOf, s.log.handleOf, s.broker.nextChan) && i in s.log.chanOf
    requires forall h :: h in s.adapter.channels ==> h in s.log.chanOf && s.log.chanOf[h] == s.adapter.channels[h]
    requires op in s.ops && s.ops[op].Clearing?
    ensures Aborts(DoAbort(s, op), s.log.chanOf[i])
            == Aborts(s, s.log.chanOf[i]) + if i in s.adapter.channels && i !in s.ops[op].rest then [op] else []
  {
    var ch := s.log.chanOf[i];
    assert ch in Reached(s, op) <==> i in s.adapter.channels && i !in s.ops[op].rest;
  }

  lemma AbortKeepsStructure(s: Server, op: Op)
    requires Structure(s)
    requires op in s.ops && s.ops[op].Clearing?
    ensures Structure(DoAbort(s, op))
  {
  }

  lemma AbortDues(s: Server, op: Op, i: Handle)
    requires Structure(s) && i in s.log.chanOf
    requires op in s.ops && s.ops[op].Clearing?
    ensures i in s.adapter.channels ==>
              Due(s, i) == (if i !in s.ops[op].rest then [op] else []) && Due(DoAbort(s, op), i) == []
    ensures i !in s.adapter.channels ==> Due(DoAbort(s, op), i) == Due(s, i)
  {
    assert Takers(DoAbort(s, op), i) == Takers(s, i);
  }

  lemma AbortAccounts(s: Server, op: Op, i: Handle)
    requires Structure(s) && ReleasedAreClosed(s) && (i in s.log.chanOf ==> Accounted(s, i))
    requires op in s.ops && s.ops[op].Clearing?
    requires i in DoAbort(s, op).log.chanOf
    ensures Accounted(DoAbort(s, op), i)
  {
    AbortCounts(s, op, i);
    AbortDues(s, op, i);
    var before := Aborts(s, s.log.chanOf[i]);
    assert before + [] == before && Releases(DoAbort(s, op), s.log.chanOf[i]) == Releases(s, s.log.chanOf[i]);
  }

  lemma AbortKeepsChannels(s: Server, op: Op)
    requires ChannelsInv(s)
    requires op in s.ops && s.ops[op].Clearing?
    ensures ChannelsInv(DoAbort(s, op))
  {
    AbortKeepsStructure(s, op);
    forall i | i in DoAbort(s, op).log.chanOf ensures Accounted(DoAbort(s, op), i) {
      AbortAccounts(s, op, i);
    }
  }

  lemma FailCloseKeepsStructure(s: Server, op: Op)
    requires Structure(s)
    requires op in s.ops && s.ops[op].Closing?
    ensures Structure(DoFailClose(s, op))
  {
  }

  lemma FailCloseAccounts(s: Server, op: Op, i: Handle)
    requires Structure(s) && ReleasedAreClosed(s) && (i in s.log.chanOf ==> Accounted(s, i))
    requires op in s.ops && s.ops[op].Closing?
    requires i in DoFailClose(s, op).log.chanOf
    ensures Accounted(DoFailClose(s, op), i)
  {
    assert Takers(DoFailClose(s, op), i) == Takers(s, i);
  }

  lemma FailCloseKeepsChannels(s: Server, op: Op)
    requires ChannelsInv(s)
    requires op in s.ops && s.ops[op].Closing?
    ensures ChannelsInv(DoFailClose(s, op))
  {
    FailCloseKeepsStructure(s, op);
    forall i | i in DoFailClose(s, op).log.chanOf ensures Accounted(DoFailClose(s, op), i) {
      FailCloseAccounts(s, op, i);
    }
  }

  lemma OpenIsPassive(s: Server, step: OpenStep)
    requires ApplyOpen(s, step) != s
    requires !step.CreateChannel? && !step.StartConsumer? && !step.Insert?
    ensures Passive(s, ApplyOpen(s, step), step.op)
  {
  }

  lemma OpenKeepsChannels(s: Server, step: OpenStep)
    requires ChannelsInv(s)
    ensures ChannelsInv(ApplyOpen(s, step))
  {
    if ApplyOpen(s, step) != s {
      match step
      case CreateChannel(op) => CreateKeepsChannels(s, op);
      case StartConsumer(op) => StartKeepsChannels(s, op);
      case Insert(op, h) => InsertKeepsChannels(s, op, h);
      case _ =>
        OpenIsPassive(s, step);
        PassiveKeepsChannels(s, ApplyOpen(s, step), step.op);
    }
  }

  lemma CloseKeepsChannels(s: Server, step: CloseStep)
    requires ChannelsInv(s)
    ensures ChannelsInv(ApplyClose(s, step))
  {
    if ApplyClose(s, step) != s {
      match step
      case Remove(op) =>
        if s.ops[op].h in s.adapter.channels {
          RemoveKeepsChannels(s, op);
        } else {
          PassiveKeepsChannels(s, ApplyClose(s, step), op);
        }
      case CloseChannel(op) => CloseDoneKeepsChannels(s, op);
      case CloseThrows(op) => FailCloseKeepsChannels(s, op);
      case _ => PassiveKeepsChannels(s, ApplyClose(s, step), step.op);
    }
  }

  lemma DisconnectIsPassive(s: Server, op: Op)
    requires op in s.ops && s.ops[op].Disconnecting?
    ensures Passive(s, DoCloseConnection(s, op), op)
  {
  }

  lemma DisconnectKeepsChannels(s: Server, op: Op)
    requires ChannelsInv(s) && op in s.ops && s.ops[op].Disconnecting?
    ensures ChannelsInv(DoCloseConnection(s, op))
  {
    DisconnectIsPassive(s, op);
    PassiveKeepsChannels(s, DoCloseConnection(s, op), op);
  }

  lemma ReconnectKeepsChannels(s: Server, op: Op, ok: bool)
    requires ChannelsInv(s) && op in s.ops
    ensures s.ops[op].Forgetting? ==> ChannelsInv(DoForget(s, op))
    ensures s.ops[op].Connecting? ==> ChannelsInv(DoConnect(s, op, ok))
  {
    if s.ops[op].Forgetting? {
      PassiveKeepsChannels(s, DoForget(s, op), op);
    } else if s.ops[op].Connecting? {
      PassiveKeepsChannels(s, DoConnect(s, op, ok), op);
    }
  }

  lemma EndKeepsChannels(s: Server, op: Op)
    requires ChannelsInv(s) && op in s.ops && Plain(s.ops[op])
    ensures ChannelsInv(EndOp(s, op))
  {
    PassiveKeepsChannels(s, EndOp(s, op), op);
  }

  lemma BeginKeepsChannels(s: Server, op: Op, reconnect: bool)
    requires ChannelsInv(s) && op !in s.ops
    ensures ChannelsInv(SetOp(s, op, Waiting(reconnect)))
  {
    PassiveKeepsChannels(s, SetOp(s, op, Waiting(reconnect)), op);
  }

  lemma TeardownKeepsChannels(s: Server, step: TeardownStep)
    requires ChannelsInv(s)
    ensures ChannelsInv(ApplyTeardown(s, step))
  {
    if ApplyTeardown(s, step) != s {
      match step
      case Acquire(op) => AcquireKeepsChannels(s, op);
      case CloseOne(op, h) => CloseOneKeepsChannels(s, op, h);
      case CloseOneThrows(op) => AbortKeepsChannels(s, op);
      case Clear(op) => ClearKeepsChannels(s, op);
      case CloseConnection(op) => DisconnectKeepsChannels(s, op);
      case ForgetConnection(op) => ReconnectKeepsChannels(s, op, true);
      case ConnectEnds(op, ok) => ReconnectKeepsChannels(s, op, ok);
      case DisconnectThrows(op) => EndKeepsChannels(s, op);
      case ChannelDrops(ch) => DropKeepsChannels(s, ch);
      case BeginTeardown(op, reconnect) => BeginKeepsChannels(s, op, reconnect);
    }
  }

  /** What a step that changes none of the channels' records leaves alone. */
  predicate SameRecords(s: Server, s': Server) {
    && s'.ops == s.ops && s'.adapter == s.adapter && s'.broker.nextChan == s.broker.nextChan
    && s'.broker.open <= s.broker.open
    && s'.log.(events := s.log.events, broadcasts := s.log.broadcasts) == s.log
  }

  lemma UnchangedKeepsStructure(s: Server, s': Server)
    requires Structure(s) && SameRecords(s, s')
    ensures Structure(s')
  {
  }

  lemma UnchangedAccounts(s: Server, s': Server, i: Handle)
    requires i in s.log.chanOf && Accounted(s, i) && SameRecords(s, s')
    ensures Accounted(s', i)
  {
    assert Due(s', i) == Due(s, i);
  }

  lemma UnchangedKeepsChannels(s: Server, s': Server)
    requires ChannelsInv(s) && SameRecords(s, s')
    ensures ChannelsInv(s')
  {
    UnchangedKeepsStructure(s, s');
    forall i | i in s'.log.chanOf ensures Accounted(s', i) {
      UnchangedAccounts(s, s', i);
    }
  }

  lemma DropKeepsChannels(s: Server, ch: Chan)
    requires ChannelsInv(s)
    ensures ChannelsInv(ApplyTeardown(s, ChannelDrops(ch)))
  {
    UnchangedKeepsChannels(s, ApplyTeardown(s, ChannelDrops(ch)));
  }

  lemma DeliveryKeepsChannels(s: Server, step: DeliveryStep)
    requires ChannelsInv(s)
    ensures ChannelsInv(ApplyDelivery(s, step))
  {
    UnchangedKeepsChannels(s, ApplyDelivery(s, step));
  }

  lemma {:induction false} RunKeepsChannels(steps: seq<Step>)
    ensures ChannelsInv(Run(steps))
  {
    if steps != [] {
      var s := Run(Init(steps));
      RunKeepsChannels(Init(steps));
      match Last(steps)
      case Open(o) => OpenKeepsChannels(s, o);
      case Close(c) => CloseKeepsChannels(s, c);
      case Teardown(t) => TeardownKeepsChannels(s, t);
      case Deliveries(d) => DeliveryKeepsChannels(s, d);
    }
  }

  /** Under every interleaving, a channel ever registered is still in the map, or one operation alone took it
      out. It has been disposed by each teardown that reached it and then failed at another channel, and once by
      the operation that took it out, unless that one still awaits the close or its close threw. */
  lemma {:induction false} ChannelsReleasedOnce(steps: seq<Step>, h: Handle)
    requires h in Run(steps).log.chanOf && h !in Run(steps).adapter.channels
    ensures var s, ch := Run(steps), Run(steps).log.chanOf[h];
            && |Takers(s, h)| == 1
            && (var t := Takers(s, h)[0];
                Releases(s, ch) == Aborts(s, ch) + if ch in s.log.failed || StillCloses(s, t.op, h, ch) then [] else [t.op])
            && (Releases(s, ch) != [] ==> ch !in s.broker.open)
  {
    var s := Run(steps);
    RunKeepsChannels(steps);
    assert Accounted(s, h);
  }

  /** A channel still in the map was taken out by no one; it has been disposed by each teardown that reached it and
      then failed at another channel, and by the teardown holding the lock if that has reached it. */
  lemma {:induction false} RegisteredChannelsUntouched(steps: seq<Step>, h: Handle)
    requires h in Run(steps).adapter.channels
    ensures var s, ch := Run(steps), Run(steps).adapter.channels[h];
            && Takers(s, h) == []
            && (s.adapter.lockedBy.None? ==> Releases(s, ch) == Aborts(s, ch))
            && (s.adapter.lockedBy.Some? ==>
                  var op := s.adapter.lockedBy.value;
                  && op in s.ops && s.ops[op].Clearing?
                  && Releases(s, ch) == Aborts(s, ch) + if h in s.ops[op].rest then [] else [op])
  {
    RunKeepsChannels(steps);
    assert Accounted(Run(steps), h);
  }

  /** So a channel is disposed more than once exactly if two teardowns reached it and then failed elsewhere, or one
      did and the channel is due: in the map, to the teardown holding the lock that has reached it; out of the
      map, to the one operation that took it out, unless that one still closes it or could not. */
  lemma {:induction false} ReleasedTwiceExactlyWhen(steps: seq<Step>, h: Handle)
    requires h in Run(steps).log.chanOf
    ensures var s, ch := Run(steps), Run(steps).log.chanOf[h];
            && (h !in s.adapter.channels ==>
                  && |Takers(s, h)| == 1
                  && (|Releases(s, ch)| > 1 <==>
                        || |Aborts(s, ch)| > 1
                        || (Aborts(s, ch) != [] && ch !in s.log.failed && !StillCloses(s, Takers(s, h)[0].op, h, ch))))
            && (h in s.adapter.channels ==>
                  (|Releases(s, ch)| > 1 <==>
                     || |Aborts(s, ch)| > 1
                     || (Aborts(s, ch) != [] && exists op :: op in s.ops && HasReached(s, op, h))))
  {
    RunKeepsChannels(steps);
    var s, ch := Run(steps), Run(steps).log.chanOf[h];
    assert Accounted(s, h);
    DueWhen(s, h);
    assert |Releases(s, ch)| == |Aborts(s, ch)| + |Due(s, h)|;
  }

  lemma DueWhen(s: Server, h: Handle)
    requires Locked(s) && h in s.log.chanOf
    ensures |Due(s, h)| <= 1
    ensures h in s.adapter.channels ==> (Due(s, h) != [] <==> exists op :: op in s.ops && HasReached(s, op, h))
    ensures h !in s.adapter.channels && Takers(s, h) != [] ==>
              (Due(s, h) != [] <==> s.log.chanOf[h] !in s.log.failed
                                    && !StillCloses(s, Takers(s, h)[0].op, h, s.log.chanOf[h]))
  {
    if h in s.adapter.channels && Due(s, h) != [] {
      assert HasReached(s, s.adapter.lockedBy.value, h);
    }
  }

  /** A teardown at work that is past the handle. */
  predicate HasReached(s: Server, op: Op, h: Handle)
    requires op in s.ops
  {
    s.ops[op].Clearing? && h !in s.ops[op].rest
  }

  /** Two channels never share a handle, nor two handles a channel. */
  lemma {:induction false} ChannelsPaired(steps: seq<Step>, h1: Handle, h2: Handle)
    requires h1 in Run(steps).log.chanOf && h2 in Run(steps).log.chanOf
    requires Run(steps).log.chanOf[h1] == Run(steps).log.chanOf[h2]
    ensures h1 == h2
  {
    RunKeepsChannels(steps);
  }
}
