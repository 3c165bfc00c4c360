/** Every live channel's handle is registered with the coordinator or belongs to an operation still
    opening it, in every interleaving, across reconnects and failed closes. */
module ProtocolHandles {
  import opened Basics
  import opened Domain
  import opened Protocol

  predicate IsOpening(p: Phase, h: Handle) {
    (p.Returned? || p.Assigned?) && p.h == h
  }

  predicate IsClosing(p: Phase) {
    p.Closing? || p.Unregistering?
  }

  /** Drawn handles are known; an opener holds a handle it drew itself; a handle being closed is out of the map. */
  predicate OpsKnow(ops: map<Op, Phase>, channels: map<Handle, Chan>, t: Log) {
    && channels.Keys <= t.opener.Keys
    && t.chanOf.Keys == t.opener.Keys
    && t.opener.Keys <= t.known
    && (forall op :: op in ops && (ops[op].Returned? || ops[op].Assigned?) ==>
          ops[op].h in t.opener && t.opener[ops[op].h] == op)
    && (forall op :: op in ops && (IsClosing(ops[op]) || ops[op].Removing?) ==> ops[op].h in t.known)
    && (forall op :: op in ops && IsClosing(ops[op]) ==> ops[op].h !in channels)
  }

  predicate Covered(ops: map<Op, Phase>, channels: map<Handle, Chan>, registry: map<Handle, nat>, opener: map<Handle, Op>) {
    forall h :: h in channels && h !in registry ==>
      h in opener && opener[h] in ops && IsOpening(ops[opener[h]], h)
  }

  predicate HandlesInv(s: Server) {
    && OpsKnow(s.ops, s.adapter.channels, s.log)
    && Covered(s.ops, s.adapter.channels, s.coordinator.registry, s.log.opener)
    && (forall op :: op in s.ops && s.ops[op].Publishing? ==> s.ops[op].h in s.log.known)
  }

  /** Phases that hold no handle. */
  predicate Neutral(p: Phase) {
    || p.Opening? || p.Wiring? || p.Inserting? || p.Waiting? || p.Clearing? || p.Disconnecting?
    || p.Forgetting? || p.Connecting?
  }

  /** A step of an operation that holds no handle, before or after. */
  ghost predicate Handleless(s: Server, s': Server, op: Op) {
    && SameElsewhere(s.ops, s'.ops, op)
    && (op in s.ops ==> Neutral(s.ops[op])) && (op in s'.ops ==> Neutral(s'.ops[op]))
    && s'.coordinator == s.coordinator && s'.adapter.channels.Keys <= s.adapter.channels.Keys
    && s'.log.known == s.log.known && s'.log.chanOf == s.log.chanOf
    && s'.log.opener == s.log.opener
  }

  lemma HandlelessKeepsCovered(s: Server, s': Server, op: Op)
    requires Handleless(s, s', op)
    requires Covered(s.ops, s.adapter.channels, s.coordinator.registry, s.log.opener)
    ensures Covered(s'.ops, s'.adapter.channels, s'.coordinator.registry, s'.log.opener)
  {
  }

  lemma HandlelessKeepsHandles(s: Server, s': Server, op: Op)
    requires HandlesInv(s) && Handleless(s, s', op)
    ensures HandlesInv(s')
  {
    HandlelessKeepsCovered(s, s', op);
  }

  lemma InsertKeepsHandles(s: Server, op: Op, h: Handle)
    requires HandlesInv(s) && op in s.ops && s.ops[op].Inserting? && h !in s.log.known
    ensures HandlesInv(DoInsert(s, op, h))
  {
  }

  lemma AssignKeepsHandles(s: Server, op: Op)
    requires HandlesInv(s) && op in s.ops && s.ops[op].Returned?
    ensures HandlesInv(DoAssign(s, op))
  {
  }

  lemma RegisterKeepsHandles(s: Server, op: Op)
    requires HandlesInv(s) && op in s.ops && s.ops[op].Assigned?
    ensures HandlesInv(DoRegister(s, op))
  {
  }

  lemma PublishKeepsHandles(s: Server, op: Op)
    requires HandlesInv(s) && op in s.ops && s.ops[op].Publishing?
    ensures HandlesInv(EndOp(s, op)) && HandlesInv(SetOp(s, op, Removing(s.ops[op].h)))
  {
  }

  lemma OpenKeepsHandles(s: Server, step: OpenStep)
    requires HandlesInv(s)
    ensures HandlesInv(ApplyOpen(s, step))
  {
    var s' := ApplyOpen(s, step);
    if s' != s {
      match step
      case Insert(op, h) => InsertKeepsHandles(s, op, h);
      case Assign(op) => AssignKeepsHandles(s, op);
      case RegisterHandle(op) => RegisterKeepsHandles(s, op);
      case PublishEnds(op, made) => PublishKeepsHandles(s, op);
      case PublishFails(op, made) => PublishKeepsHandles(s, op);
      case _ => HandlelessKeepsHandles(s, s', step.op);
    }
  }

  lemma RemoveKeepsHandles(s: Server, op: Op)
    requires HandlesInv(s) && op in s.ops && s.ops[op].Removing?
    ensures s.ops[op].h in s.adapter.channels ==> HandlesInv(DoRemove(s, op))
    ensures s.ops[op].h !in s.adapter.channels ==> HandlesInv(SetOp(s, op, Unregistering(s.ops[op].h)))
  {
  }

  lemma UnregisterKeepsHandles(s: Server, op: Op)
    requires HandlesInv(s) && op in s.ops && s.ops[op].Unregistering?
    ensures HandlesInv(DoUnregister(s, op))
  {
  }

  lemma CloseKeepsHandles(s: Server, step: CloseStep)
    requires HandlesInv(s)
    ensures HandlesInv(ApplyClose(s, step))
  {
    if ApplyClose(s, step) != s {
      match step
      case Remove(op) => RemoveKeepsHandles(s, op);
      case UnregisterHandle(op) => UnregisterKeepsHandles(s, op);
      case _ =>
    }
  }

  lemma TeardownIsHandleless(s: Server, step: TeardownStep)
    requires ApplyTeardown(s, step) != s && !step.ChannelDrops?
    ensures Handleless(s, ApplyTeardown(s, step), step.op)
  {
  }

  lemma TeardownKeepsHandles(s: Server, step: TeardownStep)
    requires HandlesInv(s)
    ensures HandlesInv(ApplyTeardown(s, step))
  {
    if ApplyTeardown(s, step) != s && !step.ChannelDrops? {
      TeardownIsHandleless(s, step);
      HandlelessKeepsHandles(s, ApplyTeardown(s, step), step.op);
    }
  }

  lemma DeliveryKeepsHandles(s: Server, step: DeliveryStep)
    requires HandlesInv(s)
    ensures HandlesInv(ApplyDelivery(s, step))
  {
  }

  lemma {:induction false} RunKeepsHandles(steps: seq<Step>)
    ensures HandlesInv(Run(steps))
  {
    if steps != [] {
      var s := Run(Init(steps));
      RunKeepsHandles(Init(steps));
      match Last(steps)
      case Open(o) => OpenKeepsHandles(s, o);
      case Close(c) => CloseKeepsHandles(s, c);
      case Teardown(t) => TeardownKeepsHandles(s, t);
      case Deliveries(d) => DeliveryKeepsHandles(s, d);
    }
  }

  /** In every reachable state a handle in the adapter's map is registered, or the subscribe or send-with-reply
      that put it there has not registered it yet. */
  lemma LiveHandlesAreCovered(steps: seq<Step>, h: Handle)
    requires h in Run(steps).adapter.channels
    ensures var s := Run(steps);
            h in s.coordinator.registry || exists op :: op in s.ops && IsOpening(s.ops[op], h)
  {
    RunKeepsHandles(steps);
  }

  /** With no operation in flight, no live channel feeds an unregistered handle. */
  lemma QuiescentHandlesAreRegistered(steps: seq<Step>)
    requires Run(steps).ops == map[]
    ensures Run(steps).adapter.channels.Keys <= Run(steps).coordinator.registry.Keys
  {
    RunKeepsHandles(steps);
  }
}
