/** The server protocol composed with one browser: SignalR groups, a first-in first-out push channel
    that may lose but never repeats or reorders, and the client's store. */
module EndToEnd {
  import opened Basics
  import opened Domain
  import P = Protocol
  import opened ProtocolDelivery
  import opened HubService

  /** `joined` are the subscription groups the browser's connection is in, `wire` the pushes on their way. */
  datatype System = System(server: P.Server, joined: set<Handle>, wire: seq<MessageReceivedDto>, hub: Hub)

  datatype Step =
    | Server(step: P.Step)
    | JoinSubscription(h: Handle)
    | LeaveSubscription(h: Handle)
    | Lose(i: nat)                  // a push is lost
    | ConnectionLost                // the connection and its group memberships are gone
    | Push                          // the oldest push reaches the client
    | Clear(h: Handle)              // the client clears a subscription

  /** The push a server step makes: BroadcastAsync to the handle's group. */
  function Pushed(s: P.Server, step: P.Step, joined: set<Handle>): seq<MessageReceivedDto> {
    if step.Deliveries? && step.d.Broadcast? && step.d.ch in s.consumers && s.consumers[step.d.ch].stage.Enqueued? then
      var at := s.consumers[step.d.ch].stage;
      if at.h in joined then [FromDomain(at.h, at.m)] else []
    else []
  }

  function Apply(s: System, step: Step): System {
    match step
    case Server(p) => s.(server := P.Apply(s.server, p), wire := s.wire + Pushed(s.server, p, s.joined))
    case JoinSubscription(h) => s.(joined := s.joined + {h})
    case LeaveSubscription(h) => s.(joined := s.joined - {h})
    case Lose(i) => if i < |s.wire| then s.(wire := s.wire[..i] + s.wire[i + 1..]) else s
    case ConnectionLost => s.(joined := {}, wire := [])
    case Push => if s.wire == [] then s else s.(wire := s.wire[1..], hub := Receive(s.hub, s.wire[0]))
    case Clear(h) => s.(hub := ClearSubscription(s.hub, h))
  }

  function Run(steps: seq<Step>): System {
    if steps == [] then System(P.START, {}, [], Hub([], 0)) else Apply(Run(Init(steps)), Last(steps))
  }

  /** The pushes of one subscription, in order. */
  function PushesOf(wire: seq<MessageReceivedDto>, h: Handle): seq<MessageReceivedDto> {
    if wire == [] then [] else PushesOf(Init(wire), h) + if Last(wire).subscriptionId == h then [Last(wire)] else []
  }

  /** The client's messages of one subscription, oldest first. */
  function OldestFirst(ms: seq<Received>, h: Handle): seq<MessageReceivedDto> {
    if ms == [] then [] else OldestFirst(ms[1..], h) + if ms[0].dto.subscriptionId == h then [ms[0].dto] else []
  }

  function Dtos(ms: seq<BusMessage>, h: Handle): seq<MessageReceivedDto> {
    if ms == [] then [] else Dtos(Init(ms), h) + [FromDomain(h, Last(ms))]
  }

  lemma {:induction false} PushesConcat(a: seq<MessageReceivedDto>, b: seq<MessageReceivedDto>, h: Handle)
    ensures PushesOf(a + b, h) == PushesOf(a, h) + PushesOf(b, h)
  {
    if b == [] {
      assert a + b == a;
    } else {
      assert Init(a + b) == a + Init(b) && Last(a + b) == Last(b);
      PushesConcat(a, Init(b), h);
    }
  }

  lemma {:induction false} StoredCleared(ms: seq<Received>, id: Handle, h: Handle)
    ensures OldestFirst(Except(ms, id), h) == if h == id then [] else OldestFirst(ms, h)
  {
    if ms != [] {
      StoredCleared(ms[1..], id, h);
      var kept := Except(ms[1..], id);
      assert ([ms[0]] + kept)[1..] == kept && [] + kept == kept;
    }
  }

  /** What the client holds and what is on its way, against what the coordinator broadcast. */
  predicate Faithful(s: System, h: Handle) {
    Subsequence(OldestFirst(s.hub.messages, h) + PushesOf(s.wire, h),
                Dtos(BroadcastsOf(s.server.log.broadcasts, h), h))
  }

  lemma BroadcastAppends(s: P.Server, ch: Chan)
    requires ch in s.consumers && s.consumers[ch].stage.Enqueued?
    ensures P.Apply(s, P.Deliveries(P.Broadcast(ch))).log.broadcasts
            == s.log.broadcasts + [(s.consumers[ch].stage.h, s.consumers[ch].stage.m)]
  {
  }

  lemma ServerKeepsFaithful(s: System, step: P.Step, h: Handle)
    requires Faithful(s, h)
    ensures Faithful(Apply(s, Server(step)), h)
  {
    var s' := Apply(s, Server(step));
    if step.Deliveries? && step.d.Broadcast? && step.d.ch in s.server.consumers
       && s.server.consumers[step.d.ch].stage.Enqueued? {
      var at := s.server.consumers[step.d.ch].stage;
      BroadcastAppends(s.server, step.d.ch);
      SentKeepsFaithful(s, s', at.h, at.m, h);
    } else {
      assert s'.wire == s.wire;
      OtherStepsDoNotBroadcast(s.server, step);
    }
  }

  lemma OpenDoesNotBroadcast(s: P.Server, step: P.OpenStep)
    ensures P.ApplyOpen(s, step).log.broadcasts == s.log.broadcasts
  {
  }

  lemma CloseDoesNotBroadcast(s: P.Server, step: P.CloseStep)
    ensures P.ApplyClose(s, step).log.broadcasts == s.log.broadcasts
  {
  }

  lemma TeardownDoesNotBroadcast(s: P.Server, step: P.TeardownStep)
    ensures P.ApplyTeardown(s, step).log.broadcasts == s.log.broadcasts
  {
  }

  lemma DeliveryDoesNotBroadcast(s: P.Server, step: P.DeliveryStep)
    requires !step.Broadcast? || !(step.ch in s.consumers && s.consumers[step.ch].stage.Enqueued?)
    ensures P.ApplyDelivery(s, step).log.broadcasts == s.log.broadcasts
  {
  }

  lemma OtherStepsDoNotBroadcast(s: P.Server, step: P.Step)
    requires !(step.Deliveries? && step.d.Broadcast?)
             || !(step.d.ch in s.consumers && s.consumers[step.d.ch].stage.Enqueued?)
    ensures P.Apply(s, step).log.broadcasts == s.log.broadcasts
  {
    match step
    case Open(o) => OpenDoesNotBroadcast(s, o);
    case Close(c) => CloseDoesNotBroadcast(s, c);
    case Teardown(t) => TeardownDoesNotBroadcast(s, t);
    case Deliveries(d) => DeliveryDoesNotBroadcast(s, d);
  }

  /** The push of one broadcast, if it was made at all, extends its own subscription only. */
  lemma PushesExtend(wire: seq<MessageReceivedDto>, push: seq<MessageReceivedDto>, to: Handle, m: BusMessage, h: Handle)
    requires push == [] || push == [FromDomain(to, m)]
    ensures PushesOf(wire + push, h) == PushesOf(wire, h) + if to == h then push else []
  {
    PushesConcat(wire, push, h);
    OnePush(push, to, m, h);
  }

  lemma SentExtends(held: seq<MessageReceivedDto>, pushes: seq<MessageReceivedDto>, push: seq<MessageReceivedDto>,
                    sent: seq<BusMessage>, m: BusMessage, h: Handle)
    requires Subsequence(held + pushes, Dtos(sent, h))
    requires push == [] || push == [FromDomain(h, m)]
    ensures Subsequence(held + (pushes + push), Dtos(sent + [m], h))
  {
    assert Init(sent + [m]) == sent && Last(sent + [m]) == m;
    SubsequenceAppend(held + pushes, Dtos(sent, h), FromDomain(h, m));
    assert held + (pushes + push) == (held + pushes) + push;
    assert push == [] ==> (held + pushes) + push == held + pushes;
  }

  lemma SentKeepsFaithful(s: System, s': System, to: Handle, m: BusMessage, h: Handle)
    requires Faithful(s, h) && s'.hub == s.hub
    requires s'.server.log.broadcasts == s.server.log.broadcasts + [(to, m)]
    requires s'.wire == s.wire + if to in s.joined then [FromDomain(to, m)] else []
    ensures Faithful(s', h)
  {
    var push := if to in s.joined then [FromDomain(to, m)] else [];
    var sent := BroadcastsOf(s.server.log.broadcasts, h);
    BroadcastsSnoc(s.server.log.broadcasts, (to, m), h);
    PushesExtend(s.wire, push, to, m, h);
    if to == h {
      SentExtends(OldestFirst(s.hub.messages, h), PushesOf(s.wire, h), push, sent, m, h);
    } else {
      assert sent + [] == sent && PushesOf(s.wire, h) + [] == PushesOf(s.wire, h);
    }
  }

  lemma OnePush(wire: seq<MessageReceivedDto>, to: Handle, m: BusMessage, h: Handle)
    requires wire == [] || wire == [FromDomain(to, m)]
    ensures PushesOf(wire, h) == if wire != [] && to == h then [FromDomain(to, m)] else []
  {
  }

  lemma ShorterKeepsFaithful(s: System, s': System, h: Handle)
    requires Faithful(s, h) && s'.server == s.server
    requires Subsequence(OldestFirst(s'.hub.messages, h) + PushesOf(s'.wire, h),
                         OldestFirst(s.hub.messages, h) + PushesOf(s.wire, h))
    ensures Faithful(s', h)
  {
    SubsequenceTransitive(OldestFirst(s'.hub.messages, h) + PushesOf(s'.wire, h),
                          OldestFirst(s.hub.messages, h) + PushesOf(s.wire, h),
                          Dtos(BroadcastsOf(s.server.log.broadcasts, h), h));
  }

  lemma LosingShortens(held: seq<MessageReceivedDto>, a: seq<MessageReceivedDto>, lost: seq<MessageReceivedDto>,
                       b: seq<MessageReceivedDto>)
    ensures Subsequence(held + (a + b), held + (a + (lost + b)))
  {
    var front := held + a;
    SubsequenceReflexive(front);
    SubsequenceConcat(front, front, lost);
    SubsequenceConcat(front, front + lost, b);
    assert held + (a + b) == front + b && held + (a + (lost + b)) == (front + lost) + b;
  }

  lemma PushesWithout(wire: seq<MessageReceivedDto>, i: nat, h: Handle)
    requires i < |wire|
    ensures PushesOf(wire[..i] + wire[i + 1..], h) == PushesOf(wire[..i], h) + PushesOf(wire[i + 1..], h)
    ensures PushesOf(wire, h) == PushesOf(wire[..i], h) + (PushesOf([wire[i]], h) + PushesOf(wire[i + 1..], h))
  {
    assert wire == wire[..i] + ([wire[i]] + wire[i + 1..]);
    PushesConcat(wire[..i], wire[i + 1..], h);
    PushesConcat(wire[..i], [wire[i]] + wire[i + 1..], h);
    PushesConcat([wire[i]], wire[i + 1..], h);
  }

  lemma LoseShortens(held: seq<MessageReceivedDto>, wire: seq<MessageReceivedDto>, i: nat, h: Handle)
    requires i < |wire|
    ensures Subsequence(held + PushesOf(wire[..i] + wire[i + 1..], h), held + PushesOf(wire, h))
  {
    PushesWithout(wire, i, h);
    LosingShortens(held, PushesOf(wire[..i], h), PushesOf([wire[i]], h), PushesOf(wire[i + 1..], h));
  }

  lemma LoseKeepsFaithful(s: System, i: nat, h: Handle)
    requires Faithful(s, h) && i < |s.wire|
    ensures Faithful(Apply(s, Lose(i)), h)
  {
    LoseShortens(OldestFirst(s.hub.messages, h), s.wire, i, h);
    ShorterKeepsFaithful(s, Apply(s, Lose(i)), h);
  }

  lemma DisconnectKeepsFaithful(s: System, h: Handle)
    requires Faithful(s, h)
    ensures Faithful(Apply(s, ConnectionLost), h)
  {
    var held := OldestFirst(s.hub.messages, h);
    SubsequenceReflexive(held);
    SubsequenceConcat(held, held, PushesOf(s.wire, h));
    assert held + [] == held;
    ShorterKeepsFaithful(s, Apply(s, ConnectionLost), h);
  }

  lemma PushKeepsFaithful(s: System, h: Handle)
    requires Faithful(s, h) && s.wire != []
    ensures Faithful(Apply(s, Push), h)
  {
    PushArrives(s, h);
  }

  lemma ClearKeepsFaithful(s: System, id: Handle, h: Handle)
    requires Faithful(s, h)
    ensures Faithful(Apply(s, Clear(id)), h)
  {
    StoredCleared(s.hub.messages, id, h);
    if h == id {
      var held := OldestFirst(s.hub.messages, h);
      SubsequenceConcat([], held, PushesOf(s.wire, h));
      ShorterKeepsFaithful(s, Apply(s, Clear(id)), h);
    }
  }

  lemma ApplyKeepsFaithful(s: System, step: Step, h: Handle)
    requires Faithful(s, h)
    ensures Faithful(Apply(s, step), h)
  {
    match step
    case Server(p) => ServerKeepsFaithful(s, p, h);
    case Lose(i) => if i < |s.wire| { LoseKeepsFaithful(s, i, h); }
    case ConnectionLost => DisconnectKeepsFaithful(s, h);
    case Push => if s.wire != [] { PushKeepsFaithful(s, h); }
    case Clear(id) => ClearKeepsFaithful(s, id, h);
    case _ =>
  }

  lemma {:induction false} RunKeepsFaithful(steps: seq<Step>, h: Handle)
    ensures Faithful(Run(steps), h)
  {
    if steps == [] {
      assert OldestFirst([], h) + PushesOf([], h) == [];
    } else {
      RunKeepsFaithful(Init(steps), h);
      ApplyKeepsFaithful(Run(Init(steps)), Last(steps), h);
    }
  }

  /** The server's own steps in a run of the whole system. */
  function ServerSteps(steps: seq<Step>): seq<P.Step> {
    if steps == [] then []
    else ServerSteps(Init(steps)) + if Last(steps).Server? then [Last(steps).step] else []
  }

  /** The composition takes nothing from the protocol: its server runs the protocol, step for step. */
  lemma {:induction false} ServerRunsTheProtocol(steps: seq<Step>)
    ensures Run(steps).server == P.Run(ServerSteps(steps))
  {
    if steps != [] {
      ServerRunsTheProtocol(Init(steps));
      var before := ServerSteps(Init(steps));
      if Last(steps).Server? {
        assert Init(before + [Last(steps).step]) == before;
      } else {
        assert before + [] == before;
      }
    }
  }

  lemma {:induction false} DtosConcat(a: seq<BusMessage>, b: seq<BusMessage>, h: Handle)
    ensures Dtos(a + b, h) == Dtos(a, h) + Dtos(b, h)
  {
    if b == [] {
      assert a + b == a;
    } else {
      assert Init(a + b) == a + Init(b) && Last(a + b) == Last(b);
      DtosConcat(a, Init(b), h);
    }
  }

  /** End to end, in every run: what the client stores for a subscription, oldest first, is a subsequence of
      what the coordinator enqueued for that handle, each message mapped as the wire form says. */
  lemma {:induction false} StoredIsSubsequenceOfEnqueued(steps: seq<Step>, h: Handle)
    ensures var s := Run(steps);
            Subsequence(OldestFirst(s.hub.messages, h), Dtos(Buffer(s.server, h), h))
  {
    var s := Run(steps);
    RunKeepsFaithful(steps, h);
    ServerRunsTheProtocol(steps);
    RunKeepsDelivery(ServerSteps(steps));
    assert Buffered(s.server, h);
    var held := OldestFirst(s.hub.messages, h);
    var sent := BroadcastsOf(s.server.log.broadcasts, h);
    SubsequenceReflexive(held);
    SubsequenceConcat(held, held, PushesOf(s.wire, h));
    SubsequenceTransitive(held, held + PushesOf(s.wire, h), Dtos(sent, h));
    DtosConcat(sent, PendingBroadcast(s.server, h), h);
    SubsequenceReflexive(Dtos(sent, h));
    SubsequenceConcat(Dtos(sent, h), Dtos(sent, h), Dtos(PendingBroadcast(s.server, h), h));
    SubsequenceTransitive(held, Dtos(sent, h), Dtos(Buffer(s.server, h), h));
  }

  lemma {:induction false} StoredMembers(ms: seq<Received>, r: Received)
    requires r in ms
    ensures r.dto in OldestFirst(ms, r.dto.subscriptionId)
  {
    if r != ms[0] {
      assert ms == [ms[0]] + ms[1..];
      StoredMembers(ms[1..], r);
    }
  }

  lemma {:induction false} DtosMembers(ms: seq<BusMessage>, h: Handle, dto: MessageReceivedDto)
    requires dto in Dtos(ms, h)
    ensures exists m :: m in ms && dto == FromDomain(h, m)
  {
    Snoc(ms);
    if dto != FromDomain(h, Last(ms)) {
      DtosMembers(Init(ms), h, dto);
    }
  }

  /** The wire form of a message, field by field. */
  predicate Carries(dto: MessageReceivedDto, m: BusMessage) {
    && dto.exchange == m.target && dto.payload == m.payload
    && (m.routingKey.Some? ==> dto.routingKey == m.routingKey.value) && (m.routingKey.None? ==> dto.routingKey == "")
    && dto.replyTo == m.replyTo && dto.correlationId == m.correlationId
  }

  /** The wire form of a delivery, field by field. */
  predicate CarriesDelivery(dto: MessageReceivedDto, d: Delivery) {
    && dto.exchange == (if d.exchange == "" then "(default)" else d.exchange)
    && dto.routingKey == d.routingKey && dto.payload == d.body
    && dto.replyTo == d.replyTo && dto.correlationId == d.correlationId
  }

  /** No message is ever stored under an id it was not enqueued for. */
  lemma {:induction false} StoredMessagesBelong(steps: seq<Step>, r: Received)
    requires r in Run(steps).hub.messages
    ensures exists m :: m in Buffer(Run(steps).server, r.dto.subscriptionId) && r.dto == FromDomain(r.dto.subscriptionId, m)
                        && Carries(r.dto, m)
  {
    var s, h := Run(steps), r.dto.subscriptionId;
    StoredIsSubsequenceOfEnqueued(steps, h);
    StoredMembers(s.hub.messages, r);
    SubsequenceMembers(OldestFirst(s.hub.messages, h), Dtos(Buffer(s.server, h), h));
    DtosMembers(Buffer(s.server, h), h, r.dto);
  }

  /** What the client stores was delivered by the broker: it has the fields of some accepted delivery, so it
      always names an exchange and has a payload that is not blank. */
  lemma {:induction false} StoredMessagesWereDelivered(steps: seq<Step>, r: Received)
    requires r in Run(steps).hub.messages
    ensures exists d :: FromDelivery(d).Ok? && CarriesDelivery(r.dto, d)
    ensures r.dto.exchange != "" && !NetBlank(r.dto.payload)
  {
    StoredMessagesBelong(steps, r);
    ServerRunsTheProtocol(steps);
    RunKeepsGenuine(ServerSteps(steps));
    var m :| m in Buffer(Run(steps).server, r.dto.subscriptionId) && r.dto == FromDomain(r.dto.subscriptionId, m);
    assert Delivered(m);
    DeliveredNamesExchange(m);
    var d :| FromDelivery(d) == Ok(m);
    DeliveryExactly(d);
    assert CarriesDelivery(r.dto, d);
  }

  // ---- nothing is lost on the way ----

  /** Stored or on the wire, oldest first. */
  function Arriving(s: System, h: Handle): seq<MessageReceivedDto> {
    OldestFirst(s.hub.messages, h) + PushesOf(s.wire, h)
  }

  /** The broadcast a step makes for `h`. */
  function Sent(s: System, step: Step, h: Handle): seq<BusMessage> {
    if step.Server? && step.step.Deliveries? && step.step.d.Broadcast? && step.step.d.ch in s.server.consumers
       && s.server.consumers[step.step.d.ch].stage.Enqueued? && s.server.consumers[step.step.d.ch].stage.h == h
    then [s.server.consumers[step.step.d.ch].stage.m] else []
  }

  predicate Breaks(step: Step, h: Handle) {
    step.Lose? || step.ConnectionLost? || step == Clear(h) || step == LeaveSubscription(h)
  }

  predicate Unbroken(steps: seq<Step>, h: Handle) {
    forall i :: 0 <= i < |steps| ==> !Breaks(steps[i], h)
  }

  lemma BroadcastArrives(s: System, ch: Chan, h: Handle)
    requires h in s.joined && ch in s.server.consumers && s.server.consumers[ch].stage.Enqueued?
    ensures var step := Server(P.Deliveries(P.Broadcast(ch)));
            var s', sent := Apply(s, step), Sent(s, step, h);
            && BroadcastsOf(s'.server.log.broadcasts, h) == BroadcastsOf(s.server.log.broadcasts, h) + sent
            && Arriving(s', h) == Arriving(s, h) + Dtos(sent, h)
  {
    var at, step := s.server.consumers[ch].stage, P.Deliveries(P.Broadcast(ch));
    var sent := Sent(s, Server(step), h);
    BroadcastAppends(s.server, ch);
    BroadcastsSnoc(s.server.log.broadcasts, (at.h, at.m), h);
    PushesExtend(s.wire, Pushed(s.server, step, s.joined), at.h, at.m, h);
    DtosOne(at.m, h);
    var held, wire := OldestFirst(s.hub.messages, h), PushesOf(s.wire, h);
    assert PushesOf(Apply(s, Server(step)).wire, h) == wire + Dtos(sent, h);
    assert held + (wire + Dtos(sent, h)) == (held + wire) + Dtos(sent, h);
  }

  lemma SentArrives(s: System, step: P.Step, h: Handle)
    requires h in s.joined
    ensures var s', sent := Apply(s, Server(step)), Sent(s, Server(step), h);
            && BroadcastsOf(s'.server.log.broadcasts, h) == BroadcastsOf(s.server.log.broadcasts, h) + sent
            && Arriving(s', h) == Arriving(s, h) + Dtos(sent, h)
  {
    if step.Deliveries? && step.d.Broadcast? && step.d.ch in s.server.consumers
       && s.server.consumers[step.d.ch].stage.Enqueued? {
      BroadcastArrives(s, step.d.ch, h);
    } else {
      OtherStepsDoNotBroadcast(s.server, step);
      var log, wire := BroadcastsOf(s.server.log.broadcasts, h), s.wire;
      assert Apply(s, Server(step)).wire == wire + [] == wire;
      assert log + [] == log && Arriving(s, h) + [] == Arriving(s, h);
    }
  }

  lemma DtosOne(m: BusMessage, h: Handle)
    ensures Dtos([m], h) == [FromDomain(h, m)]
  {
    assert Init([m]) == [] && Dtos([], h) == [];
  }

  lemma PushArrives(s: System, h: Handle)
    requires s.wire != []
    ensures Arriving(Apply(s, Push), h) == Arriving(s, h)
  {
    var s' := Apply(s, Push);
    var first, held := [s.wire[0]], OldestFirst(s.hub.messages, h);
    assert s.wire == first + s.wire[1..] && s'.hub.messages[1..] == s.hub.messages;
    PushesConcat(first, s.wire[1..], h);
    assert PushesOf(first, h) == if s.wire[0].subscriptionId == h then first else [];
    assert OldestFirst(s'.hub.messages, h) == held + PushesOf(first, h);
    assert (held + PushesOf(first, h)) + PushesOf(s.wire[1..], h) == held + (PushesOf(first, h) + PushesOf(s.wire[1..], h));
  }

  lemma StepArrives(s: System, step: Step, h: Handle)
    requires h in s.joined && !Breaks(step, h)
    ensures var s', sent := Apply(s, step), Sent(s, step, h);
            && h in s'.joined
            && BroadcastsOf(s'.server.log.broadcasts, h) == BroadcastsOf(s.server.log.broadcasts, h) + sent
            && Arriving(s', h) == Arriving(s, h) + Dtos(sent, h)
  {
    var log := BroadcastsOf(s.server.log.broadcasts, h);
    assert log + [] == log && Arriving(s, h) + [] == Arriving(s, h);
    match step
    case Server(p) => SentArrives(s, p, h);
    case Push => if s.wire != [] { PushArrives(s, h); }
    case Clear(id) => StoredCleared(s.hub.messages, id, h);
    case _ =>
  }

  lemma SinceSnoc(old0: seq<BusMessage>, all: seq<BusMessage>, sent: seq<BusMessage>,
                  arrived: seq<MessageReceivedDto>, h: Handle)
    requires |old0| <= |all| && all[..|old0|] == old0
    ensures (all + sent)[..|old0|] == old0
    ensures arrived + Dtos((all + sent)[|old0|..], h) == (arrived + Dtos(all[|old0|..], h)) + Dtos(sent, h)
  {
    var since := all[|old0|..];
    assert (all + sent)[|old0|..] == since + sent && (all + sent)[..|old0|] == all[..|old0|];
    DtosConcat(since, sent, h);
    assert (arrived + Dtos(since, h)) + Dtos(sent, h) == arrived + (Dtos(since, h) + Dtos(sent, h));
  }

  /** Completeness: from a moment the browser is in the group, as long as it stays, clears nothing of it and nothing
      is lost, what arrives is exactly what was broadcast since, in order: stored already or on the wire. */
  lemma {:induction false} EverythingArrives(before: seq<Step>, steps: seq<Step>, h: Handle)
    requires h in Run(before).joined && Unbroken(steps, h)
    ensures var s0, s := Run(before), Run(before + steps);
            var old0, all := BroadcastsOf(s0.server.log.broadcasts, h), BroadcastsOf(s.server.log.broadcasts, h);
            && h in s.joined
            && |old0| <= |all| && all[..|old0|] == old0
            && Arriving(s, h) == Arriving(s0, h) + Dtos(all[|old0|..], h)
  {
    var s0 := Run(before);
    var old0 := BroadcastsOf(s0.server.log.broadcasts, h);
    if steps == [] {
      assert before + steps == before;
      assert old0[|old0|..] == [] && Arriving(s0, h) + [] == Arriving(s0, h);
    } else {
      assert Init(before + steps) == before + Init(steps) && Last(before + steps) == Last(steps);
      assert steps[|steps| - 1] == Last(steps);
      EverythingArrives(before, Init(steps), h);
      var s1 := Run(before + Init(steps));
      StepArrives(s1, Last(steps), h);
      SinceSnoc(old0, BroadcastsOf(s1.server.log.broadcasts, h), Sent(s1, Last(steps), h), Arriving(s0, h), h);
    }
  }
}
