/** The use cases run without interruption, over the adapter and the coordinator
    (src/BusTester.Application/UseCases). */
module UseCases {
  import opened Basics
  import opened Domain
  import opened Coordinators
  import opened Adapters

  datatype World = World(adapter: State, coordinator: Coordinator)

  /** Handles are drawn by the adapter only, so none it will draw is registered yet. */
  predicate ValidWorld(w: World) {
    && ValidState(w.adapter) && ValidCoordinator(w.coordinator)
    && forall h :: h in w.coordinator.registry ==> h < w.adapter.nextHandle
  }

  datatype Command = Command(
    target: Option<string>, routingKey: Option<string>, payload: Option<string>,
    correlationId: Option<string>, headers: map<string, string>)

  datatype SendWithReplyResult = SendWithReplyResult(subscriptionId: Handle, correlationId: string)

  /** The caller's correlation id, or a generated one when it is absent or blank. */
  function CorrelationOf(c: Command, generated: string): string {
    if c.correlationId.None? || NetBlank(c.correlationId.value) then generated else c.correlationId.value
  }

  function MessageOf(c: Command, queue: string, generated: string): Result<BusMessage> {
    Construct(c.target, c.routingKey, c.payload, Some(queue), Some(CorrelationOf(c, generated)), c.headers)
  }

  function Subscribe(f: Faults, w: World): (World, Result<Handle>) {
    var (a, r) := Attach(f, w.adapter, false);
    (World(a, if r.Ok? then Register(w.coordinator, r.value) else w.coordinator), r)
  }

  /** Adapter first, then coordinator; a close that throws leaves the handle registered. */
  function Unsubscribe(f: Faults, w: World, h: Handle): (World, Result<()>) {
    var (a, r) := Detach(f, w.adapter, h);
    (World(a, if r.Ok? then Unregister(w.coordinator, h) else w.coordinator), r)
  }

  /** The message is built after the handle is registered and before the cleanup's scope begins. */
  function SendWithReply(f: Faults, w: World, supported: bool, c: Command, generated: string): (World, Result<SendWithReplyResult>) {
    if !supported then (w, Err(NotSupported))
    else
      var (a, attached) := Attach(f, w.adapter, true);
      if attached.Err? then (World(a, w.coordinator), Err(attached.error))
      else
        var h := attached.value;
        var w1 := World(a, Register(w.coordinator, h));
        var built := MessageOf(c, (f.queueName)(w.adapter.client.nextChan), generated);
        if built.Err? then (w1, Err(built.error))
        else
          var (a2, sent) := Publish(f, a, built.value);
          var w2 := w1.(adapter := a2);
          if sent.Ok? then (w2, Ok(SendWithReplyResult(h, CorrelationOf(c, generated))))
          else
            var (w3, cleaned) := Unsubscribe(f, w2, h);
            (w3, Err(if cleaned.Ok? then sent.error else cleaned.error))
  }

  /** Both handle sets are those of `w`: the same channels in the map, the same handles registered. */
  predicate SameHandles(w: World, w': World) {
    w'.adapter.channels == w.adapter.channels && w'.coordinator.registry == w.coordinator.registry
  }

  lemma SubscribeKeepsValid(f: Faults, w: World)
    requires ValidWorld(w)
    ensures ValidWorld(Subscribe(f, w).0)
  {
    AttachKeepsValid(f, w.adapter, false);
  }

  lemma UnsubscribeKeepsValid(f: Faults, w: World, h: Handle)
    requires ValidWorld(w)
    ensures ValidWorld(Unsubscribe(f, w, h).0)
  {
    DetachKeepsValid(f, w.adapter, h);
  }

  lemma {:induction false} SendWithReplyKeepsValid(f: Faults, w: World, supported: bool, c: Command, generated: string)
    requires ValidWorld(w)
    ensures ValidWorld(SendWithReply(f, w, supported, c, generated).0)
  {
    var (a, attached) := Attach(f, w.adapter, true);
    AttachKeepsValid(f, w.adapter, true);
    if supported && attached.Ok? {
      var w1 := World(a, Register(w.coordinator, attached.value));
      assert ValidWorld(w1);
      var built := MessageOf(c, (f.queueName)(w.adapter.client.nextChan), generated);
      if built.Ok? {
        PublishKeepsValid(f, a, built.value);
        var w2 := w1.(adapter := Publish(f, a, built.value).0);
        assert ValidWorld(w2);
        UnsubscribeKeepsValid(f, w2, attached.value);
      }
    }
  }

  /** Subscribe then unsubscribe leaves no trace in either handle set, exactly when the close does not throw. */
  lemma UnsubscribeUndoesSubscribe(f: Faults, w: World)
    requires ValidWorld(w) && Subscribe(f, w).1.Ok?
    ensures var (w1, r) := Subscribe(f, w);
            var (w2, closed) := Unsubscribe(f, w1, r.value);
            && GetMessages(w1.coordinator, r.value) == []
            && (SameHandles(w, w2) <==> !(f.close)(w.adapter.client.nextChan))
  {
    DetachUndoesAttach(f, w.adapter, false);
    var (w1, r) := Subscribe(f, w);
    assert r.value !in w.coordinator.registry;
    assert w1.coordinator.registry - {r.value} == w.coordinator.registry;
    assert r.value in w1.coordinator.registry;
  }

  /** Nothing at all is touched exactly when the capability, the connection or the channel is missing; and the
      answer tells the missing capability from every other failure. */
  lemma UnsupportedTouchesNothing(f: Faults, w: World, supported: bool, c: Command, generated: string)
    ensures var (w', r) := SendWithReply(f, w, supported, c, generated);
            && (w' == w <==> !supported || w.adapter.connection.None? || (f.channel)(w.adapter.client.nextChan))
            && (r == Err(NotSupported) <==> !supported)
  {
    if supported && w.adapter.connection.Some? && !(f.channel)(w.adapter.client.nextChan) {
      ChannelsAdvance(f, w, c, generated);
    }
  }

  /** Whatever comes of it, a channel number is used up once a channel is made. */
  lemma ChannelsAdvance(f: Faults, w: World, c: Command, generated: string)
    requires w.adapter.connection.Some? && !(f.channel)(w.adapter.client.nextChan)
    ensures SendWithReply(f, w, true, c, generated).0.adapter.client.nextChan > w.adapter.client.nextChan
  {
  }

  /** Success: exactly one message went out, asking for the reply on the queue declared for it, under the
      returned correlation id: the caller's if there is one that is not blank, a generated one otherwise; and the
      handle is live in adapter and coordinator. */
  lemma SuccessPublishesOnce(f: Faults, w: World, supported: bool, c: Command, generated: string)
    requires ValidWorld(w) && !NetBlank(generated)
    requires SendWithReply(f, w, supported, c, generated).1.Ok?
    ensures var (w', r) := SendWithReply(f, w, supported, c, generated);
            var h, ch := r.value.subscriptionId, w.adapter.client.nextChan;
            && h !in w.adapter.channels && h !in w.coordinator.registry
            && w'.adapter.channels == w.adapter.channels[h := ch] && ch in w'.adapter.client.open
            && w'.coordinator == Register(w.coordinator, h)
            && !NetBlank(r.value.correlationId)
            && (c.correlationId.Some? && !NetBlank(c.correlationId.value) ==> Some(r.value.correlationId) == c.correlationId)
            && (c.correlationId.None? || NetBlank(c.correlationId.value) ==> r.value.correlationId == generated)
            && exists m :: ValidMessage(m)
                && w'.adapter.client.published == w.adapter.client.published + [m]
                && m.replyTo == Some((f.queueName)(ch)) && m.correlationId == Some(r.value.correlationId)
                && Some(m.target) == c.target && m.routingKey == c.routingKey && Some(m.payload) == c.payload
                && m.headers == c.headers
  {
    var ch := w.adapter.client.nextChan;
    var m := MessageOf(c, (f.queueName)(ch), generated).value;
    assert ValidMessage(m);
    assert SendWithReply(f, w, supported, c, generated).0.adapter.client.published == w.adapter.client.published + [m];
  }

  /** What stands in the way of a send-with-reply, in the order it is met. */
  predicate Attachable(f: Faults, w: World) {
    var ch := w.adapter.client.nextChan;
    w.adapter.connection.Some? && !(f.channel)(ch) && !(f.declare)(ch) && !(f.consume)(ch)
  }

  predicate Buildable(c: Command) {
    && c.target.Some? && (c.target.value == "" || !NetBlank(c.target.value))
    && c.payload.Some? && !NetBlank(c.payload.value)
  }

  predicate Publishable(f: Faults, w: World, c: Command) {
    var ch := w.adapter.client.nextChan + 1;
    && c.routingKey.Some? && !NetBlank(c.routingKey.value)
    && !(f.channel)(ch) && !(f.publish)(ch) && c.target.Some? && (c.target.value == "" || !(f.exchange)(c.target.value))
  }

  /** It succeeds exactly if the broker can do request-reply, the reply queue can be attached, the message can be
      built, and it can be published: on the default exchange without asking for it, on another if it exists. */
  lemma SucceedsExactlyWhen(f: Faults, w: World, supported: bool, c: Command, generated: string)
    ensures SendWithReply(f, w, supported, c, generated).1.Ok?
            <==> supported && Attachable(f, w) && Buildable(c) && Publishable(f, w, c)
  {
  }

  /** And the answer to a failure tells its first cause, unless cleaning up fails too. */
  lemma FailureTellsTheCause(f: Faults, w: World, supported: bool, c: Command, generated: string)
    requires SendWithReply(f, w, supported, c, generated).1.Err?
    ensures var error, ch := SendWithReply(f, w, supported, c, generated).1.error, w.adapter.client.nextChan;
            error == if !supported then NotSupported
                     else if w.adapter.connection.None? then ConnectionError
                     else if !Attachable(f, w) then SubscriptionError
                     else if !Buildable(c) then ArgumentError
                     else if (f.close)(ch) then CloseError
                     else if c.routingKey.None? || NetBlank(c.routingKey.value) then ArgumentError
                     else PublishError
  {
  }

  /** A subscribe succeeds exactly if there is a connection, a channel and a consumer; its handle is fresh, and
      registered with an empty buffer. */
  lemma SubscribesExactlyWhen(f: Faults, w: World)
    requires ValidWorld(w)
    ensures var (w', r), ch := Subscribe(f, w), w.adapter.client.nextChan;
            && (r.Ok? <==> w.adapter.connection.Some? && !(f.channel)(ch) && !(f.consume)(ch))
            && (r.Err? ==> SameHandles(w, w'))
            && (r.Ok? ==>
                  && r.value !in w.adapter.channels && r.value !in w.coordinator.registry
                  && w'.adapter.channels == w.adapter.channels[r.value := ch]
                  && ch in w'.adapter.client.open && w'.coordinator == Register(w.coordinator, r.value))
  {
  }

  /** Failure publishes nothing. */
  lemma FailurePublishesNothing(f: Faults, w: World, supported: bool, c: Command, generated: string)
    requires SendWithReply(f, w, supported, c, generated).1.Err?
    ensures SendWithReply(f, w, supported, c, generated).0.adapter.client.published == w.adapter.client.published
  {
  }

  /** A failed send-with-reply leaves both handle sets as before if and only if no handle had been drawn yet, or
      the message could be built and the cleanup's close does not throw. */
  lemma FailureRestoresExactlyWhen(f: Faults, w: World, supported: bool, c: Command, generated: string)
    requires ValidWorld(w)
    requires SendWithReply(f, w, supported, c, generated).1.Err?
    ensures var w' := SendWithReply(f, w, supported, c, generated).0;
            SameHandles(w, w') <==>
              || !supported || Attach(f, w.adapter, true).1.Err?
              || (MessageOf(c, "", generated).Ok? && !(f.close)(w.adapter.client.nextChan))
  {
    var (a, attached) := Attach(f, w.adapter, true);
    if supported && attached.Ok? {
      var h, ch := attached.value, w.adapter.client.nextChan;
      assert h !in w.adapter.channels && h !in w.coordinator.registry;
      var built := MessageOf(c, (f.queueName)(ch), generated);
      assert built.Ok? <==> MessageOf(c, "", generated).Ok?;
      if built.Ok? {
        var (a2, sent) := Publish(f, a, built.value);
        assert a2.channels == a.channels && a.channels - {h} == w.adapter.channels;
        assert Register(w.coordinator, h).registry - {h} == w.coordinator.registry;
      } else {
        assert h in a.channels;
      }
    }
  }

  /** What that leaves open: a blank payload is refused only after the handle is registered, and stays so. */
  lemma BlankPayloadLeavesHandleRegistered(f: Faults, w: World, c: Command, generated: string)
    requires ValidWorld(w) && Attach(f, w.adapter, true).1.Ok?
    requires c.payload.Some? && NetBlank(c.payload.value)
    ensures var (w', r) := SendWithReply(f, w, true, c, generated);
            var h := w.adapter.nextHandle;
            r.Err? && h in w'.adapter.channels && h in w'.coordinator.registry
            && !SameHandles(w, w')
  {
    assert w.adapter.nextHandle !in w.adapter.channels;
  }

  // ---- the use cases themselves ----

  class UseCaseHost {
    const adapter: RabbitMqAdapter
    const coordinator: SubscriptionCoordinator

    ghost function View(): World
      reads this, adapter, coordinator
    {
      World(adapter.View(), coordinator.View())
    }

    ghost predicate Valid()
      reads this, adapter, coordinator
    {
      adapter.Valid() && coordinator.Valid() && ValidWorld(View())
    }

    constructor (adapter: RabbitMqAdapter, coordinator: SubscriptionCoordinator)
      requires adapter.Valid() && coordinator.Valid() && ValidWorld(World(adapter.View(), coordinator.View()))
      ensures Valid() && this.adapter == adapter && this.coordinator == coordinator
    {
      this.adapter, this.coordinator := adapter, coordinator;
    }

    method HandleSubscribe() returns (r: Result<Handle>)
      requires Valid()
      modifies adapter, coordinator
      ensures Valid() && (View(), r) == Subscribe(adapter.faults, old(View()))
    {
      SubscribeKeepsValid(adapter.faults, View());
      r := adapter.Subscribe();
      if r.Ok? {
        coordinator.RegisterHandle(r.value);
      }
    }

    method HandleUnsubscribe(h: Handle) returns (r: Result<()>)
      requires Valid()
      modifies adapter, coordinator
      ensures Valid() && (View(), r) == Unsubscribe(adapter.faults, old(View()), h)
    {
      UnsubscribeKeepsValid(adapter.faults, View(), h);
      r := adapter.Unsubscribe(h);
      if r.Ok? {
        coordinator.UnregisterHandle(h);
      }
    }

    method HandleSendWithReply(c: Command, generated: string) returns (r: Result<SendWithReplyResult>)
      requires Valid()
      modifies adapter, coordinator
      ensures Valid()
      ensures (View(), r) == SendWithReply(adapter.faults, old(View()), adapter.supportsRequestReply, c, generated)
    {
      SendWithReplyKeepsValid(adapter.faults, View(), adapter.supportsRequestReply, c, generated);
      if !adapter.supportsRequestReply {
        return Err(NotSupported);
      }
      var declared := adapter.DeclareTemporaryReplyQueueAndSubscribe();
      if declared.Err? {
        return Err(declared.error);
      }
      var (h, queueName) := declared.value;
      coordinator.RegisterHandle(h);

      var correlationId := CorrelationOf(c, generated);
      var message := Construct(c.target, c.routingKey, c.payload, Some(queueName), Some(correlationId), c.headers);
      if message.Err? {
        return Err(message.error);
      }

      var sent := adapter.Send(message.value);
      if sent.Err? {
        var closed := adapter.Unsubscribe(h);
        if closed.Err? {
          return Err(closed.error);
        }
        coordinator.UnregisterHandle(h);
        return Err(sent.error);
      }
      r := Ok(SendWithReplyResult(h, correlationId));
    }
  }
}
