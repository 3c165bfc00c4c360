/** The RabbitMQ adapter with its operations run one at a time (src/BusTester.Infrastructure/RabbitMqAdapter.cs):
    one connection, one channel per subscription, and a broker client that may refuse any call. */
module Adapters {
  import opened Basics
  import opened Domain


  /** Which calls of the broker client fail, by the connection, channel or exchange they are made on. */
  datatype Faults = Faults(
    connect: Conn -> bool, channel: Chan -> bool, declare: Chan -> bool, consume: Chan -> bool,
    close: Chan -> bool, disconnect: Conn -> bool, exchange: string -> bool, publish: Chan -> bool,
    queueName: Chan -> string)

  datatype Client = Client(nextConn: Conn, nextChan: Chan, home: map<Chan, Conn>, open: set<Chan>, published: seq<BusMessage>)

  datatype State = State(connection: Option<Conn>, channels: map<Handle, Chan>, nextHandle: Handle, client: Client)

  /** Every open channel and every registered one belongs to the current connection; handles are drawn fresh. */
  predicate ValidState(s: State) {
    && (forall ch :: ch in s.client.home ==> ch < s.client.nextChan)
    && (forall ch :: ch in s.client.open ==> ch in s.client.home && s.connection == Some(s.client.home[ch]))
    && (forall h :: h in s.channels ==>
          s.channels[h] in s.client.home && s.connection == Some(s.client.home[s.channels[h]]) && h < s.nextHandle)
    && (s.connection.Some? ==> s.connection.value < s.client.nextConn)
  }

  function Opened(s: State, ch: Chan): State
    requires s.connection.Some?
  {
    s.(client := s.client.(nextChan := s.client.nextChan + 1, home := s.client.home[ch := s.connection.value],
                           open := s.client.open + {ch}))
  }

  /** Create a channel, wire a consumer, register: shared by both ways to subscribe. `declares` is the
      temporary reply queue's declaration in between. A channel whose consumer was refused stays open,
      unregistered, until its connection goes. */
  function Attach(f: Faults, s: State, declares: bool): (State, Result<Handle>) {
    var ch := s.client.nextChan;
    if s.connection.None? then (s, Err(ConnectionError))
    else if (f.channel)(ch) then (s, Err(SubscriptionError))
    else if (declares && (f.declare)(ch)) || (f.consume)(ch) then (Opened(s, ch), Err(SubscriptionError))
    else
      var h := s.nextHandle;
      (Opened(s, ch).(channels := s.channels[h := ch], nextHandle := h + 1), Ok(h))
  }

  /** `UnsubscribeAsync`: out of the map first, then closed; a close that throws leaves the channel open. */
  function Detach(f: Faults, s: State, h: Handle): (State, Result<()>) {
    if h !in s.channels then (s, Ok(()))
    else
      var s' := s.(channels := s.channels - {h});
      if (f.close)(s.channels[h]) then (s', Err(CloseError))
      else (s'.(client := s'.client.(open := s'.client.open - {s.channels[h]})), Ok(()))
  }

  /** `SendAsync`: on a channel of its own, disposed whatever happens; the default exchange is never
      declared passively. */
  function Publish(f: Faults, s: State, m: BusMessage): (State, Result<()>) {
    var ch := s.client.nextChan;
    if m.routingKey.None? || NetBlank(m.routingKey.value) then (s, Err(ArgumentError))
    else if s.connection.None? then (s, Err(ConnectionError))
    else if (f.channel)(ch) then (s, Err(PublishError))
    else
      var s' := s.(client := s.client.(nextChan := ch + 1, home := s.client.home[ch := s.connection.value]));
      if (m.target != "" && (f.exchange)(m.target)) || (f.publish)(ch) then (s', Err(PublishError))
      else (s'.(client := s'.client.(published := s.client.published + [m])), Ok(()))
  }

  lemma AttachKeepsValid(f: Faults, s: State, declares: bool)
    requires ValidState(s)
    ensures ValidState(Attach(f, s, declares).0)
  {
  }

  lemma DetachKeepsValid(f: Faults, s: State, h: Handle)
    requires ValidState(s)
    ensures ValidState(Detach(f, s, h).0)
  {
  }

  lemma PublishKeepsValid(f: Faults, s: State, m: BusMessage)
    requires ValidState(s)
    ensures ValidState(Publish(f, s, m).0)
  {
  }

  /** Undoing a subscription restores the map, and closes its channel, exactly when the close does not throw. */
  lemma DetachUndoesAttach(f: Faults, s: State, declares: bool)
    requires ValidState(s) && Attach(f, s, declares).1.Ok?
    ensures var (s1, r) := Attach(f, s, declares);
            var (s2, closed) := Detach(f, s1, r.value);
            && s2.channels == s.channels && s2.connection == s.connection
            && (closed.Ok? <==> s2.client.open == s.client.open)
            && (closed.Ok? <==> !(f.close)(s.client.nextChan))
  {
    var (s1, r) := Attach(f, s, declares);
    assert s.nextHandle !in s.channels;
    assert s1.channels - {r.value} == s.channels;
    assert s.client.nextChan !in s.client.open;
    assert (s.client.open + {s.client.nextChan}) - {s.client.nextChan} == s.client.open;
  }

  /** Some registered channel still open throws on close. */
  predicate CloseWillThrow(f: Faults, s: State) {
    exists h :: h in s.channels && s.channels[h] in s.client.open && (f.close)(s.channels[h])
  }

  /** A teardown goes through: no open registered channel refuses to close, nor does the connection. */
  predicate TearsDown(f: Faults, s: State) {
    !CloseWillThrow(f, s) && (s.connection.Some? ==> !(f.disconnect)(s.connection.value))
  }

  /** What `TeardownAsync` leaves. When it returns, nothing of the earlier connection; when it throws, either a
      channel refused to close, only some others are closed and the map is untouched, or the connection refused
      and only it remains. */
  predicate TornDown(f: Faults, s: State, s': State, r: Result<()>) {
    && s'.nextHandle == s.nextHandle && s'.client == s.client.(open := s'.client.open)
    && (r.Ok? <==> TearsDown(f, s))
    && (r.Ok? ==> s'.channels == map[] && s'.connection == None && s'.client.open == {})
    && (r.Err? ==> r.error == CloseError && s'.connection == s.connection
                   && s'.channels == (if CloseWillThrow(f, s) then s.channels else map[]))
    && (r.Err? && !CloseWillThrow(f, s) ==> s'.client.open == s.client.open - s.channels.Values)
    && (r.Err? ==> ClosesSome(f, s, s'.client.open))
  }

  /** Only registered channels that do not refuse are closed. */
  predicate ClosesSome(f: Faults, s: State, open: set<Chan>) {
    && open <= s.client.open
    && (forall ch :: ch in s.client.open && ch !in open ==> ch in s.channels.Values && !(f.close)(ch))
  }

  /** What `ConnectAsync` leaves: a failed teardown's state, or an empty map, no open channel, and a connection
      never used before, or none if it was refused. */
  predicate Connected(f: Faults, s: State, s': State, r: Result<()>) {
    var conn := s.client.nextConn;
    if !TearsDown(f, s) then TornDown(f, s, s', r)
    else
      && s' == s.(connection := if (f.connect)(conn) then None else Some(conn), channels := map[],
                  client := s.client.(nextConn := conn + 1, open := {}))
      && (if (f.connect)(conn) then r == Err(ConnectionError) else r.Ok?)
  }

  class RabbitMqAdapter {
    const faults: Faults
    const supportsRequestReply: bool
    var connection: Option<Conn>
    var channels: map<Handle, Chan>
    var nextHandle: Handle      // the handle the next Guid.NewGuid() will be
    var client: Client

    ghost function View(): State
      reads this
    {
      State(connection, channels, nextHandle, client)
    }

    ghost predicate Valid()
      reads this
    {
      ValidState(View())
    }

    constructor (faults: Faults, supportsRequestReply: bool)
      ensures Valid() && View() == State(None, map[], 0, Client(0, 0, map[], {}, []))
      ensures this.faults == faults && this.supportsRequestReply == supportsRequestReply
    {
      this.faults, this.supportsRequestReply := faults, supportsRequestReply;
      connection, channels, nextHandle := None, map[], 0;
      client := Client(0, 0, map[], {}, []);
    }

    /** Closes every subscription channel; the map is cleared only if none of them throws. */
    method CloseChannels() returns (r: Result<()>)
      requires Valid()
      modifies this`channels, this`client
      ensures Valid()
      ensures r.Err? <==> CloseWillThrow(faults, old(View()))
      ensures r.Err? ==> r.error == CloseError
      ensures channels == if r.Ok? then map[] else old(channels)
      ensures client == old(client).(open := client.open) && client.open <= old(client.open)
      ensures r.Ok? ==> client.open == old(client.open) - old(channels.Values)
      ensures ClosesSome(faults, old(View()), client.open)
    {
      var rest := channels.Keys;
      while rest != {}
        invariant rest <= channels.Keys && channels == old(channels)
        invariant Valid()
        invariant client == old(client).(open := client.open)
        invariant forall ch :: ch in client.open <==>
          ch in old(client.open) && !(exists h :: h in channels && h !in rest && channels[h] == ch)
        invariant forall h :: h in channels && h !in rest ==>
          !(channels[h] in old(client.open) && (faults.close)(channels[h]))
        decreases rest
      {
        var h :| h in rest;
        var ch := channels[h];
        if ch in client.open {
          if (faults.close)(ch) {
            return Err(CloseError);
          }
        }
        client := client.(open := client.open - {ch});
        rest := rest - {h};
      }
      channels := map[];
      r := Ok(());
    }

    /** `TeardownAsync`. */
    method Teardown() returns (r: Result<()>)
      requires Valid()
      modifies this
      ensures Valid() && TornDown(faults, old(View()), View(), r)
    {
      r := CloseChannels();
      if r.Err? || connection.None? {
        return;
      }
      if (faults.disconnect)(connection.value) {
        return Err(CloseError);
      }
      client := client.(open := {});
      connection := None;
    }

    /** `ConnectAsync`: tears the old connection down first. */
    method Connect() returns (r: Result<()>)
      requires Valid()
      modifies this
      ensures Valid() && Connected(faults, old(View()), View(), r)
    {
      r := Teardown();
      if r.Err? {
        return;
      }
      var conn := client.nextConn;
      client := client.(nextConn := conn + 1);
      if (faults.connect)(conn) {
        return Err(ConnectionError);
      }
      connection := Some(conn);
    }

    method Subscribe() returns (r: Result<Handle>)
      requires Valid()
      modifies this
      ensures Valid() && (View(), r) == Attach(faults, old(View()), false)
    {
      r := AttachChannel(false);
    }

    method DeclareTemporaryReplyQueueAndSubscribe() returns (r: Result<(Handle, string)>)
      requires Valid()
      modifies this
      ensures Valid() && View() == Attach(faults, old(View()), true).0
      ensures var a := Attach(faults, old(View()), true).1;
              r == if a.Ok? then Ok((a.value, (faults.queueName)(old(client.nextChan)))) else Err(a.error)
    {
      var name := (faults.queueName)(client.nextChan);
      var a := AttachChannel(true);
      r := if a.Ok? then Ok((a.value, name)) else Err(a.error);
    }

    method AttachChannel(declares: bool) returns (r: Result<Handle>)
      requires Valid()
      modifies this
      ensures Valid() && (View(), r) == Attach(faults, old(View()), declares)
    {
      if connection.None? {
        return Err(ConnectionError);
      }
      var ch := client.nextChan;
      if (faults.channel)(ch) {
        return Err(SubscriptionError);
      }
      client := client.(nextChan := ch + 1, home := client.home[ch := connection.value], open := client.open + {ch});
      if (declares && (faults.declare)(ch)) || (faults.consume)(ch) {
        return Err(SubscriptionError);
      }
      var h := nextHandle;
      channels, nextHandle := channels[h := ch], h + 1;
      r := Ok(h);
    }

    method Unsubscribe(h: Handle) returns (r: Result<()>)
      requires Valid()
      modifies this
      ensures Valid() && (View(), r) == Detach(faults, old(View()), h)
    {
      if h !in channels {
        return Ok(());
      }
      var ch := channels[h];
      channels := channels - {h};
      if (faults.close)(ch) {
        return Err(CloseError);
      }
      client := client.(open := client.open - {ch});
      r := Ok(());
    }

    method Send(m: BusMessage) returns (r: Result<()>)
      requires Valid()
      modifies this`client
      ensures Valid() && (View(), r) == Publish(faults, old(View()), m)
    {
      if m.routingKey.None? || NetBlank(m.routingKey.value) {
        return Err(ArgumentError);
      }
      if connection.None? {
        return Err(ConnectionError);
      }
      var ch := client.nextChan;
      if (faults.channel)(ch) {
        return Err(PublishError);
      }
      client := client.(nextChan := ch + 1, home := client.home[ch := connection.value]);
      if m.target != "" && (faults.exchange)(m.target) {
        return Err(PublishError);
      }
      if (faults.publish)(ch) {
        return Err(PublishError);
      }
      client := client.(published := client.published + [m]);
      r := Ok(());
    }
  }
}
