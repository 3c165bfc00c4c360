/** The client's message store (frontend/src/app/core/bus-hub.service.ts): newest first, each message
    stamped with an increasing number at receipt. */
module HubService {
  import opened Domain

  datatype Received = Received(dto: MessageReceivedDto, stamp: nat)

  datatype Hub = Hub(messages: seq<Received>, nextSeq: nat)

  /** The messages not of subscription `id`, in order. */
  function Except(ms: seq<Received>, id: Handle): seq<Received> {
    if ms == [] then [] else
      (if ms[0].dto.subscriptionId == id then [] else [ms[0]]) + Except(ms[1..], id)
  }

  /** The messages of subscription `id`, in order. */
  function Of(ms: seq<Received>, id: Handle): seq<Received> {
    if ms == [] then [] else
      (if ms[0].dto.subscriptionId == id then [ms[0]] else []) + Of(ms[1..], id)
  }

  function Receive(hub: Hub, dto: MessageReceivedDto): Hub {
    Hub([Received(dto, hub.nextSeq)] + hub.messages, hub.nextSeq + 1)
  }

  function ClearSubscription(hub: Hub, id: Handle): Hub {
    hub.(messages := Except(hub.messages, id))
  }

  /** Strictly decreasing stamps below `bound`. */
  predicate Decreasing(ms: seq<Received>, bound: nat) {
    (forall i :: 0 <= i < |ms| ==> ms[i].stamp < bound)
    && (forall i, j :: 0 <= i < j < |ms| ==> ms[i].stamp > ms[j].stamp)
  }

  /** Clearing one subscription empties it and leaves every other list as it was, order included. */
  lemma {:induction false} ClearIsLocal(ms: seq<Received>, id: Handle, other: Handle)
    ensures Of(Except(ms, id), id) == []
    ensures other != id ==> Of(Except(ms, id), other) == Of(ms, other)
  {
    if ms != [] {
      ClearIsLocal(ms[1..], id, other);
      var kept := Except(ms[1..], id);
      assert ([ms[0]] + kept)[1..] == kept;
      assert [] + kept == kept;
    }
  }

  lemma {:induction false} ExceptMembers(ms: seq<Received>, id: Handle)
    ensures forall r :: r in Except(ms, id) <==> r in ms && r.dto.subscriptionId != id
  {
    if ms != [] {
      ExceptMembers(ms[1..], id);
      assert ms == [ms[0]] + ms[1..];
    }
  }

  lemma {:induction false} OfMembers(ms: seq<Received>, id: Handle)
    ensures forall r :: r in Of(ms, id) <==> r in ms && r.dto.subscriptionId == id
  {
    if ms != [] {
      OfMembers(ms[1..], id);
      assert ms == [ms[0]] + ms[1..];
    }
  }

  datatype ConnectionState = Idle | Connecting | Connected | Reconnecting | Disconnected

  datatype StartPromise = NotStarted | Pending | Resolved | Rejected

  class BusHubService {
    var messages: seq<Received>
    var version: nat      // how often the messages signal was set
    var nextSeq: nat
    var connectionState: ConnectionState
    var startPromise: StartPromise
    var startCalls: nat   // how often the underlying connection was started

    ghost function View(): Hub
      reads this
    {
      Hub(messages, nextSeq)
    }

    ghost predicate Valid()
      reads this
    {
      startCalls == (if startPromise == NotStarted then 0 else 1)
    }

    constructor ()
      ensures Valid() && View() == Hub([], 0) && version == 0
      ensures startPromise == NotStarted && connectionState == Idle
    {
      messages, version, nextSeq, connectionState := [], 0, 0, Idle;
      startPromise, startCalls := NotStarted, 0;
    }

    method OnMessageReceived(dto: MessageReceivedDto)
      requires Valid()
      modifies this`messages, this`version, this`nextSeq
      ensures Valid() && View() == Receive(old(View()), dto) && version == old(version) + 1
    {
      var received := Received(dto, nextSeq);
      nextSeq := nextSeq + 1;
      messages, version := [received] + messages, version + 1;
    }

    method ClearMessages(id: Handle)
      requires Valid()
      modifies this`messages, this`version
      ensures Valid() && View() == ClearSubscription(old(View()), id) && version == old(version) + 1
    {
      messages, version := Except(messages, id), version + 1;
    }

    /** Idempotent: only the first call starts the connection, whatever became of that start. */
    method Start()
      requires Valid()
      modifies this
      ensures Valid() && View() == old(View()) && version == old(version) && startCalls == 1
      ensures old(startPromise) != NotStarted ==>
                startPromise == old(startPromise) && connectionState == old(connectionState)
      ensures old(startPromise) == NotStarted ==> startPromise == Pending && connectionState == Connecting
    {
      if startPromise == NotStarted {
        connectionState := Connecting;
        startPromise := Pending;
        startCalls := startCalls + 1;
      }
    }

    method StartSettles(ok: bool)
      requires Valid() && startPromise == Pending
      modifies this
      ensures Valid() && View() == old(View()) && version == old(version)
      ensures connectionState == (if ok then Connected else Disconnected)
      ensures startPromise == (if ok then Resolved else Rejected)
    {
      connectionState := if ok then Connected else Disconnected;
      startPromise := if ok then Resolved else Rejected;
    }
  }
}
