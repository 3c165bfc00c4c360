/** The live feed (frontend/src/app/features/messages/messages.component.ts): chips, the reply panel,
    pausing, and which rows are new, as a state machine over user actions, pushes and reads. */
module Feed {
  import opened Basics
  import opened Domain
  import opened HubService

  datatype Chip = Chip(id: Handle, queueName: string)

  datatype Reply = Reply(subscriptionId: Handle, correlationId: string)

  /** The linked signal: what it was computed from and what it gave. */
  datatype Source = Source(paused: bool, rows: seq<Received>)

  datatype Display = Display(rows: seq<Received>, newSeqs: set<nat>)

  datatype Memo = Memo(source: Source, value: Display)

  /** `posts` are the subscribe requests in flight; `dirty` says a dependency of the linked signal was set
      since it was last computed. */
  datatype Core = Core(
    hub: Hub, chips: seq<Chip>, replies: seq<Reply>, posts: seq<string>,
    paused: bool, memo: Option<Memo>, dirty: bool)

  function Ids(chips: seq<Chip>): set<Handle> {
    set c | c in chips :: c.id
  }

  function Visible(ms: seq<Received>, ids: set<Handle>): seq<Received> {
    if ms == [] then [] else
      (if ms[0].dto.subscriptionId in ids then [ms[0]] else []) + Visible(ms[1..], ids)
  }

  function VisibleMessages(c: Core): seq<Received> {
    Visible(c.hub.messages, Ids(c.chips))
  }

  function Stamps(rows: seq<Received>): set<nat> {
    set r | r in rows :: r.stamp
  }

  /** The linked signal's computation. */
  function Compute(current: Source, previous: Option<Memo>): Display {
    if current.paused then
      if previous.Some? then previous.value.value else Display(current.rows, {})
    else if previous.Some? && previous.value.source.paused then
      Display(current.rows, {})
    else
      var seen := if previous.Some? then Stamps(previous.value.value.rows) else {};
      Display(current.rows, Stamps(current.rows) - seen)
  }

  function RemoveChip(chips: seq<Chip>, id: Handle): seq<Chip> {
    if chips == [] then [] else (if chips[0].id == id then [] else [chips[0]]) + RemoveChip(chips[1..], id)
  }

  function RemoveReply(replies: seq<Reply>, id: Handle): seq<Reply> {
    if replies == [] then [] else
      (if replies[0].subscriptionId == id then [] else [replies[0]]) + RemoveReply(replies[1..], id)
  }

  predicate HasQueue(chips: seq<Chip>, name: string) {
    exists c :: c in chips && c.queueName == name
  }

  datatype Step =
    | Push(dto: MessageReceivedDto)
    | Post(queueName: string)                        // subscribeToQueue
    | Subscribed(i: nat, id: Handle)                 // the answer to the i-th request in flight
    | PostFails(i: nat)
    | Unsubscribed(id: Handle)                       // finishUnsubscribe, whatever the server answered
    | ReplyAdded(id: Handle, correlationId: string)  // a send-with-reply was answered
    | ReplyRemoved(id: Handle)                       // finishUnsubscribeReply
    | TogglePause
    | Read                                           // the rendered rows are read

  function Drop<T>(s: seq<T>, i: nat): seq<T>
    requires i < |s|
  {
    s[..i] + s[i + 1..]
  }

  predicate WillRecompute(c: Core) {
    c.memo.None? || c.dirty
  }

  function Recomputed(c: Core): Memo {
    var source := Source(c.paused, VisibleMessages(c));
    Memo(source, Compute(source, c.memo))
  }

  function ApplyCore(c: Core, step: Step): Core {
    match step
    case Push(dto) => c.(hub := Receive(c.hub, dto), dirty := true)
    case Post(name) => if HasQueue(c.chips, name) then c else c.(posts := c.posts + [name])
    case Subscribed(i, id) =>
      if i < |c.posts| then c.(posts := Drop(c.posts, i), chips := c.chips + [Chip(id, c.posts[i])], dirty := true) else c
    case PostFails(i) => if i < |c.posts| then c.(posts := Drop(c.posts, i)) else c
    case Unsubscribed(id) =>
      c.(hub := ClearSubscription(c.hub, id), chips := RemoveChip(c.chips, id), dirty := true)
    case ReplyAdded(id, corr) => c.(replies := c.replies + [Reply(id, corr)])
    case ReplyRemoved(id) =>
      c.(hub := ClearSubscription(c.hub, id), replies := RemoveReply(c.replies, id), dirty := true)
    case TogglePause => c.(paused := !c.paused, dirty := true)
    case Read => if WillRecompute(c) then c.(memo := Some(Recomputed(c)), dirty := false) else c
  }

  /** What happened, for the statements only: every recomputation, what every read showed, the ids the server
      handed out, whether one came twice, and whether two requests for one queue were in flight at once. */
  datatype Session = Session(
    core: Core, computed: seq<Memo>, shown: seq<seq<Received>>,
    issued: set<Handle>, reissued: bool, overlapped: bool)

  function IssuedBy(c: Core, step: Step): set<Handle> {
    match step
    case Subscribed(i, id) => if i < |c.posts| then {id} else {}
    case ReplyAdded(id, _) => {id}
    case _ => {}
  }

  function Apply(s: Session, step: Step): Session {
    var c := ApplyCore(s.core, step);
    var ids := IssuedBy(s.core, step);
    Session(
      c,
      if step.Read? && WillRecompute(s.core) then s.computed + [Recomputed(s.core)] else s.computed,
      if step.Read? then s.shown + [c.memo.value.value.rows] else s.shown,
      s.issued + ids,
      s.reissued || ids * s.issued != {},
      s.overlapped || (step.Post? && step.queueName in s.core.posts))
  }

  const EMPTY := Session(Core(Hub([], 0), [], [], [], false, None, false), [], [], {}, false, false)

  function Run(steps: seq<Step>): Session {
    if steps == [] then EMPTY else Apply(Run(Init(steps)), Last(steps))
  }

  // ---- the search box ----

  function TrimStart(s: string): string {
    if s != "" && JsSpace(s[0]) then TrimStart(s[1..]) else s
  }

  function TrimEnd(s: string): string {
    if s != "" && JsSpace(Last(s)) then TrimEnd(Init(s)) else s
  }

  function Trim(s: string): string { TrimEnd(TrimStart(s)) }

  predicate OccursAt(s: string, term: string, i: nat) {
    i + |term| <= |s| && s[i..i + |term|] == term
  }

  predicate Includes(s: string, term: string) {
    exists i :: 0 <= i <= |s| && OccursAt(s, term, i)
  }

  predicate Matches(lower: string -> string, r: Received, term: string) {
    Includes(lower(r.dto.payload), term) || Includes(lower(r.dto.routingKey), term) || Includes(lower(r.dto.exchange), term)
  }

  function Search(lower: string -> string, rows: seq<Received>, term: string): seq<Received> {
    if rows == [] then [] else
      (if Matches(lower, rows[0], term) then [rows[0]] else []) + Search(lower, rows[1..], term)
  }

  /** `filteredMessages`, over the rows displayed. */
  function Filtered(lower: string -> string, rows: seq<Received>, searchTerm: string): seq<Received> {
    var term := lower(Trim(searchTerm));
    if term == "" then rows else Search(lower, rows, term)
  }

  // ---- chips and the reply panel ----

  function ChipCounts(ms: seq<Received>, chips: seq<Chip>): seq<nat> {
    if chips == [] then [] else ChipCounts(ms, Init(chips)) + [|Of(ms, Last(chips).id)|]
  }

  function Sum(ns: seq<nat>): nat {
    if ns == [] then 0 else Sum(Init(ns)) + Last(ns)
  }

  /** One entry of the reply panel: both the subscription and the correlation id must match. */
  function RepliesTo(ms: seq<Received>, p: Reply): seq<Received> {
    if ms == [] then [] else
      (if ms[0].dto.subscriptionId == p.subscriptionId && ms[0].dto.correlationId == Some(p.correlationId) then [ms[0]] else [])
      + RepliesTo(ms[1..], p)
  }
}
