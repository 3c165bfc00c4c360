/** The send panel (frontend/src/app/features/send/send.component.ts) as a state machine: user handlers,
    HTTP answers, and flushes of the effect that applies a reply draft. Every list of steps is a run. */
module SendPanel {
  import opened Basics
  import opened Domain
  import opened Headers
  import H = SendHistory
  import F = Feed

  datatype ReplyTarget = ReplyTarget(routingKey: string, correlationId: Option<string>)

  /** The correlation id a reply to a target starts with. */
  function ReplyCorrelation(target: ReplyTarget): string {
    if target.correlationId.Some? then target.correlationId.value else ""
  }

  datatype Draft = Draft(target: ReplyTarget, stamp: nat)

  datatype Snapshot = Snapshot(exchange: string, routingKey: string, payload: string, headers: Record)

  const EMPTY_SNAPSHOT := Snapshot("", "", "", [])

  datatype Field = ExchangeField | RoutingKeyField | PayloadField

  const ALL_FIELDS := {ExchangeField, RoutingKeyField, PayloadField}

  /** What is posted; `withReply` tells the endpoint. A null correlation id is a key left out. */
  datatype Body = Body(
    exchange: string, routingKey: string, payload: string, headers: Record,
    correlationId: Option<string>, withReply: bool)

  datatype Panel = Panel(
    exchange: string, routingKey: string, payload: string, touched: set<Field>, templateName: string,
    expectReply: bool, replyMode: bool, correlationId: string, headers: Fields,
    lastAppliedDraftSeq: nat, lastAppliedSnapshot: Snapshot,
    draft: Option<Draft>, effectDue: bool, inFlight: seq<Body>, history: H.History)

  function Opened(storage: H.Storage): Panel {
    Panel("", "", "", {}, "", false, false, "", NO_HEADERS, 0, EMPTY_SNAPSHOT, None, true, [], H.Load(storage))
  }

  /** The editable form as the dirty check sees it. */
  function Current(p: Panel): Snapshot {
    Snapshot(p.exchange, p.routingKey, p.payload, Resolve(p.headers))
  }

  predicate IsDirty(p: Panel) { Current(p) != p.lastAppliedSnapshot }

  function Capture(p: Panel): Panel { p.(lastAppliedSnapshot := Current(p)) }

  predicate ExchangeError(p: Panel) {
    !(p.replyMode && p.exchange == "") && JsBlank(p.exchange)
  }

  predicate HasErrors(p: Panel) {
    ExchangeError(p) || JsBlank(p.payload) || (p.routingKey != "" && JsBlank(p.routingKey))
  }

  datatype HeaderEdit =
    | SetEnabled(on: bool)
    | SetComun(key: string, value: string)    // one of the five named fields
    | AddRow
    | RemoveRow(i: nat)
    | SetRowKey(i: nat, key: string)
    | SetRowValue(i: nat, value: string)

  function EditHeaders(f: Fields, e: HeaderEdit): Fields {
    match e
    case SetEnabled(on) => f.(enabled := on)
    case SetComun(key, v) =>
      if key == TIPO_MENSAJE then f.(tipoMensaje := v)
      else if key == CONTENT_TYPE then f.(contentType := v)
      else if key == INTENCION then f.(intencion := v)
      else if key == MESSAGE_ID then f.(messageId := v)
      else if key == CORRELATION_ID then f.(correlationId := v)
      else f
    case AddRow => f.(rows := f.rows + [Entry("", "")])
    case RemoveRow(i) => if i < |f.rows| then f.(rows := f.rows[..i] + f.rows[i + 1..]) else f
    case SetRowKey(i, key) => if i < |f.rows| then f.(rows := f.rows[i := f.rows[i].(key := key)]) else f
    case SetRowValue(i, v) => if i < |f.rows| then f.(rows := f.rows[i := f.rows[i].(value := v)]) else f
  }

  datatype Step =
    | ExchangeInput(value: string)
    | RoutingKeyInput(value: string)
    | PayloadInput(value: string)
    | CorrelationInput(value: string)
    | ExpectReply(on: bool)
    | TemplateName(value: string)
    | Blur(field: Field)
    | Edit(edit: HeaderEdit)
    | Send
    | Answered(i: nat, ok: bool, now: string)       // the answer to the i-th request in flight
    | UseRecent(entry: H.RecentSend)
    | UseTemplate(template: H.SendTemplate)
    | SaveTemplate
    | DeleteTemplate(name: string)
    | Respond(target: ReplyTarget)                  // ReplyDraftService.request
    | ClearDraft                                    // ReplyDraftService.clear
    | FlushEffect(confirm: bool)                    // `confirm` is the user's answer, if asked

  function BodyOf(p: Panel): Body {
    var trimmed := F.Trim(p.correlationId);
    var correlationId := if !p.expectReply && p.replyMode && trimmed != "" then Some(trimmed) else None;
    Body(p.exchange, p.routingKey, p.payload, Resolve(p.headers), correlationId, p.expectReply)
  }

  /** `send`: nothing is posted while a field is in error. */
  function DoSend(p: Panel): Panel {
    if HasErrors(p) then p.(touched := ALL_FIELDS) else p.(inFlight := p.inFlight + [BodyOf(p)])
  }

  function RecordOf(b: Body, now: string): H.RecentSend {
    H.RecentSend(b.exchange, b.routingKey, b.payload, Some(b.headers), now)
  }

  /** A successful plain send is recorded and re-captures the form as it is when the answer comes. */
  function DoAnswer(p: Panel, i: nat, ok: bool, now: string): Panel
    requires i < |p.inFlight|
  {
    var b := p.inFlight[i];
    var p' := p.(inFlight := p.inFlight[..i] + p.inFlight[i + 1..]);
    if ok && !b.withReply then Capture(p'.(history := H.Apply(p.history, H.Record(RecordOf(b, now))))) else p'
  }

  function HeadersOf(stored: Option<Record>): Record {
    if stored.Some? then stored.value else []
  }

  /** `useRecent` and `useTemplate`. */
  function Fill(p: Panel, exchange: string, routingKey: string, payload: string, headers: Option<Record>): Panel {
    Capture(p.(replyMode := false, exchange := exchange, routingKey := routingKey, payload := payload,
               headers := Restore(HeadersOf(headers))))
  }

  function TemplateOf(p: Panel): H.SendTemplate {
    H.SendTemplate(p.templateName, p.exchange, p.routingKey, p.payload, Some(Resolve(p.headers)))
  }

  /** `applyReplyDraft`. */
  function ApplyDraft(p: Panel, d: Draft, confirm: bool): Panel {
    if d.stamp == p.lastAppliedDraftSeq then p
    else if IsDirty(p) && !confirm then p.(lastAppliedDraftSeq := d.stamp)
    else
      Capture(p.(lastAppliedDraftSeq := d.stamp, replyMode := true, exchange := "",
                 routingKey := d.target.routingKey,
                 correlationId := ReplyCorrelation(d.target),
                 payload := ""))
  }

  function Flush(p: Panel, confirm: bool): Panel {
    if !p.effectDue then p
    else
      var p' := p.(effectDue := false);
      if p.draft.None? then p' else ApplyDraft(p', p.draft.value, confirm)
  }

  function Request(p: Panel, target: ReplyTarget): Panel {
    var stamp := if p.draft.Some? then p.draft.value.stamp else 0;
    p.(draft := Some(Draft(target, stamp + 1)), effectDue := true)
  }

  function Apply(p: Panel, step: Step): Panel {
    match step
    case ExchangeInput(v) => p.(exchange := v, replyMode := false)
    case RoutingKeyInput(v) => p.(routingKey := v, replyMode := false)
    case PayloadInput(v) => p.(payload := v)
    case CorrelationInput(v) => p.(correlationId := v)
    case ExpectReply(on) => p.(expectReply := on)
    case TemplateName(v) => p.(templateName := v)
    case Blur(field) => p.(touched := p.touched + {field})
    case Edit(e) => p.(headers := EditHeaders(p.headers, e))
    case Send => DoSend(p)
    case Answered(i, ok, now) => if i < |p.inFlight| then DoAnswer(p, i, ok, now) else p
    case UseRecent(r) => Fill(p, r.exchange, r.routingKey, r.payload, r.headers)
    case UseTemplate(t) => Fill(p.(touched := ALL_FIELDS), t.exchange, t.routingKey, t.payload, t.headers)
    case SaveTemplate => p.(history := H.Apply(p.history, H.Save(TemplateOf(p))))
    case DeleteTemplate(name) => p.(history := H.Apply(p.history, H.Delete(name)))
    case Respond(target) => Request(p, target)
    case ClearDraft => p.(draft := None, effectDue := true)
    case FlushEffect(confirm) => Flush(p, confirm)
  }

  /** What happened, for the statements only: bodies posted and whether reply mode was on, drafts acted on,
      the target last applied, the history actions taken, the form last kept, and whether an answer came late. */
  datatype Posting = Posting(body: Body, replyMode: bool)

  datatype Session = Session(
    panel: Panel, posted: seq<Posting>, acted: seq<nat>, target: Option<ReplyTarget>, actions: seq<H.Action>,
    kept: Snapshot, late: bool)

  /** The form of a body or a recorded send. */
  function FormOf(b: Body): Snapshot { Snapshot(b.exchange, b.routingKey, b.payload, b.headers) }

  function EntryForm(e: H.RecentSend): Snapshot { Snapshot(e.exchange, e.routingKey, e.payload, HeadersOf(e.headers)) }

  /** A plain send succeeds. */
  predicate IsSent(p: Panel, step: Step) {
    step.Answered? && step.ok && step.i < |p.inFlight| && !p.inFlight[step.i].withReply
  }

  /** A plain send succeeds while the form is neither the one it posted nor the one kept last: there are edits. */
  predicate IsLate(s: Session, step: Step) {
    IsSent(s.panel, step) && Current(s.panel) != s.kept && Current(s.panel) != FormOf(s.panel.inFlight[step.i])
  }

  /** The program fills the form in: a recall or a reply draft. */
  predicate IsFilled(p: Panel, step: Step) {
    step.UseRecent? || step.UseTemplate? || (step.FlushEffect? && AppliesDraft(p, step.confirm))
  }

  /** The last form known to be kept elsewhere: at the opening, the one last filled in, or the one a successful
      answer says was sent, unless the form still is the one kept before. */
  function KeptAfter(s: Session, step: Step): Snapshot {
    if IsFilled(s.panel, step) then Current(Apply(s.panel, step))
    else if IsSent(s.panel, step) && Current(s.panel) != s.kept then FormOf(s.panel.inFlight[step.i])
    else s.kept
  }

  predicate ActsOnDraft(p: Panel) {
    p.effectDue && p.draft.Some? && p.draft.value.stamp != p.lastAppliedDraftSeq
  }

  predicate AppliesDraft(p: Panel, confirm: bool) {
    ActsOnDraft(p) && (!IsDirty(p) || confirm)
  }

  function ActionsOf(p: Panel, step: Step): seq<H.Action> {
    match step
    case Answered(i, ok, now) =>
      if i < |p.inFlight| && ok && !p.inFlight[i].withReply then [H.Record(RecordOf(p.inFlight[i], now))] else []
    case SaveTemplate => [H.Save(TemplateOf(p))]
    case DeleteTemplate(name) => [H.Delete(name)]
    case _ => []
  }

  function ApplySession(s: Session, step: Step): Session {
    var p := s.panel;
    Session(
      Apply(p, step),
      if step.Send? && !HasErrors(p) then s.posted + [Posting(BodyOf(p), p.replyMode)] else s.posted,
      if step.FlushEffect? && ActsOnDraft(p) then s.acted + [p.draft.value.stamp] else s.acted,
      if step.FlushEffect? && AppliesDraft(p, step.confirm) then Some(p.draft.value.target) else s.target,
      s.actions + ActionsOf(p, step),
      KeptAfter(s, step),
      if IsFilled(p, step) || IsSent(p, step) then IsLate(s, step) else s.late)
  }

  function Run(storage: H.Storage, steps: seq<Step>): Session {
    if steps == [] then Session(Opened(storage), [], [], None, [], EMPTY_SNAPSHOT, false)
    else ApplySession(Run(storage, Init(steps)), Last(steps))
  }

  ghost predicate Reachable(storage: H.Storage, s: Session) {
    exists steps :: Run(storage, steps) == s
  }

  lemma OpenReaches(storage: H.Storage)
    ensures Reachable(storage, Run(storage, []))
  {
  }

  lemma StepReaches(storage: H.Storage, s: Session, step: Step)
    requires Reachable(storage, s)
    ensures Reachable(storage, ApplySession(s, step))
  {
    var steps :| Run(storage, steps) == s;
    assert Init(steps + [step]) == steps && Last(steps + [step]) == step;
    assert Run(storage, steps + [step]) == ApplySession(s, step);
  }

  // ---- reply mode and what is posted ----

  predicate ReplyModeHolds(s: Session) {
    s.panel.replyMode ==>
      s.target.Some? && s.panel.exchange == "" && s.panel.routingKey == s.target.value.routingKey
  }

  /** In every run, reply mode means an exactly empty exchange and the routing key of the target last applied. */
  lemma {:induction false} ReplyModeImpliesTarget(storage: H.Storage, steps: seq<Step>)
    ensures ReplyModeHolds(Run(storage, steps))
  {
    if steps != [] {
      ReplyModeImpliesTarget(storage, Init(steps));
      ApplyKeepsReplyMode(Run(storage, Init(steps)), Last(steps));
    }
  }

  lemma ApplyKeepsReplyMode(s: Session, step: Step)
    requires ReplyModeHolds(s)
    ensures ReplyModeHolds(ApplySession(s, step))
  {
  }

  lemma {:induction false} TrimEndBlank(s: string)
    ensures F.TrimEnd(s) != "" ==> !JsSpace(Last(F.TrimEnd(s)))
  {
    if s != "" && JsSpace(Last(s)) {
      TrimEndBlank(Init(s));
    }
  }

  /** What the panel lets through. */
  predicate WellPosted(x: Posting) {
    var b := x.body;
    && !JsBlank(b.payload)
    && (if b.exchange == "" then x.replyMode else !JsBlank(b.exchange))
    && (b.routingKey == "" || !JsBlank(b.routingKey))
    && (b.correlationId.Some? ==> x.replyMode && !b.withReply && !JsBlank(b.correlationId.value))
    && Enumerated(b.headers) && AllSendable(b.headers)
  }

  lemma SendPostsWell(p: Panel)
    requires !HasErrors(p)
    ensures WellPosted(Posting(BodyOf(p), p.replyMode))
  {
    ResolvedIsSendable(p.headers);
    var start := F.TrimStart(p.correlationId);
    TrimEndBlank(start);
    var b := BodyOf(p);
    if b.correlationId.Some? {
      assert !JsSpace(b.correlationId.value[|b.correlationId.value| - 1]);
    }
    assert JsBlank("");
  }

  predicate WasPosted(posted: seq<Posting>, b: Body) {
    exists x :: x in posted && x.body == b
  }

  predicate PostsHold(s: Session) {
    && (forall x :: x in s.posted ==> WellPosted(x))
    && (forall b :: b in s.panel.inFlight ==> WasPosted(s.posted, b))
  }

  lemma SendKeepsPosts(s: Session)
    requires PostsHold(s) && !HasErrors(s.panel)
    ensures PostsHold(ApplySession(s, Send))
  {
    SendPostsWell(s.panel);
    var s', x := ApplySession(s, Send), Posting(BodyOf(s.panel), s.panel.replyMode);
    assert x in s'.posted;
    forall b | b in s'.panel.inFlight ensures WasPosted(s'.posted, b) {
      if b in s.panel.inFlight {
        var y :| y in s.posted && y.body == b;
        assert y in s'.posted;
      }
    }
  }

  lemma ApplyKeepsPosts(s: Session, step: Step)
    requires PostsHold(s)
    ensures PostsHold(ApplySession(s, step))
  {
    if step.Send? && !HasErrors(s.panel) {
      SendKeepsPosts(s);
    }
  }

  /** In every run, each posted body has a non-blank payload, an exchange that is not blank or empty in reply
      mode, and a correlation id only from reply mode and never blank. */
  lemma {:induction false} EveryPostIsWellFormed(storage: H.Storage, steps: seq<Step>)
    ensures PostsHold(Run(storage, steps))
  {
    if steps != [] {
      EveryPostIsWellFormed(storage, Init(steps));
      ApplyKeepsPosts(Run(storage, Init(steps)), Last(steps));
    }
  }

  /** The server's constructor accepts a posted body exactly when neither the exchange nor the payload is
      white space only to .NET: white space with a next-line character, which the browser does not trim. */
  lemma {:induction false} PostedIsAccepted(storage: H.Storage, steps: seq<Step>, i: nat, replyTo: Option<string>,
                                            correlationId: Option<string>, headers: map<string, string>)
    requires i < |Run(storage, steps).posted|
    ensures var b := Run(storage, steps).posted[i].body;
            Construct(Some(b.exchange), Some(b.routingKey), Some(b.payload), replyTo, correlationId, headers).Ok?
            <==> !NextLineBlank(b.exchange) && !NextLineBlank(b.payload)
  {
    EveryPostIsWellFormed(storage, steps);
    var x := Run(storage, steps).posted[i];
    assert x in Run(storage, steps).posted && WellPosted(x);
    BlankDiffers(x.body.payload);
    if x.body.exchange != "" {
      BlankDiffers(x.body.exchange);
    }
  }

  /** Such a body does get posted: this run sends a payload of one next-line character. */
  lemma NextLinePayloadIsPostedAndRefused(storage: H.Storage, replyTo: Option<string>, correlationId: Option<string>,
                                          headers: map<string, string>)
    ensures exists steps :: var posted := Run(storage, steps).posted;
              |posted| == 1
              && Construct(Some(posted[0].body.exchange), Some(posted[0].body.routingKey), Some(posted[0].body.payload),
                           replyTo, correlationId, headers).Err?
  {
    OpenReaches(storage);
    var s0 := Run(storage, []);
    StepReaches(storage, s0, ExchangeInput("orders"));
    var s1 := ApplySession(s0, ExchangeInput("orders"));
    StepReaches(storage, s1, PayloadInput([NEXT_LINE]));
    var s2 := ApplySession(s1, PayloadInput([NEXT_LINE]));
    StepReaches(storage, s2, Send);
    assert s2.panel == Opened(storage).(exchange := "orders", payload := [NEXT_LINE]) && s2.posted == [];
    NextLinePosts(storage, s2);
    var steps :| Run(storage, steps) == ApplySession(s2, Send);
  }

  lemma NextLinePosts(storage: H.Storage, s: Session)
    requires s.panel == Opened(storage).(exchange := "orders", payload := [NEXT_LINE]) && s.posted == []
    ensures var posted := ApplySession(s, Send).posted;
            |posted| == 1 && posted[0].body.payload == [NEXT_LINE] && NetBlank(posted[0].body.payload)
  {
    assert s.panel.payload[0] == NEXT_LINE && s.panel.exchange[0] == 'o';
    assert !HasErrors(s.panel);
  }
}
