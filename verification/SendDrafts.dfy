/** Reply drafts in the send panel: acted on once, and never over unsaved edits unless an answer came late. */
module SendDrafts {
  import opened Basics
  import opened Domain
  import opened Headers
  import opened SendPanel
  import H = SendHistory
  import F = Feed

  predicate NoClear(steps: seq<Step>) {
    forall i :: 0 <= i < |steps| ==> !steps[i].ClearDraft?
  }

  predicate DraftsOrdered(s: Session) {
    && (forall i, j :: 0 <= i < j < |s.acted| ==> s.acted[i] < s.acted[j])
    && (forall i :: 0 <= i < |s.acted| ==> s.acted[i] <= s.panel.lastAppliedDraftSeq)
    && (s.panel.draft.None? ==> s.panel.lastAppliedDraftSeq == 0)
    && (s.panel.draft.Some? ==> s.panel.lastAppliedDraftSeq <= s.panel.draft.value.stamp)
  }

  lemma ApplyKeepsDrafts(s: Session, step: Step)
    requires DraftsOrdered(s) && !step.ClearDraft?
    ensures DraftsOrdered(ApplySession(s, step))
  {
    if step.FlushEffect? {
      FlushKeepsDrafts(s, step.confirm);
    } else {
      assert Apply(s.panel, step).lastAppliedDraftSeq == s.panel.lastAppliedDraftSeq;
    }
  }

  lemma FlushKeepsDrafts(s: Session, confirm: bool)
    requires DraftsOrdered(s)
    ensures DraftsOrdered(ApplySession(s, FlushEffect(confirm)))
  {
    assert ActsOnDraft(s.panel) ==>
      Flush(s.panel, confirm).lastAppliedDraftSeq == s.panel.draft.value.stamp > s.panel.lastAppliedDraftSeq;
  }

  /** In every run that never clears the draft, the drafts acted on have strictly increasing numbers:
      each is acted on at most once, and one declined is not tried again. */
  lemma {:induction false} EachDraftActedOnOnce(storage: H.Storage, steps: seq<Step>)
    requires NoClear(steps)
    ensures DraftsOrdered(Run(storage, steps))
  {
    if steps != [] {
      assert !steps[|steps| - 1].ClearDraft?;
      assert NoClear(Init(steps)) by {
        forall i | 0 <= i < |Init(steps)| ensures !Init(steps)[i].ClearDraft? {
          assert Init(steps)[i] == steps[i];
        }
      }
      EachDraftActedOnOnce(storage, Init(steps));
      ApplyKeepsDrafts(Run(storage, Init(steps)), Last(steps));
    }
  }

  /** The form shows just these: what an edit can change, field by field. */
  predicate Shows(p: Panel, x: Snapshot) {
    p.exchange == x.exchange && p.routingKey == x.routingKey && p.payload == x.payload && Resolve(p.headers) == x.headers
  }

  /** The dirty check compares exactly exchange, routing key, payload and the headers as they would be sent. */
  lemma DirtyExactlyWhen(p: Panel, q: Panel)
    ensures IsDirty(p) <==> !Shows(p, p.lastAppliedSnapshot)
    ensures Current(p) == Current(q) <==> p.exchange == q.exchange && p.routingKey == q.routingKey && p.payload == q.payload
                                          && Resolve(p.headers) == Resolve(q.headers)
  {
  }

  /** A clean form becomes dirty exactly by an input that changes one of them. */
  lemma EditsMakeDirty(p: Panel, value: string, edit: HeaderEdit)
    requires !IsDirty(p)
    ensures IsDirty(Apply(p, ExchangeInput(value))) <==> value != p.exchange
    ensures IsDirty(Apply(p, RoutingKeyInput(value))) <==> value != p.routingKey
    ensures IsDirty(Apply(p, PayloadInput(value))) <==> value != p.payload
    ensures IsDirty(Apply(p, Edit(edit))) <==> Resolve(Apply(p, Edit(edit)).headers) != Resolve(p.headers)
    ensures !IsDirty(Apply(p, CorrelationInput(value))) && !IsDirty(Apply(p, TemplateName(value)))
  {
  }

  /** The form: every field a draft may write. */
  predicate SameForm(p: Panel, p': Panel) {
    && p.exchange == p'.exchange && p.routingKey == p'.routingKey && p.payload == p'.payload && p.headers == p'.headers
    && p.replyMode == p'.replyMode && p.correlationId == p'.correlationId
    && p.touched == p'.touched && p.templateName == p'.templateName && p.expectReply == p'.expectReply
    && p.lastAppliedSnapshot == p'.lastAppliedSnapshot
  }

  /** One flush: without a new draft, or with one declined, the form stays; otherwise it is the draft's, clean;
      either way the draft is handled. */
  lemma FlushDoes(p: Panel, confirm: bool)
    ensures var p' := Apply(p, FlushEffect(confirm));
            && (!AppliesDraft(p, confirm) ==> SameForm(p, p'))
            && (AppliesDraft(p, confirm) ==>
                  && p'.replyMode && p'.exchange == "" && p'.payload == ""
                  && p'.routingKey == p.draft.value.target.routingKey && p'.headers == p.headers && !IsDirty(p')
                  && p'.correlationId == ReplyCorrelation(p.draft.value.target))
            && (ActsOnDraft(p) ==> !ActsOnDraft(p'.(effectDue := true))) && !p'.effectDue
  {
  }

  lemma {:induction false} TrimStartBlank(s: string)
    ensures F.TrimStart(s) == "" <==> JsBlank(s)
    ensures s != "" && !JsSpace(s[0]) ==> F.TrimStart(s) == s
    ensures F.TrimStart(s) != "" ==> !JsSpace(F.TrimStart(s)[0])
  {
    if s != "" && JsSpace(s[0]) {
      TrimStartBlank(s[1..]);
      assert JsBlank(s) <==> JsBlank(s[1..]) by {
        if JsBlank(s[1..]) {
          forall i | 0 <= i < |s| ensures JsSpace(s[i]) {
            assert i == 0 || s[i] == s[1..][i - 1];
          }
        }
      }
    }
  }

  lemma {:induction false} TrimEndStartsAlike(s: string)
    requires s != "" && !JsSpace(s[0])
    ensures F.TrimEnd(s) != ""
  {
    if JsSpace(Last(s)) {
      TrimEndStartsAlike(Init(s));
    }
  }

  /** Nothing is left by trimming exactly when all is white space. */
  lemma TrimIsBlank(s: string)
    ensures F.Trim(s) == "" <==> JsBlank(s)
  {
    TrimStartBlank(s);
    if F.TrimStart(s) != "" {
      TrimEndStartsAlike(F.TrimStart(s));
    }
  }

  /** What an applied draft and a typed payload post: nothing for a blank payload or a white-space routing key;
      otherwise one body to the default exchange under the target's routing key. Unless a reply to the reply is
      expected, it carries the target's correlation id, trimmed, exactly when that is there and not blank; when
      one is expected the other endpoint gets it, and the correlation id is dropped. */
  lemma ReplyCarriesTarget(p: Panel, confirm: bool, payload: string)
    requires AppliesDraft(p, confirm)
    ensures var target := p.draft.value.target;
            var sent := Apply(Apply(Apply(p, FlushEffect(confirm)), PayloadInput(payload)), Send);
            var carried := !p.expectReply && target.correlationId.Some? && !JsBlank(target.correlationId.value);
            sent.inFlight ==
              if JsBlank(payload) || (target.routingKey != "" && JsBlank(target.routingKey)) then p.inFlight
              else p.inFlight + [Body("", target.routingKey, payload, Resolve(p.headers),
                                      if carried then Some(F.Trim(target.correlationId.value)) else None, p.expectReply)]
  {
    var target := p.draft.value.target;
    var filled := Apply(Apply(p, FlushEffect(confirm)), PayloadInput(payload));
    TrimIsBlank(ReplyCorrelation(target));
    assert filled.correlationId == ReplyCorrelation(target) && filled.replyMode && filled.exchange == "";
    assert filled.inFlight == p.inFlight && filled.expectReply == p.expectReply && filled.headers == p.headers;
  }

  /** In every run that never clears the draft, a request is always acted on when the effect runs, even for a target
      asked for before. */
  lemma {:induction false} RequestsAreSeen(storage: H.Storage, steps: seq<Step>, target: ReplyTarget)
    requires NoClear(steps)
    ensures var asked := Apply(Run(storage, steps).panel, Respond(target));
            ActsOnDraft(asked) && asked.draft.value.target == target
  {
    EachDraftActedOnOnce(storage, steps);
  }

  /** Clearing restarts the numbers: the next draft is acted on exactly if the last one handled was not the first. */
  lemma ClearHidesNextDraft(p: Panel, target: ReplyTarget, confirm: bool)
    ensures var asked := Apply(Apply(p, ClearDraft), Respond(target));
            && (ActsOnDraft(asked) <==> p.lastAppliedDraftSeq != 1)
            && (p.lastAppliedDraftSeq == 1 ==> SameForm(p, Apply(asked, FlushEffect(confirm))))
  {
  }

  /** The dirty check does not look at the reply's correlation id: editing it never makes a draft ask, and the
      draft then replaces what was typed. */
  lemma CorrelationEditsAreUnguarded(p: Panel, typed: string, confirm: bool)
    ensures var q := Apply(p, CorrelationInput(typed));
            && (AppliesDraft(q, confirm) <==> AppliesDraft(p, confirm))
            && (AppliesDraft(q, confirm) ==>
                  Apply(q, FlushEffect(confirm)).correlationId == ReplyCorrelation(p.draft.value.target))
  {
  }

  // ---- no silent overwrite ----

  lemma ApplyKeepsBaseline(s: Session, step: Step)
    requires s.panel.lastAppliedSnapshot == s.kept <==> !s.late
    ensures ApplySession(s, step).panel.lastAppliedSnapshot == ApplySession(s, step).kept <==> !ApplySession(s, step).late
  {
    CapturesExactlyWhen(s.panel, step);
  }

  /** The baseline moves only when the form is filled in or a plain send succeeds. */
  lemma CapturesExactlyWhen(p: Panel, step: Step)
    ensures var p' := Apply(p, step);
            p'.lastAppliedSnapshot ==
              if IsFilled(p, step) then Current(p') else if IsSent(p, step) then Current(p) else p.lastAppliedSnapshot
  {
    match step
    case FlushEffect(confirm) => FlushCaptures(p, confirm);
    case Answered(i, ok, now) => AnswerCaptures(p, i, ok, now);
    case _ =>
  }

  lemma FlushCaptures(p: Panel, confirm: bool)
    ensures var p' := Flush(p, confirm);
            p'.lastAppliedSnapshot == if AppliesDraft(p, confirm) then Current(p') else p.lastAppliedSnapshot
  {
  }

  lemma AnswerCaptures(p: Panel, i: nat, ok: bool, now: string)
    ensures Apply(p, Answered(i, ok, now)).lastAppliedSnapshot
            == if IsSent(p, Answered(i, ok, now)) then Current(p) else p.lastAppliedSnapshot
  {
  }

  /** The form the dirty check compares with is the one kept exactly if the last capture was not at a late answer. */
  lemma {:induction false} BaselineIsKept(storage: H.Storage, steps: seq<Step>)
    ensures var s := Run(storage, steps);
            s.panel.lastAppliedSnapshot == s.kept <==> !s.late
  {
    if steps != [] {
      BaselineIsKept(storage, Init(steps));
      ApplyKeepsBaseline(Run(storage, Init(steps)), Last(steps));
    }
  }

  /** In every run: a draft that replaces the form without asking replaces just the form kept, exactly if the
      baseline was not captured at a late answer. */
  lemma {:induction false} NoSilentOverwrite(storage: H.Storage, steps: seq<Step>)
    requires AppliesDraft(Run(storage, steps).panel, false)
    ensures var s := Run(storage, steps); Shows(s.panel, s.kept) <==> !s.late
  {
    BaselineIsKept(storage, steps);
    DirtyExactlyWhen(Run(storage, steps).panel, Run(storage, steps).panel);
  }

  /** And any other flush without consent changes no field of the form. */
  lemma {:induction false} UnaskedChangesOnlyKept(storage: H.Storage, steps: seq<Step>)
    ensures var s := Run(storage, steps);
            !SameForm(s.panel, Apply(s.panel, FlushEffect(false))) ==> Shows(s.panel, s.kept) || s.late
  {
    FlushDoes(Run(storage, steps).panel, false);
    if AppliesDraft(Run(storage, steps).panel, false) {
      NoSilentOverwrite(storage, steps);
    }
  }

  /** No plain send's success ever found edits in the form. */
  predicate NeverLate(storage: H.Storage, steps: seq<Step>) {
    steps == [] || (NeverLate(storage, Init(steps)) && !IsLate(Run(storage, Init(steps)), Last(steps)))
  }

  /** So, as long as no answer comes late, unsaved edits are never replaced without asking. */
  lemma {:induction false} EditsAreSafe(storage: H.Storage, steps: seq<Step>)
    requires NeverLate(storage, steps)
    ensures var s := Run(storage, steps);
            !s.late && (!Shows(s.panel, s.kept) ==> SameForm(s.panel, Apply(s.panel, FlushEffect(false))))
  {
    if steps != [] {
      EditsAreSafe(storage, Init(steps));
    }
    UnaskedChangesOnlyKept(storage, steps);
  }

  /** One plain send in flight, the form as it was posted, the empty form kept, no draft so far. */
  predicate OnePosted(s: Session, posted: Snapshot) {
    && |s.panel.inFlight| == 1 && !s.panel.inFlight[0].withReply && FormOf(s.panel.inFlight[0]) == posted
    && Current(s.panel) == posted && s.kept == EMPTY_SNAPSHOT
    && s.panel.draft.None? && s.panel.lastAppliedDraftSeq == 0
  }

  const FIRST_POST := Snapshot("orders", "", "a", [])

  lemma PostReaches(storage: H.Storage)
    ensures exists s :: Reachable(storage, s) && OnePosted(s, FIRST_POST)
  {
    OpenReaches(storage);
    var s0 := Run(storage, []);
    StepReaches(storage, s0, ExchangeInput("orders"));
    var s1 := ApplySession(s0, ExchangeInput("orders"));
    StepReaches(storage, s1, PayloadInput("a"));
    var s2 := ApplySession(s1, PayloadInput("a"));
    StepReaches(storage, s2, Send);
    assert s2.panel == Opened(storage).(exchange := "orders", payload := "a");
    FirstPosts(storage, s2);
  }

  lemma FirstPosts(storage: H.Storage, s: Session)
    requires s.panel == Opened(storage).(exchange := "orders", payload := "a") && s.kept == EMPTY_SNAPSHOT
    ensures OnePosted(ApplySession(s, Send), FIRST_POST)
  {
    assert "orders"[0] == 'o' && "a"[0] == 'a';
    assert !HasErrors(s.panel);
    assert ApplySession(s, Send).panel.inFlight == [] + [BodyOf(s.panel)];
  }

  /** Text is typed, and then the answer comes. */
  lemma AnswerReaches(storage: H.Storage, s: Session, typed: string, now: string)
    requires Reachable(storage, s) && OnePosted(s, FIRST_POST)
    ensures exists s' :: Reachable(storage, s') && s'.kept == FIRST_POST && s'.panel.payload == typed && !IsDirty(s'.panel)
                         && s'.panel.draft.None? && s'.panel.lastAppliedDraftSeq == 0
  {
    StepReaches(storage, s, PayloadInput(typed));
    var s1 := ApplySession(s, PayloadInput(typed));
    assert Current(s1.panel).exchange == "orders" && s1.panel.inFlight == s.panel.inFlight && s1.kept == s.kept;
    StepReaches(storage, s1, Answered(0, true, now));
    assert IsSent(s1.panel, Answered(0, true, now)) && Current(s1.panel) != s1.kept;
  }

  lemma RespondDrafts(s: Session, target: ReplyTarget)
    requires s.panel.draft.None?
    ensures ApplySession(s, Respond(target)) == s.(panel := s.panel.(draft := Some(Draft(target, 1)), effectDue := true))
  {
    assert s.actions + [] == s.actions;
  }

  lemma PendingDraftReplaces(p: Panel)
    requires p.effectDue && p.draft.Some? && p.draft.value.stamp != p.lastAppliedDraftSeq && !IsDirty(p)
    ensures Apply(p, FlushEffect(false)).payload == ""
  {
    FlushDoes(p, false);
  }

  /** With a late answer they are: the text typed while a send is in flight is lost to the next draft, unasked. */
  lemma LateAnswerHidesEdits(storage: H.Storage, typed: string, now: string, target: ReplyTarget)
    requires typed != "a"
    ensures exists steps :: var s := Run(storage, steps);
              && s.panel.payload == typed && !Shows(s.panel, s.kept)
              && Apply(s.panel, FlushEffect(false)).payload == ""
  {
    PostReaches(storage);
    var s :| Reachable(storage, s) && OnePosted(s, FIRST_POST);
    AnswerReaches(storage, s, typed, now);
    var s1 :| Reachable(storage, s1) && s1.kept == FIRST_POST && s1.panel.payload == typed && !IsDirty(s1.panel)
              && s1.panel.draft.None? && s1.panel.lastAppliedDraftSeq == 0;
    StepReaches(storage, s1, Respond(target));
    RespondDrafts(s1, target);
    var p := s1.panel.(draft := Some(Draft(target, 1)), effectDue := true);
    assert Current(p) == Current(s1.panel);
    PendingDraftReplaces(p);
    var steps :| Run(storage, steps) == s1.(panel := p);
  }
}
