/** What the send panel's history records, and what recalling it restores. */
module SendRecords {
  import opened Basics
  import opened Domain
  import opened Headers
  import opened SendPanel
  import opened SendDrafts
  import H = SendHistory

  /** The entry carries the fields of a body posted without asking for a reply, as they were at the click. */
  predicate FromPost(posted: seq<Posting>, entry: H.RecentSend) {
    exists x :: x in posted && !x.body.withReply && entry == RecordOf(x.body, entry.sentAt)
  }

  predicate HistoryHolds(storage: H.Storage, s: Session) {
    && s.panel.history == H.Run(storage, s.actions)
    && (forall a :: a in s.actions && a.Record? ==> FromPost(s.posted, a.entry))
  }

  lemma StepMakesHistory(p: Panel, step: Step)
    ensures |ActionsOf(p, step)| <= 1
    ensures Apply(p, step).history == if ActionsOf(p, step) == [] then p.history else H.Apply(p.history, ActionsOf(p, step)[0])
  {
  }

  lemma ActionsMakeHistory(storage: H.Storage, s: Session, step: Step)
    requires s.panel.history == H.Run(storage, s.actions)
    ensures ApplySession(s, step).panel.history == H.Run(storage, ApplySession(s, step).actions)
  {
    var taken := ActionsOf(s.panel, step);
    StepMakesHistory(s.panel, step);
    if taken == [] {
      assert s.actions + taken == s.actions;
    } else {
      assert Init(s.actions + taken) == s.actions && Last(s.actions + taken) == taken[0];
    }
  }

  lemma ActionsFromPosts(s: Session, step: Step, a: H.Action)
    requires PostsHold(s) && a in ActionsOf(s.panel, step) && a.Record?
    ensures FromPost(s.posted, a.entry)
  {
    var b := s.panel.inFlight[step.i];
    assert b in s.panel.inFlight && WasPosted(s.posted, b);
    var x :| x in s.posted && x.body == b;
    assert a.entry == RecordOf(x.body, a.entry.sentAt);
  }

  lemma ApplyKeepsHistory(storage: H.Storage, s: Session, step: Step)
    requires PostsHold(s) && HistoryHolds(storage, s)
    ensures HistoryHolds(storage, ApplySession(s, step))
  {
    ActionsMakeHistory(storage, s, step);
    var s' := ApplySession(s, step);
    forall a | a in s'.actions && a.Record? ensures FromPost(s'.posted, a.entry) {
      if a in s.actions {
        assert FromPost(s.posted, a.entry);
      } else {
        ActionsFromPosts(s, step, a);
      }
      var x :| x in s.posted && !x.body.withReply && a.entry == RecordOf(x.body, a.entry.sentAt);
      assert x in s'.posted;
    }
  }

  /** In every run the history is the one its own log gives, and every recorded send carries the fields of a
      body that was posted. */
  lemma {:induction false} HistoryFollowsPosts(storage: H.Storage, steps: seq<Step>)
    ensures HistoryHolds(storage, Run(storage, steps))
  {
    if steps != [] {
      HistoryFollowsPosts(storage, Init(steps));
      EveryPostIsWellFormed(storage, Init(steps));
      ApplyKeepsHistory(storage, Run(storage, Init(steps)), Last(steps));
    }
  }

  /** So the recent sends are the first twenty of what was posted and answered, newest answer first, and then
      of what was loaded. */
  lemma {:induction false} RecentSendsFollowPosts(storage: H.Storage, steps: seq<Step>)
    requires H.Recorded(Run(storage, steps).actions) != []
    ensures var s := Run(storage, steps);
            var all := H.Recorded(s.actions) + H.ReadArray(storage.recentSends);
            s.panel.history.recentSends == if |all| <= 20 then all else all[..20]
  {
    HistoryFollowsPosts(storage, steps);
    H.RecentRefinesLog(storage, Run(storage, steps).actions);
  }

  /** Recalling what was sent and resolving its headers gives the headers that were sent, as a map. */
  lemma RecallRestoresHeaders(p: Panel, q: Panel, now: string)
    ensures var entry := RecordOf(BodyOf(p), now);
            var recalled := Apply(q, UseRecent(entry));
            && SameMap(Resolve(recalled.headers), BodyOf(p).headers)
            && recalled.exchange == p.exchange && recalled.routingKey == p.routingKey && recalled.payload == p.payload
            && !recalled.replyMode && !IsDirty(recalled)
  {
    ResolveIsStable(p.headers);
  }

  /** So does using a template that was saved from the form, and every field counts as touched. */
  lemma TemplateRestoresForm(p: Panel, q: Panel)
    ensures var used := Apply(q, UseTemplate(TemplateOf(p)));
            && SameMap(Resolve(used.headers), Resolve(p.headers))
            && used.exchange == p.exchange && used.routingKey == p.routingKey && used.payload == p.payload
            && !used.replyMode && !IsDirty(used) && used.touched == ALL_FIELDS
  {
    ResolveIsStable(p.headers);
  }

  /** An entry the run recorded can be sent again as recalled exactly if it names an exchange: replies do not. */
  lemma {:induction false} RecalledReplyIsNotSendable(storage: H.Storage, steps: seq<Step>, entry: H.RecentSend, q: Panel)
    requires H.Record(entry) in Run(storage, steps).actions
    ensures !HasErrors(Apply(q, UseRecent(entry))) <==> entry.exchange != ""
  {
    HistoryFollowsPosts(storage, steps);
    EveryPostIsWellFormed(storage, steps);
    var s := Run(storage, steps);
    assert FromPost(s.posted, H.Record(entry).entry);
    var x :| x in s.posted && !x.body.withReply && entry == RecordOf(x.body, entry.sentAt);
    assert WellPosted(x);
  }

  /** A reply draft fills the form, nothing sent yet. */
  predicate ReplyDrafted(s: Session) {
    && s.panel.replyMode && s.panel.exchange == "" && s.panel.routingKey == "replies" && !s.panel.expectReply
    && s.panel.inFlight == [] && s.actions == []
  }

  /** A reply to a message, applied to the untouched form. */
  lemma ReplyReaches(storage: H.Storage)
    ensures exists s :: Reachable(storage, s) && ReplyDrafted(s)
  {
    OpenReaches(storage);
    var s0 := Run(storage, []);
    StepReaches(storage, s0, Respond(REPLY));
    RespondDrafts(s0, REPLY);
    var s1 := s0.(panel := Opened(storage).(draft := Some(Draft(REPLY, 1))));
    StepReaches(storage, s1, FlushEffect(false));
    DraftFills(storage, s1);
  }

  const REPLY := ReplyTarget("replies", None)

  lemma DraftFills(storage: H.Storage, s: Session)
    requires s.panel == Opened(storage).(draft := Some(Draft(REPLY, 1))) && s.actions == []
    ensures ReplyDrafted(ApplySession(s, FlushEffect(false)))
  {
    FlushDoes(s.panel, false);
    assert !IsDirty(s.panel);
    assert [] + ActionsOf(s.panel, FlushEffect(false)) == [];
  }

  predicate ReplyPosted(s: Session) {
    |s.panel.inFlight| == 1 && !s.panel.inFlight[0].withReply && s.panel.inFlight[0].exchange == "" && s.actions == []
  }

  lemma ReplyPosts(s: Session)
    requires ReplyDrafted(s) && !JsBlank(s.panel.payload)
    ensures ReplyPosted(ApplySession(s, Send))
  {
    assert "replies"[0] == 'r';
    assert !HasErrors(s.panel);
    var s' := ApplySession(s, Send);
    assert s'.panel.inFlight == [] + [BodyOf(s.panel)] && s'.actions == [] + [];
  }

  lemma TypedReply(s: Session)
    requires ReplyDrafted(s)
    ensures var s' := ApplySession(s, PayloadInput("a")); ReplyDrafted(s') && !JsBlank(s'.panel.payload)
  {
    assert "a"[0] == 'a';
  }

  lemma ReplyRecorded(s: Session, now: string)
    requires ReplyPosted(s)
    ensures var entry := RecordOf(s.panel.inFlight[0], now);
            ApplySession(s, Answered(0, true, now)).actions == [H.Record(entry)] && entry.exchange == ""
  {
    assert [] + [H.Record(RecordOf(s.panel.inFlight[0], now))] == [H.Record(RecordOf(s.panel.inFlight[0], now))];
  }

  /** And replies are recorded: this run answers one. */
  lemma RepliesAreRecorded(storage: H.Storage, now: string)
    ensures exists steps, entry :: H.Record(entry) in Run(storage, steps).actions && entry.exchange == ""
  {
    ReplyReaches(storage);
    var s :| Reachable(storage, s) && ReplyDrafted(s);
    StepReaches(storage, s, PayloadInput("a"));
    TypedReply(s);
    var s1 := ApplySession(s, PayloadInput("a"));
    StepReaches(storage, s1, Send);
    ReplyPosts(s1);
    var s2 := ApplySession(s1, Send);
    StepReaches(storage, s2, Answered(0, true, now));
    ReplyRecorded(s2, now);
    var steps :| Run(storage, steps) == ApplySession(s2, Answered(0, true, now));
    assert H.Record(RecordOf(s2.panel.inFlight[0], now)) in Run(storage, steps).actions;
  }

  // ---- no post is recorded twice ----

  /** How often a form is among the plain bodies. */
  function Times(bodies: seq<Body>, x: Snapshot): nat {
    if bodies == [] then 0
    else Times(Init(bodies), x) + if !Last(bodies).withReply && FormOf(Last(bodies)) == x then 1 else 0
  }

  function Bodies(posted: seq<Posting>): seq<Body> {
    if posted == [] then [] else Bodies(Init(posted)) + [Last(posted).body]
  }

  function TimesRecorded(actions: seq<H.Action>, x: Snapshot): nat {
    if actions == [] then 0
    else TimesRecorded(Init(actions), x) + if Last(actions).Record? && EntryForm(Last(actions).entry) == x then 1 else 0
  }

  /** The form was recorded, or is in flight, at most as often as it was posted. */
  predicate Conserved(s: Session, x: Snapshot) {
    TimesRecorded(s.actions, x) + Times(s.panel.inFlight, x) <= Times(Bodies(s.posted), x)
  }

  lemma TimesSnoc(bodies: seq<Body>, b: Body, x: Snapshot)
    ensures Times(bodies + [b], x) == Times(bodies, x) + if !b.withReply && FormOf(b) == x then 1 else 0
  {
    assert Init(bodies + [b]) == bodies;
  }

  lemma {:induction false} TimesDrop(bodies: seq<Body>, i: nat, x: Snapshot)
    requires i < |bodies|
    ensures Times(bodies, x) == Times(bodies[..i] + bodies[i + 1..], x)
                                + if !bodies[i].withReply && FormOf(bodies[i]) == x then 1 else 0
  {
    var rest := bodies[..i] + bodies[i + 1..];
    if i == |bodies| - 1 {
      assert rest == Init(bodies);
    } else {
      TimesDrop(Init(bodies), i, x);
      assert Init(rest) == Init(bodies)[..i] + Init(bodies)[i + 1..] && Last(rest) == Last(bodies);
    }
  }

  lemma ActionSnoc(actions: seq<H.Action>, a: H.Action, x: Snapshot)
    ensures TimesRecorded(actions + [a], x) == TimesRecorded(actions, x) + if a.Record? && EntryForm(a.entry) == x then 1 else 0
  {
    assert Init(actions + [a]) == actions;
  }

  lemma SendConserves(s: Session, x: Snapshot)
    requires Conserved(s, x) && !HasErrors(s.panel)
    ensures Conserved(ApplySession(s, Send), x)
  {
    var s', b := ApplySession(s, Send), BodyOf(s.panel);
    assert s'.panel.inFlight == s.panel.inFlight + [b] && s'.actions == s.actions;
    TimesSnoc(s.panel.inFlight, b, x);
    TimesSnoc(Bodies(s.posted), b, x);
    assert Init(s'.posted) == s.posted;
  }

  lemma AnswerConserves(s: Session, i: nat, ok: bool, now: string, x: Snapshot)
    requires Conserved(s, x) && i < |s.panel.inFlight|
    ensures Conserved(ApplySession(s, Answered(i, ok, now)), x)
  {
    var s', b := ApplySession(s, Answered(i, ok, now)), s.panel.inFlight[i];
    assert s'.panel.inFlight == s.panel.inFlight[..i] + s.panel.inFlight[i + 1..] && s'.posted == s.posted;
    TimesDrop(s.panel.inFlight, i, x);
    if ok && !b.withReply {
      ActionSnoc(s.actions, H.Record(RecordOf(b, now)), x);
    } else {
      assert s'.actions == s.actions;
    }
  }

  lemma OthersConserve(s: Session, step: Step, x: Snapshot)
    requires Conserved(s, x) && !step.Send? && !step.Answered?
    ensures Conserved(ApplySession(s, step), x)
  {
    assert Apply(s.panel, step).inFlight == s.panel.inFlight;
    if step.SaveTemplate? {
      ActionSnoc(s.actions, H.Save(TemplateOf(s.panel)), x);
    } else if step.DeleteTemplate? {
      ActionSnoc(s.actions, H.Delete(step.name), x);
    } else {
      assert s.actions + [] == s.actions;
    }
  }

  lemma RefusedConserves(s: Session, step: Step, x: Snapshot)
    requires Conserved(s, x)
    requires (step.Send? && HasErrors(s.panel)) || (step.Answered? && step.i >= |s.panel.inFlight|)
    ensures Conserved(ApplySession(s, step), x)
  {
    var s' := ApplySession(s, step);
    assert s'.panel.inFlight == s.panel.inFlight && s'.posted == s.posted && s'.actions == s.actions;
  }

  /** In every run no post is recorded more often than it was made, nor while it is still in flight. */
  lemma {:induction false} PostsAreConserved(storage: H.Storage, steps: seq<Step>, x: Snapshot)
    ensures Conserved(Run(storage, steps), x)
  {
    if steps != [] {
      var s, step := Run(storage, Init(steps)), Last(steps);
      PostsAreConserved(storage, Init(steps), x);
      match step
      case Send => if HasErrors(s.panel) { RefusedConserves(s, step, x); } else { SendConserves(s, x); }
      case Answered(i, ok, now) =>
        if i < |s.panel.inFlight| { AnswerConserves(s, i, ok, now, x); } else { RefusedConserves(s, step, x); }
      case _ => OthersConserve(s, step, x);
    }
  }
}
