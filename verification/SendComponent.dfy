/** The send panel's component in imperative form: signals set field by field, loops that merge and
    split the headers. Each handler is proved to make exactly the panel's step. */
module SendComponents {
  import opened Basics
  import opened Domain
  import opened Headers
  import opened SendPanel
  import H = SendHistory
  import F = Feed

  class ReplyDraftService {
    var draft: Option<Draft>

    constructor ()
      ensures draft == None
    {
      draft := None;
    }

    /** The number grows with every request, so asking twice for one target is seen twice. */
    method RequestDraft(target: ReplyTarget)
      modifies this
      ensures draft == Some(Draft(target, (if old(draft).Some? then old(draft).value.stamp else 0) + 1))
      ensures old(draft).Some? ==> draft.value.stamp > old(draft).value.stamp
    {
      draft := Some(Draft(target, (if draft.Some? then draft.value.stamp else 0) + 1));
    }

    method Clear()
      modifies this
      ensures draft == None
    {
      draft := None;
    }
  }

  class SendComponent {
    const replyDraft: ReplyDraftService
    const history: H.SendHistoryService
    var exchange: string
    var routingKey: string
    var payload: string
    var touched: set<Field>
    var templateName: string
    var expectReply: bool
    var replyMode: bool
    var correlationId: string
    var headers: Fields
    var lastAppliedDraftSeq: nat
    var lastAppliedSnapshot: Snapshot
    var effectDue: bool        // the draft signal was set since the effect last ran
    var inFlight: seq<Body>

    ghost function View(): Panel
      reads this, replyDraft, history, history.storage
    {
      Panel(exchange, routingKey, payload, touched, templateName, expectReply, replyMode, correlationId, headers,
            lastAppliedDraftSeq, lastAppliedSnapshot, replyDraft.draft, effectDue, inFlight, history.View())
    }

    constructor (replyDraft: ReplyDraftService, history: H.SendHistoryService)
      requires replyDraft.draft.None? && history.View() == H.Load(history.storage.contents)
      ensures this.replyDraft == replyDraft && this.history == history
      ensures View() == Opened(history.storage.contents)
    {
      this.replyDraft, this.history := replyDraft, history;
      exchange, routingKey, payload, templateName, correlationId := "", "", "", "", "";
      touched, expectReply, replyMode, headers := {}, false, false, NO_HEADERS;
      lastAppliedDraftSeq, lastAppliedSnapshot, effectDue, inFlight := 0, EMPTY_SNAPSHOT, true, [];
    }

    method PutEntries(record: Record, entries: seq<Entry>) returns (r: Record)
      ensures r == PutAll(record, entries)
    {
      r := record;
      for i := 0 to |entries|
        invariant r == PutAll(record, entries[..i])
      {
        assert Init(entries[..i + 1]) == entries[..i];
        if !JsBlank(entries[i].key) && !JsBlank(entries[i].value) {
          r := Put(r, entries[i].key, entries[i].value);
        }
      }
      assert entries[..|entries|] == entries;
    }

    method ResolvedHeaders() returns (resolved: Record)
      ensures resolved == Resolve(headers)
    {
      if !headers.enabled {
        return [];
      }
      resolved := PutEntries([], headers.rows);
      resolved := PutEntries(resolved,
        [Entry(TIPO_MENSAJE, headers.tipoMensaje), Entry(CONTENT_TYPE, headers.contentType), Entry(INTENCION, headers.intencion),
         Entry(MESSAGE_ID, headers.messageId), Entry(CORRELATION_ID, headers.correlationId)]);
    }

    method RestoreHeaders(stored: Option<Record>)
      modifies this`headers
      ensures View() == old(View()).(headers := Restore(HeadersOf(stored)))
    {
      headers := headers.(tipoMensaje := "", contentType := "", intencion := "", messageId := "", correlationId := "");
      var entries := if stored.Some? then stored.value else [];
      var leftoverRows: seq<Entry> := [];
      ComunKeysDiffer();
      for i := 0 to |entries|
        invariant leftoverRows == Leftover(entries[..i])
        invariant headers.tipoMensaje == Value(entries[..i], TIPO_MENSAJE)
        invariant headers.contentType == Value(entries[..i], CONTENT_TYPE)
        invariant headers.intencion == Value(entries[..i], INTENCION)
        invariant headers.messageId == Value(entries[..i], MESSAGE_ID)
        invariant headers.correlationId == Value(entries[..i], CORRELATION_ID)
      {
        var e := entries[i];
        ValueStep(entries, i);
        if e.key == TIPO_MENSAJE {
          headers := headers.(tipoMensaje := e.value);
        } else if e.key == CONTENT_TYPE {
          headers := headers.(contentType := e.value);
        } else if e.key == INTENCION {
          headers := headers.(intencion := e.value);
        } else if e.key == MESSAGE_ID {
          headers := headers.(messageId := e.value);
        } else if e.key == CORRELATION_ID {
          headers := headers.(correlationId := e.value);
        } else {
          leftoverRows := leftoverRows + [e];
        }
      }
      assert entries[..|entries|] == entries;
      headers := headers.(rows := leftoverRows, enabled := |entries| > 0);
    }

    /** `currentSnapshot`. */
    method CurrentSnapshot() returns (s: Snapshot)
      ensures s == Current(View())
    {
      var resolved := ResolvedHeaders();
      s := Snapshot(exchange, routingKey, payload, resolved);
    }

    method CaptureSnapshot()
      modifies this`lastAppliedSnapshot
      ensures View() == Capture(old(View()))
    {
      lastAppliedSnapshot := CurrentSnapshot();
    }

    method OnExchangeInput(value: string)
      modifies this`exchange, this`replyMode
      ensures View() == Apply(old(View()), ExchangeInput(value))
    {
      exchange := value;
      replyMode := false;
    }

    method OnRoutingKeyInput(value: string)
      modifies this`routingKey, this`replyMode
      ensures View() == Apply(old(View()), RoutingKeyInput(value))
    {
      routingKey := value;
      replyMode := false;
    }

    method EnterReply(target: ReplyTarget)
      modifies this
      ensures View() == old(View()).(
                replyMode := true, exchange := "", routingKey := target.routingKey,
                correlationId := ReplyCorrelation(target), payload := "")
    {
      replyMode := true;
      exchange := "";
      routingKey := target.routingKey;
      correlationId := if target.correlationId.Some? then target.correlationId.value else "";
      payload := "";
    }

    /** `applyReplyDraft`; `confirmed` is what the confirmation answers if it is asked. */
    method ApplyReplyDraft(target: ReplyTarget, stamp: nat, confirmed: bool)
      modifies this
      ensures View() == ApplyDraft(old(View()), Draft(target, stamp), confirmed)
    {
      if stamp == lastAppliedDraftSeq {
        return;
      }
      var current := CurrentSnapshot();
      if current != lastAppliedSnapshot && !confirmed {
        lastAppliedDraftSeq := stamp;
        return;
      }
      lastAppliedDraftSeq := stamp;
      EnterReply(target);
      CaptureSnapshot();
    }

    /** `ReplyDraftService.request`, as the panel sees it: the draft signal is set, so the effect is due. */
    method OnRespond(target: ReplyTarget)
      modifies this`effectDue, replyDraft
      ensures View() == Apply(old(View()), Respond(target))
    {
      replyDraft.RequestDraft(target);
      effectDue := true;
    }

    method OnClearDraft()
      modifies this`effectDue, replyDraft
      ensures View() == Apply(old(View()), ClearDraft)
    {
      replyDraft.Clear();
      effectDue := true;
    }

    method RunEffect(confirmed: bool)
      modifies this
      ensures View() == Apply(old(View()), FlushEffect(confirmed))
    {
      if !effectDue {
        return;
      }
      effectDue := false;
      if replyDraft.draft.Some? {
        ApplyReplyDraft(replyDraft.draft.value.target, replyDraft.draft.value.stamp, confirmed);
      }
    }

    method OnSend()
      modifies this`touched, this`inFlight
      ensures View() == Apply(old(View()), Send)
    {
      var exchangeError := !(replyMode && exchange == "") && JsBlank(exchange);
      if exchangeError || JsBlank(payload) || (routingKey != "" && JsBlank(routingKey)) {
        touched := ALL_FIELDS;
        return;
      }
      var resolved := ResolvedHeaders();
      if expectReply {
        inFlight := inFlight + [Body(exchange, routingKey, payload, resolved, None, true)];
        return;
      }
      var correlation: Option<string> := None;
      if replyMode {
        var trimmed := F.Trim(correlationId);
        if trimmed != "" {
          correlation := Some(trimmed);
        }
      }
      inFlight := inFlight + [Body(exchange, routingKey, payload, resolved, correlation, false)];
    }

    method OnAnswer(i: nat, ok: bool, now: string)
      requires i < |inFlight|
      modifies this, history, history.storage
      ensures View() == Apply(old(View()), Answered(i, ok, now))
    {
      var body := inFlight[i];
      inFlight := inFlight[..i] + inFlight[i + 1..];
      if ok && !body.withReply {
        history.RecordSend(H.RecentSend(body.exchange, body.routingKey, body.payload, Some(body.headers), now));
        CaptureSnapshot();
      }
    }

    method OnUseRecent(entry: H.RecentSend)
      modifies this
      ensures View() == Fill(old(View()), entry.exchange, entry.routingKey, entry.payload, entry.headers)
    {
      replyMode := false;
      exchange, routingKey, payload := entry.exchange, entry.routingKey, entry.payload;
      RestoreHeaders(entry.headers);
      CaptureSnapshot();
    }

    method OnUseTemplate(template: H.SendTemplate)
      modifies this
      ensures View() == Fill(old(View()).(touched := ALL_FIELDS), template.exchange, template.routingKey,
                             template.payload, template.headers)
    {
      replyMode := false;
      exchange, routingKey, payload := template.exchange, template.routingKey, template.payload;
      touched := ALL_FIELDS;
      assert View() == old(View()).(touched := ALL_FIELDS, replyMode := false, exchange := template.exchange,
                                    routingKey := template.routingKey, payload := template.payload);
      RestoreHeaders(template.headers);
      CaptureSnapshot();
    }

    method OnSaveTemplate()
      modifies history, history.storage
      ensures View() == Apply(old(View()), SaveTemplate)
    {
      var resolved := ResolvedHeaders();
      history.SaveTemplate(H.SendTemplate(templateName, exchange, routingKey, payload, Some(resolved)));
    }

    method OnDeleteTemplate(name: string)
      modifies history, history.storage
      ensures View() == Apply(old(View()), DeleteTemplate(name))
    {
      history.DeleteTemplate(name);
    }
  }

  lemma ValueStep(entries: seq<Entry>, i: nat)
    requires i < |entries|
    ensures forall k :: Value(entries[..i + 1], k) == if entries[i].key == k then entries[i].value else Value(entries[..i], k)
    ensures Leftover(entries[..i + 1]) == Leftover(entries[..i]) + if IsComun(entries[i].key) then [] else [entries[i]]
  {
    var upTo := entries[..i + 1];
    assert Init(upTo) == entries[..i] && Last(upTo) == entries[i];
    forall k ensures Value(upTo, k) == if entries[i].key == k then entries[i].value else Value(entries[..i], k) {
      assert Find(upTo, k) == if Last(upTo).key == k then Some(Last(upTo).value) else Find(Init(upTo), k);
    }
  }
}
