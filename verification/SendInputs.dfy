/** What the user types is what is posted, sent as a header, or saved. */
module SendInputs {
  import opened Basics
  import opened Domain
  import opened Headers
  import opened SendPanel
  import opened SendDrafts
  import H = SendHistory
  import F = Feed

  // ---- headers, by key ----

  /** The last sendable entry for the key. */
  predicate LastFor(es: seq<Entry>, i: nat, k: string, v: string) {
    && i < |es| && es[i] == Entry(k, v) && Sendable(es[i])
    && forall j :: i < j < |es| ==> !(es[j].key == k && Sendable(es[j]))
  }

  lemma {:induction false} FindReplaced(r: Record, key: string, value: string, k: string)
    requires Enumerated(r) && HasKey(r, key)
    ensures Find(Replace(r, key, value), k) == if k == key then Some(value) else Find(r, k)
  {
    ReplaceKeepsKeys(r, key, value);
    var r' := Replace(r, key, value);
    if i :| 0 <= i < |r| && r[i].key == k {
      assert r'[i].key == k;
      FindAt(r, i);
      ReplaceEnumerated(r, key, value);
      FindAt(r', i);
    } else {
      FindNone(r, k);
      FindNone(r', k);
    }
  }

  lemma ReplaceEnumerated(r: Record, key: string, value: string)
    requires Enumerated(r)
    ensures Enumerated(Replace(r, key, value))
  {
    ReplaceKeepsKeys(r, key, value);
  }

  lemma {:induction false} FindAt(es: Record, i: nat)
    requires Enumerated(es) && i < |es|
    ensures Find(es, es[i].key) == Some(es[i].value)
  {
    if i < |es| - 1 {
      assert Init(es)[i] == es[i];
      FindAt(Init(es), i);
    }
  }

  lemma {:induction false} FindNone(es: Record, k: string)
    requires forall i :: 0 <= i < |es| ==> es[i].key != k
    ensures Find(es, k) == None
  {
    if es != [] {
      FindNone(Init(es), k);
    }
  }

  lemma FindInserted(r: Record, n: nat, e: Entry, k: string)
    requires n <= |r| && forall i :: 0 <= i < |r| ==> r[i].key != e.key
    ensures Find(r[..n] + [e] + r[n..], k) == if k == e.key then Some(e.value) else Find(r, k)
  {
    FindConcat(r[..n] + [e], r[n..], k);
    FindConcat(r[..n], [e], k);
    FindConcat(r[..n], r[n..], k);
    assert r[..n] + r[n..] == r;
    assert Init([e]) == [] && Find([e], k) == if k == e.key then Some(e.value) else None;
    if k == e.key {
      FindNone(r[n..], k);
    }
  }

  /** `record[key] = value` sets that key and leaves the others. */
  lemma FindPut(r: Record, key: string, value: string, k: string)
    requires Enumerated(r)
    ensures Find(Put(r, key, value), k) == if k == key && key != PROTO then Some(value) else Find(r, k)
  {
    if key != PROTO {
      if HasKey(r, key) {
        FindReplaced(r, key, value, k);
      } else {
        FindInserted(r, Position(r, key), Entry(key, value), k);
      }
    }
  }

  lemma {:induction false} FindPutAll(es: seq<Entry>, k: string, v: string)
    ensures Enumerated(PutAll([], es))
    ensures Find(PutAll([], es), k) == Some(v) <==> exists i :: LastFor(es, i, k, v)
  {
    if es != [] {
      var before, e := Init(es), Last(es);
      FindPutAll(before, k, v);
      PutAllResolved([], before);
      PutAllResolved([], es);
      var r := PutAll([], before);
      if Sendable(e) {
        FindPut(r, e.key, e.value, k);
      } else if e.key == PROTO {
        FindPut(r, e.key, e.value, k);
      }
      LastForSnoc(before, e, k, v);
      assert es == before + [e];
    }
  }

  lemma LastForSnoc(before: seq<Entry>, e: Entry, k: string, v: string)
    ensures (exists i :: LastFor(before + [e], i, k, v))
            <==> if e.key == k && Sendable(e) then v == e.value else exists i :: LastFor(before, i, k, v)
  {
    var es := before + [e];
    assert es[|before|] == e && forall j :: 0 <= j < |before| ==> es[j] == before[j];
    if e.key == k && Sendable(e) {
      if v == e.value {
        assert LastFor(es, |before|, k, v);
      }
    } else {
      if i: nat :| LastFor(before, i, k, v) {
        assert LastFor(es, i, k, v);
      }
      if i: nat :| LastFor(es, i, k, v) {
        assert LastFor(before, i, k, v);
      }
    }
  }

  /** For any panel state and key: nothing is sent while the section is off; while it is on, the last entry for the
      key that is not blank, rows first and then the five named fields, which win. */
  lemma ResolvedExactlyWhen(p: Fields, k: string, v: string)
    ensures Find(Resolve(p), k) == Some(v) <==> p.enabled && exists i :: LastFor(p.rows + Comunes(p), i, k, v)
    ensures !p.enabled ==> Resolve(p) == []
  {
    if p.enabled {
      PutAllConcat([], p.rows, Comunes(p));
      FindPutAll(p.rows + Comunes(p), k, v);
    }
  }

  /** A header row typed in is sent, unless it is blank or one of the named fields; taking it back undoes it. */
  lemma TypedRowIsSent(p: Panel, k: string, v: string)
    requires !JsBlank(k) && !JsBlank(v) && k != PROTO && !IsComun(k)
    ensures var n, on := |p.headers.rows|, Apply(p, Edit(SetEnabled(true)));
            var typed := Apply(Apply(Apply(on, Edit(AddRow)), Edit(SetRowKey(n, k))), Edit(SetRowValue(n, v)));
            && Find(Resolve(typed.headers), k) == Some(v)
            && Apply(typed, Edit(RemoveRow(n))) == on
            && Resolve(Apply(typed, Edit(SetEnabled(false))).headers) == []
  {
    RowEdits(p.headers, k, v);
    RowIsSent(p.headers.(enabled := true, rows := p.headers.rows + [Entry(k, v)]), k, v);
  }

  lemma RowEdits(f: Fields, k: string, v: string)
    ensures var n, on := |f.rows|, EditHeaders(f, SetEnabled(true));
            var typed := EditHeaders(EditHeaders(EditHeaders(on, AddRow), SetRowKey(n, k)), SetRowValue(n, v));
            && typed == f.(enabled := true, rows := f.rows + [Entry(k, v)])
            && EditHeaders(typed, RemoveRow(n)) == on
            && !EditHeaders(typed, SetEnabled(false)).enabled
  {
    var n, rows := |f.rows|, f.rows + [Entry(k, v)];
    assert (f.rows + [Entry("", "")])[n := Entry(k, "")][n := Entry(k, v)] == rows;
    assert rows[..n] + rows[n + 1..] == f.rows;
  }

  lemma RowIsSent(f: Fields, k: string, v: string)
    requires f.enabled && f.rows != [] && Last(f.rows) == Entry(k, v) && Sendable(Entry(k, v)) && !IsComun(k)
    ensures Find(Resolve(f), k) == Some(v)
  {
    var n, es := |f.rows| - 1, f.rows + Comunes(f);
    ComunesEnumerated(f);
    assert es[n] == Entry(k, v);
    assert forall j :: n < j < |es| ==> es[j] == Comunes(f)[j - n - 1];
    assert LastFor(es, n, k, v);
    ResolvedExactlyWhen(f, k, v);
  }

  /** A named field typed in is sent under its own key, whatever the rows say. */
  lemma TypedFieldIsSent(p: Panel, key: string, v: string)
    requires IsComun(key) && !JsBlank(v)
    ensures var typed := Apply(Apply(p, Edit(SetEnabled(true))), Edit(SetComun(key, v)));
            Find(Resolve(typed.headers), key) == Some(v) && typed.headers.rows == p.headers.rows
  {
    var f := Apply(Apply(p, Edit(SetEnabled(true))), Edit(SetComun(key, v))).headers;
    var i := if key == TIPO_MENSAJE then 0 else if key == CONTENT_TYPE then 1 else if key == INTENCION then 2
             else if key == MESSAGE_ID then 3 else 4;
    assert Comunes(f)[i] == Entry(key, v);
    NamedIsSent(f, i);
  }

  /** The five named fields and their keys. */
  lemma NamedKeys(p: Fields)
    requires p.enabled
    ensures !JsBlank(p.tipoMensaje) ==> Find(Resolve(p), "NServiceBus.EnclosedMessageTypes") == Some(p.tipoMensaje)
    ensures !JsBlank(p.contentType) ==> Find(Resolve(p), "NServiceBus.ContentType") == Some(p.contentType)
    ensures !JsBlank(p.intencion) ==> Find(Resolve(p), "NServiceBus.MessageIntent") == Some(p.intencion)
    ensures !JsBlank(p.messageId) ==> Find(Resolve(p), "NServiceBus.MessageId") == Some(p.messageId)
    ensures !JsBlank(p.correlationId) ==> Find(Resolve(p), "NServiceBus.CorrelationId") == Some(p.correlationId)
  {
    forall i | 0 <= i < 5 && !JsBlank(Comunes(p)[i].value)
      ensures Find(Resolve(p), Comunes(p)[i].key) == Some(Comunes(p)[i].value)
    {
      NamedIsSent(p, i);
    }
    assert Comunes(p)[0].key == "NServiceBus.EnclosedMessageTypes" && Comunes(p)[1].key == "NServiceBus.ContentType";
    assert Comunes(p)[2].key == "NServiceBus.MessageIntent" && Comunes(p)[3].key == "NServiceBus.MessageId";
    assert Comunes(p)[4].key == "NServiceBus.CorrelationId";
  }

  lemma NamedIsSent(p: Fields, i: nat)
    requires p.enabled && i < 5 && !JsBlank(Comunes(p)[i].value)
    ensures Find(Resolve(p), Comunes(p)[i].key) == Some(Comunes(p)[i].value)
  {
    var cs := Comunes(p);
    var es, n := p.rows + cs, |p.rows| + i;
    ComunesEnumerated(p);
    ComunNotIndex(cs[i].key);
    assert es[n] == cs[i] && forall j :: n < j < |es| ==> es[j] == cs[j - |p.rows|];
    assert LastFor(es, n, cs[i].key, cs[i].value);
    ResolvedExactlyWhen(p, cs[i].key, cs[i].value);
  }

  // ---- posts ----

  /** What typing exchange, routing key and payload and sending posts: just that, outside reply mode, and nothing
      while a field is in error, which touches them all. */
  lemma TypedIsPosted(p: Panel, exchange: string, routingKey: string, payload: string, reply: bool)
    ensures var typed := Apply(Apply(Apply(Apply(p, ExpectReply(reply)), ExchangeInput(exchange)), RoutingKeyInput(routingKey)),
                               PayloadInput(payload));
            var sent := Apply(typed, Send);
            if JsBlank(exchange) || JsBlank(payload) || (routingKey != "" && JsBlank(routingKey)) then
              sent.inFlight == p.inFlight && sent.touched == {ExchangeField, RoutingKeyField, PayloadField}
            else
              sent.inFlight == p.inFlight + [Body(exchange, routingKey, payload, Resolve(p.headers), None, reply)]
              && sent.touched == p.touched
  {
  }

  /** The correlation id typed into a reply is posted, trimmed, unless it is blank or a reply is expected. */
  lemma TypedCorrelationIsPosted(p: Panel, typed: string)
    requires p.replyMode && !HasErrors(p)
    ensures var sent := Apply(Apply(p, CorrelationInput(typed)), Send);
            && |sent.inFlight| == |p.inFlight| + 1
            && sent.inFlight[|p.inFlight|].correlationId
               == if p.expectReply || JsBlank(typed) then None else Some(F.Trim(typed))
  {
    TrimIsBlank(typed);
  }

  // ---- templates ----

  /** Saving puts the form under the name typed, in place of an older template of that name. */
  lemma SavedUnderTypedName(p: Panel, name: string)
    ensures var saved := Apply(Apply(p, TemplateName(name)), SaveTemplate).history;
            && H.Named(saved.templates)
               == H.Named(p.history.templates)[name := H.SendTemplate(name, p.exchange, p.routingKey, p.payload,
                                                                      Some(Resolve(p.headers)))]
            && saved.recentSends == p.history.recentSends
  {
    var t := H.SendTemplate(name, p.exchange, p.routingKey, p.payload, Some(Resolve(p.headers)));
    var q := Apply(p, TemplateName(name));
    assert TemplateOf(q) == t;
    assert Apply(q, SaveTemplate).history == H.Apply(p.history, H.Save(t));
    SaveUpdates(p.history, t);
  }

  lemma SaveUpdates(h: H.History, t: H.SendTemplate)
    ensures H.Named(H.Apply(h, H.Save(t)).templates) == H.Named(h.templates)[t.name := t]
    ensures H.Apply(h, H.Save(t)).recentSends == h.recentSends
  {
    H.SaveIsUpdate(h.templates, t);
  }

  /** Deleting removes just the templates of that name. */
  lemma DeletedByName(p: Panel, name: string)
    ensures var left := Apply(p, DeleteTemplate(name)).history;
            && H.Named(left.templates) == H.Named(p.history.templates) - {name}
            && left.recentSends == p.history.recentSends
  {
    H.WithoutNameIsRemoval(p.history.templates, name);
  }

  /** Leaving a field marks just that one as touched. */
  lemma BlurTouches(p: Panel, field: Field, other: Field)
    ensures other in Apply(p, Blur(field)).touched <==> other == field || other in p.touched
  {
  }
}
