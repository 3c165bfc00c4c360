/** Custom headers of the send panel (frontend/src/app/features/send/send.component.ts): merged into one
    record for sending, split back into named fields and rows when an entry is recalled. */
module Headers {
  import opened Basics
  import opened Domain

  /** A string-keyed object as the list of its entries in the order the language enumerates them. */
  datatype Entry = Entry(key: string, value: string)

  type Record = seq<Entry>

  predicate AllDigits(s: string) {
    forall i :: 0 <= i < |s| ==> '0' <= s[i] <= '9'
  }

  function Decimal(s: string): nat
    requires AllDigits(s)
  {
    if s == "" then 0 else Decimal(Init(s)) * 10 + Digit(Last(s))
  }

  function Digit(c: char): (d: nat)
    requires '0' <= c <= '9'
    ensures d < 10
  {
    c as nat - '0' as nat
  }

  const MAX_INDEX := 0xFFFF_FFFE

  /** The number a key stands for when it is an array index (section 6.1.7 of ECMA-262). */
  function Index(key: string): Option<nat> {
    if key != "" && AllDigits(key) && (key == "0" || key[0] != '0') && Decimal(key) <= MAX_INDEX then Some(Decimal(key))
    else None
  }

  /** The enumeration order (section 10.1.11 of ECMA-262): array indices ascending, then the other keys
      as they were created. */
  predicate Before(k: string, k': string) {
    Index(k').Some? ==> Index(k).Some? && Index(k).value < Index(k').value
  }

  predicate Enumerated(r: Record) {
    forall i, j :: 0 <= i < j < |r| ==> Before(r[i].key, r[j].key) && r[i].key != r[j].key
  }

  /** Assigning a string to `__proto__` of an ordinary object adds no property. */
  const PROTO := "__proto__"

  function Position(r: Record, key: string): (i: nat)
    ensures i <= |r|
  {
    if r == [] then 0
    else if r[0].key == key || !Before(r[0].key, key) then 0
    else 1 + Position(r[1..], key)
  }

  predicate HasKey(r: Record, key: string) {
    exists i :: 0 <= i < |r| && r[i].key == key
  }

  function Replace(r: Record, key: string, value: string): Record {
    if r == [] then []
    else [if r[0].key == key then Entry(key, value) else r[0]] + Replace(r[1..], key, value)
  }

  /** `record[key] = value`. */
  function Put(r: Record, key: string, value: string): Record {
    if key == PROTO then r
    else if HasKey(r, key) then Replace(r, key, value)
    else r[..Position(r, key)] + [Entry(key, value)] + r[Position(r, key)..]
  }

  const TIPO_MENSAJE := "NServiceBus.EnclosedMessageTypes"
  const CONTENT_TYPE := "NServiceBus.ContentType"
  const INTENCION := "NServiceBus.MessageIntent"
  const MESSAGE_ID := "NServiceBus.MessageId"
  const CORRELATION_ID := "NServiceBus.CorrelationId"

  predicate IsComun(key: string) {
    key == TIPO_MENSAJE || key == CONTENT_TYPE || key == INTENCION || key == MESSAGE_ID || key == CORRELATION_ID
  }

  datatype Fields = Fields(
    enabled: bool, tipoMensaje: string, contentType: string, intencion: string, messageId: string,
    correlationId: string, rows: seq<Entry>)

  const NO_HEADERS := Fields(false, "", "", "", "", "", [])

  function Comunes(p: Fields): seq<Entry> {
    [Entry(TIPO_MENSAJE, p.tipoMensaje), Entry(CONTENT_TYPE, p.contentType), Entry(INTENCION, p.intencion),
     Entry(MESSAGE_ID, p.messageId), Entry(CORRELATION_ID, p.correlationId)]
  }

  /** Puts the entries with non-blank key and value, one after the other. */
  function PutAll(r: Record, es: seq<Entry>): Record {
    if es == [] then r
    else
      var r' := PutAll(r, Init(es));
      var e := Last(es);
      if JsBlank(e.key) || JsBlank(e.value) then r' else Put(r', e.key, e.value)
  }

  /** `resolvedHeaders`: rows first, then the named fields, which win. */
  function Resolve(p: Fields): Record {
    if !p.enabled then [] else PutAll(PutAll([], p.rows), Comunes(p))
  }

  function Find(es: seq<Entry>, key: string): Option<string> {
    if es == [] then None else if Last(es).key == key then Some(Last(es).value) else Find(Init(es), key)
  }

  function Value(es: seq<Entry>, key: string): string {
    if Find(es, key).Some? then Find(es, key).value else ""
  }

  function Leftover(es: seq<Entry>): seq<Entry> {
    if es == [] then [] else Leftover(Init(es)) + if IsComun(Last(es).key) then [] else [Last(es)]
  }

  /** `restoreHeaders`. */
  function Restore(es: Record): Fields {
    Fields(es != [], Value(es, TIPO_MENSAJE), Value(es, CONTENT_TYPE), Value(es, INTENCION), Value(es, MESSAGE_ID),
           Value(es, CORRELATION_ID), Leftover(es))
  }

  /** An entry the panel can send: not blank, and not the one key an assignment cannot create. */
  predicate Sendable(e: Entry) {
    !JsBlank(e.key) && !JsBlank(e.value) && e.key != PROTO
  }

  predicate AllSendable(es: seq<Entry>) {
    forall i :: 0 <= i < |es| ==> Sendable(es[i])
  }

  function Kept(es: seq<Entry>): seq<Entry> {
    if es == [] then [] else Kept(Init(es)) + if Sendable(Last(es)) then [Last(es)] else []
  }

  /** The same keys with the same values, whatever the order. */
  ghost predicate SameMap(a: seq<Entry>, b: seq<Entry>) {
    forall k :: Find(a, k) == Find(b, k)
  }

  // ---- enumeration order ----

  lemma {:induction false} LastPosition(r: Record, key: string)
    requires forall i :: 0 <= i < |r| ==> Before(r[i].key, key) && r[i].key != key
    ensures Position(r, key) == |r| && !HasKey(r, key)
  {
    if r != [] {
      LastPosition(r[1..], key);
    }
  }

  lemma EnumeratedInit(es: seq<Entry>)
    requires es != [] && Enumerated(es)
    ensures Enumerated(Init(es))
    ensures forall i :: 0 <= i < |es| - 1 ==> Before(Init(es)[i].key, Last(es).key) && Init(es)[i].key != Last(es).key
  {
  }

  lemma {:induction false} KeptInside(es: seq<Entry>)
    ensures forall e :: e in Kept(es) <==> e in es && Sendable(e)
    ensures AllSendable(Kept(es))
  {
    if es != [] {
      Snoc(es);
      KeptInside(Init(es));
    }
  }

  /** Putting entries already in enumeration order reproduces the sendable ones in that order. */
  lemma {:induction false} PutAllEnumerated(es: seq<Entry>)
    requires Enumerated(es)
    ensures PutAll([], es) == Kept(es)
  {
    if es != [] {
      var e := Last(es);
      EnumeratedInit(es);
      PutAllEnumerated(Init(es));
      if Sendable(e) {
        var kept := Kept(Init(es));
        KeptInside(Init(es));
        forall i | 0 <= i < |kept| ensures Before(kept[i].key, e.key) && kept[i].key != e.key {
          assert kept[i] in Init(es);
        }
        LastPosition(kept, e.key);
        assert kept[..|kept|] + [e] + kept[|kept|..] == kept + [e];
        assert e == Entry(e.key, e.value);
      } else {
        assert Kept(Init(es)) + [] == Kept(Init(es));
      }
    }
  }

  lemma ComunNotIndex(key: string)
    requires IsComun(key)
    ensures Index(key) == None && !JsBlank(key) && key != PROTO
  {
    assert key[0] == 'N';
  }

  lemma {:induction false} LeftoverInside(es: seq<Entry>)
    ensures forall e :: e in Leftover(es) <==> e in es && !IsComun(e.key)
  {
    if es != [] {
      Snoc(es);
      LeftoverInside(Init(es));
    }
  }

  lemma EnumeratedSnoc(r: Record, e: Entry)
    requires Enumerated(r)
    requires forall i :: 0 <= i < |r| ==> Before(r[i].key, e.key) && r[i].key != e.key
    ensures Enumerated(r + [e])
  {
  }

  lemma {:induction false} LeftoverEnumerated(es: seq<Entry>)
    requires Enumerated(es)
    ensures Enumerated(Leftover(es))
  {
    if es != [] {
      EnumeratedInit(es);
      LeftoverEnumerated(Init(es));
      var rest := Leftover(Init(es));
      LeftoverInside(Init(es));
      if !IsComun(Last(es).key) {
        forall i | 0 <= i < |rest| ensures Before(rest[i].key, Last(es).key) && rest[i].key != Last(es).key {
          assert rest[i] in Init(es);
        }
        EnumeratedSnoc(rest, Last(es));
      } else {
        assert rest + [] == rest;
      }
    }
  }

  lemma ComunKeysDiffer()
    ensures |TIPO_MENSAJE| == 32 && |CONTENT_TYPE| == 23 && |INTENCION| == 25 && |MESSAGE_ID| == 21 && |CORRELATION_ID| == 25
    ensures INTENCION[12] != CORRELATION_ID[12]
  {
  }

  lemma ComunesEnumerated(p: Fields)
    ensures Enumerated(Comunes(p))
    ensures forall i :: 0 <= i < 5 ==> IsComun(Comunes(p)[i].key)
  {
    ComunKeysDiffer();
    var cs := Comunes(p);
    forall i | 0 <= i < 5 ensures Index(cs[i].key) == None {
      ComunNotIndex(cs[i].key);
    }
  }

  lemma {:induction false} PutAllConcat(r: Record, a: seq<Entry>, b: seq<Entry>)
    ensures PutAll(PutAll(r, a), b) == PutAll(r, a + b)
  {
    if b == [] {
      assert a + b == a;
    } else {
      assert Init(a + b) == a + Init(b) && Last(a + b) == Last(b);
      PutAllConcat(r, a, Init(b));
    }
  }

  lemma {:induction false} KeptConcat(a: seq<Entry>, b: seq<Entry>)
    ensures Kept(a + b) == Kept(a) + Kept(b)
  {
    if b == [] {
      assert a + b == a;
    } else {
      assert Init(a + b) == a + Init(b) && Last(a + b) == Last(b);
      KeptConcat(a, Init(b));
    }
  }

  lemma LeftoverThenComunes(es: seq<Entry>, p: Fields)
    requires Enumerated(es)
    ensures Enumerated(Leftover(es) + Comunes(p))
  {
    LeftoverEnumerated(es);
    ComunesEnumerated(p);
    LeftoverInside(es);
    var a, b := Leftover(es), Comunes(p);
    forall i, j | 0 <= i < |a| && 0 <= j < |b| ensures Before(a[i].key, b[j].key) && a[i].key != b[j].key {
      assert a[i] in a;
      ComunNotIndex(b[j].key);
    }
  }

  /** Split and merged again, a record keeps its sendable rows in order, followed by its named fields. */
  lemma ResolveRestore(es: Record)
    requires Enumerated(es)
    ensures Resolve(Restore(es)) == Kept(Leftover(es)) + Kept(Comunes(Restore(es)))
  {
    var p := Restore(es);
    if es == [] {
      assert Kept(Comunes(p)) == [] by { BlankComunes(p); }
    } else {
      PutAllConcat([], p.rows, Comunes(p));
      LeftoverThenComunes(es, p);
      PutAllEnumerated(Leftover(es) + Comunes(p));
      KeptConcat(Leftover(es), Comunes(p));
    }
  }

  lemma BlankComunes(p: Fields)
    requires p.tipoMensaje == p.contentType == p.intencion == p.messageId == p.correlationId == ""
    ensures Kept(Comunes(p)) == []
  {
    KeptNone(Comunes(p));
  }

  lemma {:induction false} KeptNone(es: seq<Entry>)
    requires forall i :: 0 <= i < |es| ==> es[i].value == ""
    ensures Kept(es) == []
  {
    if es != [] {
      KeptNone(Init(es));
    }
  }

  // ---- as maps ----

  lemma {:induction false} FindConcat(a: seq<Entry>, b: seq<Entry>, k: string)
    ensures Find(a + b, k) == if Find(b, k).Some? then Find(b, k) else Find(a, k)
  {
    if b == [] {
      assert a + b == a;
    } else {
      assert Init(a + b) == a + Init(b) && Last(a + b) == Last(b);
      FindConcat(a, Init(b), k);
    }
  }

  lemma {:induction false} FindAbsent(es: seq<Entry>, k: string)
    requires forall i :: 0 <= i < |es| ==> es[i].key != k
    ensures Find(es, k) == None
  {
    if es != [] {
      FindAbsent(Init(es), k);
    }
  }

  lemma {:induction false} FindPresent(es: seq<Entry>, i: nat)
    requires Enumerated(es) && i < |es|
    ensures Find(es, es[i].key) == Some(es[i].value)
  {
    if i < |es| - 1 {
      EnumeratedInit(es);
      FindPresent(Init(es), i);
    }
  }

  lemma {:induction false} FindKept(es: seq<Entry>, k: string)
    requires Enumerated(es)
    ensures Find(Kept(es), k) ==
              if Find(es, k).Some? && Sendable(Entry(k, Find(es, k).value)) then Find(es, k) else None
  {
    if es != [] {
      EnumeratedInit(es);
      FindKept(Init(es), k);
      var kept := Kept(Init(es));
      if Last(es).key == k {
        FindAbsent(Init(es), k);
        assert Last(es) == Entry(k, Last(es).value);
      }
      if Sendable(Last(es)) {
        FindConcat(kept, [Last(es)], k);
      } else {
        assert kept + [] == kept;
      }
    }
  }

  lemma {:induction false} FindLeftover(es: seq<Entry>, k: string)
    ensures Find(Leftover(es), k) == if IsComun(k) then None else Find(es, k)
  {
    if es != [] {
      FindLeftover(Init(es), k);
      var rest := Leftover(Init(es));
      if IsComun(Last(es).key) {
        assert rest + [] == rest;
      } else {
        FindConcat(rest, [Last(es)], k);
      }
    }
  }

  lemma FindComunes(es: Record, k: string)
    ensures Find(Comunes(Restore(es)), k) == if IsComun(k) then Some(Value(es, k)) else None
  {
    var cs := Comunes(Restore(es));
    ComunesEnumerated(Restore(es));
    if IsComun(k) {
      var i := if k == TIPO_MENSAJE then 0 else if k == CONTENT_TYPE then 1 else if k == INTENCION then 2
               else if k == MESSAGE_ID then 3 else 4;
      assert cs[i].key == k;
      FindPresent(cs, i);
    } else {
      FindAbsent(cs, k);
    }
  }

  /** As a map, splitting and merging again keeps exactly the sendable entries. */
  lemma {:induction false} ResolveRestoreIsKept(es: Record)
    requires Enumerated(es)
    ensures SameMap(Resolve(Restore(es)), Kept(es))
  {
    ResolveRestore(es);
    var p := Restore(es);
    LeftoverEnumerated(es);
    ComunesEnumerated(p);
    forall k ensures Find(Resolve(p), k) == Find(Kept(es), k) {
      FindConcat(Kept(Leftover(es)), Kept(Comunes(p)), k);
      FindKept(Leftover(es), k);
      FindKept(Comunes(p), k);
      FindLeftover(es, k);
      FindComunes(es, k);
      FindKept(es, k);
      if IsComun(k) {
        ComunNotIndex(k);
      }
    }
  }

  /** The round trip on records is the identity exactly when every entry is sendable. */
  lemma RestoreThenResolve(es: Record)
    requires Enumerated(es)
    ensures SameMap(Resolve(Restore(es)), es) <==>
              forall i :: 0 <= i < |es| ==> !JsBlank(es[i].key) && !JsBlank(es[i].value) && es[i].key != "__proto__"
  {
    ResolveRestoreIsKept(es);
    if AllSendable(es) {
      forall k ensures Find(Kept(es), k) == Find(es, k) {
        FindKept(es, k);
        AllSendableFind(es, k);
      }
    } else {
      var i :| 0 <= i < |es| && !Sendable(es[i]);
      FindPresent(es, i);
      FindKept(es, es[i].key);
      assert Find(Resolve(Restore(es)), es[i].key) == Find(Kept(es), es[i].key);
    }
  }

  lemma {:induction false} AllSendableFind(es: seq<Entry>, k: string)
    requires AllSendable(es)
    ensures Find(es, k).Some? ==> Sendable(Entry(k, Find(es, k).value))
  {
    if es != [] {
      assert Last(es) == Entry(Last(es).key, Last(es).value);
      AllSendableFind(Init(es), k);
    }
  }

  // ---- every resolved record is in enumeration order and sendable ----

  lemma {:induction false} ReplaceKeepsKeys(r: Record, key: string, value: string)
    ensures |Replace(r, key, value)| == |r|
    ensures forall i :: 0 <= i < |r| ==>
              Replace(r, key, value)[i] == if r[i].key == key then Entry(key, value) else r[i]
  {
    if r != [] {
      ReplaceKeepsKeys(r[1..], key, value);
    }
  }

  lemma {:induction false} PositionSplits(r: Record, key: string)
    requires Enumerated(r) && !HasKey(r, key)
    ensures var n := Position(r, key);
            && (forall i :: 0 <= i < n ==> Before(r[i].key, key))
            && (forall i :: n <= i < |r| ==> Before(key, r[i].key))
  {
    if r != [] && Before(r[0].key, key) && r[0].key != key {
      assert !HasKey(r[1..], key) by {
        forall i | 0 <= i < |r[1..]| ensures r[1..][i].key != key {
          assert r[1..][i] == r[i + 1];
        }
      }
      PositionSplits(r[1..], key);
    } else if r != [] {
      assert r[0].key != key;
      BeforeTotal(r[0].key, key);
      forall i | 0 <= i < |r| ensures Before(key, r[i].key) {
        assert i == 0 || Before(r[0].key, r[i].key);
        BeforeAfter(key, r[0].key, r[i].key);
      }
    }
  }

  /** Array indices are written in one way only. */
  lemma {:induction false} DecimalInjective(a: string, b: string)
    requires AllDigits(a) && AllDigits(b) && |a| == |b| && Decimal(a) == Decimal(b)
    ensures a == b
  {
    if a != "" {
      SameTens(Decimal(Init(a)), Last(a), Decimal(Init(b)), Last(b));
      DecimalInjective(Init(a), Init(b));
      Snoc(a);
      Snoc(b);
    }
  }

  lemma SameTens(m: nat, c: char, n: nat, d: char)
    requires '0' <= c <= '9' && '0' <= d <= '9' && m * 10 + Digit(c) == n * 10 + Digit(d)
    ensures m == n && c == d
  {
    assert Digit(c) == Digit(d);
  }

  lemma {:induction false} DecimalRange(a: string, b: string)
    requires AllDigits(a) && AllDigits(b) && |a| < |b| && b[0] != '0'
    ensures Decimal(a) < Decimal(b)
  {
    if a == "" {
      DecimalPositive(b);
    } else {
      DecimalRange(Init(a), Init(b));
    }
  }

  lemma {:induction false} DecimalPositive(b: string)
    requires AllDigits(b) && b != "" && b[0] != '0'
    ensures Decimal(b) > 0
  {
    if |b| > 1 {
      DecimalPositive(Init(b));
    }
  }

  lemma IndexInjective(k: string, k': string)
    requires Index(k).Some? && Index(k) == Index(k')
    ensures k == k'
  {
    if |k| == |k'| {
      DecimalInjective(k, k');
    } else if |k| < |k'| {
      DecimalRange(k, k');
    } else {
      DecimalRange(k', k);
    }
  }

  /** The array indices: decimal numerals without leading zeros, below 2^32 - 1. */
  lemma IndexExactly(key: string, n: nat)
    ensures Index(key) == Some(n) <==>
              && AllDigits(key) && (key == "0" || (key != "" && key[0] != '0'))
              && Decimal(key) == n && n < 4294967295
  {
    assert "0"[0] == '0';
  }

  lemma BeforeTotal(k: string, k': string)
    requires k != k' && !Before(k, k')
    ensures Before(k', k) && Index(k').Some?
  {
    if Index(k).Some? && Index(k) == Index(k') {
      IndexInjective(k, k');
    }
  }

  lemma BeforeAfter(key: string, first: string, k: string)
    requires Index(key).Some? && Before(key, first) && (k == first || Before(first, k))
    ensures Before(key, k)
  {
  }

  lemma PutEnumerated(r: Record, key: string, value: string)
    requires Enumerated(r)
    ensures Enumerated(Put(r, key, value))
  {
    if key == PROTO {
    } else if HasKey(r, key) {
      ReplaceKeepsKeys(r, key, value);
    } else {
      var n := Position(r, key);
      PositionSplits(r, key);
      var r' := r[..n] + [Entry(key, value)] + r[n..];
      forall i, j | 0 <= i < j < |r'| ensures Before(r'[i].key, r'[j].key) && r'[i].key != r'[j].key {
        assert r'[i] == if i < n then r[i] else if i == n then Entry(key, value) else r[i - 1];
        assert r'[j] == if j < n then r[j] else if j == n then Entry(key, value) else r[j - 1];
      }
    }
  }

  lemma PutSendable(r: Record, key: string, value: string)
    requires AllSendable(r) && !JsBlank(key) && !JsBlank(value)
    ensures AllSendable(Put(r, key, value))
  {
    if key != PROTO && HasKey(r, key) {
      ReplaceKeepsKeys(r, key, value);
    }
  }

  lemma {:induction false} PutAllResolved(r: Record, es: seq<Entry>)
    requires Enumerated(r) && AllSendable(r)
    ensures Enumerated(PutAll(r, es)) && AllSendable(PutAll(r, es))
  {
    if es != [] {
      PutAllResolved(r, Init(es));
      var r', e := PutAll(r, Init(es)), Last(es);
      if !JsBlank(e.key) && !JsBlank(e.value) {
        PutEnumerated(r', e.key, e.value);
        PutSendable(r', e.key, e.value);
      }
    }
  }

  lemma {:induction false} ResolvedIsSendable(p: Fields)
    ensures Enumerated(Resolve(p)) && AllSendable(Resolve(p))
  {
    PutAllResolved([], p.rows);
    PutAllResolved(PutAll([], p.rows), Comunes(p));
  }

  /** For any panel state: resolving, restoring and resolving again gives the same header map. */
  lemma {:induction false} ResolveIsStable(p: Fields)
    ensures SameMap(Resolve(Restore(Resolve(p))), Resolve(p))
  {
    ResolvedIsSendable(p);
    RestoreThenResolve(Resolve(p));
  }

  /** And from the second pass on it gives the very same record, order included. */
  lemma OrderStableFromSecondPass(es: Record)
    requires Enumerated(es)
    ensures var once := Resolve(Restore(es));
            Resolve(Restore(once)) == once
  {
    var p := Restore(es);
    var once := Resolve(p);
    var L, C := Kept(Leftover(es)), Kept(Comunes(p));
    ResolveRestore(es);
    ResolvedIsSendable(p);
    ResolveRestore(once);
    LeftoverOfOnce(es);
    assert Leftover(once) == L;
    KeptOfKept(Leftover(es));
    SameComunes(es);
  }

  lemma {:induction false} KeptOfKept(es: seq<Entry>)
    ensures Kept(Kept(es)) == Kept(es)
  {
    KeptInside(es);
    KeptAll(Kept(es));
  }

  lemma {:induction false} KeptAll(es: seq<Entry>)
    requires AllSendable(es)
    ensures Kept(es) == es
  {
    if es != [] {
      KeptAll(Init(es));
      Snoc(es);
    }
  }

  lemma {:induction false} LeftoverConcat(a: seq<Entry>, b: seq<Entry>)
    requires forall i :: 0 <= i < |a| ==> !IsComun(a[i].key)
    requires forall i :: 0 <= i < |b| ==> IsComun(b[i].key)
    ensures Leftover(a + b) == a
    decreases |a| + |b|
  {
    if b != [] {
      assert Init(a + b) == a + Init(b) && Last(a + b) == Last(b);
      LeftoverConcat(a, Init(b));
      assert a + [] == a;
    } else {
      assert a + b == a;
      if a != [] {
        LeftoverConcat(Init(a), []);
        assert Init(a) + [] == Init(a);
        Snoc(a);
      }
    }
  }

  lemma LeftoverOfOnce(es: Record)
    requires Enumerated(es)
    ensures Leftover(Resolve(Restore(es))) == Kept(Leftover(es))
  {
    var p := Restore(es);
    ResolveRestore(es);
    var L, C := Kept(Leftover(es)), Kept(Comunes(p));
    KeptInside(Leftover(es));
    KeptInside(Comunes(p));
    LeftoverInside(es);
    ComunesEnumerated(p);
    forall i | 0 <= i < |L| ensures !IsComun(L[i].key) {
      assert L[i] in Leftover(es);
    }
    forall i | 0 <= i < |C| ensures IsComun(C[i].key) {
      assert C[i] in Comunes(p);
    }
    LeftoverConcat(L, C);
  }

  /** The named fields restored from the first pass are those restored before, blank ones now empty. */
  lemma SameComunes(es: Record)
    requires Enumerated(es)
    ensures Kept(Comunes(Restore(Resolve(Restore(es))))) == Kept(Comunes(Restore(es)))
  {
    var once := Resolve(Restore(es));
    ResolveRestoreIsKept(es);
    var a, b := Comunes(Restore(es)), Comunes(Restore(once));
    forall i | 0 <= i < 5
      ensures (Sendable(a[i]) <==> Sendable(b[i])) && (Sendable(a[i]) ==> a[i] == b[i])
    {
      SameComun(es, once, i);
    }
    KeptPointwise(a, b);
  }

  lemma SameComun(es: Record, once: Record, i: nat)
    requires Enumerated(es) && SameMap(once, Kept(es)) && i < 5
    ensures var a, b := Comunes(Restore(es))[i], Comunes(Restore(once))[i];
            (Sendable(a) <==> Sendable(b)) && (Sendable(a) ==> a == b)
  {
    ComunAt(es, i);
    ComunAt(once, i);
    SameValue(es, once, ComunKey(i));
  }

  function ComunKey(i: nat): string
    requires i < 5
  {
    [TIPO_MENSAJE, CONTENT_TYPE, INTENCION, MESSAGE_ID, CORRELATION_ID][i]
  }

  lemma ComunAt(es: Record, i: nat)
    requires i < 5
    ensures Comunes(Restore(es))[i] == Entry(ComunKey(i), Value(es, ComunKey(i)))
  {
  }

  lemma SameValue(es: Record, once: Record, k: string)
    requires Enumerated(es) && SameMap(once, Kept(es))
    ensures var a, b := Entry(k, Value(es, k)), Entry(k, Value(once, k));
            (Sendable(a) <==> Sendable(b)) && (Sendable(a) ==> a == b)
  {
    FindKept(es, k);
    assert Find(once, k) == Find(Kept(es), k);
  }

  lemma {:induction false} KeptPointwise(a: seq<Entry>, b: seq<Entry>)
    requires |a| == |b|
    requires forall i :: 0 <= i < |a| ==> (Sendable(a[i]) <==> Sendable(b[i])) && (Sendable(a[i]) ==> a[i] == b[i])
    ensures Kept(a) == Kept(b)
  {
    if a != [] {
      KeptPointwise(Init(a), Init(b));
    }
  }
}
