/** Recent sends and templates, kept in memory and in local storage
    (frontend/src/app/features/send/send-history.service.ts). */
module SendHistory {
  import opened Basics
  import opened Headers

  datatype RecentSend = RecentSend(exchange: string, routingKey: string, payload: string, headers: Option<Record>, sentAt: string)

  datatype SendTemplate = SendTemplate(name: string, exchange: string, routingKey: string, payload: string, headers: Option<Record>)

  /** What is stored under one key; an array is what JSON writes for it and reads back. */
  datatype Stored<T> = Missing | Malformed | NotAnArray | Items(items: seq<T>)

  datatype Storage = Storage(recentSends: Stored<RecentSend>, templates: Stored<SendTemplate>)

  datatype History = History(recentSends: seq<RecentSend>, templates: seq<SendTemplate>, storage: Storage)

  /** `readArray`: anything but an array reads as empty. */
  function ReadArray<T>(stored: Stored<T>): seq<T> {
    if stored.Items? then stored.items else []
  }

  function Load(storage: Storage): History {
    History(ReadArray(storage.recentSends), ReadArray(storage.templates), storage)
  }

  const CAP := 20

  function FirstCap<T>(s: seq<T>): seq<T> {
    if |s| <= CAP then s else s[..CAP]
  }

  function WithoutName(ts: seq<SendTemplate>, name: string): seq<SendTemplate> {
    if ts == [] then [] else WithoutName(Init(ts), name) + if Last(ts).name == name then [] else [Last(ts)]
  }

  datatype Action = Record(entry: RecentSend) | Save(template: SendTemplate) | Delete(name: string)

  function Apply(h: History, a: Action): History {
    match a
    case Record(entry) =>
      var next := FirstCap([entry] + h.recentSends);
      h.(recentSends := next, storage := h.storage.(recentSends := Items(next)))
    case Save(t) =>
      var next := WithoutName(h.templates, t.name) + [t];
      h.(templates := next, storage := h.storage.(templates := Items(next)))
    case Delete(name) =>
      var next := WithoutName(h.templates, name);
      h.(templates := next, storage := h.storage.(templates := Items(next)))
  }

  function Run(storage: Storage, actions: seq<Action>): History {
    if actions == [] then Load(storage) else Apply(Run(storage, Init(actions)), Last(actions))
  }

  /** The log: every recorded send, newest first. */
  function Recorded(actions: seq<Action>): seq<RecentSend> {
    if actions == [] then [] else
      (if Last(actions).Record? then [Last(actions).entry] else []) + Recorded(Init(actions))
  }

  /** After at least one recorded send, the recent sends are the first twenty of the recorded ones, newest
      first, followed by those loaded; before the first one, those loaded, however many. */
  lemma {:induction false} RecentRefinesLog(storage: Storage, actions: seq<Action>)
    ensures Run(storage, actions).recentSends ==
              var loaded := ReadArray(storage.recentSends);
              var all := Recorded(actions) + loaded;
              if Recorded(actions) == [] then loaded else if |all| <= 20 then all else all[..20]
  {
    if actions != [] {
      var before := Init(actions);
      var log, loaded := Recorded(before), ReadArray(storage.recentSends);
      RecentRefinesLog(storage, before);
      if Last(actions).Record? {
        var e := Last(actions).entry;
        assert [e] + (log + loaded) == ([e] + log) + loaded;
        CapTwice(e, log + loaded);
        assert log == [] ==> log + loaded == loaded;
      } else {
        assert [] + log == log;
      }
    }
  }

  lemma CapTwice<T>(x: T, s: seq<T>)
    ensures FirstCap([x] + FirstCap(s)) == FirstCap([x] + s)
  {
  }

  /** Templates as a map from names; of two with one name, only stored data could hold both. */
  function Named(ts: seq<SendTemplate>): map<string, SendTemplate> {
    if ts == [] then map[] else Named(Init(ts))[Last(ts).name := Last(ts)]
  }

  predicate DistinctNames(ts: seq<SendTemplate>) {
    ts == [] || (Last(ts).name !in Named(Init(ts)) && DistinctNames(Init(ts)))
  }

  function NamedAfter(m: map<string, SendTemplate>, actions: seq<Action>): map<string, SendTemplate> {
    if actions == [] then m
    else
      var before := NamedAfter(m, Init(actions));
      match Last(actions)
      case Record(_) => before
      case Save(t) => before[t.name := t]
      case Delete(name) => before - {name}
  }

  lemma RemoveAfterUpdate<K, V>(m: map<K, V>, k: K, v: V, gone: K)
    ensures m[k := v] - {gone} == if k == gone then m - {gone} else (m - {gone})[k := v]
  {
  }

  lemma {:induction false} WithoutNameIsRemoval(ts: seq<SendTemplate>, name: string)
    ensures Named(WithoutName(ts, name)) == Named(ts) - {name}
  {
    if ts != [] {
      WithoutNameIsRemoval(Init(ts), name);
      RemoveAfterUpdate(Named(Init(ts)), Last(ts).name, Last(ts), name);
      var rest := WithoutName(Init(ts), name);
      assert rest + [] == rest;
      assert Init(rest + [Last(ts)]) == rest;
    }
  }

  lemma {:induction false} WithoutNameDistinct(ts: seq<SendTemplate>, name: string)
    requires DistinctNames(ts)
    ensures DistinctNames(WithoutName(ts, name))
  {
    if ts != [] {
      WithoutNameDistinct(Init(ts), name);
      WithoutNameIsRemoval(Init(ts), name);
      var rest := WithoutName(Init(ts), name);
      assert rest + [] == rest;
      assert Init(rest + [Last(ts)]) == rest;
    }
  }

  lemma SaveIsUpdate(ts: seq<SendTemplate>, t: SendTemplate)
    ensures Named(WithoutName(ts, t.name) + [t]) == Named(ts)[t.name := t]
    ensures DistinctNames(ts) ==> DistinctNames(WithoutName(ts, t.name) + [t])
  {
    var rest := WithoutName(ts, t.name);
    assert Init(rest + [t]) == rest;
    WithoutNameIsRemoval(ts, t.name);
    UpdateAfterRemove(Named(ts), t.name, t);
    if DistinctNames(ts) {
      WithoutNameDistinct(ts, t.name);
    }
  }

  lemma UpdateAfterRemove<K, V>(m: map<K, V>, k: K, v: V)
    ensures (m - {k})[k := v] == m[k := v]
    ensures k !in m - {k}
  {
  }

  /** The templates refine a map from names to templates, and names once distinct stay distinct. */
  lemma {:induction false} TemplatesRefineMap(storage: Storage, actions: seq<Action>)
    ensures var loaded := ReadArray(storage.templates);
            && Named(Run(storage, actions).templates) == NamedAfter(Named(loaded), actions)
            && (DistinctNames(loaded) ==> DistinctNames(Run(storage, actions).templates))
  {
    if actions != [] {
      TemplatesRefineMap(storage, Init(actions));
      var ts := Run(storage, Init(actions)).templates;
      match Last(actions)
      case Record(_) =>
      case Save(t) => SaveIsUpdate(ts, t);
      case Delete(name) =>
        WithoutNameIsRemoval(ts, name);
        if DistinctNames(ts) {
          WithoutNameDistinct(ts, name);
        }
    }
  }

  /** At any moment a reload restores exactly what is in memory. */
  lemma {:induction false} ReloadRestores(storage: Storage, actions: seq<Action>)
    ensures Load(Run(storage, actions).storage) == Run(storage, actions)
  {
    if actions != [] {
      ReloadRestores(storage, Init(actions));
    }
  }

  class LocalStorage {
    var contents: Storage

    constructor (contents: Storage)
      ensures this.contents == contents
    {
      this.contents := contents;
    }
  }

  class SendHistoryService {
    const storage: LocalStorage
    var recentSends: seq<RecentSend>
    var templates: seq<SendTemplate>

    ghost function View(): History
      reads this, storage
    {
      History(recentSends, templates, storage.contents)
    }

    constructor (storage: LocalStorage)
      ensures this.storage == storage && View() == Load(storage.contents)
    {
      this.storage := storage;
      recentSends := ReadArray(storage.contents.recentSends);
      templates := ReadArray(storage.contents.templates);
    }

    method RecordSend(entry: RecentSend)
      modifies this`recentSends, storage
      ensures View() == Apply(old(View()), Record(entry))
    {
      recentSends := FirstCap([entry] + recentSends);
      storage.contents := storage.contents.(recentSends := Items(recentSends));
    }

    method SaveTemplate(template: SendTemplate)
      modifies this`templates, storage
      ensures View() == Apply(old(View()), Save(template))
    {
      templates := WithoutName(templates, template.name) + [template];
      storage.contents := storage.contents.(templates := Items(templates));
    }

    method DeleteTemplate(name: string)
      modifies this`templates, storage
      ensures View() == Apply(old(View()), Delete(name))
    {
      templates := WithoutName(templates, name);
      storage.contents := storage.contents.(templates := Items(templates));
    }
  }
}
