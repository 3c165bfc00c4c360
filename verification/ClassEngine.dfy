/** The class reconciliation engine of one element as a state machine
    (frontend/libs/ui/utils/src/lib/hlm.ts): sources, base classes, and the observer that also sees
    the engine's own writes. Every list of steps is a run; a step that cannot happen changes nothing. */
module ClassEngine {
  import opened Basics
  import opened ClassList
  import opened ClassMerge

  datatype Source = Source(classes: seq<string>, order: nat)

  /** One manager with its element. `orders` holds the live registrations, `pending` the mutation
      records not yet delivered, `writes` how often the engine has assigned `className`. */
  datatype Engine = Engine(
    className: string, pending: nat, writes: nat,
    managed: bool, base: seq<string>, sources: map<nat, Source>, orders: map<nat, nat>,
    nextOrder: nat, hasInitialized: bool)

  /** The classes of the source registered at position `k`. */
  ghost function WordsAt(sources: map<nat, Source>, k: nat): seq<string> {
    if exists id :: id in sources && sources[id].order == k then
      var id :| id in sources && sources[id].order == k; sources[id].classes
    else []
  }

  /** All source classes, sources sorted by registration order. */
  ghost function InOrder(sources: map<nat, Source>, n: nat): seq<string> {
    if n == 0 then [] else InOrder(sources, n - 1) + WordsAt(sources, n - 1)
  }

  function SourceSet(sources: map<nat, Source>): set<string> {
    set id, w | id in sources && w in sources[id].classes :: w
  }

  function Created(host: string, className: string): Engine {
    Engine(className, 0, 0, true, AddAll([], Parse(host)), map[], map[], 0, false)
  }

  /** `updateElement`. */
  ghost function Update(m: Merger, e: Engine): Engine {
    var captures := !e.hasInitialized && e.sources != map[];
    var base := if captures then AddAll(e.base, Without(Parse(e.className), SourceSet(e.sources))) else e.base;
    var next := Join(Merge(m, InOrder(e.sources, e.nextOrder) + base));
    var e' := e.(base := base, hasInitialized := e.hasInitialized || captures);
    if e.className == next then e'
    else e'.(className := next, pending := e.pending + 1, writes := e.writes + 1)
  }

  /** The observer's handler for one mutation record: re-reads the base classes, then updates. */
  ghost function Handle(m: Merger, e: Engine): Engine {
    if !e.managed then e
    else Update(m, e.(base := AddAll([], Without(Parse(e.className), SourceSet(e.sources)))))
  }

  ghost function Drain(m: Merger, e: Engine, records: nat): Engine
    decreases records
  {
    if records == 0 then e else Drain(m, Handle(m, e), records - 1)
  }

  datatype Step =
    | Register(id: nat)
    | Effect(id: nat, input: ClassInput)
    | Destroy(id: nat)
    | External(className: string)
    | Callback

  ghost function Apply(m: Merger, e: Engine, step: Step): Engine {
    match step
    case Register(id) =>
      if !e.managed || id in e.orders || id in e.sources then e
      else e.(orders := e.orders[id := e.nextOrder], nextOrder := e.nextOrder + 1)
    case Effect(id, input) =>
      if id !in e.orders then e
      else Update(m, e.(sources := e.sources[id := Source(AddAll([], Parse(Clsx(input))), e.orders[id])]))
    case Destroy(id) =>
      if id !in e.orders then e
      else
        var e' := e.(sources := e.sources - {id}, orders := e.orders - {id});
        if e'.sources == map[] then e'.(managed := false) else Update(m, e')
    case External(s) => e.(className := s, pending := e.pending + 1)
    case Callback => Drain(m, e.(pending := 0), e.pending)
  }

  ghost function Run(m: Merger, e: Engine, steps: seq<Step>): Engine {
    if steps == [] then e else Apply(m, Run(m, e, Init(steps)), Last(steps))
  }

  // ---- what every run keeps ----

  /** Every source is a live registration at that registration's position, and positions are distinct. */
  ghost predicate Linked(sources: map<nat, Source>, orders: map<nat, nat>, nextOrder: nat) {
    && (forall id :: id in sources ==>
          id in orders && sources[id].order == orders[id] && AllWords(sources[id].classes))
    && (forall id :: id in orders ==> orders[id] < nextOrder)
    && (forall id, id' :: id in orders && id' in orders && orders[id] == orders[id'] ==> id == id')
  }

  ghost predicate WellFormed(e: Engine) {
    && Linked(e.sources, e.orders, e.nextOrder)
    && AllWords(e.base)
    && (!e.hasInitialized ==> e.sources == map[])
  }

  lemma AddAllWords(to: seq<string>, ws: seq<string>)
    requires AllWords(to) && AllWords(ws)
    ensures AllWords(AddAll(to, ws))
  {
    AddAllMembers(to, ws);
    WordsOf(AddAll(to, ws), to + ws);
  }

  lemma UpdateWellFormed(m: Merger, e: Engine)
    requires WellFormed(e.(hasInitialized := true))
    ensures WellFormed(Update(m, e))
  {
    var added := Without(Parse(e.className), SourceSet(e.sources));
    ParseWords(e.className);
    WithoutMembers(Parse(e.className), SourceSet(e.sources));
    WordsOf(added, Parse(e.className));
    AddAllWords(e.base, added);
  }

  lemma HandleWellFormed(m: Merger, e: Engine)
    requires WellFormed(e)
    ensures WellFormed(Handle(m, e))
  {
    var ws := Without(Parse(e.className), SourceSet(e.sources));
    ParseWords(e.className);
    WithoutMembers(Parse(e.className), SourceSet(e.sources));
    WordsOf(ws, Parse(e.className));
    AddAllWords([], ws);
    if e.managed {
      UpdateWellFormed(m, e.(base := AddAll([], ws)));
    }
  }

  lemma {:induction false} DrainWellFormed(m: Merger, e: Engine, records: nat)
    requires WellFormed(e)
    ensures WellFormed(Drain(m, e, records))
    decreases records
  {
    if records > 0 {
      HandleWellFormed(m, e);
      DrainWellFormed(m, Handle(m, e), records - 1);
    }
  }

  lemma ApplyWellFormed(m: Merger, e: Engine, step: Step)
    requires WellFormed(e)
    ensures WellFormed(Apply(m, e, step))
  {
    match step
    case Register(id) =>
    case Effect(id, input) =>
      if id in e.orders {
        var ws := AddAll([], Parse(Clsx(input)));
        ParseWords(Clsx(input));
        AddAllWords([], Parse(Clsx(input)));
        UpdateWellFormed(m, e.(sources := e.sources[id := Source(ws, e.orders[id])]));
      }
    case Destroy(id) =>
      if id in e.orders {
        var e' := e.(sources := e.sources - {id}, orders := e.orders - {id});
        assert WellFormed(e');
        UpdateWellFormed(m, e');
      }
    case External(s) =>
    case Callback => DrainWellFormed(m, e.(pending := 0), e.pending);
  }

  lemma {:induction false} RunWellFormed(m: Merger, host: string, className: string, steps: seq<Step>)
    ensures WellFormed(Run(m, Created(host, className), steps))
  {
    if steps == [] {
      ParseWords(host);
      AddAllWords([], Parse(host));
    } else {
      RunWellFormed(m, host, className, Init(steps));
      ApplyWellFormed(m, Run(m, Created(host, className), Init(steps)), Last(steps));
    }
  }

  // ---- the source words, sorted, are exactly the set the handler collects ----

  lemma WordsAtSource(e: Engine, id: nat)
    requires WellFormed(e) && id in e.sources
    ensures WordsAt(e.sources, e.sources[id].order) == e.sources[id].classes
  {
  }

  lemma {:induction false} InOrderContains(e: Engine, id: nat, n: nat)
    requires WellFormed(e) && id in e.sources && e.sources[id].order < n
    ensures forall w :: w in e.sources[id].classes ==> w in InOrder(e.sources, n)
  {
    if e.sources[id].order == n - 1 {
      WordsAtSource(e, id);
    } else {
      InOrderContains(e, id, n - 1);
    }
  }

  lemma {:induction false} InOrderInside(sources: map<nat, Source>, n: nat)
    ensures forall w :: w in InOrder(sources, n) ==> w in SourceSet(sources)
  {
    if n > 0 {
      InOrderInside(sources, n - 1);
      forall w | w in WordsAt(sources, n - 1) ensures w in SourceSet(sources) {
      }
    }
  }

  lemma InOrderIsSourceSet(e: Engine)
    requires WellFormed(e)
    ensures forall w :: w in InOrder(e.sources, e.nextOrder) <==> w in SourceSet(e.sources)
    ensures AllWords(InOrder(e.sources, e.nextOrder))
  {
    InOrderInside(e.sources, e.nextOrder);
    forall w | w in SourceSet(e.sources)
      ensures w in InOrder(e.sources, e.nextOrder) && IsWord(w)
    {
      var id :| id in e.sources && w in e.sources[id].classes;
      InOrderContains(e, id, e.nextOrder);
    }
  }

  /** In the merged text a source registered earlier comes before one registered later. */
  lemma {:induction false} InOrderSplits(sources: map<nat, Source>, k: nat, n: nat)
    requires k < n
    ensures exists rest :: InOrder(sources, n) == InOrder(sources, k) + WordsAt(sources, k) + rest
  {
    if k == n - 1 {
      assert InOrder(sources, n) == InOrder(sources, k) + WordsAt(sources, k) + [];
    } else {
      InOrderSplits(sources, k, n - 1);
      var rest :| InOrder(sources, n - 1) == InOrder(sources, k) + WordsAt(sources, k) + rest;
      assert InOrder(sources, n) == InOrder(sources, k) + WordsAt(sources, k) + (rest + WordsAt(sources, n - 1));
    }
  }

  lemma InOrderSorted(e: Engine, a: nat, b: nat)
    requires WellFormed(e) && a in e.sources && b in e.sources && e.sources[a].order < e.sources[b].order
    ensures exists first, mid, rest ::
              InOrder(e.sources, e.nextOrder) == first + e.sources[a].classes + mid + e.sources[b].classes + rest
  {
    var i, j := e.sources[a].order, e.sources[b].order;
    InOrderSplits(e.sources, i, j);
    InOrderSplits(e.sources, j, e.nextOrder);
    WordsAtSource(e, a);
    WordsAtSource(e, b);
    var mid :| InOrder(e.sources, j) == InOrder(e.sources, i) + WordsAt(e.sources, i) + mid;
    var rest :| InOrder(e.sources, e.nextOrder) == InOrder(e.sources, j) + WordsAt(e.sources, j) + rest;
    assert InOrder(e.sources, e.nextOrder)
           == InOrder(e.sources, i) + e.sources[a].classes + mid + e.sources[b].classes + rest;
  }

  // ---- what leaves the sources alone ----

  ghost predicate SameSources(e: Engine, f: Engine) {
    e.sources == f.sources && e.orders == f.orders && e.nextOrder == f.nextOrder && e.managed == f.managed
  }

  lemma {:induction false} DrainKeepsSources(m: Merger, e: Engine, records: nat)
    ensures SameSources(Drain(m, e, records), e)
    decreases records
  {
    if records > 0 {
      DrainKeepsSources(m, Handle(m, e), records - 1);
    }
  }

  lemma UpdateKeepsSources(m: Merger, e: Engine)
    ensures SameSources(Update(m, e), e)
  {
  }

  lemma CallbackKeepsSources(m: Merger, e: Engine)
    ensures SameSources(Apply(m, e, Callback), e)
  {
    DrainKeepsSources(m, e.(pending := 0), e.pending);
  }
}
