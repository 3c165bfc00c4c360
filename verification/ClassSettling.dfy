/** The observer's feedback loop settles, and where it settles does not depend on the order of events. */
module ClassSettling {
  import opened Basics
  import opened ClassList
  import opened ClassMerge
  import opened ClassEngine
  import opened ClassReference

  ghost function SourceWords(e: Engine): seq<string> {
    InOrder(e.sources, e.nextOrder)
  }

  /** The element shows the merge of its sources and base, and the base is an ordered set
      that shares no class with a source. */
  ghost predicate Settled(m: Merger, e: Engine) {
    && Distinct(e.base)
    && (forall w :: w in e.base ==> w !in SourceSet(e.sources))
    && e.className == Join(Merge(m, SourceWords(e) + e.base))
  }

  /** One observer record brings any managed element to rest, with at most one write. */
  lemma HandleSettles(m: Merger, e: Engine)
    requires WellFormed(e) && e.managed
    ensures var e' := Handle(m, e);
            && WellFormed(e') && Settled(m, e') && e'.managed
            && e.writes <= e'.writes <= e.writes + 1
            && e'.pending - e.pending == e'.writes - e.writes
  {
    HandleWellFormed(m, e);
    var rest := Without(Parse(e.className), SourceSet(e.sources));
    WithoutMembers(Parse(e.className), SourceSet(e.sources));
    AddAllMembers([], rest);
  }

  /** Of a merged list, what does not come from the sources is exactly the surviving base. */
  lemma Reread(m: Merger, S: seq<string>, B: seq<string>, own: set<string>)
    requires AllWords(S) && AllWords(B) && Distinct(B)
    requires (forall w :: w in S ==> w in own) && (forall w :: w in B ==> w !in own)
    ensures AddAll([], Without(Parse(Join(Merge(m, S + B))), own)) == Merge(m, B)
  {
    var shown := Merge(m, S + B);
    KeepInside(m, S + B, {});
    WordsOf(shown, S + B);
    ParseJoin(shown);
    KeepConcat(m, S, B, {});
    var kept := Keep(m, S, Taken(m, B, {}));
    KeepInside(m, S, Taken(m, B, {}));
    KeepInside(m, B, {});
    WithoutConcat(kept, Merge(m, B), own);
    WithoutInside(kept, own);
    WithoutDisjoint(Merge(m, B), own);
    assert [] + Merge(m, B) == Merge(m, B);
    KeepDistinct(m, B, {});
    AddAllDistinct([], Merge(m, B));
  }

  /** Seen again at rest, the element is not written: only overridden base classes are forgotten. */
  lemma HandleSettled(m: Merger, e: Engine)
    requires WellFormed(e) && Settled(m, e)
    ensures Handle(m, e) == if e.managed then e.(base := Merge(m, e.base)) else e
    ensures WellFormed(Handle(m, e)) && Settled(m, Handle(m, e))
  {
    if e.managed {
      InOrderIsSourceSet(e);
      Reread(m, SourceWords(e), e.base, SourceSet(e.sources));
      MergeForgetsOverridden(m, SourceWords(e), e.base);
      KeepDistinct(m, e.base, {});
      KeepInside(m, e.base, {});
      WordsOf(Merge(m, e.base), e.base);
    }
  }

  lemma {:induction false} DrainSettled(m: Merger, e: Engine, records: nat)
    requires WellFormed(e) && Settled(m, e)
    ensures WellFormed(Drain(m, e, records)) && Settled(m, Drain(m, e, records))
    ensures Drain(m, e, records).className == e.className
    ensures Drain(m, e, records).writes == e.writes && Drain(m, e, records).pending == e.pending
    decreases records
  {
    if records > 0 {
      HandleSettled(m, e);
      DrainSettled(m, Handle(m, e), records - 1);
    }
  }

  /** Draining at least one record settles the element with the text its first record gives. */
  lemma DrainSettles(m: Merger, e: Engine, records: nat)
    requires WellFormed(e) && e.managed && records > 0
    ensures var e1, e' := Handle(m, e), Drain(m, e, records);
            && WellFormed(e') && Settled(m, e') && e'.className == e1.className && e'.writes == e1.writes
            && e1.writes <= e.writes + 1
  {
    HandleSettles(m, e);
    DrainsFirst(m, e, records);
    SettledDrains(m, e, Handle(m, e), records - 1);
  }

  lemma SettledDrains(m: Merger, e: Engine, e1: Engine, records: nat)
    requires WellFormed(e1) && Settled(m, e1) && e1.writes <= e.writes + 1
    ensures var e' := Drain(m, e1, records);
            WellFormed(e') && Settled(m, e') && e'.className == e1.className && e'.writes == e1.writes
  {
    DrainSettled(m, e1, records);
  }

  lemma {:induction false} DrainsFirst(m: Merger, e: Engine, records: nat)
    requires records > 0
    ensures Drain(m, e, records) == Drain(m, Handle(m, e), records - 1)
  {
  }

  lemma FirstCallback(m: Merger, e: Engine)
    requires WellFormed(e) && e.managed && e.pending > 0
    ensures WellFormed(Apply(m, e, Callback)) && Settled(m, Apply(m, e, Callback))
    ensures Apply(m, e, Callback).writes <= e.writes + 1
  {
    DrainSettles(m, e.(pending := 0), e.pending);
  }

  lemma LaterCallback(m: Merger, e: Engine)
    requires WellFormed(e) && Settled(m, e)
    ensures Apply(m, e, Callback).writes == e.writes
    ensures Apply(m, e, Callback).className == e.className
    ensures Apply(m, e, Callback).pending == 0
  {
    assert WellFormed(e.(pending := 0)) && Settled(m, e.(pending := 0));
    DrainSettled(m, e.(pending := 0), e.pending);
  }

  /** The observer is quiet: nothing is pending, and no further callback does anything. */
  ghost predicate Quiet(m: Merger, e: Engine) {
    e.pending == 0 && Apply(m, e, Callback) == e
  }

  lemma NothingPending(m: Merger, e: Engine)
    requires e.pending == 0
    ensures Apply(m, e, Callback) == e
  {
    assert e.(pending := 0) == e;
  }

  /** The first callback writes at most once, the second only delivers that write's record,
      and then the observer is quiet. */
  ghost predicate SettlesInTwo(m: Merger, e: Engine) {
    var e1 := Apply(m, e, Callback);
    var e2 := Apply(m, e1, Callback);
    && e1.writes <= e.writes + 1
    && e2.writes == e1.writes && e2.className == e1.className && Quiet(m, e2)
  }

  lemma FeedbackSettles(m: Merger, e: Engine)
    requires WellFormed(e) && e.managed
    ensures SettlesInTwo(m, e)
  {
    if e.pending == 0 {
      NothingPending(m, e);
    } else {
      FirstCallback(m, e);
      LaterCallback(m, Apply(m, e, Callback));
      NothingPending(m, Apply(m, Apply(m, e, Callback), Callback));
    }
  }

  /** After any external class change of any reachable element the observer settles with one write. */
  lemma ExternalChangeSettles(m: Merger, e: Engine, external: string)
    requires WellFormed(e) && e.managed
    ensures var e0 := Apply(m, e, External(external));
            e0.writes == e.writes && SettlesInTwo(m, e0) && Settled(m, Apply(m, e0, Callback))
  {
    FeedbackSettles(m, Apply(m, e, External(external)));
    FirstCallback(m, Apply(m, e, External(external)));
  }

  lemma HandleShows(m: Merger, e: Engine)
    requires WellFormed(e) && e.managed
    ensures Handle(m, e).className
            == Join(Merge(m, SourceWords(e) + AddAll([], Without(Parse(e.className), SourceSet(e.sources)))))
  {
  }

  /** And what it comes to rest with is the merge of its sources with the external classes that are not theirs. */
  lemma ExternalClassesKept(m: Merger, e: Engine, external: string)
    requires WellFormed(e) && e.managed
    ensures var outside := AddAll([], Without(Parse(external), SourceSet(e.sources)));
            Apply(m, Apply(m, e, External(external)), Callback).className == Join(Merge(m, SourceWords(e) + outside))
  {
    var e0 := e.(className := external, pending := 0);
    DrainSettles(m, e0, e.pending + 1);
    HandleShows(m, e0);
  }

  /** The last source to go takes the manager with it and leaves the element as it is. */
  lemma LastDestroyLeavesText(m: Merger, e: Engine, id: nat)
    requires WellFormed(e) && id in e.orders && e.sources.Keys <= {id}
    ensures var e' := Apply(m, e, Destroy(id));
            !e'.managed && e'.className == e.className && e'.writes == e.writes
            && Apply(m, e', Callback).className == e.className && Apply(m, e', Callback).writes == e.writes
  {
    var e' := Apply(m, e, Destroy(id));
    assert e.sources - {id} == map[];
    UnmanagedIgnores(m, e'.(pending := 0), e'.pending);
  }

  lemma {:induction false} UnmanagedIgnores(m: Merger, e: Engine, records: nat)
    requires !e.managed
    ensures Drain(m, e, records) == e
    decreases records
  {
    if records > 0 {
      UnmanagedIgnores(m, Handle(m, e), records - 1);
    }
  }

  /** After a source changes its classes: one write by its effect, at most one by the observer. */
  lemma SourceChangeSettles(m: Merger, e: Engine, id: nat, input: ClassInput)
    requires WellFormed(e) && e.managed && id in e.orders
    ensures var e0 := Apply(m, e, Effect(id, input));
            e0.writes <= e.writes + 1 && SettlesInTwo(m, e0)
  {
    EffectWrites(m, e, id, input);
    FeedbackSettles(m, Apply(m, e, Effect(id, input)));
  }

  lemma EffectWrites(m: Merger, e: Engine, id: nat, input: ClassInput)
    requires WellFormed(e) && id in e.orders
    ensures var e0 := Apply(m, e, Effect(id, input));
            WellFormed(e0) && e0.managed == e.managed && e0.writes <= e.writes + 1
  {
    ApplyWellFormed(m, e, Effect(id, input));
  }

  /** Registered, updated to `q`, then given the external classes `x` and `p`, and settled. */
  function Preparation(q: string, x: string, p: string): seq<Step> {
    [Register(0), Effect(0, Text(q)), External(Join([q, x, p])), Callback]
  }

  /** Two writes do happen, on an element a run leads to: an external class that becomes a source's own is first
      shown twice and then, once the observer has looked, only in the source's place. */
  lemma TwoWritesHappen(m: Merger, q: string, x: string, p: string)
    requires forall w :: (m.group)(w) == None
    requires IsWord(q) && IsWord(x) && IsWord(p) && q != x && q != p && x != p
    ensures var e := Run(m, Created("", ""), Preparation(q, x, p));
            var e0 := Apply(m, e, Effect(0, Text(x)));
            var e1 := Apply(m, e0, Callback);
            && Quiet(m, e) && e.className == Join([q, x, p])
            && e0.className == Join([x, x, p]) && e0.writes == e.writes + 1
            && e1.className == Join([x, p]) && e1.writes == e.writes + 2 && Quiet(m, Apply(m, e1, Callback))
  {
    PreparationReaches(m, q, x, p);
    var e := Run(m, Created("", ""), Preparation(q, x, p));
    NothingPending(m, e);
    var src := map[0 := Source([x], 0)];
    OneSource(src, x);
    FirstWrite(m, e, src, q, x, p);
    var e0 := Apply(m, e, Effect(0, Text(x)));
    SecondWrite(m, e0, src, x, p);
    RunWellFormed(m, "", "", Preparation(q, x, p));
    SourceChangeSettles(m, e, 0, Text(x));
  }

  /** The state the preparation leads to. */
  lemma PreparationReaches(m: Merger, q: string, x: string, p: string)
    requires forall w :: (m.group)(w) == None
    requires IsWord(q) && IsWord(x) && IsWord(p) && q != x && q != p && x != p
    ensures Run(m, Created("", ""), Preparation(q, x, p))
            == Engine(Join([q, x, p]), 0, 1, true, [x, p], map[0 := Source([q], 0)], map[0 := 0], 1, true)
  {
    var steps := Preparation(q, x, p);
    var e1 := Engine("", 0, 0, true, [], map[], map[0 := 0], 1, false);
    FirstRegistered(m);
    var e2 := Engine(Join([q]), 1, 1, true, [], map[0 := Source([q], 0)], map[0 := 0], 1, true);
    FirstEffect(m, q);
    GivenExternal(m, e2, q, x, p);
    RunOfFour(m, Created("", ""), steps[0], steps[1], steps[2], steps[3]);
  }

  lemma GivenExternal(m: Merger, e: Engine, q: string, x: string, p: string)
    requires forall w :: (m.group)(w) == None
    requires IsWord(q) && IsWord(x) && IsWord(p) && q != x && q != p && x != p
    requires e.pending == 1 && e.sources == map[0 := Source([q], 0)] && e.nextOrder == 1 && e.managed && e.hasInitialized
    ensures Apply(m, Apply(m, e, External(Join([q, x, p]))), Callback)
            == e.(className := Join([q, x, p]), pending := 0, base := [x, p])
  {
    var e' := e.(className := Join([q, x, p]), pending := 2);
    assert Apply(m, e, External(Join([q, x, p]))) == e';
    Rebased(m, e'.(pending := 0), q, x, p);
  }

  lemma RunOfFour(m: Merger, e: Engine, a: Step, b: Step, c: Step, d: Step)
    ensures Run(m, e, [a, b, c, d]) == Apply(m, Apply(m, Apply(m, Apply(m, e, a), b), c), d)
  {
    assert Init([a]) == [] && Run(m, e, [a]) == Apply(m, e, a);
    assert Init([a, b]) == [a] && Init([a, b, c]) == [a, b] && Init([a, b, c, d]) == [a, b, c];
    assert Run(m, e, [a, b]) == Apply(m, Apply(m, e, a), b);
    assert Run(m, e, [a, b, c]) == Apply(m, Apply(m, Apply(m, e, a), b), c);
  }

  lemma FirstRegistered(m: Merger)
    ensures Apply(m, Created("", ""), Register(0)) == Engine("", 0, 0, true, [], map[], map[0 := 0], 1, false)
  {
    ParseJoin([]);
  }

  lemma FirstEffect(m: Merger, q: string)
    requires (forall w :: (m.group)(w) == None) && IsWord(q)
    ensures Apply(m, Engine("", 0, 0, true, [], map[], map[0 := 0], 1, false), Effect(0, Text(q)))
            == Engine(Join([q]), 1, 1, true, [], map[0 := Source([q], 0)], map[0 := 0], 1, true)
  {
    var src := map[0 := Source([q], 0)];
    var e := Engine("", 0, 0, true, [], map[], map[0 := 0], 1, false);
    ParseJoin([q]);
    AddAllDistinct([], [q]);
    assert [] + [q] == [q];
    assert Apply(m, e, Effect(0, Text(q))) == Update(m, e.(sources := src));
    FirstUpdate(m, e.(sources := src), q);
  }

  lemma FirstUpdate(m: Merger, e: Engine, q: string)
    requires (forall w :: (m.group)(w) == None) && IsWord(q)
    requires e == Engine("", 0, 0, true, [], map[0 := Source([q], 0)], map[0 := 0], 1, false)
    ensures Update(m, e) == Engine(Join([q]), 1, 1, true, [], e.sources, e.orders, 1, true)
  {
    ParseJoin([]);
    OneSource(e.sources, q);
    KeepAll(m, [q] + []);
    assert [q] + [] == [q];
  }

  /** The external classes become the base; nothing needs writing, however many records there are. */
  lemma Rebased(m: Merger, e: Engine, q: string, x: string, p: string)
    requires forall w :: (m.group)(w) == None
    requires IsWord(q) && IsWord(x) && IsWord(p) && q != x && q != p && x != p
    requires e.className == Join([q, x, p]) && e.sources == map[0 := Source([q], 0)] && e.nextOrder == 1
    requires e.managed && e.hasInitialized
    ensures Drain(m, e, 2) == e.(base := [x, p])
  {
    RebasedOnce(m, e, q, x, p);
    RebasedOnce(m, Handle(m, e), q, x, p);
    assert Drain(m, e, 2) == Drain(m, Handle(m, e), 1) == Drain(m, Handle(m, Handle(m, e)), 0);
  }

  lemma RebasedOnce(m: Merger, e: Engine, q: string, x: string, p: string)
    requires forall w :: (m.group)(w) == None
    requires IsWord(q) && IsWord(x) && IsWord(p) && q != x && q != p && x != p
    requires e.className == Join([q, x, p]) && e.sources == map[0 := Source([q], 0)] && e.nextOrder == 1
    requires e.managed && e.hasInitialized
    ensures Handle(m, e) == e.(base := [x, p])
  {
    OneSource(e.sources, q);
    RebasedWords(q, x, p);
    KeepAll(m, [q] + [x, p]);
    assert [q] + [x, p] == [q, x, p];
  }

  lemma RebasedWords(q: string, x: string, p: string)
    requires IsWord(q) && IsWord(x) && IsWord(p) && q != x && q != p && x != p
    ensures AddAll([], Without(Parse(Join([q, x, p])), {q})) == [x, p]
  {
    ParseJoin([q, x, p]);
    WithoutConcat([q], [x, p], {q});
    assert [q] + [x, p] == [q, x, p];
    WithoutInside([q], {q});
    WithoutDisjoint([x, p], {q});
    assert [] + [x, p] == [x, p];
    assert Init([x, p]) == [x];
    AddAllDistinct([], [x, p]);
  }

  lemma OneSource(src: map<nat, Source>, x: string)
    requires src == map[0 := Source([x], 0)]
    ensures InOrder(src, 1) == [x] && SourceSet(src) == {x}
  {
    assert 0 in src && src[0].order == 0 && x in src[0].classes;
    assert WordsAt(src, 0) == [x];
    assert InOrder(src, 1) == InOrder(src, 0) + [x];
  }

  lemma FirstWrite(m: Merger, e: Engine, src: map<nat, Source>, q: string, x: string, p: string)
    requires forall w :: (m.group)(w) == None
    requires IsWord(q) && IsWord(x) && IsWord(p) && q != x && src == map[0 := Source([x], 0)] && InOrder(src, 1) == [x]
    requires e.className == Join([q, x, p]) && e.base == [x, p] && e.sources.Keys == {0} && e.orders == map[0 := 0]
    requires e.nextOrder == 1 && e.hasInitialized
    ensures Apply(m, e, Effect(0, Text(x)))
            == e.(sources := src, className := Join([x, x, p]), pending := e.pending + 1, writes := e.writes + 1)
  {
    ParseJoin([x]);
    AddAllDistinct([], [x]);
    assert [] + [x] == [x];
    assert e.sources[0 := Source([x], 0)] == src;
    KeepAll(m, [x] + [x, p]);
    assert [x] + [x, p] == [x, x, p];
    TextsDiffer(q, x, p);
  }

  lemma TextsDiffer(q: string, x: string, p: string)
    requires IsWord(q) && IsWord(x) && IsWord(p) && q != x
    ensures Join([x, x, p]) != Join([q, x, p])
  {
    assert [x, x, p][0] != [q, x, p][0];
    if Join([x, x, p]) == Join([q, x, p]) {
      JoinInjective([x, x, p], [q, x, p]);
    }
  }

  lemma SecondBase(x: string, p: string)
    requires IsWord(x) && IsWord(p) && x != p
    ensures AddAll([], Without(Parse(Join([x, x, p])), {x})) == [p]
  {
    ParseJoin([x, x, p]);
    WithoutConcat([x, x], [p], {x});
    assert [x, x] + [p] == [x, x, p];
    WithoutInside([x, x], {x});
    WithoutDisjoint([p], {x});
    assert [] + [p] == [p];
    AddAllDistinct([], [p]);
  }

  lemma SecondWrite(m: Merger, e: Engine, src: map<nat, Source>, x: string, p: string)
    requires forall w :: (m.group)(w) == None
    requires IsWord(x) && IsWord(p) && x != p
    requires e.sources == src && InOrder(src, 1) == [x] && SourceSet(src) == {x}
    requires e.className == Join([x, x, p]) && e.nextOrder == 1 && e.pending == 1 && e.managed && e.hasInitialized
    ensures Apply(m, e, Callback).className == Join([x, p]) && Apply(m, e, Callback).writes == e.writes + 1
  {
    var start := e.(pending := 0);
    HandleWrites(m, start, x, p);
    assert Apply(m, e, Callback) == Drain(m, start, 1) == Drain(m, Handle(m, start), 0);
  }

  lemma HandleWrites(m: Merger, e: Engine, x: string, p: string)
    requires forall w :: (m.group)(w) == None
    requires IsWord(x) && IsWord(p) && x != p
    requires InOrder(e.sources, 1) == [x] && SourceSet(e.sources) == {x}
    requires e.className == Join([x, x, p]) && e.nextOrder == 1 && e.managed && e.hasInitialized
    ensures Handle(m, e).className == Join([x, p]) && Handle(m, e).writes == e.writes + 1
  {
    SecondBase(x, p);
    KeepAll(m, [x] + [p]);
    assert [x] + [p] == [x, p];
    if Join([x, x, p]) == Join([x, p]) {
      JoinInjective([x, x, p], [x, p]);
    }
  }

  lemma {:induction false} KeepAll(m: Merger, ws: seq<string>)
    requires forall w :: (m.group)(w) == None
    ensures Merge(m, ws) == ws
  {
    if ws != [] {
      KeepAll(m, Init(ws));
      assert {} + Closes(m, Last(ws)) == {};
    }
  }

  // ---- the result does not depend on the order of effects and callbacks ----

  /** The run makes no external class change, and no source ever names a class of `x`. */
  ghost predicate SourcesOnly(steps: seq<Step>, x: seq<string>) {
    forall i :: 0 <= i < |steps| ==>
      !steps[i].External?
      && (steps[i].Effect? ==> forall w :: w in Parse(Clsx(steps[i].input)) ==> w !in x)
  }

  /** The external classes: the host attribute's, then those already on the element. */
  function ExternalClasses(host: string, className: string): seq<string> {
    AddAll(AddAll([], Parse(host)), Parse(className))
  }

  /** `x` are the external classes, `base0` the base before the first effect, `class0` the text then shown. */
  ghost predicate Tracks(m: Merger, e: Engine, x: seq<string>, base0: seq<string>, class0: string) {
    && WellFormed(e)
    && x == AddAll(base0, Parse(class0)) && Distinct(x)
    && (forall w :: w in SourceSet(e.sources) ==> w !in x)
    && (!e.hasInitialized ==> e.className == class0 && e.pending == 0 && e.base == base0)
    && (e.hasInitialized ==> e.base == x || e.base == Merge(m, x))
    && (e.sources != map[] ==> e.className == Join(Merge(m, SourceWords(e) + x)))
    && (e.hasInitialized && e.managed ==> e.sources != map[])
  }

  lemma UpdateTracks(m: Merger, e: Engine, x: seq<string>, base0: seq<string>, class0: string)
    requires x == AddAll(base0, Parse(class0)) && Distinct(x)
    requires && WellFormed(e.(hasInitialized := true))
             && e.sources != map[]
             && (forall w :: w in SourceSet(e.sources) ==> w !in x)
             && (!e.hasInitialized ==> e.className == class0 && e.base == base0)
             && (e.hasInitialized ==> e.base == x || e.base == Merge(m, x))
    ensures Tracks(m, Update(m, e), x, base0, class0)
  {
    UpdateWellFormed(m, e);
    if e.hasInitialized {
      MergeForgetsOverridden(m, SourceWords(e), x);
    } else {
      AddAllMembers(base0, Parse(class0));
      WithoutDisjoint(Parse(class0), SourceSet(e.sources));
    }
  }

  lemma HandleTracks(m: Merger, e: Engine, x: seq<string>, base0: seq<string>, class0: string)
    requires Tracks(m, e, x, base0, class0) && e.hasInitialized
    ensures Tracks(m, Handle(m, e), x, base0, class0) && Handle(m, e).hasInitialized
  {
    if e.managed {
      KeepIdempotent(m, x, {});
      KeepDistinct(m, x, {});
      KeepInside(m, x, {});
      MergeForgetsOverridden(m, SourceWords(e), x);
      HandleSettled(m, e);
    }
  }

  lemma {:induction false} DrainTracks(m: Merger, e: Engine, records: nat, x: seq<string>, base0: seq<string>, class0: string)
    requires Tracks(m, e, x, base0, class0) && (e.hasInitialized || records == 0)
    ensures Tracks(m, Drain(m, e, records), x, base0, class0)
    decreases records
  {
    if records > 0 {
      HandleTracks(m, e, x, base0, class0);
      DrainTracks(m, Handle(m, e), records - 1, x, base0, class0);
    }
  }

  lemma ApplyTracks(m: Merger, e: Engine, step: Step, x: seq<string>, base0: seq<string>, class0: string)
    requires Tracks(m, e, x, base0, class0) && SourcesOnly([step], x)
    ensures Tracks(m, Apply(m, e, step), x, base0, class0)
  {
    assert step == [step][0];
    match step
    case Register(id) => RegisterTracks(m, e, id, x, base0, class0);
    case Effect(id, input) => EffectTracks(m, e, id, input, x, base0, class0);
    case Destroy(id) => DestroyTracks(m, e, id, x, base0, class0);
    case Callback => DrainTracks(m, e.(pending := 0), e.pending, x, base0, class0);
  }

  lemma RegisterTracks(m: Merger, e: Engine, id: nat, x: seq<string>, base0: seq<string>, class0: string)
    requires Tracks(m, e, x, base0, class0)
    ensures Tracks(m, Apply(m, e, Register(id)), x, base0, class0)
  {
    var e' := Apply(m, e, Register(id));
    if e' != e {
      ApplyWellFormed(m, e, Register(id));
      RegisterKeepsWords(e);
    }
  }

  /** No source stands at the next position yet. */
  lemma RegisterKeepsWords(e: Engine)
    requires Linked(e.sources, e.orders, e.nextOrder)
    ensures InOrder(e.sources, e.nextOrder + 1) == SourceWords(e)
  {
    assert WordsAt(e.sources, e.nextOrder) == [];
    assert SourceWords(e) + [] == SourceWords(e);
  }

  lemma SetSource(sources: map<nat, Source>, id: nat, source: Source, x: seq<string>)
    requires (forall w :: w in SourceSet(sources) ==> w !in x) && (forall w :: w in source.classes ==> w !in x)
    ensures forall w :: w in SourceSet(sources[id := source]) ==> w !in x
  {
    forall w | w in SourceSet(sources[id := source]) ensures w !in x {
      var i :| i in sources[id := source] && w in sources[id := source][i].classes;
      assert i == id || (i in sources && w in sources[i].classes);
    }
  }

  lemma EffectTracks(m: Merger, e: Engine, id: nat, input: ClassInput, x: seq<string>, base0: seq<string>, class0: string)
    requires Tracks(m, e, x, base0, class0)
    requires forall w :: w in Parse(Clsx(input)) ==> w !in x
    ensures Tracks(m, Apply(m, e, Effect(id, input)), x, base0, class0)
  {
    if id in e.orders {
      var words := Parse(Clsx(input));
      var source := Source(AddAll([], words), e.orders[id]);
      ParseWords(Clsx(input));
      AddAllWords([], words);
      AddAllMembers([], words);
      SetSource(e.sources, id, source, x);
      var e' := e.(sources := e.sources[id := source]);
      assert Linked(e'.sources, e'.orders, e'.nextOrder);
      UpdateTracks(m, e', x, base0, class0);
    }
  }

  lemma DestroyTracks(m: Merger, e: Engine, id: nat, x: seq<string>, base0: seq<string>, class0: string)
    requires Tracks(m, e, x, base0, class0)
    ensures Tracks(m, Apply(m, e, Destroy(id)), x, base0, class0)
  {
    if id in e.orders {
      var e' := e.(sources := e.sources - {id}, orders := e.orders - {id});
      assert Linked(e'.sources, e'.orders, e'.nextOrder);
      if e'.sources != map[] {
        UpdateTracks(m, e', x, base0, class0);
      }
    }
  }

  lemma {:induction false} RunTracks(m: Merger, e: Engine, steps: seq<Step>, x: seq<string>, base0: seq<string>, class0: string)
    requires Tracks(m, e, x, base0, class0) && SourcesOnly(steps, x)
    ensures Tracks(m, Run(m, e, steps), x, base0, class0)
  {
    if steps != [] {
      RunTracks(m, e, Init(steps), x, base0, class0);
      assert steps[|steps| - 1] == Last(steps);
      ApplyTracks(m, Run(m, e, Init(steps)), Last(steps), x, base0, class0);
    }
  }

  lemma ShowsSources(m: Merger, host: string, className: string, steps: seq<Step>)
    requires SourcesOnly(steps, ExternalClasses(host, className))
    ensures var e := Run(m, Created(host, className), steps);
            e.sources != map[] ==>
              e.className == Join(Merge(m, SourceWords(e) + ExternalClasses(host, className)))
  {
    ParseWords(host);
    AddAllWords([], Parse(host));
    AddAllMembers([], Parse(host));
    AddAllMembers(AddAll([], Parse(host)), Parse(className));
    RunTracks(m, Created(host, className), steps, ExternalClasses(host, className), AddAll([], Parse(host)), className);
  }

  /** With the external classes fixed and disjoint from every source's, what the element shows while any source is
      live is the merge of the live sources' last inputs, parsed, in the order they were registered, with the
      external classes: all read from the steps, with no trace of when effects and observer callbacks ran. */
  lemma {:induction false} ClassesOnlyFromSources(m: Merger, host: string, className: string, steps: seq<Step>)
    requires SourcesOnly(steps, ExternalClasses(host, className))
    ensures SourcesOf(steps) != map[] ==>
              Run(m, Created(host, className), steps).className
              == Join(Merge(m, InOrder(SourcesOf(steps), Registrations(steps)) + ExternalClasses(host, className)))
  {
    ShowsSources(m, host, className, steps);
    SourcesFromSteps(m, host, className, steps);
  }

  /** Two runs that leave the same source classes in the same registration order show the same text. */
  lemma OrderOfEventsIrrelevant(m: Merger, host: string, className: string, run1: seq<Step>, run2: seq<Step>)
    requires SourcesOnly(run1, ExternalClasses(host, className)) && SourcesOnly(run2, ExternalClasses(host, className))
    ensures var e1, e2 := Run(m, Created(host, className), run1), Run(m, Created(host, className), run2);
            e1.sources != map[] && e2.sources != map[] && SourceWords(e1) == SourceWords(e2)
            ==> e1.className == e2.className
  {
    ShowsSources(m, host, className, run1);
    ShowsSources(m, host, className, run2);
  }

  /** The steps of the sources alone. */
  function WithoutCallbacks(steps: seq<Step>): seq<Step> {
    if steps == [] then [] else
      WithoutCallbacks(Init(steps)) + if Last(steps).Callback? then [] else [Last(steps)]
  }

  lemma StepKeepsSame(m: Merger, e: Engine, f: Engine, step: Step)
    requires SameSources(e, f) && !step.Callback?
    ensures SameSources(Apply(m, e, step), Apply(m, f, step))
  {
    match step
    case Register(id) =>
    case Effect(id, input) =>
      if id in e.orders {
        var source := Source(AddAll([], Parse(Clsx(input))), e.orders[id]);
        UpdateKeepsSources(m, e.(sources := e.sources[id := source]));
        UpdateKeepsSources(m, f.(sources := f.sources[id := source]));
      }
    case Destroy(id) =>
      if id in e.orders {
        UpdateKeepsSources(m, e.(sources := e.sources - {id}, orders := e.orders - {id}));
        UpdateKeepsSources(m, f.(sources := f.sources - {id}, orders := f.orders - {id}));
      }
    case External(s) =>
  }

  /** Observer callbacks, wherever they fall in a run, leave the sources as the other steps make them. */
  lemma {:induction false} CallbacksKeepSources(m: Merger, e: Engine, steps: seq<Step>)
    ensures SameSources(Run(m, e, steps), Run(m, e, WithoutCallbacks(steps)))
  {
    if steps != [] {
      var shorter := WithoutCallbacks(Init(steps));
      CallbacksKeepSources(m, e, Init(steps));
      if Last(steps).Callback? {
        CallbackKeepsSources(m, Run(m, e, Init(steps)));
        assert WithoutCallbacks(steps) == shorter + [] == shorter;
      } else {
        StepKeepsSame(m, Run(m, e, Init(steps)), Run(m, e, shorter), Last(steps));
        var kept := shorter + [Last(steps)];
        assert Init(kept) == shorter && Last(kept) == Last(steps);
      }
    }
  }

  /** So callbacks may be moved, added or dropped freely: the text shown at the end is the same. */
  lemma CallbackTimingIrrelevant(m: Merger, host: string, className: string, run1: seq<Step>, run2: seq<Step>)
    requires SourcesOnly(run1, ExternalClasses(host, className)) && SourcesOnly(run2, ExternalClasses(host, className))
    requires WithoutCallbacks(run1) == WithoutCallbacks(run2)
    ensures var e1, e2 := Run(m, Created(host, className), run1), Run(m, Created(host, className), run2);
            SameSources(e1, e2) && (e1.sources != map[] ==> e1.className == e2.className)
  {
    CallbacksKeepSources(m, Created(host, className), run1);
    CallbacksKeepSources(m, Created(host, className), run2);
    OrderOfEventsIrrelevant(m, host, className, run1, run2);
  }
}
