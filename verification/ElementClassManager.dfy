/** The manager of one element in imperative form: fields updated in place, loops over sources and
    class lists. Each method is proved to make exactly the engine's step. */
module ElementClassManagers {
  import opened Basics
  import opened ClassList
  import opened ClassMerge
  import opened ClassEngine

  lemma {:induction false} Gap(sources: map<nat, Source>, k: nat, n: nat)
    requires k <= n
    requires forall id :: id in sources ==> !(k <= sources[id].order < n)
    ensures InOrder(sources, n) == InOrder(sources, k)
    decreases n
  {
    if k < n {
      Gap(sources, k, n - 1);
      assert WordsAt(sources, n - 1) == [];
      assert InOrder(sources, n - 1) + [] == InOrder(sources, n - 1);
    }
  }

  lemma SmallestExists(sources: map<nat, Source>) returns (id: nat)
    requires sources != map[]
    ensures id in sources && forall j :: j in sources ==> sources[id].order <= sources[j].order
    decreases sources.Keys
  {
    var first :| first in sources;
    var rest := sources - {first};
    id := first;
    if rest != map[] {
      var other := SmallestExists(rest);
      if rest[other].order < sources[first].order {
        id := other;
      }
    }
    forall j | j in sources ensures sources[id].order <= sources[j].order {
      assert j == first || j in rest;
    }
  }

  method FirstInOrder(sources: map<nat, Source>) returns (id: nat)
    requires sources != map[]
    ensures id in sources && forall j :: j in sources ==> sources[id].order <= sources[j].order
  {
    ghost var smallest := SmallestExists(sources);
    id :| id in sources && forall j :: j in sources ==> sources[id].order <= sources[j].order;
  }

  /** Taking the source with the smallest order left appends the next classes in registration order. */
  lemma NextInOrder(sources: map<nat, Source>, rest: map<nat, Source>, k: nat, id: nat)
    requires forall i :: i in rest ==> i in sources && rest[i] == sources[i] && sources[i].order >= k
    requires forall i :: i in sources && i !in rest ==> sources[i].order < k
    requires forall i, j :: i in sources && j in sources && sources[i].order == sources[j].order ==> i == j
    requires id in rest && forall j :: j in rest ==> rest[id].order <= rest[j].order
    ensures InOrder(sources, sources[id].order + 1) == InOrder(sources, k) + sources[id].classes
  {
    Gap(sources, k, sources[id].order);
    assert WordsAt(sources, sources[id].order) == sources[id].classes;
  }

  lemma AddWithoutStep(to: seq<string>, ws: seq<string>, not: set<string>, i: nat)
    requires i < |ws|
    ensures var sofar := AddAll(to, Without(ws[..i], not));
            AddAll(to, Without(ws[..i + 1], not))
            == if ws[i] in not || ws[i] in sofar then sofar else sofar + [ws[i]]
  {
    assert Init(ws[..i + 1]) == ws[..i] && Last(ws[..i + 1]) == ws[i];
    var kept := Without(ws[..i], not);
    if ws[i] in not {
      assert kept + [] == kept;
    } else {
      assert Init(kept + [ws[i]]) == kept && Last(kept + [ws[i]]) == ws[i];
    }
  }

  class HostElement {
    var className: string
    var pending: nat
    var writes: nat

    constructor (className: string)
      ensures this.className == className && pending == 0 && writes == 0
    {
      this.className := className;
      pending, writes := 0, 0;
    }

    /** Assigning `className` also queues a mutation record. */
    method Write(text: string)
      modifies this
      ensures className == text && pending == old(pending) + 1 && writes == old(writes) + 1
    {
      className, pending, writes := text, pending + 1, writes + 1;
    }
  }

  class ElementClassManager {
    const element: HostElement
    const merger: Merger
    var managed: bool
    var sources: map<nat, Source>
    var orders: map<nat, nat>
    var baseClasses: seq<string>
    var isUpdating: bool
    var nextOrder: nat
    var hasInitialized: bool

    ghost function View(): Engine
      reads this, element
    {
      Engine(element.className, element.pending, element.writes,
             managed, baseClasses, sources, orders, nextOrder, hasInitialized)
    }

    ghost predicate Valid()
      reads this
    {
      Linked(sources, orders, nextOrder)
    }

    constructor (element: HostElement, merger: Merger, host: string)
      requires element.pending == 0 && element.writes == 0
      ensures View() == Created(host, element.className) && Valid() && !isUpdating
      ensures this.element == element && this.merger == merger
    {
      this.element, this.merger := element, merger;
      managed, sources, orders := true, map[], map[];
      baseClasses := AddAll([], Parse(host));
      isUpdating, nextOrder, hasInitialized := false, 0, false;
    }

    /** Collects every source's classes in one set. */
    method AllSourceClasses() returns (all: set<string>)
      ensures all == SourceSet(sources)
    {
      all := {};
      var rest := sources.Keys;
      while rest != {}
        invariant rest <= sources.Keys
        invariant all == set id, w | id in sources.Keys - rest && w in sources[id].classes :: w
        decreases rest
      {
        var id :| id in rest;
        all := all + set w | w in sources[id].classes;
        rest := rest - {id};
      }
    }

    /** Sorts the sources by registration order and concatenates their classes. */
    method SortedSourceClasses() returns (words: seq<string>)
      requires Valid()
      ensures words == InOrder(sources, nextOrder)
    {
      words := [];
      var rest := sources;
      ghost var k: nat := 0;
      while rest != map[]
        invariant forall id :: id in rest ==> id in sources && rest[id] == sources[id] && sources[id].order >= k
        invariant forall id :: id in sources && id !in rest ==> sources[id].order < k
        invariant k <= nextOrder && words == InOrder(sources, k)
        decreases rest.Keys
      {
        var id := FirstInOrder(rest);
        NextInOrder(sources, rest, k, id);
        words := words + rest[id].classes;
        k := sources[id].order + 1;
        rest := rest - {id};
      }
      Gap(sources, k, nextOrder);
    }

    /** `for (const className of words) if (!not.has(className)) baseClasses.add(className)`. */
    method AddBase(words: seq<string>, not: set<string>)
      modifies this`baseClasses
      ensures baseClasses == AddAll(old(baseClasses), Without(words, not))
    {
      for i := 0 to |words|
        invariant baseClasses == AddAll(old(baseClasses), Without(words[..i], not))
      {
        AddWithoutStep(old(baseClasses), words, not, i);
        if words[i] !in not && words[i] !in baseClasses {
          baseClasses := baseClasses + [words[i]];
        }
      }
      assert words[..|words|] == words;
    }

    /** The first update with a source takes the classes already on the element into the base. */
    method CaptureBase()
      modifies this`baseClasses, this`hasInitialized
      ensures var captures := !old(hasInitialized) && sources != map[];
              && hasInitialized == (old(hasInitialized) || captures)
              && baseClasses == if captures
                                then AddAll(old(baseClasses), Without(Parse(element.className), SourceSet(sources)))
                                else old(baseClasses)
    {
      if !hasInitialized && sources != map[] {
        var all := AllSourceClasses();
        AddBase(Parse(element.className), all);
        hasInitialized := true;
      }
    }

    /** Writes the merged classes, unless the element already shows exactly them. */
    method ApplyClasses()
      requires Valid()
      modifies element
      ensures var next := Join(Merge(merger, InOrder(sources, nextOrder) + baseClasses));
              var writes := if old(element.className) == next then 0 else 1;
              && element.className == next
              && element.pending == old(element.pending) + writes
              && element.writes == old(element.writes) + writes
    {
      var words := SortedSourceClasses();
      var next := Join(Merge(merger, words + baseClasses));
      if element.className != next {
        element.Write(next);
      }
    }

    /** `updateElement`: while an update is under way a nested call does nothing. */
    method UpdateElement()
      requires Valid()
      modifies this, element
      ensures Valid() && isUpdating == old(isUpdating)
      ensures View() == if old(isUpdating) then old(View()) else Update(merger, old(View()))
    {
      if isUpdating { return; }
      isUpdating := true;
      CaptureBase();
      ApplyClasses();
      isUpdating := false;
    }

    /** The observer's handler for one class mutation of this element. */
    method HandleMutation()
      requires Valid()
      modifies this, element
      ensures Valid() && isUpdating == old(isUpdating)
      ensures View() == if old(isUpdating) then old(View()) else Handle(merger, old(View()))
    {
      if !managed || isUpdating { return; }
      var current := Parse(element.className);
      var all := AllSourceClasses();
      baseClasses := [];
      AddBase(current, all);
      UpdateElement();
    }

    /** One observer callback: every record queued so far is handled; records of the engine's own
        writes come with the next callback, when `isUpdating` is long false again. */
    method ObserverCallback()
      requires Valid() && !isUpdating
      modifies this, element
      ensures Valid() && !isUpdating
      ensures View() == Apply(merger, old(View()), Callback)
    {
      var records := element.pending;
      element.pending := 0;
      ghost var start := View();
      while records > 0
        invariant Valid() && !isUpdating
        invariant Drain(merger, View(), records) == Drain(merger, start, old(element.pending))
      {
        HandleMutation();
        records := records - 1;
      }
    }

    /** `classes()` on an element that already has this manager: the order is assigned once. */
    method RegisterSource(id: nat)
      requires Valid() && managed && id !in orders
      modifies this
      ensures Valid() && isUpdating == old(isUpdating)
      ensures View() == Apply(merger, old(View()), Register(id))
    {
      assert id !in sources;
      orders := orders[id := nextOrder];
      nextOrder := nextOrder + 1;
    }

    /** `updateClasses`, the body of a source's effect. */
    method UpdateClasses(id: nat, input: ClassInput)
      requires Valid() && !isUpdating && id in orders
      modifies this, element
      ensures Valid() && !isUpdating
      ensures View() == Apply(merger, old(View()), Effect(id, input))
    {
      var words := Parse(Clsx(input));
      ParseWords(Clsx(input));
      AddAllWords([], words);
      sources := sources[id := Source(AddAll([], words), orders[id])];
      UpdateElement();
    }

    /** The destroy hook: the last source to go takes the manager with it. */
    method DestroySource(id: nat)
      requires Valid() && !isUpdating && id in orders
      modifies this, element
      ensures Valid() && !isUpdating
      ensures View() == Apply(merger, old(View()), Destroy(id))
    {
      sources, orders := sources - {id}, orders - {id};
      if sources == map[] {
        managed := false;
      } else {
        UpdateElement();
      }
    }
  }
}
