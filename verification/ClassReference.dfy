/** The sources of an element, read from the steps of a run alone. */
module ClassReference {
  import opened Basics
  import opened ClassList
  import opened ClassMerge
  import opened ClassEngine

  /** The input of the last effect of a live source. */
  ghost function LastInput(steps: seq<Step>, id: nat): Option<ClassInput> {
    if steps == [] then None
    else match Last(steps)
      case Effect(i, input) => if i == id && Registered(Init(steps), id) then Some(input) else LastInput(Init(steps), id)
      case Destroy(i) => if i == id then None else LastInput(Init(steps), id)
      case _ => LastInput(Init(steps), id)
  }

  /** A registration counts if the element is managed and the source is not registered already. */
  ghost predicate Registers(steps: seq<Step>, step: Step, id: nat) {
    step == Register(id) && Managed(steps) && !Registered(steps, id)
  }

  ghost predicate Registered(steps: seq<Step>, id: nat)
    decreases steps, 1
  {
    steps != []
    && match Last(steps)
       case Register(i) => Registered(Init(steps), id) || (i == id && Managed(Init(steps)))
       case Destroy(i) => i != id && Registered(Init(steps), id)
       case _ => Registered(Init(steps), id)
  }

  /** The manager goes with the last source that has classes. */
  ghost predicate Managed(steps: seq<Step>)
    decreases steps, 1
  {
    steps == []
    || (Managed(Init(steps))
        && (Last(steps).Destroy? && Registered(Init(steps), Last(steps).id) ==>
              exists other :: other != Last(steps).id && LastInput(Init(steps), other).Some?))
  }

  /** How many registrations counted so far. */
  ghost function Registrations(steps: seq<Step>): nat {
    if steps == [] then 0
    else Registrations(Init(steps))
         + if Last(steps).Register? && Registers(Init(steps), Last(steps), Last(steps).id) then 1 else 0
  }

  /** How many counted before the source's own. */
  ghost function Position(steps: seq<Step>, id: nat): nat {
    if steps == [] then 0
    else if Registers(Init(steps), Last(steps), id) then Registrations(Init(steps))
    else Position(Init(steps), id)
  }

  function EffectIds(steps: seq<Step>): set<nat> {
    if steps == [] then {} else EffectIds(Init(steps)) + if Last(steps).Effect? then {Last(steps).id} else {}
  }

  /** The live sources: the distinct words of the last input, at the position of the registration. */
  ghost function SourcesOf(steps: seq<Step>): map<nat, Source> {
    map id | id in EffectIds(steps) && LastInput(steps, id).Some? ::
      Source(AddAll([], Parse(Clsx(LastInput(steps, id).value))), Position(steps, id))
  }

  lemma {:induction false} OnlyEffectsGiveInputs(steps: seq<Step>, id: nat)
    ensures LastInput(steps, id).Some? ==> id in EffectIds(steps)
  {
    if steps != [] {
      OnlyEffectsGiveInputs(Init(steps), id);
    }
  }

  /** The engine's records of one source against the steps. */
  ghost predicate Matches(e: Engine, steps: seq<Step>, id: nat) {
    && (id in e.orders <==> Registered(steps, id))
    && (id in e.orders ==> e.orders[id] == Position(steps, id))
    && (id in e.sources <==> LastInput(steps, id).Some?)
    && (id in e.sources ==>
          e.sources[id] == Source(AddAll([], Parse(Clsx(LastInput(steps, id).value))), Position(steps, id)))
  }

  ghost predicate AllMatch(e: Engine, steps: seq<Step>) {
    && (e.managed <==> Managed(steps)) && e.nextOrder == Registrations(steps)
    && forall id :: Matches(e, steps, id)
  }

  lemma RegisterMatches(m: Merger, e: Engine, steps: seq<Step>, i: nat, id: nat)
    requires WellFormed(e) && AllMatch(e, steps)
    ensures Matches(Apply(m, e, Register(i)), steps + [Register(i)], id)
  {
    assert Init(steps + [Register(i)]) == steps;
    assert Matches(e, steps, id) && Matches(e, steps, i);
  }

  lemma EffectMatches(m: Merger, e: Engine, steps: seq<Step>, i: nat, input: ClassInput, id: nat)
    requires WellFormed(e) && AllMatch(e, steps)
    ensures Matches(Apply(m, e, Effect(i, input)), steps + [Effect(i, input)], id)
  {
    assert Init(steps + [Effect(i, input)]) == steps;
    assert Matches(e, steps, id) && Matches(e, steps, i);
    if i in e.orders {
      UpdateKeepsSources(m, e.(sources := e.sources[i := Source(AddAll([], Parse(Clsx(input))), e.orders[i])]));
    }
  }

  lemma DestroyMatches(m: Merger, e: Engine, steps: seq<Step>, i: nat, id: nat)
    requires WellFormed(e) && AllMatch(e, steps)
    ensures Matches(Apply(m, e, Destroy(i)), steps + [Destroy(i)], id)
  {
    assert Init(steps + [Destroy(i)]) == steps;
    assert Matches(e, steps, id) && Matches(e, steps, i);
    if i in e.orders {
      UpdateKeepsSources(m, e.(sources := e.sources - {i}, orders := e.orders - {i}));
    }
  }

  lemma StepMatches(m: Merger, e: Engine, steps: seq<Step>, step: Step, id: nat)
    requires WellFormed(e) && AllMatch(e, steps)
    ensures Matches(Apply(m, e, step), steps + [step], id)
  {
    match step
    case Register(i) => RegisterMatches(m, e, steps, i, id);
    case Effect(i, input) => EffectMatches(m, e, steps, i, input, id);
    case Destroy(i) => DestroyMatches(m, e, steps, i, id);
    case _ =>
      assert Init(steps + [step]) == steps && Matches(e, steps, id);
      if step.Callback? {
        CallbackKeepsSources(m, e);
      }
  }

  lemma StepManages(m: Merger, e: Engine, steps: seq<Step>, step: Step)
    requires WellFormed(e) && AllMatch(e, steps)
    ensures var e' := Apply(m, e, step);
            (e'.managed <==> Managed(steps + [step])) && e'.nextOrder == Registrations(steps + [step])
  {
    assert Init(steps + [step]) == steps;
    match step
    case Register(i) => assert Matches(e, steps, i);
    case Effect(i, input) =>
      if i in e.orders {
        UpdateKeepsSources(m, e.(sources := e.sources[i := Source(AddAll([], Parse(Clsx(input))), e.orders[i])]));
      }
    case Destroy(i) => DestroyManages(m, e, steps, i);
    case External(_) =>
    case Callback => CallbackKeepsSources(m, e);
  }

  lemma DestroyManages(m: Merger, e: Engine, steps: seq<Step>, i: nat)
    requires WellFormed(e) && AllMatch(e, steps)
    ensures var e' := Apply(m, e, Destroy(i));
            (e'.managed <==> Managed(steps + [Destroy(i)])) && e'.nextOrder == Registrations(steps + [Destroy(i)])
  {
    assert Init(steps + [Destroy(i)]) == steps;
    assert Matches(e, steps, i);
    if i in e.orders {
      var rest := e.sources - {i};
      UpdateKeepsSources(m, e.(sources := rest, orders := e.orders - {i}));
      if rest != map[] {
        var other :| other in rest;
        assert Matches(e, steps, other);
      } else {
        forall other | other != i ensures LastInput(steps, other).None? {
          assert Matches(e, steps, other);
          assert other !in rest;
        }
      }
    }
  }

  lemma {:induction false} RunMatches(m: Merger, host: string, className: string, steps: seq<Step>)
    ensures AllMatch(Run(m, Created(host, className), steps), steps)
  {
    var e := Run(m, Created(host, className), steps);
    if steps != [] {
      var before, step := Init(steps), Last(steps);
      assert steps == before + [step];
      RunMatches(m, host, className, before);
      RunWellFormed(m, host, className, before);
      StepManages(m, Run(m, Created(host, className), before), before, step);
      forall id ensures Matches(e, steps, id) {
        StepMatches(m, Run(m, Created(host, className), before), before, step, id);
      }
    }
  }

  /** In every run, against the steps alone: the engine holds a source exactly if it was registered, has had an
      effect since, and was not destroyed; with the words of its last input, at its own position; and the element
      is managed until its last source goes. */
  lemma {:induction false} SourcesFromSteps(m: Merger, host: string, className: string, steps: seq<Step>)
    ensures var e := Run(m, Created(host, className), steps);
            e.sources == SourcesOf(steps) && e.nextOrder == Registrations(steps) && (e.managed <==> Managed(steps))
  {
    RunMatches(m, host, className, steps);
    var e := Run(m, Created(host, className), steps);
    forall id ensures id in e.sources <==> id in SourcesOf(steps)
              ensures id in e.sources ==> e.sources[id] == SourcesOf(steps)[id] {
      assert Matches(e, steps, id);
      OnlyEffectsGiveInputs(steps, id);
    }
  }
}
