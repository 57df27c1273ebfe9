/** Renaming the service of a Grafana resource: create the new one, delete the old one, record the new name. The
    services of the namespace are a set of names; which names pass validation is a parameter. */
module ServiceRename {
  import opened Wrappers

  const GRAFANA_SERVICE_NAME := "grafana-service"

  /** The service section of the specification: absent, or a possibly empty name. */
  type ServiceSpec = Option<string>

  function Wanted(spec: ServiceSpec): string {
    if spec.Some? && spec.value != "" then spec.value else GRAFANA_SERVICE_NAME
  }

  /** The names in the namespace, and the previously known name in the status of the resource. */
  datatype State = State(services: set<string>, previous: string)

  /** `Panic`: the name is read from a service section that is absent. */
  datatype Action = Create(name: string) | Delete(name: string) | Update(name: string) | Panic

  /** The action of a round and the previous name it leaves in the status. */
  function Decide(accepts: string -> bool, spec: ServiceSpec, st: State): (Action, string) {
    var wanted := Wanted(spec);
    if wanted !in st.services then (Create(wanted), st.previous)
    else if st.previous != "" && st.previous != wanted && spec.None? then (Panic, st.previous)
    else if st.previous != "" && st.previous != wanted && accepts(spec.value) then (Delete(st.previous), "")
    else (Update(wanted), if st.previous == "" then wanted else st.previous)
  }

  function Applied(services: set<string>, a: Action): set<string> {
    match a
    case Create(name) => services + {name}
    case Delete(name) => services - {name}
    case Update(_) => services
    case Panic => services
  }

  /** Whether the action was carried out, and whether the status was written. */
  datatype Outcome = Outcome(acted: bool, persisted: bool)

  function Round(accepts: string -> bool, spec: ServiceSpec, st: State, o: Outcome): State {
    var d := Decide(accepts, spec, st);
    if d.0.Panic? then st
    else State(if o.acted then Applied(st.services, d.0) else st.services, if o.persisted then d.1 else st.previous)
  }

  /** A missing or empty name means the default one. */
  lemma WantedName(spec: ServiceSpec)
    ensures spec == None || spec == Some("") ==> Wanted(spec) == "grafana-service"
    ensures forall name :: spec == Some(name) && name != "" ==> Wanted(spec) == name
  {
  }

  /** Exactly when a round creates, deletes, updates or panics, and what it leaves in the status. */
  lemma DecidesIff(accepts: string -> bool, spec: ServiceSpec, st: State)
    ensures
      var (action, previous) := Decide(accepts, spec, st);
      var there := Wanted(spec) in st.services;
      var renamed := st.previous != "" && st.previous != Wanted(spec);
      && (action == Create(Wanted(spec)) <==> !there)
      && (action.Panic? <==> there && renamed && spec.None?)
      && (action == Delete(st.previous) <==> there && renamed && spec.Some? && accepts(spec.value))
      && (action == Update(Wanted(spec)) <==> there && (renamed ==> spec.Some? && !accepts(spec.value)))
      && (previous == "" <==> action.Delete? || (action.Create? && st.previous == ""))
      && (previous != "" ==> previous == if action.Update? && st.previous == "" then Wanted(spec) else st.previous)
  {
  }

  // ----- safety -----

  datatype Input = Input(spec: ServiceSpec, outcome: Outcome)

  function Run(accepts: string -> bool, st: State, inputs: seq<Input>): State {
    if inputs == [] then st
    else
      var last := inputs[|inputs| - 1];
      Round(accepts, last.spec, Run(accepts, st, inputs[..|inputs| - 1]), last.outcome)
  }

  /** A service goes away only in a round that saw the wanted one, and then it is the recorded previous one. */
  lemma OnlyThePreviousGoes(accepts: string -> bool, spec: ServiceSpec, st: State, o: Outcome, name: string)
    requires name in st.services && name !in Round(accepts, spec, st, o).services
    ensures name == st.previous && name != Wanted(spec)
    ensures Wanted(spec) in st.services && Wanted(spec) in Round(accepts, spec, st, o).services
  {
  }

  /** In every run, with arbitrary renames and arbitrary faults: once a service exists, one always does. */
  lemma {:induction false} SomeServiceRemains(accepts: string -> bool, st: State, inputs: seq<Input>, k: nat)
    requires k <= |inputs| && Run(accepts, st, inputs[..k]).services != {}
    ensures Run(accepts, st, inputs).services != {}
    decreases |inputs|
  {
    if k == |inputs| {
      assert inputs[..k] == inputs;
    } else {
      var init, last := inputs[..|inputs| - 1], inputs[|inputs| - 1];
      assert init[..k] == inputs[..k];
      SomeServiceRemains(accepts, st, init, k);
      var before := Run(accepts, st, init);
      var name :| name in before.services;
      if name !in Run(accepts, st, inputs).services {
        OnlyThePreviousGoes(accepts, last.spec, before, last.outcome, name);
      }
    }
  }

  // ----- what a rename that stays put leads to -----

  const CALM := Outcome(true, true)

  /** `k` rounds without faults under one specification. */
  function Rounds(accepts: string -> bool, spec: ServiceSpec, st: State, k: nat): State {
    if k == 0 then st else Round(accepts, spec, Rounds(accepts, spec, st, k - 1), CALM)
  }

  ghost predicate Pending(spec: ServiceSpec, st: State) {
    st.previous != "" && st.previous != Wanted(spec)
  }

  /** What is left when the rename has run its course: without a pending deletion the wanted name is recorded; a
      pending one is carried out when the new name is accepted, and waits for ever when it is not. */
  ghost function Final(accepts: string -> bool, spec: ServiceSpec, st: State): State {
    var services := st.services + {Wanted(spec)};
    if !Pending(spec, st) then State(services, Wanted(spec))
    else if spec.Some? && accepts(spec.value) then State(services - {st.previous}, Wanted(spec))
    else State(services, st.previous)
  }

  lemma FinalIsFixed(accepts: string -> bool, spec: ServiceSpec, st: State)
    ensures Round(accepts, spec, Final(accepts, spec, st), CALM) == Final(accepts, spec, st)
  {
  }

  /** From any state, three rounds without faults lead to the final state, which further rounds keep. */
  lemma {:induction false} RoundsReachFinal(accepts: string -> bool, spec: ServiceSpec, st: State, k: nat)
    requires k >= 3
    ensures Rounds(accepts, spec, st, k) == Final(accepts, spec, st)
  {
    if k > 3 {
      RoundsReachFinal(accepts, spec, st, k - 1);
      FinalIsFixed(accepts, spec, st);
    } else {
      assert Rounds(accepts, spec, st, 0) == st;
      assert Rounds(accepts, spec, st, 1) == Round(accepts, spec, st, CALM);
      ReachesInThree(accepts, spec, st);
    }
  }

  lemma ReachesInThree(accepts: string -> bool, spec: ServiceSpec, st: State)
    ensures
      var st1 := Round(accepts, spec, st, CALM);
      var st2 := Round(accepts, spec, st1, CALM);
      Round(accepts, spec, st2, CALM) == Final(accepts, spec, st)
  {
  }

  /** A rename leaves exactly the new service, recorded as previous, if and only if the service section is set, its
      name is accepted, and nothing but the wanted and the previous service was there to begin with. */
  lemma RenameCompletesIff(accepts: string -> bool, spec: ServiceSpec, st: State, k: nat)
    requires k >= 3 && Pending(spec, st) && st.previous in st.services
    ensures Rounds(accepts, spec, st, k) == State({Wanted(spec)}, Wanted(spec))
       <==> spec.Some? && accepts(spec.value) && st.services <= {Wanted(spec), st.previous}
  {
    RoundsReachFinal(accepts, spec, st, k);
    var final := Final(accepts, spec, st);
    if final == State({Wanted(spec)}, Wanted(spec)) {
      forall name | name in st.services
        ensures name == Wanted(spec) || name == st.previous
      {
        assert name in final.services || name == st.previous;
      }
    }
    if spec.Some? && accepts(spec.value) && st.services <= {Wanted(spec), st.previous} {
      assert final.services == {Wanted(spec)};
    }
  }

  /** From a settled state, a rename that stays put. */
  lemma SettledRename(accepts: string -> bool, spec: ServiceSpec, before: string, k: nat)
    requires k >= 3 && before != "" && spec.Some? && accepts(spec.value)
    ensures Rounds(accepts, spec, State({before}, before), k) == State({Wanted(spec)}, Wanted(spec))
  {
    RoundsReachFinal(accepts, spec, State({before}, before), k);
    assert before != Wanted(spec) ==> {before} + {Wanted(spec)} - {before} == {Wanted(spec)};
    assert before == Wanted(spec) ==> {before} + {Wanted(spec)} == {Wanted(spec)};
  }

  /** Two renames in quick succession leak the service of the first: it is never recorded, so never deleted. */
  lemma QuickRenamesLeak(accepts: string -> bool, a: string, b: string, c: string, k: nat)
    requires a != "" && b != "" && c != "" && a != b && b != c && a != c && accepts(c) && k >= 3
    ensures
      var renamedOnce := Rounds(accepts, Some(b), State({a}, a), 1);
      Rounds(accepts, Some(c), renamedOnce, k) == State({b, c}, c)
  {
    var start := State({a}, a);
    var renamedOnce := Round(accepts, Some(b), start, CALM);
    assert Rounds(accepts, Some(b), start, 0) == start;
    assert renamedOnce == State({a, b}, a);
    RoundsReachFinal(accepts, Some(c), renamedOnce, k);
    assert {a, b} + {c} - {a} == {b, c};
  }

  /** Removing the service section after a rename: the default service is created, and from then on every round
      stops at the absent section, so the old service stays. */
  lemma {:induction false} RemovedSectionPanics(accepts: string -> bool, before: string, k: nat)
    requires before != "" && before != GRAFANA_SERVICE_NAME && k >= 1
    ensures Rounds(accepts, None, State({before}, before), k) == State({before, GRAFANA_SERVICE_NAME}, before)
    ensures Decide(accepts, None, Rounds(accepts, None, State({before}, before), k)).0.Panic?
  {
    if k > 1 {
      RemovedSectionPanics(accepts, before, k - 1);
    } else {
      assert Rounds(accepts, None, State({before}, before), 0) == State({before}, before);
    }
  }
}
