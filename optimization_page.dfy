/**
 * The optimization page's state and its transitions. Every handler builds a
 * new value for one piece of state (a React state setter), so the page is a
 * record and each handler a function from the old record to the new one.
 */
module OptimizationPage {
  import opened Common
  import opened ObjectiveMatcher

  /** The four objective sliders. */
  datatype Objective = Throughput | DefectRate | EnergyConsumption | CostOptimization

  /** Each slider runs from 0 to its own maximum. */
  function SliderMax(o: Objective): (m: real)
    ensures m > 0.0
  {
    match o
    case Throughput => 100.0
    case DefectRate => 20.0
    case EnergyConsumption => 500.0
    case CostOptimization => 5000.0
  }

  datatype PageState = PageState(
    throughput: real,
    defectRate: real,
    energyConsumption: real,
    costOptimization: real,
    selectedProcess: string,
    selectedParams: seq<string>,
    matchedScenario: Option<BakedScenario>)

  /** The value a slider currently shows. */
  function SliderValue(st: PageState, o: Objective): real
  {
    match o
    case Throughput => st.throughput
    case DefectRate => st.defectRate
    case EnergyConsumption => st.energyConsumption
    case CostOptimization => st.costOptimization
  }

  /** The state the page starts in. */
  const InitialState: PageState := PageState(50.0, 5.0, 100.0, 1000.0, "cell_prep", [], None)

  /** Every slider shows a value inside its own range, and no parameter is selected twice. */
  predicate Valid(st: PageState)
  {
    (forall o: Objective :: 0.0 <= SliderValue(st, o) <= SliderMax(o)) && NoDup(st.selectedParams)
  }

  /** Moving a slider: only that objective's value changes; a stored match is kept as it was. */
  function SetObjective(st: PageState, o: Objective, v: real): (r: PageState)
    requires 0.0 <= v <= SliderMax(o)
    ensures SliderValue(r, o) == v
    ensures forall other :: other != o ==> SliderValue(r, other) == SliderValue(st, other)
    ensures r.selectedProcess == st.selectedProcess && r.selectedParams == st.selectedParams
    ensures r.matchedScenario == st.matchedScenario
  {
    match o
    case Throughput => st.(throughput := v)
    case DefectRate => st.(defectRate := v)
    case EnergyConsumption => st.(energyConsumption := v)
    case CostOptimization => st.(costOptimization := v)
  }

  /** The process selector; unlike the what-if page it keeps the parameter selection. */
  function SelectProcess(st: PageState, process: string): (r: PageState)
    ensures r.selectedProcess == process
    ensures r.selectedParams == st.selectedParams && r.matchedScenario == st.matchedScenario
    ensures forall o :: SliderValue(r, o) == SliderValue(st, o)
  {
    st.(selectedProcess := process)
  }

  /** handleParamChange: the checkbox toggles `p`'s membership and leaves every other member alone. */
  function HandleParamChange(st: PageState, p: string): (r: PageState)
    ensures p in r.selectedParams <==> p !in st.selectedParams
    ensures forall q :: q != p ==> (q in r.selectedParams <==> q in st.selectedParams)
    ensures p !in st.selectedParams ==> r.selectedParams == st.selectedParams + [p]
    ensures r == st.(selectedParams := r.selectedParams)
  {
    st.(selectedParams := Toggle(st.selectedParams, p))
  }

  /** handleOptimize: stores the matcher's verdict for the four current slider values. */
  function HandleOptimize(st: PageState): (r: PageState)
    ensures r == st.(matchedScenario := r.matchedScenario)
    ensures r.matchedScenario.None? <==>
      forall i :: 0 <= i < |BakedScenarios| ==>
        !Matches(BakedScenarios[i].objectives, st.throughput, st.defectRate, st.energyConsumption, st.costOptimization)
    ensures r.matchedScenario.Some? ==>
      exists i :: IsFirstMatch(BakedScenarios, i, st.throughput, st.defectRate, st.energyConsumption, st.costOptimization) &&
        BakedScenarios[i] == r.matchedScenario.value
  {
    FirstMatchSpec(BakedScenarios, st.throughput, st.defectRate, st.energyConsumption, st.costOptimization);
    st.(matchedScenario := CheckForScenarioMatch(st.throughput, st.defectRate, st.energyConsumption, st.costOptimization))
  }

  /** The initial state is valid, and every transition keeps the state valid. */
  lemma TransitionsKeepValid(st: PageState, o: Objective, v: real, process: string, p: string)
    requires Valid(st) && 0.0 <= v <= SliderMax(o)
    ensures Valid(InitialState)
    ensures Valid(SetObjective(st, o, v))
    ensures Valid(SelectProcess(st, process))
    ensures Valid(HandleParamChange(st, p))
    ensures Valid(HandleOptimize(st))
  {
    assert forall q: Objective :: 0.0 <= SliderValue(InitialState, q) <= SliderMax(q) by {
      forall q: Objective ensures 0.0 <= SliderValue(InitialState, q) <= SliderMax(q) {
        match q
        case Throughput =>
        case DefectRate =>
        case EnergyConsumption =>
        case CostOptimization =>
      }
    }
    ToggleKeepsNoDup(st.selectedParams, p);
  }

  /** Toggling the same parameter twice restores the membership of every parameter. */
  lemma ParamChangeTwice(st: PageState, p: string)
    ensures forall q :: q in HandleParamChange(HandleParamChange(st, p), p).selectedParams <==> q in st.selectedParams
  {
  }

  /** Optimizing twice in a row changes nothing the second time. */
  lemma OptimizeIdempotent(st: PageState)
    ensures HandleOptimize(HandleOptimize(st)) == HandleOptimize(st)
  {
  }

  /** Optimizing straight away, before any slider moves, finds no scenario. */
  lemma OptimizeInitialFindsNothing()
    ensures HandleOptimize(InitialState).matchedScenario == None
  {
    InitialSlidersMatchNothing();
  }

  /** Setting the sliders to a scenario's targets and optimizing selects that scenario. */
  lemma OptimizeAtTargets(st: PageState)
    requires st.throughput == 85.0 && st.defectRate == 3.8 && st.energyConsumption == 125.0 && st.costOptimization == 1350.0
    ensures HandleOptimize(st).matchedScenario == Some(MaximizedThroughput)
  {
    TargetsSelectTheirScenario();
  }
}
