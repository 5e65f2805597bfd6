/**
 * The what-if page's builder state machine: parameters are picked and set,
 * appended to a draft, the draft is sealed into a named scenario on the
 * queue, and selected scenarios are simulated or compared. Each handler
 * replaces some of the page's state fields; a handler that the source
 * rejects with an alert returns `accepted == false` and changes nothing.
 */
module WhatIfState {
  import opened Common
  import opened Parameters
  import opened PatternDetector
  import opened RiskSimulator
  import opened Comparator

  /** What the insights panel shows: one simulation or one comparison report. */
  datatype Insight = SimulationInsight(scenarioName: string, output: SimulationOutput) | ComparisonInsight(report: Report)

  /** The page's whole state, as one value, so that a contract can state all of it at once. */
  datatype Snapshot = Snapshot(
    selectedProcess: string,
    scenarioInProgress: seq<ParameterEntry>,
    scenarioName: string,
    selectedParams: seq<string>,
    paramValues: map<string, real>,
    scenarioQueue: seq<Scenario>,
    scenarioInsights: Option<Insight>)

  /** The characters `String.prototype.trim` strips: white space and line terminators. */
  predicate IsJsWhitespace(c: char)
  {
    c == '\t' || c == '\n' || c == '\U{000B}' || c == '\U{000C}' || c == '\r' || c == ' ' ||
    c == '\U{00A0}' || c == '\U{1680}' || ('\U{2000}' <= c <= '\U{200A}') ||
    c == '\U{2028}' || c == '\U{2029}' || c == '\U{202F}' || c == '\U{205F}' ||
    c == '\U{3000}' || c == '\U{FEFF}'
  }

  /** `!name.trim()`: nothing but white space is left after trimming. */
  predicate IsBlank(name: string)
  {
    forall i :: 0 <= i < |name| ==> IsJsWhitespace(name[i])
  }

  /** `paramValues[p] ?? 50`. */
  function ValueOrDefault(values: map<string, real>, p: string): real
  {
    if p in values then values[p] else 50.0
  }

  /** The draft entries `handleAddParamsToScenario` builds, one per selected parameter, in selection order. */
  function NewEntries(process: string, params: seq<string>, values: map<string, real>): (r: seq<ParameterEntry>)
    ensures |r| == |params|
    ensures forall i :: 0 <= i < |params| ==> r[i] == ParameterEntry(process, params[i], ValueOrDefault(values, params[i]))
  {
    seq(|params|, i requires 0 <= i < |params| => ParameterEntry(process, params[i], ValueOrDefault(values, params[i])))
  }

  /** `scenarioQueue.filter((sc) => sc.selected)`. */
  function SelectedScenarios(q: seq<Scenario>): (r: seq<Scenario>)
    ensures |r| <= |q|
  {
    if q == [] then []
    else if q[0].selected then [q[0]] + SelectedScenarios(q[1..])
    else SelectedScenarios(q[1..])
  }

  /** The queue with the `selected` flag of position `index` flipped; any other index leaves it as it is. */
  function FlipAt(q: seq<Scenario>, index: int): (r: seq<Scenario>)
    ensures |r| == |q|
  {
    seq(|q|, i requires 0 <= i < |q| => if i == index then q[i].(selected := !q[i].selected) else q[i])
  }

  /** The selection filter keeps exactly the selected scenarios, and nothing unselected. */
  lemma {:induction false} SelectedScenariosSpec(q: seq<Scenario>)
    ensures forall s :: s in SelectedScenarios(q) <==> s in q && s.selected
    ensures forall i :: 0 <= i < |SelectedScenarios(q)| ==> SelectedScenarios(q)[i].selected
    ensures (forall i :: 0 <= i < |q| ==> q[i].selected) ==> SelectedScenarios(q) == q
  {
    if q != [] {
      SelectedScenariosSpec(q[1..]);
      assert q == [q[0]] + q[1..];
    }
  }

  /**
   * The filter distributes over concatenation and keeps a one-scenario queue
   * exactly when that scenario is selected; together these fix the result as
   * the selected scenarios in queue order, each occurrence kept.
   */
  lemma {:induction false} SelectedScenariosAppend(q1: seq<Scenario>, q2: seq<Scenario>)
    ensures SelectedScenarios(q1 + q2) == SelectedScenarios(q1) + SelectedScenarios(q2)
    ensures forall s :: SelectedScenarios([s]) == if s.selected then [s] else []
  {
    if q1 != [] {
      SelectedScenariosAppend(q1[1..], q2);
      assert (q1 + q2)[1..] == q1[1..] + q2;
    } else {
      assert q1 + q2 == q2;
    }
    forall s ensures SelectedScenarios([s]) == if s.selected then [s] else [] {
      assert [s][1..] == [];
    }
  }

  /**
   * Flipping one in-range position changes the number of selected scenarios by
   * exactly one, and flipping it again restores the queue.
   */
  lemma {:induction false} FlipAtCount(q: seq<Scenario>, index: int)
    requires 0 <= index < |q|
    ensures |SelectedScenarios(FlipAt(q, index))| ==
      if q[index].selected then |SelectedScenarios(q)| - 1 else |SelectedScenarios(q)| + 1
    ensures FlipAt(FlipAt(q, index), index) == q
  {
    var r := FlipAt(q, index);
    if index == 0 {
      assert r[1..] == q[1..];
    } else {
      FlipAtCount(q[1..], index - 1);
      assert r[1..] == FlipAt(q[1..], index - 1);
      assert r[0] == q[0];
    }
  }

  /** A flip at a position outside the queue leaves it as it is. */
  lemma FlipOutsideQueue(q: seq<Scenario>, index: int)
    requires index < 0 || index >= |q|
    ensures FlipAt(q, index) == q
  {
  }

  class WhatIfAnalysis {
    var selectedProcess: string
    var scenarioInProgress: seq<ParameterEntry>
    var scenarioName: string
    var selectedParams: seq<string>
    var paramValues: map<string, real>
    var scenarioQueue: seq<Scenario>
    var scenarioInsights: Option<Insight>

    function State(): Snapshot
      reads this
    {
      Snapshot(selectedProcess, scenarioInProgress, scenarioName, selectedParams, paramValues, scenarioQueue, scenarioInsights)
    }

    /**
     * The builder's invariant: no parameter is picked twice, every picked
     * parameter has a value, and every queued scenario has entries.
     */
    predicate Valid()
      reads this
    {
      NoDup(selectedParams) &&
      (forall p :: p in selectedParams ==> p in paramValues) &&
      (forall i :: 0 <= i < |scenarioQueue| ==> |scenarioQueue[i].paramList| > 0)
    }

    /** The page's initial state. */
    constructor()
      ensures State() == Snapshot("cell_prep", [], "", [], map[], [], None)
      ensures Valid()
      ensures selectedProcess in ProcessFeatureMap
    {
      selectedProcess := "cell_prep";
      scenarioInProgress := [];
      scenarioName := "";
      selectedParams := [];
      paramValues := map[];
      scenarioQueue := [];
      scenarioInsights := None;
    }

    /** The process selector: a new process clears the picked parameters and their values. */
    method SelectProcess(process: string)
      requires Valid()
      modifies this
      ensures Valid()
      ensures State() == old(State()).(selectedProcess := process, selectedParams := [], paramValues := map[])
    {
      selectedProcess := process;
      selectedParams := [];
      paramValues := map[];
    }

    /**
     * handleParamToggle: toggles the parameter's membership, and gives it the
     * value 50 unless it already has one.
     */
    method HandleParamToggle(param: string)
      requires Valid()
      modifies this
      ensures Valid()
      ensures selectedParams == Toggle(old(selectedParams), param)
      ensures param in selectedParams <==> param !in old(selectedParams)
      ensures forall q :: q != param ==> (q in selectedParams <==> q in old(selectedParams))
      ensures param in paramValues && paramValues[param] == ValueOrDefault(old(paramValues), param)
      ensures forall k :: k != param ==> (k in paramValues <==> k in old(paramValues))
      ensures forall k :: k != param && k in paramValues ==> paramValues[k] == old(paramValues)[k]
      ensures State() == old(State()).(selectedParams := selectedParams, paramValues := paramValues)
    {
      ToggleKeepsNoDup(selectedParams, param);
      selectedParams := Toggle(selectedParams, param);
      paramValues := paramValues[param := ValueOrDefault(paramValues, param)];
    }

    /** handleParamSlider: stores the slider's value for the parameter. */
    method HandleParamSlider(param: string, val: real)
      requires Valid()
      modifies this
      ensures Valid()
      ensures State() == old(State()).(paramValues := old(paramValues)[param := val])
    {
      paramValues := paramValues[param := val];
    }

    /** The scenario-name input. */
    method SetScenarioName(name: string)
      requires Valid()
      modifies this
      ensures Valid()
      ensures State() == old(State()).(scenarioName := name)
    {
      scenarioName := name;
    }

    /**
     * handleAddParamsToScenario: with no parameter picked it is rejected;
     * otherwise one entry per picked parameter joins the draft and the
     * picks and values are cleared.
     */
    method HandleAddParamsToScenario() returns (accepted: bool)
      requires Valid()
      modifies this
      ensures Valid()
      ensures accepted <==> |old(selectedParams)| > 0
      ensures !accepted ==> State() == old(State())
      ensures accepted ==> State() == old(State()).(
        scenarioInProgress := old(scenarioInProgress) + NewEntries(old(selectedProcess), old(selectedParams), old(paramValues)),
        selectedParams := [],
        paramValues := map[])
    {
      if |selectedParams| == 0 {
        return false;
      }
      var newEntries := NewEntries(selectedProcess, selectedParams, paramValues);
      scenarioInProgress := scenarioInProgress + newEntries;
      selectedParams := [];
      paramValues := map[];
      accepted := true;
    }

    /**
     * handleAddScenarioToQueue: a blank name or an empty draft is rejected;
     * otherwise the draft, under the name as typed, joins the queue
     * unselected, and the draft and name are reset.
     */
    method HandleAddScenarioToQueue() returns (accepted: bool)
      requires Valid()
      modifies this
      ensures Valid()
      ensures accepted <==> !IsBlank(old(scenarioName)) && |old(scenarioInProgress)| > 0
      ensures !accepted ==> State() == old(State())
      ensures accepted ==> State() == old(State()).(
        scenarioQueue := old(scenarioQueue) + [Scenario(old(scenarioName), old(scenarioInProgress), false)],
        scenarioInProgress := [],
        scenarioName := "")
    {
      if IsBlank(scenarioName) {
        return false;
      }
      if |scenarioInProgress| == 0 {
        return false;
      }
      var newScenario := Scenario(scenarioName, scenarioInProgress, false);
      scenarioQueue := scenarioQueue + [newScenario];
      scenarioInProgress := [];
      scenarioName := "";
      accepted := true;
    }

    /** toggleScenarioSelected: flips one scenario's flag and discards any shown insight. */
    method ToggleScenarioSelected(index: int)
      requires Valid()
      modifies this
      ensures Valid()
      ensures State() == old(State()).(scenarioQueue := FlipAt(old(scenarioQueue), index), scenarioInsights := None)
    {
      scenarioQueue := FlipAt(scenarioQueue, index);
      scenarioInsights := None;
    }

    /** handleCompareSelected: fewer than two selected scenarios is rejected; otherwise the report is shown. */
    method HandleCompareSelected() returns (accepted: bool)
      requires Valid()
      modifies this
      ensures Valid()
      ensures accepted <==> |SelectedScenarios(scenarioQueue)| >= 2
      ensures !accepted ==> State() == old(State())
      ensures accepted ==>
        State() == old(State()).(scenarioInsights := Some(ComparisonInsight(Compare(SelectedScenarios(scenarioQueue)).value)))
    {
      var selected := SelectedScenarios(scenarioQueue);
      if |selected| < 2 {
        return false;
      }
      var report := CompareScenarios(selected);
      scenarioInsights := Some(ComparisonInsight(report.value));
      accepted := true;
    }

    /** handleSimulateScenario: anything but exactly one selected scenario is rejected; otherwise its simulation is shown. */
    method HandleSimulateScenario() returns (accepted: bool)
      requires Valid()
      modifies this
      ensures Valid()
      ensures accepted <==> |SelectedScenarios(scenarioQueue)| == 1
      ensures !accepted ==> State() == old(State())
      ensures accepted ==>
        var sc := SelectedScenarios(scenarioQueue)[0];
        State() == old(State()).(scenarioInsights := Some(SimulationInsight(sc.name, Simulate(sc.paramList))))
    {
      var selected := SelectedScenarios(scenarioQueue);
      if |selected| != 1 {
        return false;
      }
      var scenario := selected[0];
      var simulationResults := SimulateScenario(scenario);
      scenarioInsights := Some(SimulationInsight(scenario.name, simulationResults));
      accepted := true;
    }
  }

  // ---------------------------------------------------------------------------
  // Properties of the builder

  /**
   * On a valid page every picked parameter has a stored value, so no entry
   * that adding the picks to the draft would create falls back to the
   * default 50: each takes the value its slider holds.
   */
  lemma DraftValuesComeFromSliders(w: WhatIfAnalysis)
    requires w.Valid()
    ensures forall i :: 0 <= i < |w.selectedParams| ==>
      NewEntries(w.selectedProcess, w.selectedParams, w.paramValues)[i] ==
        ParameterEntry(w.selectedProcess, w.selectedParams[i], w.paramValues[w.selectedParams[i]])
  {
    forall i | 0 <= i < |w.selectedParams|
      ensures w.selectedParams[i] in w.paramValues
    {
      assert w.selectedParams[i] in w.selectedParams;
    }
  }

  /**
   * On a valid page every queued scenario has entries, so its simulation is
   * never the vacuous "every value optimal" verdict of an empty list: a
   * queued scenario reported as optimized efficiency has a parameter, and
   * every parameter it has lies in [40, 60]. Its risk is always 5–95%.
   */
  lemma QueuedScenarioSimulates(w: WhatIfAnalysis, i: int)
    requires w.Valid() && 0 <= i < |w.scenarioQueue|
    ensures 5 <= Simulate(w.scenarioQueue[i].paramList).failurePercent <= 95
    ensures Detect(w.scenarioQueue[i].paramList) == Some(OptimizedEfficiency) ==>
      |w.scenarioQueue[i].paramList| > 0 &&
      forall j :: 0 <= j < |w.scenarioQueue[i].paramList| ==> 40.0 <= w.scenarioQueue[i].paramList[j].value <= 60.0
  {
    SimulateBounds(w.scenarioQueue[i].paramList);
  }

  /**
   * On a page whose compare request passes the guard, the comparison always
   * yields a report, and its metric lines are the selected scenarios'
   * evaluations in queue order.
   */
  lemma CompareGuardYieldsReport(w: WhatIfAnalysis)
    requires w.Valid() && |SelectedScenarios(w.scenarioQueue)| >= 2
    ensures Compare(SelectedScenarios(w.scenarioQueue)).Some?
    ensures Compare(SelectedScenarios(w.scenarioQueue)).value.metrics == Evaluations(SelectedScenarios(w.scenarioQueue))
  {
    CompareMetrics(SelectedScenarios(w.scenarioQueue));
  }

  /** A name of spaces, tabs or line breaks is blank; a name with any other character, anywhere, is not. */
  lemma BlankNames(name: string, c: char, i: int)
    requires !IsJsWhitespace(c) && 0 <= i <= |name|
    ensures IsBlank("") && IsBlank(" \t\n")
    ensures !IsBlank(name[..i] + [c] + name[i..])
  {
    assert (name[..i] + [c] + name[i..])[i] == c;
  }
}
