/**
 * The what-if tool's data: parameter entries, scenarios, the per-process
 * parameter catalog, and the string operations the detector and the
 * simulator apply to parameter labels.
 */
module Parameters {

  /** One (process, parameter, value) triple; `param` may carry a unit suffix such as " (°C)". */
  datatype ParameterEntry = ParameterEntry(process: string, param: string, value: real)

  /** A sealed scenario; only `selected` ever changes after it is queued. */
  datatype Scenario = Scenario(name: string, paramList: seq<ParameterEntry>, selected: bool)

  /**
   * `name.split(" ")[0]`: the name up to (not including) its first space,
   * or the whole name when it has none.
   */
  function BareName(name: string): string
  {
    if name == [] || name[0] == ' ' then [] else [name[0]] + BareName(name[1..])
  }

  /**
   * BareName is a prefix free of spaces that stops at the first space or at
   * the end of the name.
   */
  lemma {:induction false} BareNameSpec(name: string)
    ensures BareName(name) <= name
    ensures ' ' !in BareName(name)
    ensures |BareName(name)| == |name| || name[|BareName(name)|] == ' '
  {
    if name != [] && name[0] != ' ' {
      BareNameSpec(name[1..]);
    }
  }

  /** The three clauses of BareNameSpec leave exactly one string: they define BareName. */
  lemma BareNameUnique(name: string, r: string)
    requires r <= name && ' ' !in r && (|r| == |name| || name[|r|] == ' ')
    ensures BareName(name) == r
  {
    BareNameSpec(name);
  }

  /** A label written as a key, one space and a unit note reduces to the key. */
  lemma {:induction false} BareNameOfUnitLabel(key: string, unit: string)
    requires ' ' !in key
    ensures BareName(key + " " + unit) == key
  {
    if key != [] {
      assert (key + " " + unit)[1..] == key[1..] + " " + unit;
      BareNameOfUnitLabel(key[1..], unit);
    }
  }

  /** `toLowerCase` on the ASCII letters. */
  function LowerChar(c: char): char
  {
    if 'A' <= c <= 'Z' then (c as int + 32) as char else c
  }

  function ToLower(s: string): string
  {
    seq(|s|, i requires 0 <= i < |s| => LowerChar(s[i]))
  }

  /** `s.includes(word)`, scanning the start positions of `s` one by one. */
  function Includes(s: string, word: string): (b: bool)
  {
    word <= s || (s != [] && Includes(s[1..], word))
  }

  /** `word` occurs in `s` starting at position `i`. */
  predicate OccursAt(s: string, word: string, i: int)
  {
    0 <= i && i + |word| <= |s| && forall k :: 0 <= k < |word| ==> s[i + k] == word[k]
  }

  /** Includes holds exactly when `word` occurs in `s` at some position. */
  lemma {:induction false} IncludesIff(s: string, word: string)
    ensures Includes(s, word) <==> exists i :: OccursAt(s, word, i)
  {
    if word <= s {
      assert OccursAt(s, word, 0);
    } else if s == [] {
      assert forall i :: !OccursAt(s, word, i);
    } else {
      IncludesIff(s[1..], word);
      if Includes(s[1..], word) {
        var i :| OccursAt(s[1..], word, i);
        assert OccursAt(s, word, i + 1);
      } else {
        forall i | 0 <= i ensures !OccursAt(s, word, i) {
          if i > 0 {
            OccursAtShift(s, word, i);
          }
        }
      }
    }
  }

  /** An occurrence past the first position of `s` is an occurrence in its tail. */
  lemma OccursAtShift(s: string, word: string, i: int)
    requires 0 < i && s != []
    ensures OccursAt(s, word, i) <==> OccursAt(s[1..], word, i - 1)
  {
    if OccursAt(s[1..], word, i - 1) {
      forall k | 0 <= k < |word| ensures s[i + k] == word[k] {
        assert s[1..][i - 1 + k] == word[k];
      }
    }
  }

  /** `name.toLowerCase().includes(word)`. */
  predicate Mentions(name: string, word: string)
  {
    Includes(ToLower(name), word)
  }

  // process_feature_map: the parameters each process offers, with their unit notes.

  const CellPrepParams: seq<string> := [
    "inspection_pass_rate (%)", "temperature (°C)", "vibration_level (mm/s)",
    "energy_consumption (kWh)", "ambient_temperature (°C)", "humidity (%)",
    "air_quality_index (AQI)", "completion_time (min)", "process_yield (%)",
    "cycle_time (s)", "resource_utilization_rate (%)", "order_completion_time (min)",
    "inspection_time (s)", "defect_rate (%)", "downtime_logged (min)"]

  const CellStackParams: seq<string> := [
    "alignment_accuracy (%)", "stacking_speed (m/s)", "alignment_error (mm)",
    "ambient_temperature (°C)", "humidity (%)", "air_quality_index (AQI)",
    "completion_time (min)", "process_yield (%)", "cycle_time (s)",
    "resource_utilization_rate (%)", "order_completion_time (min)",
    "inspection_time (s)", "defect_rate (%)", "downtime_logged (min)"]

  const WeldingMachineParams: seq<string> := [
    "welding_temperature (°C)", "joint_strength_index", "ambient_temperature (°C)",
    "humidity (%)", "air_quality_index (AQI)", "completion_time (min)",
    "process_yield (%)", "cycle_time (s)", "resource_utilization_rate (%)",
    "order_completion_time (min)", "inspection_time (s)", "defect_rate (%)",
    "downtime_logged (min)"]

  const ThermalInstallerParams: seq<string> := [
    "application_pressure (bar)", "temperature_of_thermal_material (°C)",
    "application_speed (m/s)", "ambient_temperature (°C)", "humidity (%)",
    "air_quality_index (AQI)", "completion_time (min)", "process_yield (%)",
    "cycle_time (s)", "resource_utilization_rate (%)", "order_completion_time (min)",
    "inspection_time (s)", "defect_rate (%)", "downtime_logged (min)"]

  const FrameAssemblyParams: seq<string> := [
    "assembly_force (N)", "structural_integrity_check (%)", "ambient_temperature (°C)",
    "humidity (%)", "air_quality_index (AQI)", "completion_time (min)",
    "process_yield (%)", "cycle_time (s)", "resource_utilization_rate (%)",
    "order_completion_time (min)", "inspection_time (s)", "defect_rate (%)",
    "downtime_logged (min)"]

  const BusbarInstallerParams: seq<string> := [
    "connection_quality_rating", "current_drawn (A)", "installation_duration (min)",
    "ambient_temperature (°C)", "humidity (%)", "air_quality_index (AQI)",
    "completion_time (min)", "process_yield (%)", "cycle_time (s)",
    "resource_utilization_rate (%)", "order_completion_time (min)",
    "inspection_time (s)", "defect_rate (%)", "downtime_logged (min)"]

  const BmsInstallerParams: seq<string> := [
    "installation_time (min)", "fault_detection (yes/no)", "ambient_temperature (°C)",
    "humidity (%)", "air_quality_index (AQI)", "completion_time (min)",
    "process_yield (%)", "cycle_time (s)", "resource_utilization_rate (%)",
    "order_completion_time (min)", "inspection_time (s)", "defect_rate (%)",
    "downtime_logged (min)"]

  const EolTestParams: seq<string> := [
    "voltage_output (V)", "temperature_during_test (°C)", "ambient_temperature (°C)",
    "humidity (%)", "air_quality_index (AQI)", "completion_time (min)",
    "process_yield (%)", "cycle_time (s)", "resource_utilization_rate (%)",
    "order_completion_time (min)", "inspection_time (s)", "defect_rate (%)",
    "downtime_logged (min)"]

  const ProcessFeatureMap: map<string, seq<string>> := map[
    "cell_prep" := CellPrepParams,
    "cell_stack" := CellStackParams,
    "welding_machine" := WeldingMachineParams,
    "thermal_installer" := ThermalInstallerParams,
    "frame_assembly" := FrameAssemblyParams,
    "busbar_installer" := BusbarInstallerParams,
    "bms_installer" := BmsInstallerParams,
    "eol_test" := EolTestParams
  ]

  /** The catalog covers the eight stations of the line, each with a non-empty parameter list. */
  lemma CatalogProcesses()
    ensures ProcessFeatureMap.Keys == {"cell_prep", "cell_stack", "welding_machine", "thermal_installer",
      "frame_assembly", "busbar_installer", "bms_installer", "eol_test"}
    ensures forall k :: k in ProcessFeatureMap ==> |ProcessFeatureMap[k]| > 0
  {
  }
}
