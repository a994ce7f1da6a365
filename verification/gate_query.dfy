/** Per-gate duration (in nanoseconds) and error, read from a report's gate list. */
module GateQuery {
  import opened Wrappers
  import opened Units
  import opened Properties

  /** An entry of `gate_param_values`: (name, qubits, time, error). */
  datatype GateParam = GateParam(name: string, qubits: seq<int>, time: Option<real>, error: Option<real>)

  /** An entry of `gate_length_values` or `gate_error_values`: (name, qubits, value). */
  datatype GateValue = GateValue(name: string, qubits: seq<int>, value: Option<real>)

  /** The duration of a gate in nanoseconds, from its first `gate_length` parameter. */
  function GateLength(g: GateRecord): Option<real> {
    ScaledValue(CheckForItem(g.parameters, "gate_length"), NanosecondUnits)
  }

  /** The error of a gate, from its first `gate_error` parameter. */
  function GateError(g: GateRecord): Option<real> {
    RawValue(CheckForItem(g.parameters, "gate_error"))
  }

  /** A gate has no duration exactly when it has no `gate_length`
      parameter or the first one has no value. */
  lemma GateLengthMissing(g: GateRecord)
    ensures GateLength(g).None? <==>
      forall i :: IsFirstNamed(g.parameters, "gate_length", i) ==> g.parameters[i].value.None?
  {
    CheckForItemFirstMatch(g.parameters, "gate_length");
    forall i | IsFirstNamed(g.parameters, "gate_length", i) {
      CheckForItemIsFirst(g.parameters, "gate_length", i);
    }
  }

  /** A valued `gate_length` is scaled by its unit's nanosecond factor: an
      unknown or absent unit leaves it as it is. */
  lemma GateLengthUnits(g: GateRecord, i: int, v: real)
    requires IsFirstNamed(g.parameters, "gate_length", i)
    requires g.parameters[i].value == Some(v)
    ensures g.parameters[i].unit.None? ==> GateLength(g) == Some(v)
    ensures g.parameters[i].unit.Some? && g.parameters[i].unit.value !in NanosecondUnits ==>
      GateLength(g) == Some(v)
    ensures g.parameters[i].unit == Some("s") ==> GateLength(g) == Some(v * 1000000000.0)
    ensures g.parameters[i].unit == Some("ms") ==> GateLength(g) == Some(v * 1000000.0)
    ensures g.parameters[i].unit == Some("us") ==> GateLength(g) == Some(v * 1000.0)
    ensures g.parameters[i].unit == Some("\U{00B5}s") ==> GateLength(g) == Some(v * 1000.0)
    ensures g.parameters[i].unit == Some("ns") ==> GateLength(g) == Some(v)
  {
    CheckForItemIsFirst(g.parameters, "gate_length", i);
  }

  /** The error of a gate is the value of its first `gate_error` parameter,
      unscaled whatever its unit, and absent when that parameter is. */
  lemma GateErrorVerbatim(g: GateRecord)
    ensures forall i :: IsFirstNamed(g.parameters, "gate_error", i) ==> GateError(g) == g.parameters[i].value
    ensures (forall i :: 0 <= i < |g.parameters| ==> g.parameters[i].name != "gate_error") ==> GateError(g).None?
  {
    forall i | IsFirstNamed(g.parameters, "gate_error", i) {
      CheckForItemIsFirst(g.parameters, "gate_error", i);
    }
  }

  /** `gate_param_values`: one (name, qubits, time, error) entry per gate, in order. */
  method GateParamValues(properties: BackendProperties) returns (values: seq<GateParam>)
    ensures |values| == |properties.gates|
    ensures forall k :: 0 <= k < |values| ==>
      var g := properties.gates[k];
      values[k] == GateParam(g.gate, g.qubits, GateLength(g), GateError(g))
  {
    values := [];
    for k := 0 to |properties.gates|
      invariant |values| == k
      invariant forall j :: 0 <= j < k ==>
        var g := properties.gates[j];
        values[j] == GateParam(g.gate, g.qubits, GateLength(g), GateError(g))
    {
      var gate := properties.gates[k];
      var timeParam := CheckForItem(gate.parameters, "gate_length");
      var gateLength := LoadScaled(timeParam, NanosecondUnits);
      var gateError: Option<real> := None;
      var errorParam := CheckForItem(gate.parameters, "gate_error");
      if errorParam.Some? && errorParam.value.value.Some? {
        gateError := errorParam.value.value;
      }
      values := values + [GateParam(gate.gate, gate.qubits, gateLength, gateError)];
    }
  }

  /** `gate_error_values`: one (name, qubits, error) entry per gate, in order. */
  method GateErrorValues(properties: BackendProperties) returns (values: seq<GateValue>)
    ensures |values| == |properties.gates|
    ensures forall k :: 0 <= k < |values| ==>
      var g := properties.gates[k];
      values[k] == GateValue(g.gate, g.qubits, GateError(g))
  {
    values := [];
    for k := 0 to |properties.gates|
      invariant |values| == k
      invariant forall j :: 0 <= j < k ==>
        var g := properties.gates[j];
        values[j] == GateValue(g.gate, g.qubits, GateError(g))
    {
      var gate := properties.gates[k];
      var value: Option<real> := None;
      var params := CheckForItem(gate.parameters, "gate_error");
      if params.Some? && params.value.value.Some? {
        value := params.value.value;
      }
      values := values + [GateValue(gate.gate, gate.qubits, value)];
    }
  }

  /** `gate_length_values`: one (name, qubits, duration in ns) entry per gate, in order. */
  method GateLengthValues(properties: BackendProperties) returns (values: seq<GateValue>)
    ensures |values| == |properties.gates|
    ensures forall k :: 0 <= k < |values| ==>
      var g := properties.gates[k];
      values[k] == GateValue(g.gate, g.qubits, GateLength(g))
  {
    values := [];
    for k := 0 to |properties.gates|
      invariant |values| == k
      invariant forall j :: 0 <= j < k ==>
        var g := properties.gates[j];
        values[j] == GateValue(g.gate, g.qubits, GateLength(g))
    {
      var gate := properties.gates[k];
      var params := CheckForItem(gate.parameters, "gate_length");
      var value := LoadScaled(params, NanosecondUnits);
      values := values + [GateValue(gate.gate, gate.qubits, value)];
    }
  }

  /** The combined query agrees, entry by entry, with the two separate ones. */
  method GateQueriesAgree(properties: BackendProperties)
    returns (params: seq<GateParam>, lengths: seq<GateValue>, errors: seq<GateValue>)
    ensures |params| == |lengths| == |errors| == |properties.gates|
    ensures forall k :: 0 <= k < |params| ==>
      params[k] == GateParam(lengths[k].name, lengths[k].qubits, lengths[k].value, errors[k].value) &&
      errors[k].name == params[k].name && errors[k].qubits == params[k].qubits
  {
    params := GateParamValues(properties);
    lengths := GateLengthValues(properties);
    errors := GateErrorValues(properties);
  }
}
