/** Per-qubit readout error and thermal relaxation data (T1, T2 in
    microseconds, frequency in gigahertz), read from a report's qubit list. */
module QubitQuery {
  import opened Wrappers
  import opened ExtendedReal
  import opened Units
  import opened Properties

  /** An entry of `thermal_relaxation_values`: (T1, T2, freq). */
  datatype Relaxation = Relaxation(t1: ExtReal, t2: ExtReal, freq: ExtReal)

  /** The attribute error raised when T2 has a value but the qubit's
      `frequency` parameter is missing or has no value; `qubit` is the
      position of the first such qubit in the report. */
  datatype ExtractionError = FrequencyValueMissing(qubit: nat)

  /** A loaded value, or infinity when it could not be loaded. */
  function OrInf(x: Option<real>): ExtReal {
    if x.Some? then Fin(x.value) else Inf
  }

  /** The readout error of a qubit, from its first `readout_error` parameter. */
  function ReadoutError(q: seq<NamedParameter>): Option<real> {
    RawValue(CheckForItem(q, "readout_error"))
  }

  /** The thermal relaxation data of one qubit, or None where the source
      raises (T2 has a value but frequency does not). T1 and T2 default to
      infinity, frequency is loaded only when T2 has a value, and T2 is
      clamped to at most twice T1. */
  function QubitRelaxation(q: seq<NamedParameter>): (r: Option<Relaxation>)
    ensures r.Some? ==> LessEq(r.value.t2, Double(r.value.t1))
  {
    var t1 := OrInf(ScaledValue(CheckForItem(q, "T1"), MicrosecondUnits));
    var t2Param := CheckForItem(q, "T2");
    var t2 := OrInf(ScaledValue(t2Param, MicrosecondUnits));
    var freqParam := CheckForItem(q, "frequency");
    if t2Param.Some? && t2Param.value.value.Some? then
      if freqParam.Some? && freqParam.value.value.Some? then
        Some(Relaxation(t1, Min(Double(t1), t2), OrInf(ScaledValue(freqParam, GhzUnits))))
      else None
    else Some(Relaxation(t1, Min(Double(t1), t2), Inf))
  }

  /** The readout error is the value of the first `readout_error`
      parameter, unscaled, and absent when that parameter is. */
  lemma ReadoutErrorVerbatim(q: seq<NamedParameter>)
    ensures forall i :: IsFirstNamed(q, "readout_error", i) ==> ReadoutError(q) == q[i].value
    ensures (forall i :: 0 <= i < |q| ==> q[i].name != "readout_error") ==> ReadoutError(q).None?
  {
    forall i | IsFirstNamed(q, "readout_error", i) {
      CheckForItemIsFirst(q, "readout_error", i);
    }
  }

  /** A qubit reporting neither T1 nor T2 yields (inf, inf, inf), even when
      it reports a frequency. */
  lemma RelaxationDefaults(q: seq<NamedParameter>)
    requires forall i :: 0 <= i < |q| ==> q[i].name != "T1" && q[i].name != "T2"
    ensures QubitRelaxation(q) == Some(Relaxation(Inf, Inf, Inf))
  {
  }

  /** T1 is the first T1 value scaled to microseconds (an absent or unknown
      unit scales by 1), and infinity when there is no such value. */
  lemma RelaxationT1(q: seq<NamedParameter>)
    requires QubitRelaxation(q).Some?
    ensures forall i :: IsFirstNamed(q, "T1", i) && q[i].value.Some? && q[i].unit.None? ==>
      QubitRelaxation(q).value.t1 == Fin(q[i].value.value)
    ensures forall i :: IsFirstNamed(q, "T1", i) && q[i].value.Some? && q[i].unit.Some? ==>
      QubitRelaxation(q).value.t1 == Fin(q[i].value.value * UnitFactor(MicrosecondUnits, q[i].unit.value))
    ensures (forall i :: IsFirstNamed(q, "T1", i) ==> q[i].value.None?) ==> QubitRelaxation(q).value.t1 == Inf
  {
    CheckForItemFirstMatch(q, "T1");
    forall i | IsFirstNamed(q, "T1", i) {
      CheckForItemIsFirst(q, "T1", i);
    }
  }

  /** T2 is the first T2 value scaled to microseconds (an absent or unknown
      unit scales by 1), clamped to at most 2 * T1. */
  lemma RelaxationT2(q: seq<NamedParameter>, j: int, v: real)
    requires QubitRelaxation(q).Some?
    requires IsFirstNamed(q, "T2", j) && q[j].value == Some(v)
    ensures QubitRelaxation(q).value.t2 == Min(Double(QubitRelaxation(q).value.t1),
      Fin(if q[j].unit.Some? then v * UnitFactor(MicrosecondUnits, q[j].unit.value) else v))
  {
    CheckForItemIsFirst(q, "T2", j);
  }

  /** Without a T2 value, T2 becomes 2 * T1 (infinite when T1 is) whatever
      T1's unit, and the frequency stays infinite. */
  lemma RelaxationDerivedT2(q: seq<NamedParameter>)
    requires forall j :: IsFirstNamed(q, "T2", j) ==> q[j].value.None?
    ensures QubitRelaxation(q).Some?
    ensures QubitRelaxation(q).value.t2 == Double(QubitRelaxation(q).value.t1)
    ensures QubitRelaxation(q).value.freq == Inf
  {
    CheckForItemFirstMatch(q, "T2");
  }

  /** A T1 of v microseconds with no T2 value gives (v, 2 * v, inf). */
  lemma RelaxationDerivedT2Microseconds(q: seq<NamedParameter>, i: int, v: real)
    requires IsFirstNamed(q, "T1", i) && q[i].value == Some(v)
    requires q[i].unit.None? || q[i].unit == Some("us") || q[i].unit == Some("\U{00B5}s")
    requires forall j :: IsFirstNamed(q, "T2", j) ==> q[j].value.None?
    ensures QubitRelaxation(q) == Some(Relaxation(Fin(v), Fin(2.0 * v), Inf))
  {
    CheckForItemIsFirst(q, "T1", i);
    RelaxationDerivedT2(q);
  }

  /** T1 = 100 us and T2 = 250 us clamp T2 to 200 us; 5000 MHz is 5 GHz. */
  lemma RelaxationClampExample()
    ensures QubitRelaxation([
      NamedParameter("T1", Some(100.0), Some("\U{00B5}s")),
      NamedParameter("T2", Some(250.0), Some("\U{00B5}s")),
      NamedParameter("frequency", Some(5000.0), Some("MHz"))])
      == Some(Relaxation(Fin(100.0), Fin(200.0), Fin(5.0)))
  {
  }

  /** Without a T2 value the frequency stays infinite, whatever the qubit
      reports as its frequency (the source tests T2 where it loads frequency). */
  lemma FrequencyNeedsT2(q: seq<NamedParameter>)
    requires forall j :: IsFirstNamed(q, "T2", j) ==> q[j].value.None?
    ensures QubitRelaxation(q).Some? && QubitRelaxation(q).value.freq == Inf
  {
    CheckForItemFirstMatch(q, "T2");
  }

  /** With a T2 value, a qubit fails exactly when it has no frequency value. */
  lemma FrequencyMissingFails(q: seq<NamedParameter>, j: int)
    requires IsFirstNamed(q, "T2", j) && q[j].value.Some?
    ensures QubitRelaxation(q).None? <==>
      forall i :: IsFirstNamed(q, "frequency", i) ==> q[i].value.None?
  {
    CheckForItemIsFirst(q, "T2", j);
    CheckForItemFirstMatch(q, "frequency");
    forall i | IsFirstNamed(q, "frequency", i) {
      CheckForItemIsFirst(q, "frequency", i);
    }
  }

  /** With a T2 value, the frequency is the first frequency value scaled to
      gigahertz (an absent or unknown unit scales by 1). */
  lemma FrequencyScaled(q: seq<NamedParameter>, j: int, i: int, v: real)
    requires IsFirstNamed(q, "T2", j) && q[j].value.Some?
    requires IsFirstNamed(q, "frequency", i) && q[i].value == Some(v)
    ensures QubitRelaxation(q).Some?
    ensures q[i].unit.None? ==> QubitRelaxation(q).value.freq == Fin(v)
    ensures q[i].unit.Some? ==>
      QubitRelaxation(q).value.freq == Fin(v * UnitFactor(GhzUnits, q[i].unit.value))
  {
    CheckForItemIsFirst(q, "T2", j);
    CheckForItemIsFirst(q, "frequency", i);
  }

  /** `readout_error_values`: one readout error per qubit, in order. */
  method ReadoutErrorValues(properties: BackendProperties) returns (values: seq<Option<real>>)
    ensures |values| == |properties.qubits|
    ensures forall k :: 0 <= k < |values| ==> values[k] == ReadoutError(properties.qubits[k])
  {
    values := [];
    for k := 0 to |properties.qubits|
      invariant |values| == k
      invariant forall j :: 0 <= j < k ==> values[j] == ReadoutError(properties.qubits[j])
    {
      var qubitProps := properties.qubits[k];
      var value: Option<real> := None;
      var params := CheckForItem(qubitProps, "readout_error");
      if params.Some? && params.value.value.Some? {
        value := params.value.value;
      }
      values := values + [value];
    }
  }

  /** `thermal_relaxation_values`: one (T1, T2, freq) entry per qubit, in
      order, each with T2 <= 2 * T1; or the error of the first qubit whose
      T2 has a value while its frequency does not. */
  method ThermalRelaxationValues(properties: BackendProperties)
    returns (result: Result<seq<Relaxation>, ExtractionError>)
    ensures result.Success? <==>
      forall k :: 0 <= k < |properties.qubits| ==> QubitRelaxation(properties.qubits[k]).Some?
    ensures result.Success? ==>
      |result.value| == |properties.qubits| &&
      forall k :: 0 <= k < |result.value| ==>
        QubitRelaxation(properties.qubits[k]) == Some(result.value[k]) &&
        LessEq(result.value[k].t2, Double(result.value[k].t1))
    ensures result.Failure? ==>
      var n := result.error.qubit;
      n < |properties.qubits| && QubitRelaxation(properties.qubits[n]).None? &&
      forall k :: 0 <= k < n ==> QubitRelaxation(properties.qubits[k]).Some?
  {
    var values: seq<Relaxation> := [];
    for k := 0 to |properties.qubits|
      invariant |values| == k
      invariant forall j :: 0 <= j < k ==> QubitRelaxation(properties.qubits[j]) == Some(values[j])
    {
      var qubitProps := properties.qubits[k];
      var t1, t2, freq := Inf, Inf, Inf;
      var t1Params := CheckForItem(qubitProps, "T1");
      var t2Params := CheckForItem(qubitProps, "T2");
      var freqParams := CheckForItem(qubitProps, "frequency");
      var t1Value := LoadScaled(t1Params, MicrosecondUnits);
      if t1Value.Some? {
        t1 := Fin(t1Value.value);
      }
      var t2Value := LoadScaled(t2Params, MicrosecondUnits);
      if t2Value.Some? {
        t2 := Fin(t2Value.value);
      }
      if t2Params.Some? && t2Params.value.value.Some? {
        if freqParams.None? || freqParams.value.value.None? {
          return Failure(FrequencyValueMissing(k));
        }
        var freqValue := LoadScaled(freqParams, GhzUnits);
        freq := Fin(freqValue.value);
      }
      t2 := Min(Double(t1), t2);
      values := values + [Relaxation(t1, t2, freq)];
    }
    result := Success(values);
  }
}
