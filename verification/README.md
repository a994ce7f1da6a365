# Device calibration parameters, modelled in Dafny

This project models the calibration-parameter extractor of Qiskit Aer's noise
package (`qiskit/providers/aer/noise/device/parameters.py`). The extractor reads
a backend's read-only properties report. The report holds a list of gate
records (gate name, qubits, parameters) and, for each qubit, a list of named
parameters. From these it builds:

- per-gate durations in nanoseconds and per-gate errors (`gate_param_values`,
  `gate_length_values`, `gate_error_values`);
- per-qubit readout errors (`readout_error_values`);
- per-qubit (T1, T2, frequency) triples, with T1 and T2 in microseconds and
  frequency in gigahertz (`thermal_relaxation_values`).

Every lookup is a linear search for the first parameter with a given name
(`_check_for_item`). Units are converted with three fixed tables, and a unit
missing from a table scales by 1. A parameter that is missing or has no value
gives `None` for gate lengths, gate errors and readout errors, and infinity for
T1, T2 and frequency. T2 is then clamped to at most 2·T1.

Layout:

- `wrappers.dfy`: `Option` and `Result`.
- `extended_real.dfy`: reals with a positive infinity (`Fin(r) | Inf`), plus
  `Double`, `Min` and the order `LessEq`.
- `units.dfy`: the microsecond, nanosecond and gigahertz tables. `UnitFactor` is
  the lenient `dict.get(unit, 1)` lookup and `Convert` is `value *= factor`.
- `properties.dfy`: the report's datatypes and `CheckForItem`.
  - `Filtered` is the reference definition of the source's list comprehension.
  - Lemmas prove that the search returns the head of that list, which is the
    first match.
  - `LoadScaled` is the "read value, scale by unit when there is one" step that
    the source repeats in each extractor.
- `gate_query.dfy`: per-gate specification functions, the three gate
  extractors as loops proved against them, and lemmas about scaling.
- `qubit_query.dfy`: the same for readout errors and thermal relaxation.

Frequency is modelled as written, which differs from the evident intent. The
source checks whether the T2 parameter has a value before it reads the
frequency parameter (parameters.py line 167 tests `t2_params`). So:

- frequency stays infinite unless T2 has a value;
- a qubit whose T2 has a value but whose frequency parameter is missing, or has
  no value, makes the whole call raise an attribute error.

The model returns that error as `Failure(FrequencyValueMissing(k))`, where `k`
is the first such qubit.

## Model

| member | source | states |
|---|---|---|
| `Units.UnitTableFactors` | qiskit/providers/aer/noise/device/parameters.py:20-22 | each table gives its listed factor (µs: s 1e6, ms 1e3, µs/us 1, ns 1e-3; ns: s 1e9, ms 1e6, µs/us 1e3, ns 1; GHz: Hz 1e-9, KHz 1e-6, MHz 1e-3, GHz 1, THz 1e3); any unit a table does not list gives 1, as `.get(unit, 1)` does |
| `Properties.Filtered` | qiskit/providers/aer/noise/device/parameters.py:184 | the filtered list holds exactly the items with the given name, and is no longer than the input |
| `Properties.CheckForItem` | qiskit/providers/aer/noise/device/parameters.py:182-188 | a found item is one of the list's items and carries the requested name |
| `Properties.CheckForItemIsFilteredHead` | qiskit/providers/aer/noise/device/parameters.py:184-188 | the recursive search equals the source's "filter, then None if empty, else the first element" |
| `Properties.CheckForItemNone` | qiskit/providers/aer/noise/device/parameters.py:185-186 | the search gives None exactly when no item has the name |
| `Properties.CheckForItemIsFirst` | qiskit/providers/aer/noise/device/parameters.py:182-188 | if position i is the first item with the name, the search returns that item; duplicates later in the list are ignored |
| `Properties.CheckForItemFirstMatch` | qiskit/providers/aer/noise/device/parameters.py:182-188 | any item the search returns sits at the first position with that name |
| `Properties.LoadScaled` | qiskit/providers/aer/noise/device/parameters.py:100-104 | the loaded value is present exactly when the parameter and its value are, and then it is the value scaled by the table factor of its unit (unscaled without a unit) |
| `ExtendedReal.Min` | qiskit/providers/aer/noise/device/parameters.py:176 | `min` is at most each argument and is one of them, with infinity above every real |
| `GateQuery.GateLengthMissing` | qiskit/providers/aer/noise/device/parameters.py:98-101 | a gate has no duration exactly when it has no `gate_length` parameter or the first one has no value |
| `GateQuery.GateLengthUnits` | qiskit/providers/aer/noise/device/parameters.py:99-104 | a valued gate length is multiplied by the nanosecond factor of its unit: s ×1e9, ms ×1e6, us/µs ×1e3, ns ×1; it is unscaled when the unit is missing or unknown |
| `GateQuery.GateErrorVerbatim` | qiskit/providers/aer/noise/device/parameters.py:73-76 | the gate error is the value of the first `gate_error` parameter, with no unit scaling, and None when there is no such parameter |
| `GateQuery.GateParamValues` | qiskit/providers/aer/noise/device/parameters.py:25-55 | one entry per gate in input order; name and qubits are copied; time and error come from the first `gate_length` and `gate_error` parameters |
| `GateQuery.GateErrorValues` | qiskit/providers/aer/noise/device/parameters.py:58-78 | one (name, qubits, error) entry per gate in input order, with the gate error defined above |
| `GateQuery.GateLengthValues` | qiskit/providers/aer/noise/device/parameters.py:81-106 | one (name, qubits, duration in ns) entry per gate in input order, with the gate length defined above |
| `GateQuery.GateQueriesAgree` | qiskit/providers/aer/noise/device/parameters.py:25-106 | each `gate_param_values` entry equals the `gate_length_values` and `gate_error_values` entries at the same index, combined |
| `QubitQuery.QubitRelaxation` | qiskit/providers/aer/noise/device/parameters.py:173-176 | every (T1, T2, freq) a qubit yields satisfies T2 ≤ 2·T1 |
| `QubitQuery.ReadoutErrorVerbatim` | qiskit/providers/aer/noise/device/parameters.py:122-126 | the readout error is the value of the first `readout_error` parameter, unscaled, and None when there is no such parameter |
| `QubitQuery.RelaxationDefaults` | qiskit/providers/aer/noise/device/parameters.py:149-176 | a qubit with neither T1 nor T2 yields (inf, inf, inf), even when it reports a frequency |
| `QubitQuery.RelaxationT1` | qiskit/providers/aer/noise/device/parameters.py:157-161 | T1 is the first T1 value scaled by the microsecond table (unscaled without a unit), and inf when there is no such value |
| `QubitQuery.RelaxationT2` | qiskit/providers/aer/noise/device/parameters.py:162-176 | a valued T2 is scaled by the microsecond table (unscaled without a unit), then clamped to min(2·T1, T2) |
| `QubitQuery.RelaxationDerivedT2` | qiskit/providers/aer/noise/device/parameters.py:162-176 | with no T2 value, T2 = 2·T1 whatever T1's unit (inf when T1 is inf), and the frequency stays inf |
| `QubitQuery.RelaxationDerivedT2Microseconds` | qiskit/providers/aer/noise/device/parameters.py:157-176 | a T1 of v µs with no T2 value gives (v, 2·v, inf): the clamp turns the infinite default T2 into 2·T1 |
| `QubitQuery.RelaxationClampExample` | qiskit/providers/aer/noise/device/parameters.py:157-176 | T1 = 100 µs, T2 = 250 µs and frequency 5000 MHz give (100, 200, 5.0) |
| `QubitQuery.FrequencyNeedsT2` | qiskit/providers/aer/noise/device/parameters.py:167-171 | without a T2 value the frequency stays inf, whatever frequency the qubit reports |
| `QubitQuery.FrequencyMissingFails` | qiskit/providers/aer/noise/device/parameters.py:167-168 | with a T2 value, a qubit fails exactly when it has no frequency value |
| `QubitQuery.FrequencyScaled` | qiskit/providers/aer/noise/device/parameters.py:167-171 | with a T2 value, the frequency is the first frequency value scaled by the gigahertz table (unscaled without a unit) |
| `QubitQuery.ReadoutErrorValues` | qiskit/providers/aer/noise/device/parameters.py:109-127 | one readout error per qubit, in input order |
| `QubitQuery.ThermalRelaxationValues` | qiskit/providers/aer/noise/device/parameters.py:130-179 | success exactly when no qubit fails; then one (T1, T2, freq) per qubit in order, each with T2 ≤ 2·T1; on failure, the error names the first failing qubit |

## Left out

- `contrib/standalone/qasm_simulator.cpp` is not part of this model. It is command-line plumbing (argument parsing, file loading, printing) around a simulator controller whose code is not part of this model either.
- How the properties report is obtained or built is not modelled. The report is a plain Dafny value.
- Python's `hasattr` checks become `Option` fields, so a `value` attribute that exists but holds `None` is the same as having no value. The source treats such a parameter differently in these cases:
  - a gate length, T1, T2 or frequency whose `None` value has a unit makes the source raise at the unit multiplication;
  - a T1 or T2 whose value is `None` makes the source raise at the clamp on line 176, even without a unit (`2 * None`, or `min` comparing with `None`); the model returns a tuple;
  - a T2 whose value is `None` passes the test on line 167, so the source reads the frequency; the model treats that T2 as valueless and never reads the frequency;
  - a frequency whose value is `None` and that has no unit comes back as `None` in the source's tuple (line 168); the model reports `FrequencyValueMissing`.
- Floating point is not modelled. Values are exact reals, and numpy's `inf` is the `Inf` constructor.
- Errors raised by structurally invalid reports are not modelled, for example a `gates` field that is not iterable.
- The attribute error at line 168 carries the index of the first failing qubit. The source's exception carries no index.
- Aliasing is not modelled. The source's output tuples share the input's `qubits` lists; the model copies them as values.
