/** The three fixed unit-conversion tables and their lenient lookup. */
module Units {

  /** Scale factors from a time unit to microseconds. */
  const MicrosecondUnits: map<string, real> :=
    map["s" := 1000000.0, "ms" := 1000.0, "\U{00B5}s" := 1.0, "us" := 1.0, "ns" := 0.001]

  /** Scale factors from a time unit to nanoseconds. */
  const NanosecondUnits: map<string, real> :=
    map["s" := 1000000000.0, "ms" := 1000000.0, "\U{00B5}s" := 1000.0, "us" := 1000.0, "ns" := 1.0]

  /** Scale factors from a frequency unit to gigahertz. */
  const GhzUnits: map<string, real> :=
    map["Hz" := 0.000000001, "KHz" := 0.000001, "MHz" := 0.001, "GHz" := 1.0, "THz" := 1000.0]

  /** The factor a table gives a unit label; an unknown label scales by 1. */
  function UnitFactor(table: map<string, real>, unit: string): real {
    if unit in table then table[unit] else 1.0
  }

  /** A value given in `unit`, expressed in the table's target unit. */
  function Convert(value: real, table: map<string, real>, unit: string): real {
    value * UnitFactor(table, unit)
  }

  /** The factor of every listed unit, and 1 for any unit a table does not list. */
  lemma UnitTableFactors()
    ensures UnitFactor(MicrosecondUnits, "s") == 1000000.0 && UnitFactor(MicrosecondUnits, "ms") == 1000.0
    ensures UnitFactor(MicrosecondUnits, "\U{00B5}s") == 1.0 && UnitFactor(MicrosecondUnits, "us") == 1.0
    ensures UnitFactor(MicrosecondUnits, "ns") == 0.001
    ensures UnitFactor(NanosecondUnits, "s") == 1000000000.0 && UnitFactor(NanosecondUnits, "ms") == 1000000.0
    ensures UnitFactor(NanosecondUnits, "\U{00B5}s") == 1000.0 && UnitFactor(NanosecondUnits, "us") == 1000.0
    ensures UnitFactor(NanosecondUnits, "ns") == 1.0
    ensures UnitFactor(GhzUnits, "Hz") == 0.000000001 && UnitFactor(GhzUnits, "KHz") == 0.000001
    ensures UnitFactor(GhzUnits, "MHz") == 0.001 && UnitFactor(GhzUnits, "GHz") == 1.0
    ensures UnitFactor(GhzUnits, "THz") == 1000.0
    ensures forall table: map<string, real>, unit :: unit !in table ==> UnitFactor(table, unit) == 1.0
  {
  }
}
