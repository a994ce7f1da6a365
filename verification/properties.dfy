/** The device-properties report the extractors read, the search for a named
    parameter in a record, and the value a found parameter yields. */
module Properties {
  import opened Wrappers
  import opened Units

  /** One calibration attribute: a name, an optional value and an optional
      unit label (an absent value or unit is an attribute the object lacks). */
  datatype NamedParameter = NamedParameter(name: string, value: Option<real>, unit: Option<string>)

  /** A gate of the device: its name, the qubits it acts on, its parameters. */
  datatype GateRecord = GateRecord(gate: string, qubits: seq<int>, parameters: seq<NamedParameter>)

  /** The read-only report: its gates and, per qubit, that qubit's parameters. */
  datatype BackendProperties = BackendProperties(gates: seq<GateRecord>, qubits: seq<seq<NamedParameter>>)

  /** `i` is the position of the first parameter in `lst` called `name`. */
  predicate IsFirstNamed(lst: seq<NamedParameter>, name: string, i: int) {
    0 <= i < |lst| && lst[i].name == name &&
    forall j :: 0 <= j < i ==> lst[j].name != name
  }

  /** The items of `lst` called `name`, in their order in `lst`. */
  function Filtered(lst: seq<NamedParameter>, name: string): (r: seq<NamedParameter>)
    ensures forall x :: x in r <==> x in lst && x.name == name
    ensures |r| <= |lst|
  {
    if |lst| == 0 then []
    else if lst[0].name == name then [lst[0]] + Filtered(lst[1..], name)
    else Filtered(lst[1..], name)
  }

  /** The first item of `lst` called `name`, or None when there is none. */
  function CheckForItem(lst: seq<NamedParameter>, name: string): (r: Option<NamedParameter>)
    ensures r.Some? ==> r.value in lst && r.value.name == name
  {
    if |lst| == 0 then None
    else if lst[0].name == name then Some(lst[0])
    else CheckForItem(lst[1..], name)
  }

  /** The search yields the head of the filtered list, or None when that
      list is empty. */
  lemma {:induction false} CheckForItemIsFilteredHead(lst: seq<NamedParameter>, name: string)
    ensures CheckForItem(lst, name) == if |Filtered(lst, name)| == 0 then None else Some(Filtered(lst, name)[0])
  {
    if |lst| > 0 && lst[0].name != name {
      CheckForItemIsFilteredHead(lst[1..], name);
    }
  }

  /** The search finds nothing exactly when no item carries the name. */
  lemma {:induction false} CheckForItemNone(lst: seq<NamedParameter>, name: string)
    ensures CheckForItem(lst, name).None? <==> forall i :: 0 <= i < |lst| ==> lst[i].name != name
  {
    if |lst| > 0 && lst[0].name != name {
      CheckForItemNone(lst[1..], name);
      assert forall i :: 1 <= i < |lst| ==> lst[i] == lst[1..][i - 1];
    }
  }

  /** The search returns exactly the first item carrying the name. */
  lemma {:induction false} CheckForItemIsFirst(lst: seq<NamedParameter>, name: string, i: int)
    requires IsFirstNamed(lst, name, i)
    ensures CheckForItem(lst, name) == Some(lst[i])
    decreases i
  {
    if i > 0 {
      assert IsFirstNamed(lst[1..], name, i - 1);
      CheckForItemIsFirst(lst[1..], name, i - 1);
    }
  }

  /** Whenever the search finds something, it found the first match. */
  lemma {:induction false} CheckForItemFirstMatch(lst: seq<NamedParameter>, name: string)
    ensures CheckForItem(lst, name).Some? ==>
      exists i :: IsFirstNamed(lst, name, i) && CheckForItem(lst, name).value == lst[i]
  {
    if |lst| > 0 {
      if lst[0].name == name {
        CheckForItemIsFirst(lst, name, 0);
      } else {
        CheckForItemFirstMatch(lst[1..], name);
        if CheckForItem(lst, name).Some? {
          var i :| IsFirstNamed(lst[1..], name, i) && CheckForItem(lst, name).value == lst[1..][i];
          assert IsFirstNamed(lst, name, i + 1);
        }
      }
    }
  }

  /** The value a looked-up parameter yields: none when the parameter or its
      value is missing; otherwise the value, scaled by the table's factor for
      its unit when it has one. */
  function ScaledValue(param: Option<NamedParameter>, table: map<string, real>): Option<real> {
    if param.Some? && param.value.value.Some? then
      var v := param.value.value.value;
      Some(if param.value.unit.Some? then Convert(v, table, param.value.unit.value) else v)
    else None
  }

  /** Reads a looked-up parameter the way each extractor does: its value if
      it has one, multiplied by the table's factor for its unit if it has a
      unit. */
  method LoadScaled(param: Option<NamedParameter>, table: map<string, real>) returns (value: Option<real>)
    ensures value.Some? <==> param.Some? && param.value.value.Some?
    ensures value == ScaledValue(param, table)
  {
    value := None;
    if param.Some? && param.value.value.Some? {
      var v := param.value.value.value;
      if param.value.unit.Some? {
        v := Convert(v, table, param.value.unit.value);
      }
      value := Some(v);
    }
  }

  /** The value a looked-up parameter yields, with no unit scaling. */
  function RawValue(param: Option<NamedParameter>): Option<real> {
    if param.Some? then param.value.value else None
  }
}
