/** `printExtarnalVaribles` (BasicTest.java:191-209): after execution, one
    `name=value` line per Primitive variable, in enumeration order, printed
    under a header, or nothing when there is no such line. */
module Harvester {
  import opened Wrappers
  import opened JavaLang
  import opened Execution
  import opened Binding

  const NewLine := "\n"
  const Header := NewLine + "Output variables:" + NewLine

  /** One report line; a null value prints as "null". */
  function Line(name: string, value: Option<string>): string
  {
    name + "=" + Show(value) + NewLine
  }

  /** The report the loop accumulates: the lines of the Primitive names
      among `names`, where `values` plays `getVariable`. */
  function Report(names: seq<string>, kinds: map<string, Kind>, values: map<string, Option<string>>): string
    requires forall i :: 0 <= i < |names| ==> names[i] in kinds
    decreases |names|
  {
    if names == [] then ""
    else
      (if kinds[names[0]] == Primitive then Line(names[0], GetNullable(values, names[0])) else "")
      + Report(names[1..], kinds, values)
  }

  /** The Primitive names among `names`, in order. */
  function PrimitiveNames(names: seq<string>, kinds: map<string, Kind>): (ps: seq<string>)
    requires forall i :: 0 <= i < |names| ==> names[i] in kinds
    ensures forall p :: p in ps <==> p in names && kinds[p] == Primitive
    decreases |names|
  {
    if names == [] then []
    else
      assert forall p :: p in names[1..] ==> p in names;
      (if kinds[names[0]] == Primitive then [names[0]] else []) + PrimitiveNames(names[1..], kinds)
  }

  /** The lines of the given names, in order. */
  function Lines(ps: seq<string>, values: map<string, Option<string>>): string
    decreases |ps|
  {
    if ps == [] then "" else Line(ps[0], GetNullable(values, ps[0])) + Lines(ps[1..], values)
  }

  /** What the harvester prints for a report: nothing for an empty one,
      otherwise the header followed by the report, on standard output. */
  function Printed(report: string): Option<Println>
  {
    if |report| > 0 then Some(Println(Stdout, Header + report)) else None
  }

  /** The report is the lines of the Primitive names, and of nothing else. */
  lemma {:induction false} ReportIsPrimitiveLines(names: seq<string>, kinds: map<string, Kind>, values: map<string, Option<string>>)
    requires forall i :: 0 <= i < |names| ==> names[i] in kinds
    ensures Report(names, kinds, values) == Lines(PrimitiveNames(names, kinds), values)
  {
    if names != [] {
      ReportIsPrimitiveLines(names[1..], kinds, values);
      var rest := PrimitiveNames(names[1..], kinds);
      if kinds[names[0]] == Primitive {
        assert ([names[0]] + rest)[1..] == rest;
      } else {
        assert [] + rest == rest;
      }
    }
  }

  /** Reporting a concatenation of name lists concatenates the reports.
      This is what lets the loop append one line at a time. */
  lemma {:induction false} ReportAppend(a: seq<string>, c: seq<string>, kinds: map<string, Kind>, values: map<string, Option<string>>)
    requires forall i :: 0 <= i < |a| ==> a[i] in kinds
    requires forall i :: 0 <= i < |c| ==> c[i] in kinds
    ensures forall i :: 0 <= i < |a + c| ==> (a + c)[i] in kinds
    ensures Report(a + c, kinds, values) == Report(a, kinds, values) + Report(c, kinds, values)
  {
    assert forall i :: 0 <= i < |a + c| ==> (a + c)[i] in kinds by {
      forall i | 0 <= i < |a + c| ensures (a + c)[i] in kinds {
        if i < |a| { assert (a + c)[i] == a[i]; } else { assert (a + c)[i] == c[i - |a|]; }
      }
    }
    if a == [] {
      assert a + c == c;
    } else {
      assert (a + c)[0] == a[0];
      assert (a + c)[1..] == a[1..] + c;
      ReportAppend(a[1..], c, kinds, values);
    }
  }

  /** The report is empty exactly when no declared variable is Primitive. */
  lemma {:induction false} ReportEmptyIff(names: seq<string>, kinds: map<string, Kind>, values: map<string, Option<string>>)
    requires forall i :: 0 <= i < |names| ==> names[i] in kinds
    ensures Report(names, kinds, values) == "" <==> forall i :: 0 <= i < |names| ==> kinds[names[i]] != Primitive
  {
    if names != [] {
      ReportEmptyIff(names[1..], kinds, values);
      assert forall i :: 1 <= i < |names| ==> names[i] == names[1..][i - 1];
      if kinds[names[0]] == Primitive {
        var line := Line(names[0], GetNullable(values, names[0]));
        assert |line + Report(names[1..], kinds, values)| > 0;
      }
    }
  }

  /** The report reads only the values of Primitive names. */
  lemma {:induction false} ReportReadsPrimitivesOnly(names: seq<string>, kinds: map<string, Kind>, v1: map<string, Option<string>>, v2: map<string, Option<string>>)
    requires forall i :: 0 <= i < |names| ==> names[i] in kinds
    requires forall i :: 0 <= i < |names| && kinds[names[i]] == Primitive ==> GetNullable(v1, names[i]) == GetNullable(v2, names[i])
    ensures Report(names, kinds, v1) == Report(names, kinds, v2)
  {
    if names != [] {
      assert forall i :: 1 <= i < |names| ==> names[i] == names[1..][i - 1];
      ReportReadsPrimitivesOnly(names[1..], kinds, v1, v2);
    }
  }

  /** The loop of the source: append the line of each Primitive name, then,
      if anything was appended, insert the header in front and print. */
  method PrintExternalVariables(unit: ExecutionUnit) returns (printed: Option<Println>)
    requires unit.Valid()
    ensures printed == Printed(Report(unit.names, unit.kinds, unit.primitives))
    ensures printed.None? <==> forall i :: 0 <= i < |unit.names| ==> unit.kinds[unit.names[i]] != Primitive
    ensures printed.Some? ==>
              printed.value == Println(Stdout, Header + Lines(PrimitiveNames(unit.names, unit.kinds), unit.primitives))
  {
    var message := "";
    var i := 0;
    while i < |unit.names|
      invariant 0 <= i <= |unit.names|
      invariant message == Report(unit.names[..i], unit.kinds, unit.primitives)
    {
      var name := unit.names[i];
      ReportAppend(unit.names[..i], [name], unit.kinds, unit.primitives);
      assert unit.names[..i + 1] == unit.names[..i] + [name];
      if unit.kinds[name] == Primitive {
        message := message + name + "=" + Show(unit.GetVariable(name)) + NewLine;
      }
      i := i + 1;
    }
    assert unit.names[..i] == unit.names;
    ReportEmptyIff(unit.names, unit.kinds, unit.primitives);
    ReportIsPrimitiveLines(unit.names, unit.kinds, unit.primitives);
    if |message| > 0 {
      message := Header + message;
      printed := Some(Println(Stdout, message));
    } else {
      printed := None;
    }
  }

  /** Harvesting straight after a completed binding pass, before the engine
      changes any value, reports exactly the values the caller supplied,
      with "null" for a Primitive name the caller gave no value. */
  lemma BoundValuesAreReported(names: seq<string>, kinds: map<string, Kind>, vars: map<string, string>, b: Bindings)
    requires forall i :: 0 <= i < |names| ==> names[i] in kinds
    requires Bind(names, kinds, vars, b).outcome.Completed?
    ensures Report(names, kinds, Bind(names, kinds, vars, b).bindings.primitives)
         == Report(names, kinds, map n | n in vars :: Some(vars[n]))
  {
    BindValues(names, kinds, vars, b);
    ReportReadsPrimitivesOnly(names, kinds, Bind(names, kinds, vars, b).bindings.primitives, map n | n in vars :: Some(vars[n]));
  }

  /** An example: Primitive variables `a` and `b` holding "1"
      and "2" are printed, in declaration order, under the header. */
  lemma TwoPrimitivesExample()
    ensures Printed(Report(["a", "b"], map["a" := Primitive, "b" := Primitive], map["a" := Some("1"), "b" := Some("2")]))
         == Some(Println(Stdout, "\nOutput variables:\na=1\nb=2\n"))
  {
    var kinds := map["a" := Primitive, "b" := Primitive];
    var values := map["a" := Some("1"), "b" := Some("2")];
    assert ["a", "b"][1..] == ["b"];
    assert Report(["b"], kinds, values) == "b=2\n";
    assert Report(["a", "b"], kinds, values) == "a=1\nb=2\n";
    assert Header + "a=1\nb=2\n" == "\nOutput variables:\na=1\nb=2\n";
  }
}
