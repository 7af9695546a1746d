/** `setExtarnalVaribles` (BasicTest.java:253-286): binds every declared
    external variable of an execution unit from the caller's name-to-value
    map, choosing the binding by the variable's kind. */
module Binding {
  import opened Wrappers
  import opened Providers
  import opened Execution

  /** How the binding pass ends: after the last name, or with the
      `NullPointerException` that `new File(null)` throws for a stream
      variable the caller gave no value. */
  datatype BindOutcome = Completed | NullPointer(name: string)

  datatype BindResult = BindResult(bindings: Bindings, outcome: BindOutcome)

  /** The effect of one name: the new bindings, or None when `new File`
      is given null. The two array kinds are deliberate no-ops. */
  function BindOne(name: string, kind: Kind, value: Option<string>, b: Bindings): Option<Bindings>
  {
    match kind
    case Primitive => Some(b.(primitives := b.primitives[name := value]))
    case Input => if value.None? then None else Some(b.(inputs := b.inputs[name := InputProvider(value.value)]))
    case InputArray => Some(b)
    case Output => if value.None? then None else Some(b.(outputFiles := b.outputFiles[name := value.value]))
    case OutputArray => Some(b)
  }

  /** The binding pass over `names`, in order, starting from bindings `b`. */
  function Bind(names: seq<string>, kinds: map<string, Kind>, vars: map<string, string>, b: Bindings): BindResult
    requires forall i :: 0 <= i < |names| ==> names[i] in kinds
    decreases |names|
  {
    if names == [] then BindResult(b, Completed)
    else
      match BindOne(names[0], kinds[names[0]], Get(vars, names[0]), b)
      case None => BindResult(b, NullPointer(names[0]))
      case Some(b') => Bind(names[1..], kinds, vars, b')
  }

  /** The method the source runs: a loop over the declared names that calls
      the unit's setters. New output providers start with an empty bag. */
  method SetExternalVariables(unit: ExecutionUnit, vars: map<string, string>) returns (outcome: BindOutcome)
    requires unit.Valid()
    modifies unit
    ensures BindResult(unit.View(), outcome) == Bind(unit.names, unit.kinds, vars, old(unit.View()))
    ensures forall n :: n in unit.outputs ==>
              (n in old(unit.outputs) && unit.outputs[n] == old(unit.outputs[n]))
              || (fresh(unit.outputs[n]) && unit.outputs[n].properties == map[])
    // Each Output name bound by this pass gets a provider, and a property bag, of its own.
    ensures forall n, m :: n in unit.outputs && m in unit.outputs && n != m && fresh(unit.outputs[n]) ==>
              unit.outputs[n] != unit.outputs[m]
    // A name the pass does not bind as Output keeps its old provider, bag included ...
    ensures forall n :: n in old(unit.outputs) && (n !in unit.names || unit.kinds[n] != Output) ==>
              n in unit.outputs && unit.outputs[n] == old(unit.outputs[n])
    // ... and after a completed pass every Output name holds a provider made by this pass.
    ensures outcome.Completed? ==>
              forall n :: n in unit.names && unit.kinds[n] == Output ==> n in unit.outputs && fresh(unit.outputs[n])
    // On a pass that throws, the Output names before the failing one hold new providers,
    // and the names from the failing one on keep the providers they had.
    ensures outcome.NullPointer? ==>
              forall k :: 0 <= k < |unit.names| && unit.kinds[unit.names[k]] == Output && outcome.name !in unit.names[..k + 1] ==>
                unit.names[k] in unit.outputs && fresh(unit.outputs[unit.names[k]])
    ensures outcome.NullPointer? ==>
              forall k :: 0 <= k < |unit.names| && outcome.name in unit.names[..k + 1] && unit.names[k] in old(unit.outputs) ==>
                unit.names[k] in unit.outputs && unit.outputs[unit.names[k]] == old(unit.outputs[unit.names[k]])
  {
    var i := 0;
    while i < |unit.names|
      invariant 0 <= i <= |unit.names|
      invariant Bind(unit.names[i..], unit.kinds, vars, unit.View()) == Bind(unit.names, unit.kinds, vars, old(unit.View()))
      invariant forall n :: n in unit.outputs ==>
                  (n in old(unit.outputs) && unit.outputs[n] == old(unit.outputs[n]))
                  || (fresh(unit.outputs[n]) && unit.outputs[n].properties == map[])
      invariant forall n, m :: n in unit.outputs && m in unit.outputs && n != m && fresh(unit.outputs[n]) ==>
                  unit.outputs[n] != unit.outputs[m]
      invariant forall n :: n in old(unit.outputs) && (n !in unit.names || unit.kinds[n] != Output) ==>
                  n in unit.outputs && unit.outputs[n] == old(unit.outputs[n])
      invariant forall k :: 0 <= k < i && unit.kinds[unit.names[k]] == Output ==>
                  unit.names[k] in unit.outputs && fresh(unit.outputs[unit.names[k]])
      invariant forall k :: i <= k < |unit.names| && unit.names[k] in old(unit.outputs) ==>
                  unit.names[k] in unit.outputs && unit.outputs[unit.names[k]] == old(unit.outputs[unit.names[k]])
    {
      var name := unit.names[i];
      var value := Get(vars, name);
      var kind := unit.kinds[name];
      assert unit.names[i..][0] == name && unit.names[i..][1..] == unit.names[i + 1..];
      if kind == Primitive {
        unit.SetVariable(name, value);
      } else if kind == Input {
        if value.None? {
          assert forall k {:trigger unit.names[..k + 1]} :: 0 <= k < |unit.names| ==> (name in unit.names[..k + 1] <==> i <= k);
          return NullPointer(name);
        }
        unit.SetInput(name, InputProvider(value.value));
      } else if kind == InputArray {
        // not implemented in the source: no binding
      } else if kind == Output {
        if value.None? {
          assert forall k {:trigger unit.names[..k + 1]} :: 0 <= k < |unit.names| ==> (name in unit.names[..k + 1] <==> i <= k);
          return NullPointer(name);
        }
        var provider := new OutputProvider(value.value);
        unit.SetOutput(name, provider);
      } else if kind == OutputArray {
        // not implemented in the source: no binding
      }
      i := i + 1;
    }
    return Completed;
  }

  /** `key` has the same entry, or the same absence of one, in both maps. */
  predicate SameEntry<V(==)>(m1: map<string, V>, m2: map<string, V>, key: string)
  {
    (key in m1 <==> key in m2) && (key in m1 ==> m1[key] == m2[key])
  }

  /** Binding a concatenation is binding the first part, then, if that
      completed, the second part from where the first left off. */
  lemma {:induction false} BindAppend(a: seq<string>, c: seq<string>, kinds: map<string, Kind>, vars: map<string, string>, b: Bindings)
    requires forall i :: 0 <= i < |a| ==> a[i] in kinds
    requires forall i :: 0 <= i < |c| ==> c[i] in kinds
    ensures forall i :: 0 <= i < |a + c| ==> (a + c)[i] in kinds
    ensures Bind(a + c, kinds, vars, b) ==
              var first := Bind(a, kinds, vars, b);
              if first.outcome.Completed? then Bind(c, kinds, vars, first.bindings) else first
  {
    assert forall i :: 0 <= i < |a + c| ==> (a + c)[i] in kinds by {
      forall i | 0 <= i < |a + c| ensures (a + c)[i] in kinds {
        if i < |a| { assert (a + c)[i] == a[i]; } else { assert (a + c)[i] == c[i - |a|]; }
      }
    }
    if a != [] {
      assert (a + c)[0] == a[0];
      assert (a + c)[1..] == a[1..] + c;
      match BindOne(a[0], kinds[a[0]], Get(vars, a[0]), b)
      case None =>
      case Some(b') => BindAppend(a[1..], c, kinds, vars, b');
    } else {
      assert a + c == c;
    }
  }

  /** Each table changes only at names of the kind that table holds: every
      other entry, including those of InputArray and OutputArray names and
      of names not declared, is left as it was. */
  lemma {:induction false} BindFrame(names: seq<string>, kinds: map<string, Kind>, vars: map<string, string>, b: Bindings, key: string)
    requires forall i :: 0 <= i < |names| ==> names[i] in kinds
    ensures var r := Bind(names, kinds, vars, b).bindings;
      && (key !in names || kinds[key] != Primitive ==> SameEntry(r.primitives, b.primitives, key))
      && (key !in names || kinds[key] != Input ==> SameEntry(r.inputs, b.inputs, key))
      && (key !in names || kinds[key] != Output ==> SameEntry(r.outputFiles, b.outputFiles, key))
  {
    if names != [] {
      assert key in names[1..] ==> key in names;
      match BindOne(names[0], kinds[names[0]], Get(vars, names[0]), b)
      case None =>
      case Some(b') => BindFrame(names[1..], kinds, vars, b', key);
    }
  }

  /** The binding pass completes exactly when every Input and Output name
      has a value in the caller's map; Primitive and array names never stop it. */
  lemma {:induction false} BindCompletes(names: seq<string>, kinds: map<string, Kind>, vars: map<string, string>, b: Bindings)
    requires forall i :: 0 <= i < |names| ==> names[i] in kinds
    ensures Bind(names, kinds, vars, b).outcome.Completed? <==>
              forall i :: 0 <= i < |names| && IsStreamKind(kinds[names[i]]) ==> names[i] in vars
  {
    if names != [] {
      match BindOne(names[0], kinds[names[0]], Get(vars, names[0]), b)
      case None =>
      case Some(b') =>
        BindCompletes(names[1..], kinds, vars, b');
        assert forall i :: 1 <= i < |names| ==> names[i] == names[1..][i - 1];
    }
  }

  /** A pass that stops, stops at the first stream name without a value:
      every earlier stream name had one. */
  lemma {:induction false} BindStopsAtFirstMissing(names: seq<string>, kinds: map<string, Kind>, vars: map<string, string>, b: Bindings)
    requires forall i :: 0 <= i < |names| ==> names[i] in kinds
    ensures var outcome := Bind(names, kinds, vars, b).outcome;
      outcome.NullPointer? ==>
        exists k :: 0 <= k < |names| && names[k] == outcome.name
          && IsStreamKind(kinds[names[k]]) && names[k] !in vars
          && forall j :: 0 <= j < k && IsStreamKind(kinds[names[j]]) ==> names[j] in vars
  {
    if names != [] {
      match BindOne(names[0], kinds[names[0]], Get(vars, names[0]), b)
      case None =>
        assert names[0] == Bind(names, kinds, vars, b).outcome.name;
      case Some(b') =>
        BindStopsAtFirstMissing(names[1..], kinds, vars, b');
        var outcome := Bind(names, kinds, vars, b).outcome;
        if outcome.NullPointer? {
          var k :| 0 <= k < |names[1..]| && names[1..][k] == outcome.name
            && IsStreamKind(kinds[names[1..][k]]) && names[1..][k] !in vars
            && forall j :: 0 <= j < k && IsStreamKind(kinds[names[1..][j]]) ==> names[1..][j] in vars;
          assert forall j :: 1 <= j < k + 1 ==> names[j] == names[1..][j - 1];
          assert names[k + 1] == names[1..][k];
        }
    }
  }

  /** After a completed pass every declared name has the binding its kind
      calls for: a Primitive name its value from the caller's map (null when
      absent), an Input name an input provider over the file its value
      names, an Output name an output provider over that file. */
  lemma {:induction false} BindValues(names: seq<string>, kinds: map<string, Kind>, vars: map<string, string>, b: Bindings)
    requires forall i :: 0 <= i < |names| ==> names[i] in kinds
    ensures var r := Bind(names, kinds, vars, b);
      r.outcome.Completed? ==>
        forall i :: 0 <= i < |names| ==>
          && (kinds[names[i]] == Primitive ==> names[i] in r.bindings.primitives && r.bindings.primitives[names[i]] == Get(vars, names[i]))
          && (kinds[names[i]] == Input ==> names[i] in vars && names[i] in r.bindings.inputs && r.bindings.inputs[names[i]] == InputProvider(vars[names[i]]))
          && (kinds[names[i]] == Output ==> names[i] in vars && names[i] in r.bindings.outputFiles && r.bindings.outputFiles[names[i]] == vars[names[i]])
  {
    if names != [] {
      var name := names[0];
      match BindOne(name, kinds[name], Get(vars, name), b)
      case None =>
      case Some(b') =>
        BindValues(names[1..], kinds, vars, b');
        var r := Bind(names, kinds, vars, b);
        if r.outcome.Completed? {
          forall i | 0 <= i < |names|
            ensures kinds[names[i]] == Primitive ==> names[i] in r.bindings.primitives && r.bindings.primitives[names[i]] == Get(vars, names[i])
            ensures kinds[names[i]] == Input ==> names[i] in vars && names[i] in r.bindings.inputs && r.bindings.inputs[names[i]] == InputProvider(vars[names[i]])
            ensures kinds[names[i]] == Output ==> names[i] in vars && names[i] in r.bindings.outputFiles && r.bindings.outputFiles[names[i]] == vars[names[i]]
          {
            if i > 0 {
              assert names[i] == names[1..][i - 1];
            } else if name !in names[1..] {
              BindFrame(names[1..], kinds, vars, b', name);
            } else {
              var k :| 0 <= k < |names[1..]| && names[1..][k] == name;
            }
          }
        }
    }
  }
}
