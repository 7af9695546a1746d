/** The execution unit as far as the glue code sees it: the declared
    external variables with their kinds, and the table of bindings that
    `setVariable`, `setInput` and `setOutput` fill. The compiler and the
    engine behind the unit are not part of this model. */
module Execution {
  import opened Wrappers
  import opened Providers

  /** `ExternalVariableTypeEnum`. */
  datatype Kind = Primitive | Input | InputArray | Output | OutputArray

  /** The kinds whose binding opens a file: their value becomes a `java.io.File`. */
  predicate IsStreamKind(k: Kind)
  {
    k == Input || k == Output
  }

  /** Every declared name has a kind; names are unique. */
  predicate Declares(names: seq<string>, kinds: map<string, Kind>)
  {
    && (forall i :: 0 <= i < |names| ==> names[i] in kinds)
    && (forall i, j :: 0 <= i < j < |names| ==> names[i] != names[j])
  }

  /** The bindings of a unit as values: output providers are seen through
      the file each one writes. */
  datatype Bindings = Bindings(
    primitives: map<string, Option<string>>,
    inputs: map<string, InputProvider>,
    outputFiles: map<string, string>)

  class ExecutionUnit {
    /** `getVariableNames()`, in enumeration order. */
    const names: seq<string>
    /** `getVariableType(name)` for each declared name. */
    const kinds: map<string, Kind>
    /** Values given by `setVariable`; read back by `getVariable`. */
    var primitives: map<string, Option<string>>
    /** Providers given by `setInput`. */
    var inputs: map<string, InputProvider>
    /** Providers given by `setOutput`. */
    var outputs: map<string, OutputProvider>

    predicate Valid()
    {
      Declares(names, kinds)
    }

    constructor (names: seq<string>, kinds: map<string, Kind>)
      requires Declares(names, kinds)
      ensures Valid()
      ensures this.names == names && this.kinds == kinds
      ensures primitives == map[] && inputs == map[] && outputs == map[]
    {
      this.names := names;
      this.kinds := kinds;
      primitives, inputs, outputs := map[], map[], map[];
    }

    /** The binding table as a value. */
    function View(): Bindings
      reads this
    {
      Bindings(primitives, inputs, map n | n in outputs :: outputs[n].file)
    }

    /** `getVariable(name)`: the value last set for `name`, null if none was. */
    function GetVariable(name: string): (r: Option<string>)
      reads this
      ensures r.Some? ==> name in primitives
      ensures name in primitives ==> r == primitives[name]
    {
      GetNullable(primitives, name)
    }

    /** `setVariable(name, value)`. */
    method SetVariable(name: string, value: Option<string>)
      modifies this
      ensures primitives == old(primitives)[name := value]
      ensures inputs == old(inputs) && outputs == old(outputs)
      ensures View() == old(View()).(primitives := old(View()).primitives[name := value])
    {
      primitives := primitives[name := value];
    }

    /** `setInput(name, provider)`. */
    method SetInput(name: string, provider: InputProvider)
      modifies this
      ensures inputs == old(inputs)[name := provider]
      ensures primitives == old(primitives) && outputs == old(outputs)
      ensures View() == old(View()).(inputs := old(View()).inputs[name := provider])
    {
      inputs := inputs[name := provider];
    }

    /** `setOutput(name, provider)`. */
    method SetOutput(name: string, provider: OutputProvider)
      modifies this
      ensures outputs == old(outputs)[name := provider]
      ensures primitives == old(primitives) && inputs == old(inputs)
      ensures View() == old(View()).(outputFiles := old(View()).outputFiles[name := provider.file])
    {
      outputs := outputs[name := provider];
      assert View().outputFiles == old(View()).outputFiles[name := provider.file];
    }
  }
}
