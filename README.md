# External-variable glue of the TE2 integration test, in Dafny

`BasicTest.java` drives a closed-source script engine: it compiles a script,
binds the unit's external variables from a name-to-value map, runs it and
prints the Primitive variables afterwards. The engine itself is a foreign
library. This project models the logic the test itself contains:

- the path resolver handed to the compiler (`getPath`, both overloads):
  an ordered chain of prefix rules (`PathResolver`);
- the stream providers bound to Input and Output variables, with their
  property bags and their file opening (`Providers`);
- the execution unit as the glue sees it: declared names, their kinds, and
  the binding table its setters fill (`Execution`);
- the binding pass `setExtarnalVaribles`, a loop proved against the
  recursive specification `Bind` (`Binding`);
- the result harvester `printExtarnalVaribles`, a loop proved against the
  recursive specification `Report` (`Harvester`);
- the test logger with its threshold filter and its stdout/stderr
  routing (`Logging`).

Java `null` is `Option.None`. In the path resolver, a thrown
`RuntimeException` is `Result.Failure(message)`; the binding pass's
`NullPointerException` is `BindOutcome.NullPointer(name)`. A `println` is a `Println(stream, text)` value
that the model returns instead of printing. Three environment inputs are
parameters:

- the `user.dir` system property, which may be null;
- `java.net.URI` parsing followed by `getPath()`, as a function returning
  `Malformed` or the path component, which may be null;
- the file system, as the sets of paths that can be opened for reading and
  for writing.

Two behaviours of the code are easy to mistake:

- A declared variable with no value in the caller's map is tolerated as
  null only when it is Primitive. For an Input or Output variable the code
  evaluates `new File(null)`, which throws `NullPointerException` and ends
  the pass. Names bound before it keep their bindings. The model's `Bind`
  says so (`NullPointer(name)`).
- The `shared:` rejection is not a rule of its own. The current-directory
  rule comes first, so with a current directory `shared:x` is joined to it,
  not rejected (`JoinsSharedToCurrentDirectory`).

## Model

| member | source | states |
|---|---|---|
| Wrappers.Get | src/test/java/com/pacer/demo/junittests/BasicTest.java:256 | `variables.get(name)` is the stored value when the key is present and null otherwise |
| Wrappers.GetNullable | src/test/java/com/pacer/demo/junittests/BasicTest.java:351 | `HashMap.get` on a map that may store nulls: every non-null result is the stored entry, and a stored entry is returned as it is |
| JavaLang.Show | src/test/java/com/pacer/demo/junittests/BasicTest.java:199 | string concatenation shows a non-null string as itself and null as "null" |
| PathResolver.GetPath | src/test/java/com/pacer/demo/junittests/BasicTest.java:128-157 | a current directory is joined to every path without `/`, `file:`, `http:` or `https:` (`shared:` included), with no separator; `shared:` fails exactly when no current directory is given; http(s) paths come back unchanged; `file:` gives the URI's path or fails when malformed; a rooted path is prefixed with `user.dir` even when a current directory is given; the only failures are those two cases; only a `file:` URI can give null |
| PathResolver.GetPathNoDir | src/test/java/com/pacer/demo/junittests/BasicTest.java:123-125 | equals the two-argument form with a null current directory; so `shared:` always fails, other plain paths are unchanged, http(s) unchanged, a well-formed `file:` URI gives its path, rooted paths are prefixed with `user.dir`; it fails exactly for `shared:` and malformed `file:` URIs |
| PathResolver.JoinsCurrentDirectory | src/test/java/com/pacer/demo/junittests/BasicTest.java:130-133 | `foo.te2` under `/base/` resolves to `/base/foo.te2` |
| PathResolver.JoinsSharedToCurrentDirectory | src/test/java/com/pacer/demo/junittests/BasicTest.java:130-137 | `shared:x` under `/base/` is joined, not rejected, because the joining rule is tested first |
| PathResolver.RejectsShared | src/test/java/com/pacer/demo/junittests/BasicTest.java:135-137 | `shared:x` with no current directory fails with "Path \"shared:\" is not supported." |
| PathResolver.KeepsWebUrl | src/test/java/com/pacer/demo/junittests/BasicTest.java:139-141 | `http://x/y` is returned unchanged |
| PathResolver.TakesFileUriPath | src/test/java/com/pacer/demo/junittests/BasicTest.java:143-149 | `file:///tmp/a` resolves to `/tmp/a` under a parser that returns the path after `file://` |
| PathResolver.RootsAtWorkingDirectory | src/test/java/com/pacer/demo/junittests/BasicTest.java:151-154 | `/abs/path` resolves to the working directory followed by `/abs/path` |
| Providers.InputProvider.OpenInput | src/test/java/com/pacer/demo/junittests/BasicTest.java:302-310 | a read stream on the provider's file exactly when the file can be opened, null otherwise |
| Providers.InputProvider.GetProperty | src/test/java/com/pacer/demo/junittests/BasicTest.java:312-315 | every property of an input provider reads as null |
| Providers.InputProvider.SetProperty | src/test/java/com/pacer/demo/junittests/BasicTest.java:317-319 | setting a property leaves the provider as it was, so every property still reads as null |
| Providers.OutputProvider.constructor | src/test/java/com/pacer/demo/junittests/BasicTest.java:330-333 | a new output provider holds its file and an empty property map |
| Providers.OutputProvider.GetProperty | src/test/java/com/pacer/demo/junittests/BasicTest.java:349-352 | a stored key reads as the value stored under it (which may be null), and a key never stored reads as null |
| Providers.OutputProvider.SetProperty | src/test/java/com/pacer/demo/junittests/BasicTest.java:354-357 | after `setProperty(k, v)`, `getProperty(k)` is `v` and every other key reads as before |
| Providers.OutputProvider.OpenInput | src/test/java/com/pacer/demo/junittests/BasicTest.java:339-347 | a read stream on the provider's file exactly when the file can be opened for reading, null otherwise |
| Providers.OutputProvider.OpenOutput | src/test/java/com/pacer/demo/junittests/BasicTest.java:359-367 | a write stream on the provider's file exactly when the file can be opened for writing, null otherwise |
| Execution.ExecutionUnit.GetVariable | src/test/java/com/pacer/demo/junittests/BasicTest.java:199 | a name that was given a value reads back that value, and a name never given one reads as null |
| Execution.ExecutionUnit.SetVariable | src/test/java/com/pacer/demo/junittests/BasicTest.java:261 | `setVariable` records the value under the name and changes no other binding |
| Execution.ExecutionUnit.SetInput | src/test/java/com/pacer/demo/junittests/BasicTest.java:264 | `setInput` records the provider under the name and changes no other binding |
| Execution.ExecutionUnit.SetOutput | src/test/java/com/pacer/demo/junittests/BasicTest.java:273 | `setOutput` records the provider under the name and changes no other binding |
| Binding.SetExternalVariables | src/test/java/com/pacer/demo/junittests/BasicTest.java:253-286 | the loop leaves the unit's bindings and its outcome equal to `Bind` of the declared names from the old bindings; every output provider is either the old one or a new one with an empty bag, and each new one belongs to a single name, so no two Output names share a property bag; a name not bound as Output keeps its old provider object, bag included; after a completed pass every Output name holds a provider made by the pass; on a pass that throws, the Output names before the failing name hold providers made by the pass and the names from the failing one on keep their old providers |
| Binding.BindValues | src/test/java/com/pacer/demo/junittests/BasicTest.java:256-273 | after a completed pass each Primitive name holds `variables.get(name)` (null if absent), each Input name an input provider on the file its value names, each Output name an output provider on that file |
| Binding.BindFrame | src/test/java/com/pacer/demo/junittests/BasicTest.java:260-282 | each table changes only at the names of its own kind; InputArray, OutputArray and undeclared names keep every entry |
| Binding.BindCompletes | src/test/java/com/pacer/demo/junittests/BasicTest.java:263-273 | the pass completes exactly when every Input and Output name has a value; Primitive and array names never raise |
| Binding.BindStopsAtFirstMissing | src/test/java/com/pacer/demo/junittests/BasicTest.java:255-273 | a pass that raises does so at a stream name with no value, and every earlier stream name had one |
| Binding.BindAppend | src/test/java/com/pacer/demo/junittests/BasicTest.java:255-284 | binding two lists in a row is binding the first, then the second only if the first completed |
| Harvester.PrintExternalVariables | src/test/java/com/pacer/demo/junittests/BasicTest.java:191-209 | the loop prints the header followed by `name=value\n` for the Primitive names in enumeration order, on stdout, and prints nothing exactly when no name is Primitive |
| Harvester.PrimitiveNames | src/test/java/com/pacer/demo/junittests/BasicTest.java:196-198 | the names the loop reports are exactly the declared Primitive ones |
| Harvester.ReportIsPrimitiveLines | src/test/java/com/pacer/demo/junittests/BasicTest.java:196-201 | the report is the lines of the Primitive names and of nothing else |
| Harvester.ReportAppend | src/test/java/com/pacer/demo/junittests/BasicTest.java:196-201 | the report of a concatenation of name lists is the concatenation of their reports |
| Harvester.ReportEmptyIff | src/test/java/com/pacer/demo/junittests/BasicTest.java:203-208 | the report is empty exactly when no declared name is Primitive |
| Harvester.ReportReadsPrimitivesOnly | src/test/java/com/pacer/demo/junittests/BasicTest.java:197-199 | the report depends only on the values of Primitive names |
| Harvester.BoundValuesAreReported | src/test/java/com/pacer/demo/junittests/BasicTest.java:260-261 | harvesting just after a completed pass reports the caller's values, with null for a missing one |
| Harvester.TwoPrimitivesExample | src/test/java/com/pacer/demo/junittests/BasicTest.java:196-207 | Primitive `a`=1 and `b`=2 print as the header, `a=1`, `b=2` |
| Logging.Logger.Log | src/test/java/com/pacer/demo/junittests/BasicTest.java:221-241 | a line is printed exactly when the level is at or below the threshold; its text is "log " + level name + ": " + message (null shown as "null"); it goes to stderr exactly for ERROR |
| Logging.Logger.IsLog | src/test/java/com/pacer/demo/junittests/BasicTest.java:238-241 | a level is logged exactly when it is at or below the configured threshold under IsLessOrEqual; the configured level itself is always logged |
| Logging.LogMonotone | src/test/java/com/pacer/demo/junittests/BasicTest.java:238-241 | a higher threshold prints every line a lower one prints, unchanged |
| Logging.LogMessageRecoverable | src/test/java/com/pacer/demo/junittests/BasicTest.java:224-228 | the message can be read back from the printed line after the prefix "log <level>: " |

## Left out

- The compiler (`Compiler.compile`), `createExecutable`, `execute`, `getIssues`, `Functions.addBuiltIn`, `ServiceProvider` and the test's JUnit lifecycle (`init`, `stotexec`, `test1`): these are calls into the closed-source engine and test framework, and their behaviour is not in this code.
- `printComletedMessage`: wall-clock timing and `DecimalFormat` output of a `Double` (floating point and locale formatting).
- Console output, log4j configuration and `printStackTrace` on a failed open: this is I/O. The model returns each printed line as a value.
- File contents: a `FileStream` only names its file. Reading, writing and truncating bytes happen outside this code.
- `close()` on both providers is an empty method, so nothing is modelled for it.
- `new File(path)` normalises its path. The providers keep the string as given.
- `java.net.URI` parsing and `System.getProperty("user.dir")` are parameters. The model does not say what they compute.
- Logging.IsLessOrEqual: `LogLevelEnum.isLessOrEqual` is not part of this code. It is modelled as an order on an integer rank; which constants exist and how they are ranked is not modelled.
- Logging.Logger.Log: the level is taken to be non-null. A null `LogLevelEnum` would raise `NullPointerException` in `isLessOrEqual`.
- Providers.OutputProvider.SetProperty: property keys are non-null strings. A `HashMap` also accepts a null key, which the model does not represent.
- PathResolver.GetPath: `strPath` is taken to be non-null. A null path would raise `NullPointerException` in `startsWith`.
- Binding.Bind: the caller's map is taken to hold no null values, and every declared name is taken to have a kind (the unit reports both).
- Execution.ExecutionUnit: the engine's own handling of `setVariable`, `setInput` and `setOutput` is not part of this code. They are modelled as updates of the binding table, and `getVariable` reads that table back. Changes the engine makes during execution are whatever the table holds when the harvester runs.
- Each Input variable gets a new anonymous provider object. An input provider has no state, so it is modelled as a value, and object identity is not captured.
