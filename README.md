# CajuScript core in Dafny

This project models four pieces of CajuScript, an embeddable scripting
language for the JVM:

- the conditional element (`If.execute`);
- the assignment element (`Variable.execute`);
- the JSR-223 engine adapter (`CajuScriptEngine`). This covers function
  invocation by a generated call command, `get`, and copying bindings into
  a script run and back out of it;
- the array helper (`Array`).

The modules are:

- `runtime.dfy` (module `Runtime`) holds what the elements share:
  - host objects (`Obj`) and script Values with their flag;
  - the exceptions (`Failure`) and `Result`;
  - the interpreter `State`: running line, script-wide variables and
    context variables;
  - the `CajuScript` and `Context` classes, each holding its variable
    store as a map.
  Elements whose code is not modelled run through an oracle
  `Exec = (Element, State) -> Step`. The method `Runtime.Execute` applies
  the oracle's resulting state to the two objects.
- `if_node.dfy` (module `IfNode`) holds:
  - the truthiness rule `Truth`;
  - the children loop, as a method (`RunElements`) proved against a
    recursive function (`RunChildren`);
  - the whole of `If.execute`, as a method (`Execute`) proved against
    `ExecuteSpec`;
  - lemmas on which children run and what is returned.
- `variable_node.dfy` (module `VariableNode`) holds the routing of the
  write (`Route`) and `Variable.execute` as a method proved against
  `ExecuteSpec`.
- `engine.dfy` (module `Engine`) holds:
  - the generated names (`ReturnName`, `ParamName`, `Underscored`);
  - the call command (`ParamList`, `CallCommand`) and argument binding
    (`BindParams`);
  - the bindings round trip (`Load`, `Recovered`, `RunInContext`);
  - `get` (`Lookup`);
  - the `CajuScriptEngine` class, whose methods are proved against those
    functions.
- `caju_array.dfy` (module `CajuArray`) holds `create`, `size`, `get` and
  `set` over `array<Obj>`, and the documented store-two-and-read-back
  usage.

Collaborators whose source is not part of this model are parameters:

- `Exec` for the execution of child, condition and value elements;
- `canReturn` for `canElementReturn`;
- `getBoolean` for `Boolean.getBoolean`, which looks up a JVM system
  property;
- `Syntax.rootMarker` for `syntax.matcherPosition(key,
  syntax.getRootContext())`;
- `Evaluator` for `CajuScript.eval`;
- the UUID text, in place of `UUID.randomUUID()`.

`CajuScript.CAJU_VARS` is an unspecified constant (`Engine.CajuVars`).
`CajuScript.toValue` is modelled as wrapping an object into an unflagged
Value (`Runtime.Wrap`). `CajuScript.get` is modelled as failing when the
name holds no Value (`Runtime.Fetch`).

Behaviours of the code worth knowing:

- A condition that is neither Boolean nor Integer is decided by
  `Boolean.getBoolean` of its text, which is a system-property lookup and
  not a parse of the text.
- A condition object that is null raises a NullPointerException. It does
  not default to false.
- `If.execute` returns null on a false condition. The else-if and else
  chain is not in this element's code.

A consequence worth knowing (`Engine.GlobalScopeWinsOnRoundTrip`):

- Both scopes are loaded into the script in `getScopes()` order, engine
  first, then global.
- So a name bound in both scopes reaches the script with the global
  value.
- After the run, when the script leaves that name unchanged, the global
  value is recovered into the engine scope.

## Model

| member | source | states |
|---|---|---|
| IfNode.Execute | trunk/src/org/cajuscript/parser/If.java:63-91 | The running line is set, then the condition is executed; the result and the final interpreter state are exactly those of ExecuteSpec |
| IfNode.ExecuteSpec | trunk/src/org/cajuscript/parser/If.java:63-91 | A null result (Ok(None)) happens only when no child was executed |
| IfNode.RunElements | trunk/src/org/cajuscript/parser/If.java:79-84 | The children loop stops at the first child that throws or returns a non-null Value while able to return; its result and state are those of RunChildren |
| IfNode.RunChildren | trunk/src/org/cajuscript/parser/If.java:79-84 | When no child returns early, every child was executed |
| IfNode.FirstHalt | trunk/src/org/cajuscript/parser/If.java:79-84 | When the loop stops at child k, the children run are exactly the first k+1. Children 0..k-1 all continued. The result and final state are child k's own, so later children have no effect |
| IfNode.FallThrough | trunk/src/org/cajuscript/parser/If.java:79-85 | When the loop runs to the end, each child in list order ran from the state its predecessors left and returned null or cannot return |
| IfNode.TrueCondition | trunk/src/org/cajuscript/parser/If.java:78-87 | On a true condition, one of two things happens. All children run and continue, and the result is Boolean true flagged "if". Or a prefix up to the first returning (or throwing) child runs, and that child's result is returned |
| IfNode.FalseCondition | trunk/src/org/cajuscript/parser/If.java:88-90 | On a false condition, no child runs, the result is null and the state is the one the condition left |
| IfNode.NullCondition | trunk/src/org/cajuscript/parser/If.java:65-77 | A null condition Value, or a null condition object, ends in a NullPointerException before any child runs |
| IfNode.Truth | trunk/src/org/cajuscript/parser/If.java:66-77 | A condition object fails (NullPointerException) exactly when it is null; it is true exactly when it is a true Boolean, a positive Integer, or another object whose text getBoolean accepts |
| IfNode.BooleanCondition | trunk/src/org/cajuscript/parser/If.java:66-68 | A Boolean condition is taken as it is: false gives null with no child run, true runs the children |
| IfNode.IntegerCondition | trunk/src/org/cajuscript/parser/If.java:69-74 | An Integer condition runs the children exactly when it is greater than 0; zero and negatives give null with no child run |
| IfNode.OtherConditionUsesGetBoolean | trunk/src/org/cajuscript/parser/If.java:75-77 | Any other object is decided only by Boolean.getBoolean of its text |
| IfNode.PriorLineIrrelevant | trunk/src/org/cajuscript/parser/If.java:64-65 | The running line before the call has no influence, because it is overwritten before the condition runs |
| VariableNode.Route | trunk/src/org/cajuscript/parser/Variable.java:89-95 | The empty key, and only it, writes nowhere. A root marker at offset 0 with its end inside the key routes the write script-wide under the key minus its marker. A marker elsewhere sends the write to the context under the whole key. An end offset outside the key throws, and nothing else does |
| VariableNode.ExecuteSpec | trunk/src/org/cajuscript/parser/Variable.java:86-97 | A successful assignment returns the value element's own result, and the running line is the one the value's execution left |
| VariableNode.Execute | trunk/src/org/cajuscript/parser/Variable.java:86-98 | The running line is set, the value is executed once and written where the key routes it, and the value is returned. Result and state equal ExecuteSpec |
| VariableNode.ValueSeesOwnLine | trunk/src/org/cajuscript/parser/Variable.java:87-88 | The value is evaluated with the assignment's own line as running line; the prior line has no influence |
| VariableNode.ResultIndependentOfKey | trunk/src/org/cajuscript/parser/Variable.java:88-97 | Whatever the key, a successful assignment returns the same Value |
| VariableNode.EmptyKeyWritesNothing | trunk/src/org/cajuscript/parser/Variable.java:89 | An empty key writes to neither store |
| VariableNode.ExactlyOneStoreWritten | trunk/src/org/cajuscript/parser/Variable.java:90-95 | With the marker at 0, only the script-wide store changes, at the stripped key. Otherwise only the context changes, at the full key |
| Engine.Underscored | trunk/src/org/cajuscript/CajuScriptEngine.java:411 | The generated uuid has the raw UUID's length, contains no '-', and has '_' exactly where the raw text had '-' |
| Engine.DecimalTextInjective | trunk/src/org/cajuscript/CajuScriptEngine.java:417 | Different argument indices have different decimal texts |
| Engine.ParamNamesDistinct | trunk/src/org/cajuscript/CajuScriptEngine.java:417 | The argument variables of one call (ParamName: prefix, decimal index, '_', uuid) are pairwise different |
| Engine.ReturnNameIsNoParamName | trunk/src/org/cajuscript/CajuScriptEngine.java:412-417 | The return variable (ReturnName) never coincides with an argument variable (ParamName) of the same call |
| Engine.ParamList | trunk/src/org/cajuscript/CajuScriptEngine.java:415-418 | The argument list built by the loop's "comma unless first" rule is the parameter names joined by commas |
| Engine.CallCommand | trunk/src/org/cajuscript/CajuScriptEngine.java:410-426 | The command is return-var + " = " + name + "(" + comma-joined parameter names + ");", and with no arguments it is name + "();" |
| Engine.ParamBound | trunk/src/org/cajuscript/CajuScriptEngine.java:416-420 | After binding (BindParams), argument i is held under parameter name i |
| Engine.OthersUnbound | trunk/src/org/cajuscript/CajuScriptEngine.java:416-420 | Binding the arguments (BindParams) changes no variable other than the generated parameter names; with ParamBound this fixes the whole result |
| Engine.CallSeesArguments | trunk/src/org/cajuscript/CajuScriptEngine.java:416-427 | The command is evaluated with argument i under parameter name i, unless a binding reuses that name |
| Engine.InvokeReturnsReturnVariable | trunk/src/org/cajuscript/CajuScriptEngine.java:427-429 | A successful invocation returns the object held by the return variable after the run |
| Engine.Load | trunk/src/org/cajuscript/CajuScriptEngine.java:468-480 | Loading sets every binding name to its wrapped object and keeps every other variable |
| Engine.Recovered | trunk/src/org/cajuscript/CajuScriptEngine.java:487-499 | Recovery keeps the binding's key set and overwrites each key with the script's value |
| Engine.LoadThenRecover | trunk/src/org/cajuscript/CajuScriptEngine.java:468-499 | Loading a binding and recovering it straight away gives the binding back unchanged |
| Engine.RecoverTwice | trunk/src/org/cajuscript/CajuScriptEngine.java:481-486 | Recovering the same bindings twice, as when both scopes are one object, equals recovering once |
| Engine.GlobalScopeWinsOnRoundTrip | trunk/src/org/cajuscript/CajuScriptEngine.java:462-486 | Engine scope loads before global scope, so when the script leaves the variables unchanged, a name in both comes back into the engine scope with the global value |
| Engine.Unwrapped | trunk/src/org/cajuscript/CajuScriptEngine.java:500-506 | runScript returns the run's object, and fails with a ScriptException exactly when the run throws or yields a null Value |
| Engine.RunInContext | trunk/src/org/cajuscript/CajuScriptEngine.java:462-524 | The script runs on the variables with both scopes loaded. It succeeds exactly when the run yields a Value and every name of both scopes can be read back; then the result is the run's object and each scope is overwritten with the script's values (Recovered). A failed run leaves both scopes as they were; a failed recovery is marked partial. Any failure is a ScriptException |
| Engine.Lookup | trunk/src/org/cajuscript/CajuScriptEngine.java:325-336 | get throws IllegalArgumentException exactly for the empty name (the scope lookup is outside the try); otherwise it gives the non-null engine attribute, else the script variable, else null when reading it throws |
| Engine.GetAfterPut | trunk/src/org/cajuscript/CajuScriptEngine.java:310-336 | get after a successful put of a non-null object returns that object |
| Engine.GetAfterRunAgreesWithScript | trunk/src/org/cajuscript/CajuScriptEngine.java:487-499 | After a successful run, get of any non-empty engine-scope name equals the script's own variable |
| Engine.CajuScriptEngine.Put | trunk/src/org/cajuscript/CajuScriptEngine.java:310-312 | put throws IllegalArgumentException exactly for the empty name and then changes nothing; otherwise it overwrites exactly one engine-scope entry |
| Engine.CajuScriptEngine.Get | trunk/src/org/cajuscript/CajuScriptEngine.java:325-336 | get on the engine's current scope and variables; the rules are Lookup's contract |
| Engine.CajuScriptEngine.LoadBindings | trunk/src/org/cajuscript/CajuScriptEngine.java:468-480 | The key loop leaves the script variables equal to Load of the binding; a null binding changes nothing |
| Engine.CajuScriptEngine.RecoveryBindings | trunk/src/org/cajuscript/CajuScriptEngine.java:487-499 | The key loop succeeds exactly when every name can be read back, keeps the key set, and on success leaves the binding equal to Recovered. Even after a failure every entry holds either its old value or the script's value |
| Engine.CajuScriptEngine.RunScript | trunk/src/org/cajuscript/CajuScriptEngine.java:500-506 | The script runs on the current variables, and the result is the unwrapped Value |
| Engine.CajuScriptEngine.RunScriptInContext | trunk/src/org/cajuscript/CajuScriptEngine.java:519-524 | Both scopes are loaded, the script runs, and both scopes are recovered, as RunInContext says; unless recovery threw part-way, the scopes' contents are RunInContext's, so a failed run leaves them unchanged. Key sets are always preserved, and aliased scopes are handled |
| Engine.CajuScriptEngine.RunScriptWithBindings | trunk/src/org/cajuscript/CajuScriptEngine.java:525-530 | Load, run, recover for one binding. It succeeds exactly when the run yields a Value and every key can be read back; then the binding equals Recovered. A failed run leaves the binding unchanged, and after a recovery that threw part-way every entry holds either its old value or the script's value |
| Engine.CajuScriptEngine.Eval | trunk/src/org/cajuscript/CajuScriptEngine.java:243-245 | eval(script) runs in the engine's own context: result, variables and (unless recovery threw part-way) both scopes are RunInContext's, and key sets are kept |
| Engine.InvokeSpec | trunk/src/org/cajuscript/CajuScriptEngine.java:409-433 | Invocation binds the arguments, runs the call command in the engine context, then reads the return variable |
| Engine.CajuScriptEngine.ComposeCall | trunk/src/org/cajuscript/CajuScriptEngine.java:410-426 | The command built is exactly CallCommand for the argument count, every argument is bound as BindParams says, and the running line is kept |
| Engine.CajuScriptEngine.BindArguments | trunk/src/org/cajuscript/CajuScriptEngine.java:415-425 | The loop appends exactly ParamList, binds every argument as BindParams says, and keeps the running line |
| Engine.CajuScriptEngine.InvokeFunction | trunk/src/org/cajuscript/CajuScriptEngine.java:409-433 | The result and new state of invokeFunction are InvokeSpec's, for the uuid with '-' replaced: a failed run leaves the scopes unchanged, and a failing return-variable read leaves them recovered. Key sets are kept |
| Engine.CajuScriptEngine.InvokeMethod | trunk/src/org/cajuscript/CajuScriptEngine.java:390-400 | thiz is bound under CAJU_VARS + "_" + uuid, then function objectName + "." + name is invoked with the same arguments; result, variables and scopes as InvokeFunction states them |
| CajuArray.Create | trunk/src/org/cajuscript/Array.java:93-95 | create(size) returns a fresh array of length size, every position null |
| CajuArray.Size | trunk/src/org/cajuscript/Array.java:104-106 | size returns the array's length |
| CajuArray.Get | trunk/src/org/cajuscript/Array.java:117-119 | get returns the element now at position i |
| CajuArray.Set | trunk/src/org/cajuscript/Array.java:131-133 | After set, position i holds v and every other position and the length are unchanged |
| CajuArray.StoreTwoAndReadBack | trunk/src/org/cajuscript/Array.java:50-56 | After create(2) and setting positions 0 and 1, reading x = 0 .. size-1 yields the two stored objects in order |

## Left out

- `InterfaceImplementor` is not modelled. It is a reflective dynamic proxy whose only logic forwards calls to invokeFunction or invokeMethod.
- `readAll` and the Reader overloads of eval are not modelled: they only do character I/O.
- The JSR-223 accessors `getBindings`, `setBindings`, `createBindings`, `getContext`, `setContext`, `getFactory` and `getInterface` are not modelled. They only delegate to javax.script.
- UUID generation is not modelled: it is random. The UUID text is an input.
- The internals of CajuScript, Context, Syntax and the child elements are oracles or maps. This covers `eval`, `set`, `get`, `setVar`, `toValue`, `matcherPosition` and `canElementReturn`, whose code is not part of this model.
- `If.finalize` is not modelled: it is a garbage-collection hook.
- Operable.java is not modelled. It is an interface without behaviour, and the arithmetic that dispatches to it is not part of this model.
- Every exception that the engine wraps into a ScriptException is one generic failure (`ScriptError`). `caju.set` is taken never to throw.
- `loadBindings`/`recoveryBindings` over a ScriptContext assume the SimpleScriptContext scope list, ENGINE_SCOPE then GLOBAL_SCOPE. Contexts with other scope lists are not covered.
- Engine.RunInContext: when recovery throws part-way, which bindings were already overwritten depends on the key-set iteration order. The run is then marked partial, and the contract states the failure and the script variables, not the binding values.
- Engine.CajuScriptEngine.RunScriptInContext: same as RunInContext; after a recovery that threw part-way only key sets and variables are stated.
- Engine.CajuScriptEngine.Eval, Engine.CajuScriptEngine.InvokeFunction, Engine.CajuScriptEngine.InvokeMethod: same as RunScriptInContext, through which they run; after a recovery that threw part-way the scopes' values are not stated, only their key sets.
- Engine.Bindings: stands for any Bindings object handed to the engine. The empty-name check of SimpleBindings is modelled only where the engine's own `put` and `get` reach it; recovery writes back names the bindings already hold.
- CajuArray.Create: a negative size (NegativeArraySizeException) is a precondition instead of a modelled exception.
- CajuArray.Get: an out-of-range index (ArrayIndexOutOfBoundsException) is a precondition instead of a modelled exception.
- CajuArray.Set: an out-of-range index is a precondition, and so is a non-array argument. Array store checks cannot fail for an Object array.
- CajuArray.StoreTwoAndReadBack: `System.out.println` of each element is modelled by collecting the elements into the returned sequence.
