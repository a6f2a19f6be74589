/**
 * The host-facing script engine (`CajuScriptEngine`): engine-scope
 * attributes, the copy of bindings into the script before a run and back
 * out of it afterwards, and the invocation of script functions by
 * composing a call command and binding each argument under a generated
 * name.
 *
 * Running a script text (`CajuScript.eval`) is an oracle from the text and
 * the script-wide variables to a result and the new variables.
 */
module Engine {
  import opened Runtime

  /** `CajuScript.CAJU_VARS`; its value is defined outside this model. */
  const CajuVars: string

  /** Prefix of the variable that catches a function's return value. */
  const FuncReturnPrefix: string := CajuVars + "_func_return_"

  /** Prefix of the variables that carry a function's arguments. */
  const FuncParamPrefix: string := CajuVars + "_func_param_"

  // ---------------------------------------------------------------------
  // Generated names and the call command
  // ---------------------------------------------------------------------

  /** A UUID's text with every '-' replaced by '_' (`replaceAll("\\-", "_")`). */
  function Underscored(raw: string): (u: string)
    ensures |u| == |raw| && '-' !in u
    ensures forall i :: 0 <= i < |raw| && raw[i] != '-' ==> u[i] == raw[i]
    ensures forall i :: 0 <= i < |raw| && raw[i] == '-' ==> u[i] == '_'
  {
    seq(|raw|, i requires 0 <= i < |raw| => if raw[i] == '-' then '_' else raw[i])
  }

  /** The decimal digit for d. */
  function Digit(d: nat): (c: char)
    requires d < 10
    ensures '0' <= c <= '9'
  {
    ('0' as int + d) as char
  }

  /** Java's decimal text of a non-negative int (`"" + i`). */
  function DecimalText(n: nat): (s: string)
    ensures |s| > 0
    ensures forall i :: 0 <= i < |s| ==> '0' <= s[i] <= '9'
    ensures (n < 10) == (|s| == 1)
    decreases n
  {
    if n < 10 then [Digit(n)] else DecimalText(n / 10) + [Digit(n % 10)]
  }

  /** Different numbers have different decimal texts. */
  lemma {:induction false} DecimalTextInjective(m: nat, n: nat)
    ensures DecimalText(m) == DecimalText(n) ==> m == n
    decreases m
  {
    if m >= 10 && n >= 10 {
      var a, b := DecimalText(m), DecimalText(n);
      assert a[..|a| - 1] == DecimalText(m / 10) && b[..|b| - 1] == DecimalText(n / 10);
      assert a[|a| - 1] == Digit(m % 10) && b[|b| - 1] == Digit(n % 10);
      DecimalTextInjective(m / 10, n / 10);
    }
  }

  /** The variable that catches the return value of a call made with this uuid. */
  function ReturnName(uuid: string): string
  {
    FuncReturnPrefix + uuid
  }

  /**
   * The variable that carries argument i of a call made with this uuid:
   * the parameter prefix, the index in decimal, '_', and the uuid.
   */
  function ParamName(i: nat, uuid: string): (n: string)
  {
    FuncParamPrefix + DecimalText(i) + "_" + uuid
  }

  /** The arguments of one call get pairwise different names. */
  lemma ParamNamesDistinct(i: nat, j: nat, uuid: string)
    ensures ParamName(i, uuid) == ParamName(j, uuid) ==> i == j
  {
    var a, b := DecimalText(i), DecimalText(j);
    var p := |FuncParamPrefix|;
    var x, y := ParamName(i, uuid), ParamName(j, uuid);
    if |a| < |b| {
      assert x[p + |a|] == '_' && y[p + |a|] == b[|a|] != '_';
    } else if |b| < |a| {
      assert y[p + |b|] == '_' && x[p + |b|] == a[|b|] != '_';
    } else {
      assert x[p..p + |a|] == a && y[p..p + |b|] == b;
      DecimalTextInjective(i, j);
    }
  }

  /** The return variable of a call is none of its argument variables. */
  lemma ReturnNameIsNoParamName(i: nat, uuid: string)
    ensures ReturnName(uuid) != ParamName(i, uuid)
  {
    var k := |CajuVars| + 6;
    assert ReturnName(uuid)[k] == 'r' && ParamName(i, uuid)[k] == 'p';
  }

  /**
   * The argument list of a call with n arguments, as the command loop
   * builds it; it is the argument names separated by commas.
   */
  function ParamList(n: nat, uuid: string): (l: string)
    ensures l == Join(ParamNames(n, uuid))
  {
    if n == 0 then ""
    else
      var l := ParamList(n - 1, uuid) + (if n - 1 > 0 then "," else "") + ParamName(n - 1, uuid);
      assert ParamNames(n, uuid) == ParamNames(n - 1, uuid) + [ParamName(n - 1, uuid)];
      if n > 1 then JoinSnoc(ParamNames(n - 1, uuid), ParamName(n - 1, uuid)); l else l
  }

  /** The generated argument names of a call with n arguments, in order. */
  function ParamNames(n: nat, uuid: string): (names: seq<string>)
    ensures |names| == n && forall i :: 0 <= i < n ==> names[i] == ParamName(i, uuid)
  {
    seq(n, i requires 0 <= i < n => ParamName(i, uuid))
  }

  /** Strings separated by commas: none before the first, one between each two. */
  function Join(parts: seq<string>): string
  {
    if |parts| == 0 then ""
    else if |parts| == 1 then parts[0]
    else parts[0] + "," + Join(parts[1..])
  }

  lemma {:induction false} JoinSnoc(parts: seq<string>, last: string)
    requires parts != []
    ensures Join(parts + [last]) == Join(parts) + "," + last
    decreases |parts|
  {
    if |parts| == 1 {
      assert parts + [last] == [parts[0], last];
    } else {
      assert (parts + [last])[1..] == parts[1..] + [last];
      JoinSnoc(parts[1..], last);
    }
  }

  /**
   * The script command that calls function `name` with n arguments: it
   * assigns the call to the return variable and lists the argument names
   * comma-separated.
   */
  function CallCommand(name: string, n: nat, uuid: string): (c: string)
    ensures c == ReturnName(uuid) + " = " + name + "(" + Join(ParamNames(n, uuid)) + ");"
    ensures n == 0 ==> c == ReturnName(uuid) + " = " + name + "();"
  {
    ReturnName(uuid) + " = " + name + "(" + ParamList(n, uuid) + ");"
  }

  /** The arguments of a call; a null argument array counts as none. */
  function ArgList(args: Option<seq<Obj>>): seq<Obj>
  {
    if args.Some? then args.value else []
  }

  /**
   * The script-wide variables after argument i is bound under its name,
   * for each i in order (ParamBound and OthersUnbound state the result).
   */
  function BindParams(vars: map<string, ValueRef>, xs: seq<Obj>, uuid: string): map<string, ValueRef>
    decreases |xs|
  {
    if xs == [] then vars
    else BindParams(vars, xs[..|xs| - 1], uuid)[ParamName(|xs| - 1, uuid) := Some(Wrap(xs[|xs| - 1]))]
  }

  /** After binding, argument i sits under its own name. */
  lemma {:induction false} ParamBound(vars: map<string, ValueRef>, xs: seq<Obj>, uuid: string, i: nat)
    requires i < |xs|
    ensures var b := BindParams(vars, xs, uuid);
      ParamName(i, uuid) in b && b[ParamName(i, uuid)] == Some(Wrap(xs[i]))
    decreases |xs|
  {
    var n := |xs| - 1;
    if i < n {
      ParamNamesDistinct(i, n, uuid);
      assert xs[..n][i] == xs[i];
      ParamBound(vars, xs[..n], uuid, i);
    }
  }

  /** Binding the arguments leaves every variable that is not a generated argument name as it was. */
  lemma {:induction false} OthersUnbound(vars: map<string, ValueRef>, xs: seq<Obj>, uuid: string, k: string)
    requires forall i :: 0 <= i < |xs| ==> k != ParamName(i, uuid)
    ensures var b := BindParams(vars, xs, uuid);
      (k in b <==> k in vars) && (k in vars ==> b[k] == vars[k])
    decreases |xs|
  {
    if xs != [] {
      var n := |xs| - 1;
      assert k != ParamName(n, uuid);
      OthersUnbound(vars, xs[..n], uuid, k);
    }
  }

  // ---------------------------------------------------------------------
  // Bindings and script contexts
  // ---------------------------------------------------------------------

  /** A `javax.script.Bindings`: a mutable map from names to host objects. */
  class Bindings {
    var entries: map<string, Obj>

    constructor ()
      ensures entries == map[]
    {
      entries := map[];
    }

    method Put(key: string, value: Obj)
      modifies this
      ensures entries == old(entries)[key := value]
    {
      entries := entries[key := value];
    }
  }

  /**
   * A `SimpleScriptContext`: its scopes, in the order `getScopes()` lists
   * them, are ENGINE_SCOPE and GLOBAL_SCOPE; the global one may be null.
   */
  class ScriptContext {
    var engineScope: Bindings
    var globalScope: Bindings?

    constructor ()
      ensures fresh(engineScope) && engineScope.entries == map[] && globalScope == null
    {
      engineScope := new Bindings();
      globalScope := null;
    }
  }

  /** The script-wide variables after copying in every entry of a binding. */
  function Load(vars: map<string, ValueRef>, b: map<string, Obj>): (r: map<string, ValueRef>)
    ensures r.Keys == vars.Keys + b.Keys
    ensures forall k :: k in b ==> r[k] == Some(Wrap(b[k]))
    ensures forall k :: k in vars && k !in b ==> r[k] == vars[k]
  {
    vars + map k | k in b :: Some(Wrap(b[k]))
  }

  /** Every name of the binding can be read back from the script. */
  predicate Recoverable(b: map<string, Obj>, vars: map<string, ValueRef>)
  {
    forall k :: k in b ==> Fetch(vars, k).Ok?
  }

  /** The binding after every one of its names is overwritten with the script's value. */
  function Recovered(b: map<string, Obj>, vars: map<string, ValueRef>): (r: map<string, Obj>)
    ensures r.Keys == b.Keys
    ensures forall k :: k in b && Fetch(vars, k).Ok? ==> r[k] == Fetch(vars, k).value
  {
    map k | k in b :: if Fetch(vars, k).Ok? then Fetch(vars, k).value else b[k]
  }

  /** Copying a binding in and straight back out gives the binding back. */
  lemma LoadThenRecover(vars: map<string, ValueRef>, b: map<string, Obj>)
    ensures Recoverable(b, Load(vars, b)) && Recovered(b, Load(vars, b)) == b
  {
    var r := Recovered(b, Load(vars, b));
    forall k | k in b ensures r[k] == b[k] {
      assert Load(vars, b)[k] == Some(Wrap(b[k]));
    }
  }

  /** Recovering a binding a second time from the same variables changes nothing. */
  lemma RecoverTwice(b: map<string, Obj>, vars: map<string, ValueRef>)
    requires Recoverable(b, vars)
    ensures Recoverable(Recovered(b, vars), vars)
    ensures Recovered(Recovered(b, vars), vars) == Recovered(b, vars)
  {
  }

  /** Copying the engine scope and then the global scope into the script. */
  function LoadScopes(vars: map<string, ValueRef>, engine: map<string, Obj>, global: Option<map<string, Obj>>)
    : map<string, ValueRef>
  {
    var loaded := Load(vars, engine);
    if global.Some? then Load(loaded, global.value) else loaded
  }

  /**
   * When the script leaves the variables alone, a name bound in both
   * scopes comes back into the engine scope with the global scope's value.
   */
  lemma GlobalScopeWinsOnRoundTrip(vars: map<string, ValueRef>, engine: map<string, Obj>, global: map<string, Obj>)
    ensures var loaded := LoadScopes(vars, engine, Some(global));
      Recoverable(engine, loaded) && Recoverable(global, loaded) &&
      Recovered(engine, loaded) == (map k | k in engine :: if k in global then global[k] else engine[k]) &&
      Recovered(global, loaded) == global
  {
    var loaded := LoadScopes(vars, engine, Some(global));
    forall k | k in engine
      ensures loaded[k] == Some(Wrap(if k in global then global[k] else engine[k]))
    {
    }
    LoadThenRecover(Load(vars, engine), global);
  }

  // ---------------------------------------------------------------------
  // Running a script
  // ---------------------------------------------------------------------

  /** What running a script text did: its result and the script-wide variables after it. */
  datatype Evaluated = Evaluated(result: Result<ValueRef>, vars: map<string, ValueRef>)

  /** `CajuScript.eval` on the script-wide variables. */
  type Evaluator = (string, map<string, ValueRef>) -> Evaluated

  /** `runScript(script)`: the run's Value unwrapped; a null Value or any exception is a ScriptException. */
  function Unwrapped(ev: Evaluated): (r: Result<Obj>)
    ensures r.Ok? <==> ev.result.Ok? && ev.result.value.Some?
    ensures r.Ok? ==> r.value == ev.result.value.value.obj
    ensures r.Err? ==> r.failure == ScriptError
  {
    if ev.result.Ok? && ev.result.value.Some? then Ok(ev.result.value.value.obj) else Err(ScriptError)
  }

  /**
   * The outcome of a run seen from the engine: result, variables and both
   * scopes' bindings. `partial` marks a recovery that threw part-way; the
   * bindings it reports are then the ones from before the run.
   */
  datatype EngineRun = EngineRun(
    result: Result<Obj>,
    vars: map<string, ValueRef>,
    engine: map<string, Obj>,
    global: Option<map<string, Obj>>,
    partial: bool)

  /**
   * `runScript(script, context)`: load both scopes, run, then recover both
   * scopes. A failed run leaves both scopes as they were. When recovery
   * throws, the bindings it has already overwritten depend on the key-set
   * order; the run is then marked partial and only its failure and
   * variables are meant.
   */
  function RunInContext(script: string, vars: map<string, ValueRef>, engine: map<string, Obj>,
                        global: Option<map<string, Obj>>, run: Evaluator): (r: EngineRun)
    ensures r.vars == run(script, LoadScopes(vars, engine, global)).vars
    ensures var ev := run(script, LoadScopes(vars, engine, global));
      r.result.Ok? <==> Unwrapped(ev).Ok? && Recoverable(engine, ev.vars) &&
                        (global.Some? ==> Recoverable(global.value, ev.vars))
    ensures r.result.Ok? ==> r.result == Unwrapped(run(script, LoadScopes(vars, engine, global)))
    ensures r.result.Ok? ==> r.engine == Recovered(engine, r.vars) &&
                             (global.Some? ==> r.global == Some(Recovered(global.value, r.vars)))
    ensures r.result.Err? ==> r.result.failure == ScriptError
    ensures Unwrapped(run(script, LoadScopes(vars, engine, global))).Err? ==>
      r.engine == engine && r.global == global && !r.partial
    ensures r.partial <==> Unwrapped(run(script, LoadScopes(vars, engine, global))).Ok? && r.result.Err?
  {
    var ev := run(script, LoadScopes(vars, engine, global));
    var out := Unwrapped(ev);
    if out.Err? then EngineRun(out, ev.vars, engine, global, false)
    else if !Recoverable(engine, ev.vars) || (global.Some? && !Recoverable(global.value, ev.vars)) then
      EngineRun(Err(ScriptError), ev.vars, engine, global, true)
    else
      EngineRun(out, ev.vars, Recovered(engine, ev.vars),
                if global.Some? then Some(Recovered(global.value, ev.vars)) else None, false)
  }

  /**
   * `invokeFunction(name, args)` with the uuid already underscored: bind
   * the arguments, run the call command in the engine's context, read the
   * return variable.
   */
  function InvokeSpec(name: string, args: Option<seq<Obj>>, uuid: string, vars: map<string, ValueRef>,
                      engine: map<string, Obj>, global: Option<map<string, Obj>>, run: Evaluator): EngineRun
  {
    var xs := ArgList(args);
    var ran := RunInContext(CallCommand(name, |xs|, uuid), BindParams(vars, xs, uuid), engine, global, run);
    if ran.result.Err? then ran else ran.(result := Fetch(ran.vars, ReturnName(uuid)))
  }

  /**
   * Unless a binding reuses a generated name, the script run by
   * `invokeFunction` finds argument i under parameter name i.
   */
  lemma CallSeesArguments(name: string, args: Option<seq<Obj>>, uuid: string, vars: map<string, ValueRef>,
                          engine: map<string, Obj>, global: Option<map<string, Obj>>, i: nat)
    requires i < |ArgList(args)|
    requires ParamName(i, uuid) !in engine
    requires global.Some? ==> ParamName(i, uuid) !in global.value
    ensures var loaded := LoadScopes(BindParams(vars, ArgList(args), uuid), engine, global);
      ParamName(i, uuid) in loaded && loaded[ParamName(i, uuid)] == Some(Wrap(ArgList(args)[i]))
  {
    ParamBound(vars, ArgList(args), uuid, i);
  }

  /** A successful call returns the object held by its return variable after the run. */
  lemma InvokeReturnsReturnVariable(name: string, args: Option<seq<Obj>>, uuid: string, vars: map<string, ValueRef>,
                                    engine: map<string, Obj>, global: Option<map<string, Obj>>, run: Evaluator)
    requires InvokeSpec(name, args, uuid, vars, engine, global, run).result.Ok?
    ensures var r := InvokeSpec(name, args, uuid, vars, engine, global, run);
      ReturnName(uuid) in r.vars && r.vars[ReturnName(uuid)].Some? &&
      r.result.value == r.vars[ReturnName(uuid)].value.obj
  {
  }

  /**
   * `get(key)`: the context rejects an empty name, outside the `try`;
   * otherwise the engine-scope attribute when it is not null, otherwise
   * the script variable, otherwise null when reading it throws.
   */
  function Lookup(attributes: map<string, Obj>, vars: map<string, ValueRef>, key: string): (r: Result<Obj>)
    ensures r.Err? <==> key == ""
    ensures r.Err? ==> r.failure == IllegalArgument
    ensures key != "" && key in attributes && attributes[key] != Null ==> r == Ok(attributes[key])
    ensures key != "" && (key !in attributes || attributes[key] == Null) && Fetch(vars, key).Ok? ==>
      r == Fetch(vars, key)
    ensures key != "" && (key !in attributes || attributes[key] == Null) && Fetch(vars, key).Err? ==>
      r == Ok(Null)
  {
    if key == "" then Err(IllegalArgument)
    else
      var attribute := if key in attributes then attributes[key] else Null;
      if attribute == Null then
        match Fetch(vars, key)
        case Ok(o) => Ok(o)
        case Err(_) => Ok(Null)
      else Ok(attribute)
  }

  /** `get` after a successful `put` of a non-null object gives the object back. */
  lemma GetAfterPut(attributes: map<string, Obj>, vars: map<string, ValueRef>, key: string, value: Obj)
    requires value != Null
    ensures key != "" ==> Lookup(attributes[key := value], vars, key) == Ok(value)
  {
  }

  /**
   * After a successful run, `get` of any engine-scope name agrees with
   * the script's own variable.
   */
  lemma GetAfterRunAgreesWithScript(script: string, vars: map<string, ValueRef>, engine: map<string, Obj>,
                                    global: Option<map<string, Obj>>, run: Evaluator, key: string)
    requires RunInContext(script, vars, engine, global, run).result.Ok?
    requires key in engine
    ensures var r := RunInContext(script, vars, engine, global, run);
      Fetch(r.vars, key).Ok? && (key != "" ==> Lookup(r.engine, r.vars, key) == Fetch(r.vars, key))
  {
  }

  // ---------------------------------------------------------------------
  // The engine
  // ---------------------------------------------------------------------

  class CajuScriptEngine {
    var context: ScriptContext
    const caju: CajuScript

    constructor ()
      ensures fresh(caju) && fresh(context) && fresh(context.engineScope)
      ensures caju.vars == map[] && context.engineScope.entries == map[] && context.globalScope == null
    {
      caju := new CajuScript();
      context := new ScriptContext();
    }

    /** `put`: sets an engine-scope attribute; the context rejects an empty name. */
    method Put(key: string, value: Obj) returns (r: Result<()>)
      modifies context.engineScope
      ensures r.Err? <==> key == ""
      ensures r.Err? ==> r.failure == IllegalArgument && context.engineScope.entries == old(context.engineScope.entries)
      ensures r.Ok? ==> context.engineScope.entries == old(context.engineScope.entries)[key := value]
    {
      if key == "" {
        return Err(IllegalArgument);
      }
      context.engineScope.Put(key, value);
      return Ok(());
    }

    /** `get`: the engine-scope attribute, or else the script variable, as Lookup states. */
    function Get(key: string): (r: Result<Obj>)
      reads this, context, context.engineScope, caju
      ensures r == Lookup(context.engineScope.entries, caju.vars, key)
    {
      Lookup(context.engineScope.entries, caju.vars, key)
    }

    /** `loadBindings(bindings)`: copies every entry into the script. */
    method LoadBindings(b: Bindings?)
      modifies caju
      ensures caju.vars == if b == null then old(caju.vars) else Load(old(caju.vars), b.entries)
      ensures caju.runningLine == old(caju.runningLine)
    {
      if b == null {
        return;
      }
      var keys := b.entries.Keys;
      while keys != {}
        invariant keys <= b.entries.Keys
        invariant caju.runningLine == old(caju.runningLine)
        invariant caju.vars == Load(old(caju.vars), map k | k in b.entries && k !in keys :: b.entries[k])
        decreases keys
      {
        var key :| key in keys;
        caju.Set(key, b.entries[key]);
        keys := keys - {key};
      }
    }

    /** `recoveryBindings(bindings)`: overwrites every entry with the script's value. */
    method RecoveryBindings(b: Bindings?) returns (ok: bool)
      modifies b
      ensures ok <==> b == null || Recoverable(old(b.entries), caju.vars)
      ensures b != null ==> b.entries.Keys == old(b.entries).Keys
      ensures ok && b != null ==> b.entries == Recovered(old(b.entries), caju.vars)
      ensures b != null ==> forall k :: k in b.entries ==>
        b.entries[k] == old(b.entries)[k] || (Fetch(caju.vars, k).Ok? && b.entries[k] == Fetch(caju.vars, k).value)
    {
      if b == null {
        return true;
      }
      ghost var original := b.entries;
      var keys := b.entries.Keys;
      while keys != {}
        invariant keys <= original.Keys && b.entries.Keys == original.Keys
        invariant forall k :: k in original && k !in keys ==>
          Fetch(caju.vars, k).Ok? && b.entries[k] == Fetch(caju.vars, k).value
        invariant forall k :: k in keys ==> b.entries[k] == original[k]
        decreases keys
      {
        var key :| key in keys;
        var v := caju.Get(key);
        if v.Err? {
          return false;
        }
        b.Put(key, v.value);
        keys := keys - {key};
      }
      assert b.entries == Recovered(original, caju.vars);
      return true;
    }

    /** `runScript(script)`. */
    method RunScript(script: string, run: Evaluator) returns (r: Result<Obj>)
      modifies caju
      ensures var ev := run(script, old(caju.vars));
        r == Unwrapped(ev) && caju.vars == ev.vars
    {
      var ev := run(script, caju.vars);
      caju.vars := ev.vars;
      if ev.result.Err? || ev.result.value.None? {
        return Err(ScriptError);
      }
      return Ok(ev.result.value.value.obj);
    }

    /** `runScript(script, context)`: load both scopes, run, recover both scopes. */
    method RunScriptInContext(script: string, ctx: ScriptContext, run: Evaluator) returns (r: Result<Obj>)
      modifies caju, ctx.engineScope, ctx.globalScope
      ensures var spec := RunInContext(script, old(caju.vars), old(ctx.engineScope.entries),
                                       if ctx.globalScope == null then None else Some(old(ctx.globalScope.entries)), run);
        r == spec.result && caju.vars == spec.vars &&
        (!spec.partial ==>
           ctx.engineScope.entries == spec.engine &&
           (ctx.globalScope != null ==> ctx.globalScope.entries == spec.global.value))
      ensures ctx.engineScope.entries.Keys == old(ctx.engineScope.entries).Keys
      ensures ctx.globalScope != null ==> ctx.globalScope.entries.Keys == old(ctx.globalScope.entries).Keys
    {
      ghost var engine := ctx.engineScope.entries;
      ghost var global := if ctx.globalScope == null then None else Some(ctx.globalScope.entries);
      LoadBindings(ctx.engineScope);
      LoadBindings(ctx.globalScope);
      r := RunScript(script, run);
      if r.Err? {
        return;
      }
      var ok := RecoveryBindings(ctx.engineScope);
      if !ok {
        return Err(ScriptError);
      }
      if ctx.globalScope == ctx.engineScope {
        RecoverTwice(engine, caju.vars);
      }
      ok := RecoveryBindings(ctx.globalScope);
      if !ok {
        return Err(ScriptError);
      }
    }

    /** `runScript(script, bindings)`: load the bindings, run, recover them. */
    method RunScriptWithBindings(script: string, b: Bindings?, run: Evaluator) returns (r: Result<Obj>)
      modifies caju, b
      ensures var loaded := if b == null then old(caju.vars) else Load(old(caju.vars), old(b.entries));
        var ev := run(script, loaded);
        caju.vars == ev.vars &&
        (b != null ==> b.entries.Keys == old(b.entries).Keys) &&
        (r.Ok? <==> Unwrapped(ev).Ok? && (b == null || Recoverable(old(b.entries), ev.vars))) &&
        (r.Ok? ==> r == Unwrapped(ev) && (b != null ==> b.entries == Recovered(old(b.entries), ev.vars))) &&
        (Unwrapped(ev).Err? && b != null ==> b.entries == old(b.entries)) &&
        (b != null ==> forall k :: k in b.entries ==>
          b.entries[k] == old(b.entries)[k] || (Fetch(ev.vars, k).Ok? && b.entries[k] == Fetch(ev.vars, k).value))
    {
      LoadBindings(b);
      r := RunScript(script, run);
      if r.Err? {
        return;
      }
      var ok := RecoveryBindings(b);
      if !ok {
        return Err(ScriptError);
      }
    }

    /** `eval(script)`: runs in the engine's own context. */
    method Eval(script: string, run: Evaluator) returns (r: Result<Obj>)
      modifies caju, context.engineScope, context.globalScope
      ensures var spec := RunInContext(script, old(caju.vars), old(context.engineScope.entries),
                                       if context.globalScope == null then None else Some(old(context.globalScope.entries)), run);
        r == spec.result && caju.vars == spec.vars &&
        (!spec.partial ==>
           context.engineScope.entries == spec.engine &&
           (context.globalScope != null ==> context.globalScope.entries == spec.global.value))
      ensures context.engineScope.entries.Keys == old(context.engineScope.entries).Keys
      ensures context.globalScope != null ==> context.globalScope.entries.Keys == old(context.globalScope.entries).Keys
    {
      r := RunScriptInContext(script, context, run);
    }

    /**
     * `invokeFunction(name, args)`: builds the call command while binding
     * each argument under its generated name, runs it, and reads the
     * return variable. `rawUuid` is the random UUID's text.
     */
    method InvokeFunction(name: string, args: Option<seq<Obj>>, rawUuid: string, run: Evaluator)
      returns (r: Result<Obj>)
      modifies caju, context.engineScope, context.globalScope
      ensures var spec := InvokeSpec(name, args, Underscored(rawUuid), old(caju.vars), old(context.engineScope.entries),
                                     if context.globalScope == null then None else Some(old(context.globalScope.entries)), run);
        r == spec.result && caju.vars == spec.vars &&
        (!spec.partial ==>
           context.engineScope.entries == spec.engine &&
           (context.globalScope != null ==> context.globalScope.entries == spec.global.value))
      ensures context.engineScope.entries.Keys == old(context.engineScope.entries).Keys
      ensures context.globalScope != null ==> context.globalScope.entries.Keys == old(context.globalScope.entries).Keys
    {
      var uuid := Underscored(rawUuid);
      var cmd := ComposeCall(name, args, uuid);
      r := Eval(cmd, run);
      if r.Err? {
        return;
      }
      r := caju.Get(ReturnName(uuid));
    }

    /**
     * The command-building part of `invokeFunction`: the return variable,
     * the function name and the argument list, binding each argument on
     * the way.
     */
    method ComposeCall(name: string, args: Option<seq<Obj>>, uuid: string) returns (cmd: string)
      modifies caju
      ensures cmd == CallCommand(name, |ArgList(args)|, uuid)
      ensures caju.vars == BindParams(old(caju.vars), ArgList(args), uuid)
      ensures caju.runningLine == old(caju.runningLine)
    {
      var funcReturnName := ReturnName(uuid);
      cmd := funcReturnName + " = ";
      cmd := cmd + name + "(";
      var params := "";
      if args.Some? {
        params := BindArguments(args.value, uuid);
      }
      cmd := cmd + params + ");";
    }

    /**
     * The argument loop of `invokeFunction`: appends each argument's name
     * to the command, comma-separated, and binds the argument under it.
     */
    method BindArguments(xs: seq<Obj>, uuid: string) returns (params: string)
      modifies caju
      ensures params == ParamList(|xs|, uuid)
      ensures caju.vars == BindParams(old(caju.vars), xs, uuid)
      ensures caju.runningLine == old(caju.runningLine)
    {
      params := "";
      for i := 0 to |xs|
        invariant params == ParamList(i, uuid)
        invariant caju.vars == BindParams(old(caju.vars), xs[..i], uuid)
        invariant caju.runningLine == old(caju.runningLine)
      {
        var funcParamName := ParamName(i, uuid);
        params := params + (if i > 0 then "," else "") + funcParamName;
        caju.Set(funcParamName, xs[i]);
        assert xs[..i + 1][..i] == xs[..i];
      }
      assert xs[..|xs|] == xs;
    }

    /**
     * `invokeMethod(thiz, name, args)`: binds `thiz` under a generated
     * name and invokes that object's method as a script function.
     * `rawUuid` names the object; `rawCallUuid` is the call's own UUID.
     */
    method InvokeMethod(thiz: Obj, name: string, args: Option<seq<Obj>>, rawUuid: string, rawCallUuid: string,
                        run: Evaluator) returns (r: Result<Obj>)
      modifies caju, context.engineScope, context.globalScope
      ensures var objectName := CajuVars + "_" + Underscored(rawUuid);
        var spec := InvokeSpec(objectName + "." + name, args, Underscored(rawCallUuid),
                               old(caju.vars)[objectName := Some(Wrap(thiz))], old(context.engineScope.entries),
                               if context.globalScope == null then None else Some(old(context.globalScope.entries)), run);
        r == spec.result && caju.vars == spec.vars &&
        (!spec.partial ==>
           context.engineScope.entries == spec.engine &&
           (context.globalScope != null ==> context.globalScope.entries == spec.global.value))
      ensures context.engineScope.entries.Keys == old(context.engineScope.entries).Keys
      ensures context.globalScope != null ==> context.globalScope.entries.Keys == old(context.globalScope.entries).Keys
    {
      var uuid := Underscored(rawUuid);
      var funcObjectName := CajuVars + "_" + uuid;
      caju.Set(funcObjectName, thiz);
      r := InvokeFunction(funcObjectName + "." + name, args, rawCallUuid, run);
    }
  }
}
