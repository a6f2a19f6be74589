/**
 * Values, interpreter state and the collaborators of the executable
 * elements: the CajuScript instance (running line and script-wide
 * variables) and the Context (the current scope's variables).
 *
 * The internals of CajuScript, Context and of the child elements are not
 * part of this model: the two variable stores are maps, and the execution
 * of an element that is not modelled here is an oracle (`Exec`) from the
 * interpreter state to a result and a new state.
 */
module Runtime {

  /** Java's `int`. */
  newtype int32 = x: int | -0x8000_0000 <= x < 0x8000_0000

  /** A host (Java) object as the script sees it. */
  datatype Obj =
    | Null                  // the Java null reference
    | Bool(b: bool)         // java.lang.Boolean
    | Int(n: int32)         // java.lang.Integer
    | Other(text: string)   // any other object, known by its toString()

  datatype Option<T> = None | Some(value: T)

  /** A script Value: the wrapped host object and the flag set by `setFlag`. */
  datatype Value = Value(obj: Obj, flag: string)

  /** A Java reference to a Value: None is null. */
  type ValueRef = Option<Value>

  /** The flag a freshly made Value carries. */
  const NoFlag: string := ""

  /** `CajuScript.toValue`: wraps a host object into an unflagged Value. */
  function Wrap(o: Obj): Value
  {
    Value(o, NoFlag)
  }

  /** The exceptions an execution can end with. */
  datatype Failure =
    | ScriptError        // CajuScriptException, or any exception wrapped in a ScriptException
    | NullPointer        // NullPointerException
    | IndexOutOfBounds   // StringIndexOutOfBoundsException
    | IllegalArgument    // IllegalArgumentException

  datatype Result<T> = Ok(value: T) | Err(failure: Failure)

  /** Line number and source text of a script line. */
  datatype LineDetail = LineDetail(number: int, text: string)

  /** A parsed element whose own execution is not part of this model. */
  datatype Element = Element(id: nat, line: LineDetail)

  /** What an element's execution can observe and change. */
  datatype State = State(
    line: LineDetail,                   // the CajuScript instance's running line
    globals: map<string, ValueRef>,     // the script-wide variables
    locals: map<string, ValueRef>)      // the variables of the current context

  /** The outcome of executing one element. */
  datatype Step = Step(result: Result<ValueRef>, post: State)

  /** `Element.execute(caju, context, …)` of an element outside this model. */
  type Exec = (Element, State) -> Step

  /** The CajuScript instance: running line and script-wide variables. */
  class CajuScript {
    var runningLine: LineDetail
    var vars: map<string, ValueRef>

    constructor ()
      ensures runningLine == LineDetail(0, "") && vars == map[]
    {
      runningLine := LineDetail(0, "");
      vars := map[];
    }

    method SetRunningLine(line: LineDetail)
      modifies this`runningLine
      ensures runningLine == line
    {
      runningLine := line;
    }

    /** `setVar`: writes a Value into the script-wide store. */
    method SetVar(name: string, v: ValueRef)
      modifies this`vars
      ensures vars == old(vars)[name := v]
    {
      vars := vars[name := v];
    }

    /** `set`: writes a host object, wrapped, into the script-wide store. */
    method Set(name: string, o: Obj)
      modifies this`vars
      ensures vars == old(vars)[name := Some(Wrap(o))]
    {
      vars := vars[name := Some(Wrap(o))];
    }

    /** `get`: the host object held by a script variable, as Fetch states. */
    function Get(name: string): Result<Obj>
      reads this
    {
      Fetch(vars, name)
    }
  }

  /**
   * Reading a script variable back as a host object: it fails when the
   * name holds no Value.
   */
  function Fetch(vars: map<string, ValueRef>, name: string): (r: Result<Obj>)
    ensures r.Ok? <==> name in vars && vars[name].Some?
    ensures r.Ok? ==> r.value == vars[name].value.obj
  {
    if name in vars && vars[name].Some? then Ok(vars[name].value.obj) else Err(ScriptError)
  }

  /** The current scope of variables. */
  class Context {
    var vars: map<string, ValueRef>

    constructor ()
      ensures vars == map[]
    {
      vars := map[];
    }

    method SetVar(name: string, v: ValueRef)
      modifies this
      ensures vars == old(vars)[name := v]
    {
      vars := vars[name := v];
    }
  }

  /** The interpreter state held by a CajuScript instance and a context. */
  function Snapshot(caju: CajuScript, context: Context): State
    reads caju, context
  {
    State(caju.runningLine, caju.vars, context.vars)
  }

  /** Executes an element outside this model, through its oracle. */
  method Execute(e: Element, exec: Exec, caju: CajuScript, context: Context) returns (r: Result<ValueRef>)
    modifies caju, context
    ensures var step := exec(e, old(Snapshot(caju, context)));
      r == step.result && Snapshot(caju, context) == step.post
  {
    var step := exec(e, Snapshot(caju, context));
    caju.runningLine, caju.vars := step.post.line, step.post.globals;
    context.vars := step.post.locals;
    r := step.result;
  }
}
