/**
 * The assignment element (`Variable.execute`): set the running line,
 * evaluate the value once, and store it either script-wide (when the key
 * starts with the root-context marker, which is stripped) or in the
 * current context (under the whole key).
 */
module VariableNode {
  import opened Runtime

  /** A parsed assignment: its line, the key written and the value element. */
  datatype Variable = Variable(line: LineDetail, key: string, value: Element)

  /** Start and end offsets of a match; a start other than 0 includes "not found". */
  datatype Position = Position(start: int, end: int)

  /**
   * The parts of the syntax this element uses: `rootMarker(key)` is
   * `matcherPosition(key, getRootContext())`.
   */
  datatype Syntax = Syntax(rootMarker: string -> Position)

  /** Where the assignment writes. */
  datatype Target = NoWrite | ScriptWide(name: string) | InContext(name: string) | BadOffset

  /**
   * Where a key routes its write: nowhere for the empty key, script-wide
   * under the rest of the key when the root marker matches at offset 0
   * (Java's `substring(end)` throws when `end` is outside the key), and in
   * the current context under the whole key otherwise.
   */
  function Route(key: string, syntax: Syntax): (t: Target)
    ensures t.NoWrite? <==> key == ""
    ensures t.ScriptWide? ==> var p := syntax.rootMarker(key);
      p.start == 0 && 0 <= p.end <= |key| && key == key[..p.end] + t.name
    ensures t.InContext? ==> t.name == key && syntax.rootMarker(key).start != 0
    ensures var p := syntax.rootMarker(key);
      key != "" && p.start == 0 && 0 <= p.end <= |key| ==> t == ScriptWide(key[p.end..])
    ensures key != "" && syntax.rootMarker(key).start != 0 ==> t == InContext(key)
    ensures var p := syntax.rootMarker(key);
      t.BadOffset? <==> key != "" && p.start == 0 && !(0 <= p.end <= |key|)
  {
    if key == "" then NoWrite
    else
      var p := syntax.rootMarker(key);
      if p.start == 0 then
        if 0 <= p.end <= |key| then ScriptWide(key[p.end..]) else BadOffset
      else InContext(key)
  }

  /** The whole of `Variable.execute`, from state `s`. */
  function ExecuteSpec(node: Variable, syntax: Syntax, s: State, exec: Exec): (r: Step)
    ensures var v := exec(node.value, s.(line := node.line));
      r.post.line == v.post.line
    ensures var v := exec(node.value, s.(line := node.line));
      r.result.Ok? ==> r.result == v.result
  {
    var v := exec(node.value, s.(line := node.line));
    match v.result
    case Err(_) => v
    case Ok(value) =>
      match Route(node.key, syntax)
      case NoWrite => v
      case ScriptWide(name) => Step(Ok(value), v.post.(globals := v.post.globals[name := value]))
      case InContext(name) => Step(Ok(value), v.post.(locals := v.post.locals[name := value]))
      case BadOffset => Step(Err(IndexOutOfBounds), v.post)
  }

  /**
   * `Variable.execute`: sets the running line, executes the value element
   * once, writes its result to the store the key routes to, and returns it.
   */
  method Execute(node: Variable, caju: CajuScript, context: Context, syntax: Syntax, exec: Exec)
    returns (r: Result<ValueRef>)
    modifies caju, context
    ensures var spec := ExecuteSpec(node, syntax, old(Snapshot(caju, context)), exec);
      r == spec.result && Snapshot(caju, context) == spec.post
  {
    caju.SetRunningLine(node.line);
    var v := Runtime.Execute(node.value, exec, caju, context);
    if v.Err? {
      return v;
    }
    if node.key != "" {
      var p := syntax.rootMarker(node.key);
      if p.start == 0 {
        if !(0 <= p.end <= |node.key|) {
          return Err(IndexOutOfBounds);
        }
        caju.SetVar(node.key[p.end..], v.value);
      } else {
        context.SetVar(node.key, v.value);
      }
    }
    return v;
  }

  /** The value element is evaluated once, in a state whose running line is the assignment's own. */
  lemma ValueSeesOwnLine(node: Variable, syntax: Syntax, s: State, line: LineDetail, exec: Exec)
    ensures ExecuteSpec(node, syntax, s, exec) == ExecuteSpec(node, syntax, s.(line := line), exec)
  {
  }

  /** Whatever the key, a successful assignment returns the value element's own result. */
  lemma ResultIndependentOfKey(node: Variable, key: string, syntax: Syntax, s: State, exec: Exec)
    requires ExecuteSpec(node, syntax, s, exec).result.Ok?
    requires ExecuteSpec(node.(key := key), syntax, s, exec).result.Ok?
    ensures ExecuteSpec(node, syntax, s, exec).result == ExecuteSpec(node.(key := key), syntax, s, exec).result
  {
  }

  /** An empty key writes to neither store. */
  lemma EmptyKeyWritesNothing(node: Variable, syntax: Syntax, s: State, exec: Exec)
    requires node.key == ""
    ensures var v := exec(node.value, s.(line := node.line));
      ExecuteSpec(node, syntax, s, exec) == v
  {
  }

  /**
   * With the root marker at offset 0, the value goes script-wide under the
   * key with the marker stripped and the context is untouched; otherwise
   * it goes into the context under the unmodified key and the script-wide
   * store is untouched.
   */
  lemma ExactlyOneStoreWritten(node: Variable, syntax: Syntax, s: State, exec: Exec)
    requires node.key != ""
    requires exec(node.value, s.(line := node.line)).result.Ok?
    ensures var v := exec(node.value, s.(line := node.line));
      var value := v.result.value;
      var r := ExecuteSpec(node, syntax, s, exec);
      var p := syntax.rootMarker(node.key);
      (p.start == 0 && 0 <= p.end <= |node.key| ==>
        r.result == Ok(value) &&
        r.post.globals == v.post.globals[node.key[p.end..] := value] && r.post.locals == v.post.locals) &&
      (p.start != 0 ==>
        r.result == Ok(value) &&
        r.post.locals == v.post.locals[node.key := value] && r.post.globals == v.post.globals) &&
      (p.start == 0 && !(0 <= p.end <= |node.key|) ==>
        r == Step(Err(IndexOutOfBounds), v.post))
  {
  }
}
