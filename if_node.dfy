/**
 * The conditional element (`If.execute`): set the running line, evaluate
 * the condition, coerce it to a boolean, and on true run the children in
 * order until one of them returns.
 */
module IfNode {
  import opened Runtime

  /** A parsed conditional: its line, its condition and its children. */
  datatype If = If(line: LineDetail, condition: Element, elements: seq<Element>)

  /** The flag marking the result of a conditional that did not return early. */
  const IfFlag: string := "if"

  /** The Value a conditional yields when no child returned early. */
  const Sentinel: Value := Value(Bool(true), IfFlag)

  /**
   * Truthiness of a condition's object: a Boolean as it is, an Integer when
   * it is positive, anything else by `Boolean.getBoolean` of its text (a
   * system-property lookup, passed in as `getBoolean`); null has no text.
   */
  function Truth(o: Obj, getBoolean: string -> bool): (r: Result<bool>)
    ensures r.Err? <==> o == Null
    ensures r.Err? ==> r.failure == NullPointer
    ensures r == Ok(true) <==> (o.Bool? && o.b) || (o.Int? && o.n > 0) || (o.Other? && getBoolean(o.text))
  {
    match o
    case Bool(b) => Ok(b)
    case Int(n) => Ok(n > 0)
    case Other(text) => Ok(getBoolean(text))
    case Null => Err(NullPointer)
  }

  /**
   * What running a list of children produced: `result` is Ok(None) when
   * every child ran without returning, otherwise the returned Value or the
   * exception; `ran` lists the children that were executed, in order.
   */
  datatype Run = Run(result: Result<ValueRef>, post: State, ran: seq<Element>)

  /** True when a child's step lets the next child run. */
  predicate Continues(e: Element, step: Step, canReturn: Element -> bool)
  {
    step.result.Ok? && (step.result.value.None? || !canReturn(e))
  }

  /** The children loop of `If.execute`, from state `s`. */
  function RunChildren(es: seq<Element>, s: State, exec: Exec, canReturn: Element -> bool): (r: Run)
    ensures r.result == Ok(None) ==> r.ran == es
    decreases |es|
  {
    if es == [] then Run(Ok(None), s, [])
    else
      var step := exec(es[0], s);
      if Continues(es[0], step, canReturn) then
        var rest := RunChildren(es[1..], step.post, exec, canReturn);
        Run(rest.result, rest.post, [es[0]] + rest.ran)
      else
        Run(step.result, step.post, [es[0]])
  }

  /**
   * When the loop stops early at child k, the children before k all ran
   * and continued, and the result and final state are child k's own: no
   * later child had any effect.
   */
  lemma {:induction false} FirstHalt(es: seq<Element>, s: State, exec: Exec, canReturn: Element -> bool)
    requires RunChildren(es, s, exec, canReturn).result != Ok(None)
    ensures var r := RunChildren(es, s, exec, canReturn);
      var k := |r.ran| - 1;
      0 <= k < |es| && r.ran == es[..k + 1] &&
      var before := RunChildren(es[..k], s, exec, canReturn);
      var step := exec(es[k], before.post);
      before.result == Ok(None) && !Continues(es[k], step, canReturn) &&
      r.result == step.result && r.post == step.post
  {
    var step := exec(es[0], s);
    if Continues(es[0], step, canReturn) {
      var tail := es[1..];
      FirstHalt(tail, step.post, exec, canReturn);
      var k := |RunChildren(tail, step.post, exec, canReturn).ran| - 1;
      assert es[..k + 1][1..] == tail[..k];
      assert es[..k + 2][1..] == tail[..k + 1];
    } else {
      assert es[..0] == [];
    }
  }

  /**
   * When the loop runs to the end, every child ran and continued: each
   * result was null or came from a child that cannot return.
   */
  lemma {:induction false} FallThrough(es: seq<Element>, s: State, exec: Exec, canReturn: Element -> bool, k: nat)
    requires RunChildren(es, s, exec, canReturn).result == Ok(None)
    requires k < |es|
    ensures var before := RunChildren(es[..k], s, exec, canReturn);
      before.result == Ok(None) && before.ran == es[..k] &&
      Continues(es[k], exec(es[k], before.post), canReturn)
  {
    assert es[..0] == [];
    if k > 0 {
      var step := exec(es[0], s);
      FallThrough(es[1..], step.post, exec, canReturn, k - 1);
      assert es[..k][1..] == es[1..][..k - 1];
    }
  }

  /** The whole of `If.execute`, from state `s`. */
  function ExecuteSpec(node: If, s: State, exec: Exec, canReturn: Element -> bool, getBoolean: string -> bool): (r: Run)
    ensures r.result == Ok(None) ==> r.ran == []
  {
    var cond := exec(node.condition, s.(line := node.line));
    match cond.result
    case Err(f) => Run(Err(f), cond.post, [])
    case Ok(None) => Run(Err(NullPointer), cond.post, [])
    case Ok(Some(v)) =>
      match Truth(v.obj, getBoolean)
      case Err(f) => Run(Err(f), cond.post, [])
      case Ok(false) => Run(Ok(None), cond.post, [])
      case Ok(true) =>
        var children := RunChildren(node.elements, cond.post, exec, canReturn);
        if children.result == Ok(None) then Run(Ok(Some(Sentinel)), children.post, children.ran)
        else children
  }

  /**
   * `If.execute`: the running line is set before the condition runs; on a
   * true condition the children run in order and the first non-null
   * result of a child that can return is returned; otherwise the result is
   * Boolean true flagged "if"; on a false condition the result is null.
   */
  method Execute(node: If, caju: CajuScript, context: Context, exec: Exec,
                 canReturn: Element -> bool, getBoolean: string -> bool) returns (r: Result<ValueRef>)
    modifies caju, context
    ensures var spec := ExecuteSpec(node, old(Snapshot(caju, context)), exec, canReturn, getBoolean);
      r == spec.result && Snapshot(caju, context) == spec.post
  {
    caju.SetRunningLine(node.line);
    var cond := Runtime.Execute(node.condition, exec, caju, context);
    if cond.Err? {
      return Err(cond.failure);
    }
    if cond.value.None? {
      return Err(NullPointer);
    }
    var finalValue := Truth(cond.value.value.obj, getBoolean);
    if finalValue.Err? {
      return Err(finalValue.failure);
    }
    if finalValue.value {
      var v := RunElements(node.elements, caju, context, exec, canReturn);
      if v != Ok(None) {
        return v;
      }
      return Ok(Some(Sentinel));
    } else {
      return Ok(None);
    }
  }

  /** The first step of the children loop. */
  lemma Unfold(es: seq<Element>, s: State, exec: Exec, canReturn: Element -> bool)
    requires es != []
    ensures var step := exec(es[0], s);
      var r := RunChildren(es, s, exec, canReturn);
      if Continues(es[0], step, canReturn) then
        var rest := RunChildren(es[1..], step.post, exec, canReturn);
        r == Run(rest.result, rest.post, [es[0]] + rest.ran)
      else r == Run(step.result, step.post, [es[0]])
  {
  }

  /** The children loop of `If.execute`: stops at the first child that returns or throws. */
  method RunElements(es: seq<Element>, caju: CajuScript, context: Context, exec: Exec,
                     canReturn: Element -> bool) returns (r: Result<ValueRef>)
    modifies caju, context
    ensures var spec := RunChildren(es, old(Snapshot(caju, context)), exec, canReturn);
      r == spec.result && Snapshot(caju, context) == spec.post
  {
    ghost var whole := RunChildren(es, Snapshot(caju, context), exec, canReturn);
    for i := 0 to |es|
      invariant var rest := RunChildren(es[i..], Snapshot(caju, context), exec, canReturn);
        whole.result == rest.result && whole.post == rest.post
    {
      ghost var pre := Snapshot(caju, context);
      Unfold(es[i..], pre, exec, canReturn);
      assert es[i..][0] == es[i] && es[i..][1..] == es[i + 1..];
      var v := Runtime.Execute(es[i], exec, caju, context);
      if v.Err? || (v.value.Some? && canReturn(es[i])) {
        return v;
      }
    }
    assert es[|es|..] == [];
    return Ok(None);
  }

  /**
   * On a true condition the children executed are a prefix of the list:
   * either all of them, each continuing, and the result is the flagged
   * sentinel; or up to the first child k that returned a non-null Value
   * while able to return (or threw), whose result and state are final.
   */
  lemma TrueCondition(node: If, s: State, exec: Exec, canReturn: Element -> bool, getBoolean: string -> bool)
    requires var cond := exec(node.condition, s.(line := node.line));
      cond.result.Ok? && cond.result.value.Some? && Truth(cond.result.value.value.obj, getBoolean) == Ok(true)
    ensures var cond := exec(node.condition, s.(line := node.line));
      var r := ExecuteSpec(node, s, exec, canReturn, getBoolean);
      var es := node.elements;
      (r.ran == es && r.result == Ok(Some(Sentinel)) &&
        forall k :: 0 <= k < |es| ==> Continues(es[k], exec(es[k], RunChildren(es[..k], cond.post, exec, canReturn).post), canReturn))
      ||
      (exists k :: 0 <= k < |es| && r.ran == es[..k + 1] &&
        var before := RunChildren(es[..k], cond.post, exec, canReturn);
        var step := exec(es[k], before.post);
        before.result == Ok(None) && !Continues(es[k], step, canReturn) &&
        r.result == step.result && r.post == step.post)
  {
    var cond := exec(node.condition, s.(line := node.line));
    var es := node.elements;
    var children := RunChildren(es, cond.post, exec, canReturn);
    if children.result == Ok(None) {
      forall k | 0 <= k < |es|
        ensures Continues(es[k], exec(es[k], RunChildren(es[..k], cond.post, exec, canReturn).post), canReturn)
      {
        FallThrough(es, cond.post, exec, canReturn, k);
      }
    } else {
      FirstHalt(es, cond.post, exec, canReturn);
      var k := |children.ran| - 1;
      assert 0 <= k < |es| && children.ran == es[..k + 1];
    }
  }

  /** A false condition runs no child, and the conditional yields null. */
  lemma FalseCondition(node: If, s: State, exec: Exec, canReturn: Element -> bool, getBoolean: string -> bool)
    requires var cond := exec(node.condition, s.(line := node.line));
      cond.result.Ok? && cond.result.value.Some? && Truth(cond.result.value.value.obj, getBoolean) == Ok(false)
    ensures var r := ExecuteSpec(node, s, exec, canReturn, getBoolean);
      r.result == Ok(None) && r.ran == [] && r.post == exec(node.condition, s.(line := node.line)).post
  {
  }

  /** A null condition Value, or a condition object that is null, ends in a NullPointerException before any child runs. */
  lemma NullCondition(node: If, s: State, exec: Exec, canReturn: Element -> bool, getBoolean: string -> bool)
    requires var cond := exec(node.condition, s.(line := node.line));
      cond.result == Ok(None) || (cond.result.Ok? && cond.result.value.Some? && cond.result.value.value.obj == Null)
    ensures var r := ExecuteSpec(node, s, exec, canReturn, getBoolean);
      r.result == Err(NullPointer) && r.ran == []
  {
  }

  /** Any object other than a Boolean, an Integer or null is decided only by `getBoolean` of its text. */
  lemma OtherConditionUsesGetBoolean(text: string, getBoolean: string -> bool)
    ensures Truth(Other(text), getBoolean) == Ok(getBoolean(text))
  {
  }

  /** The running line held before the conditional starts has no influence on it. */
  lemma PriorLineIrrelevant(node: If, s: State, line: LineDetail, exec: Exec,
                            canReturn: Element -> bool, getBoolean: string -> bool)
    ensures ExecuteSpec(node, s, exec, canReturn, getBoolean)
         == ExecuteSpec(node, s.(line := line), exec, canReturn, getBoolean)
  {
  }

  /** A Boolean condition is taken as it is: true runs the children, false runs none. */
  lemma BooleanCondition(node: If, s: State, exec: Exec, canReturn: Element -> bool,
                         getBoolean: string -> bool, b: bool, flag: string)
    requires exec(node.condition, s.(line := node.line)).result == Ok(Some(Value(Bool(b), flag)))
    ensures var r := ExecuteSpec(node, s, exec, canReturn, getBoolean);
      !b ==> r.result == Ok(None) && r.ran == []
    ensures var r := ExecuteSpec(node, s, exec, canReturn, getBoolean);
      b ==> r.result != Ok(None) && (node.elements != [] ==> r.ran != [])
  {
  }

  /** An Integer condition runs the children exactly when it is greater than 0. */
  lemma IntegerCondition(node: If, s: State, exec: Exec, canReturn: Element -> bool,
                         getBoolean: string -> bool, n: int32, flag: string)
    requires exec(node.condition, s.(line := node.line)).result == Ok(Some(Value(Int(n), flag)))
    ensures var r := ExecuteSpec(node, s, exec, canReturn, getBoolean);
      n <= 0 ==> r.result == Ok(None) && r.ran == []
    ensures var r := ExecuteSpec(node, s, exec, canReturn, getBoolean);
      n > 0 ==> r.result != Ok(None) && (node.elements != [] ==> r.ran != [])
  {
  }
}
