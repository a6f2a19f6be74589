/**
 * The script's array helper (`org.cajuscript.Array`): a fixed-length
 * array of host objects, created filled with null, read by position and
 * overwritten one position at a time.
 */
module CajuArray {
  import opened Runtime

  /** `create(size)`: a new array of `size` nulls. */
  method Create(size: int32) returns (a: array<Obj>)
    requires size >= 0
    ensures fresh(a) && a.Length == size as int
    ensures forall i :: 0 <= i < a.Length ==> a[i] == Null
  {
    a := new Obj[size as int](_ => Null);
  }

  /** `size(array)`: the array's length. */
  method Size(a: array<Obj>) returns (n: int)
    ensures n == a.Length
  {
    n := a.Length;
  }

  /** `get(array, i)`: the object now at position i. */
  method Get(a: array<Obj>, i: int) returns (v: Obj)
    requires 0 <= i < a.Length
    ensures v == a[i]
  {
    v := a[i];
  }

  /** `set(array, i, v)`: overwrites position i and nothing else. */
  method Set(a: array<Obj>, i: int, v: Obj)
    requires 0 <= i < a.Length
    modifies a
    ensures a[..] == old(a[..])[i := v]
  {
    a[i] := v;
  }

  /**
   * The usage the helper documents: create an array of two, set both
   * positions, then read every position while the index is below the
   * size; the reads give back the two objects in order.
   */
  method StoreTwoAndReadBack(first: Obj, second: Obj) returns (seen: seq<Obj>)
    ensures seen == [first, second]
  {
    var strArray := Create(2);
    Set(strArray, 0, first);
    Set(strArray, 1, second);
    seen := [];
    var x := 0;
    var size := Size(strArray);
    while x < size
      invariant 0 <= x <= strArray.Length == size == 2
      invariant strArray[..] == [first, second]
      invariant seen == strArray[..x]
      decreases size - x
    {
      var v := Get(strArray, x);
      seen := seen + [v];
      x := x + 1;
      size := Size(strArray);
    }
  }
}
