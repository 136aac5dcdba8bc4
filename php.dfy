/** The slice of PHP's runtime semantics the search builder depends on:
    nullable slots, dynamically typed values and their truthiness (the
    `?:` operator and `if ($x)`), and the ASCII-only `strtolower`. */
module Php {

  /** A nullable slot (`null` or a value). */
  datatype Option<+T> = None | Some(value: T)

  /** A PHP value as it reaches the builder: filter values, option values,
      raw engine results and record identifiers. A PHP array is kept as
      the ordered list of its values; any object (a collection, a model,
      a closure) is an opaque handle. */
  datatype Value =
    | Null
    | Bool(b: bool)
    | Int(i: int)
    | Str(s: string)
    | Arr(items: seq<Value>)
    | Obj(handle: nat)

  /** PHP's conversion to bool: null, false, 0, "", "0" and the empty
      array are falsy; every other value, and every object, is truthy. */
  function Truthy(v: Value): (t: bool)
    ensures !t <==> v in {Null, Bool(false), Int(0), Str(""), Str("0"), Arr([])}
  {
    match v
    case Null => false
    case Bool(b) => b
    case Int(i) => i != 0
    case Str(s) => s != "" && s != "0"
    case Arr(items) => items != []
    case Obj(_) => true
  }

  /** `strtolower` on one character: only 'A'..'Z' change. */
  function LowerChar(c: char): char
  {
    if 'A' <= c <= 'Z' then (c as int + 32) as char else c
  }

  /** `strtolower`, which folds only the ASCII letters and keeps the
      length: the result is the input lowered character by character. */
  function ToLowerAscii(s: string): (r: string)
    ensures |r| == |s|
    ensures forall i :: 0 <= i < |s| ==> r[i] == LowerChar(s[i])
  {
    if s == [] then [] else [LowerChar(s[0])] + ToLowerAscii(s[1..])
  }
}
