/**
 * The fragment of PHP's value model that the plugin's functions rely on:
 * null, booleans, strings and associative arrays with string keys, together
 * with `empty()`, boolean conversion, loose `==` against a string, array-key
 * conversion and `isset` on a nested index path.
 */
module PhpValues {

  datatype Option<T> = None | Some(value: T)

  /** A PHP value. Integers and floats do not occur in this model. */
  datatype Value = Null | Bool(b: bool) | Str(s: string) | Arr(entries: map<string, Value>)

  /** PHP's `empty()`: null, false, "", "0" and the empty array are empty. */
  predicate Empty(v: Value) {
    match v
    case Null => true
    case Bool(b) => !b
    case Str(s) => s == "" || s == "0"
    case Arr(m) => m == map[]
  }

  /** Conversion to bool (`if ($v)`); on these values it is the negation of `empty()`. */
  predicate Truthy(v: Value) {
    !Empty(v)
  }

  /**
   * Conversion of a value used as an array offset to the key it denotes:
   * null is "", true and false are the keys 1 and 0, and an array is an
   * illegal offset.
   */
  function Offset(k: Value): Option<string> {
    match k
    case Null => Some("")
    case Bool(b) => Some(if b then "1" else "0")
    case Str(s) => Some(s)
    case Arr(_) => None
  }

  /** `$m[$k]` read from an array: a missing key or an illegal offset reads as null. */
  function Index(m: map<string, Value>, k: Value): Value {
    match Offset(k)
    case Some(key) => if key in m then m[key] else Null
    case None => Null
  }

  /**
   * Loose equality `$code == $v` of a string against a value: null compares
   * as "", a boolean compares with the string's truth value, an array never
   * equals a string.
   */
  predicate LooseEqStr(code: string, v: Value) {
    match v
    case Null => code == ""
    case Bool(b) => Truthy(Str(code)) == b
    case Str(t) => code == t
    case Arr(_) => false
  }

  /** `isset($v[$k1]...[$kn])`: every step indexes an array at a present key and the last value is not null. */
  predicate IsSetPath(v: Value, path: seq<Value>)
    decreases |path|
  {
    if path == [] then v != Null
    else
      v.Arr? && Offset(path[0]).Some? && Offset(path[0]).value in v.entries
      && IsSetPath(v.entries[Offset(path[0]).value], path[1..])
  }

  /** `$v[$k1]...[$kn]` read along a path whose `isset` holds. */
  function Dig(v: Value, path: seq<Value>): Value
    requires IsSetPath(v, path)
    decreases |path|
  {
    if path == [] then v else Dig(v.entries[Offset(path[0]).value], path[1..])
  }
}
