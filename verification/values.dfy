/**
 * Runtime values as the validator sees them. A JavaScript value is reduced to
 * the variant of this datatype; the string `Object.prototype.toString` would
 * print for it is given by `TypeTag`.
 */
module Values {
  datatype Value =
    | Undefined
    | Null
    | Bool(b: bool)
    | Num(n: int)
    | Str(s: string)
    | Arr(elements: seq<Value>)
    | Obj(fields: map<string, Value>)

  /** The own enumerable properties of an object instance, by name. */
  type Props = map<string, Value>

  /** The built-in type tag of a value, in the `[object X]` form. */
  function TypeTag(v: Value): (tag: string)
    ensures |tag| > 9 && tag[..8] == "[object " && tag[|tag| - 1] == ']'
  {
    match v
    case Undefined => "[object Undefined]"
    case Null => "[object Null]"
    case Bool(_) => "[object Boolean]"
    case Num(_) => "[object Number]"
    case Str(_) => "[object String]"
    case Arr(_) => "[object Array]"
    case Obj(_) => "[object Object]"
  }
}
