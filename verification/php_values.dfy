/**
 The slice of PHP's value semantics that the YouHosting facade depends on:
 the untyped values a caller may pass as a client or account reference,
 the `empty()` test, the `is_numeric()` test and the `(int)` cast.

 String-level behaviour of `is_numeric` and of `(int)` (leading blanks,
 exponents, "3.7" and the like) is a language builtin that the facade only
 consumes; it is kept abstract in `Builtins`.
 */
module PhpValues {

  /** The two entity classes a reference may be an instance of. */
  datatype Entity = Client | Account

  /** An untyped PHP value. `Obj` is an instance of `Client` or `Account`:
      `id` is its `id` property and `handle` its alternate identifier
      (`email` for a Client, `domain` for an Account). A property that was
      never set holds `Null`. */
  datatype Value =
    | Null
    | Bool(b: bool)
    | Int(i: int)
    | Str(s: string)
    | Arr(entries: seq<(Value, Value)>)
    | Obj(cls: Entity, id: Value, handle: Value)

  /** The string-level builtins, left abstract. */
  datatype Builtins = Builtins(isNumericString: string -> bool, stringToInt: string -> int)

  /** PHP `empty($v)`: null, false, 0, "", "0" and the empty array are empty;
      an object never is. */
  predicate Empty(v: Value) {
    match v
    case Null => true
    case Bool(b) => !b
    case Int(i) => i == 0
    case Str(s) => s == "" || s == "0"
    case Arr(entries) => |entries| == 0
    case Obj(_, _, _) => false
  }

  /** PHP `is_numeric($v)`: every integer is numeric; whether a string is
      numeric is decided by the builtin; nothing else is numeric. */
  predicate IsNumeric(php: Builtins, v: Value) {
    match v
    case Int(_) => true
    case Str(s) => php.isNumericString(s)
    case _ => false
  }

  /** PHP `(int)$v`. An object converts to 1 (with a notice). */
  function IntCast(php: Builtins, v: Value): int {
    match v
    case Null => 0
    case Bool(b) => if b then 1 else 0
    case Int(i) => i
    case Str(s) => php.stringToInt(s)
    case Arr(entries) => if |entries| == 0 then 0 else 1
    case Obj(_, _, _) => 1
  }

  /** PHP `$v instanceof Client` / `$v instanceof Account`. */
  predicate IsInstance(v: Value, cls: Entity) {
    v.Obj? && v.cls == cls
  }

  /** PHP's list of empty values, as an independent definition: a value is
      empty exactly when it is null, false, 0, "", "0" or the empty array.
      Every other value, every object included, is present. */
  lemma EmptyExactly(v: Value)
    ensures Empty(v) <==> v == Null || v == Bool(false) || v == Int(0) || v == Str("") || v == Str("0") || v == Arr([])
  {
  }
}
