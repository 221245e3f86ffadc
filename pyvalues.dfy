/**
 * The Python values that flow through the attribute layer. The host stores
 * whatever it is given, and the descriptors convert between these values, so
 * one dynamic value type serves for both raw and decoded values.
 */
module PyValues {
  import opened Wrappers
  import opened Decimals

  /** A member of an `enum.IntEnum` class: its name and its integer value. */
  datatype EnumMember = EnumMember(name: string, value: int)

  datatype Value =
    | Int(i: int)
    | Text(s: string)
    | Bool(b: bool)
    | Member(member: EnumMember)

  /** The exceptions the attribute layer raises, with their messages. */
  datatype Error =
    | AttributeError(msg: string)
    | ValueError(msg: string)
    | TypeError(msg: string)

  /**
   * The value as Python compares it with an integer: `bool` and `IntEnum` are
   * subclasses of `int`, text never equals an integer.
   */
  function AsInt(v: Value): (r: Option<int>)
    ensures r.None? <==> v.Text?
    ensures v.Int? ==> r == Some(v.i)
  {
    match v
    case Int(i) => Some(i)
    case Text(_) => None
    case Bool(b) => Some(if b then 1 else 0)
    case Member(m) => Some(m.value)
  }

  /** Python truthiness: zero and the empty string are false. */
  predicate Truthy(v: Value) {
    match v
    case Int(i) => i != 0
    case Text(s) => s != ""
    case Bool(b) => b
    case Member(m) => m.value != 0
  }

  /** Python's `repr` of the value, as error messages show it. */
  function Repr(v: Value): string {
    match v
    case Int(i) => Decimal(i)
    case Text(s) => "'" + s + "'"
    case Bool(b) => if b then "True" else "False"
    case Member(m) => "<" + m.name + ": " + Decimal(m.value) + ">"
  }
}
