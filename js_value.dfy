/**
 * The JavaScript values the registry inspects: the configuration passed to `create`,
 * the names, event names, broadcast names and callbacks passed to the factory.
 * Only what the registry looks at is kept: `typeof`, property reads and ToString.
 */
module JsValue {

  /** A JavaScript value. Numbers are integers; a function is represented by its source text,
      which is what ToString yields for it; an object by its own properties. */
  datatype Value =
    | Undef
    | Null
    | Bool(b: bool)
    | Num(n: int)
    | Str(s: string)
    | Func(text: string)
    | Obj(props: map<string, Value>)

  /** `typeof v === 'object'`, which is true of `null` as well. */
  predicate IsObjectType(v: Value)
  {
    v.Null? || v.Obj?
  }

  /** `v[key]` for a value that is neither `undefined` nor `null` (reading a property of those throws).
      Primitives and functions carry none of the properties the registry reads. */
  function Prop(v: Value, key: string): Value
    requires !v.Undef? && !v.Null?
  {
    if v.Obj? && key in v.props then v.props[key] else Undef
  }

  /** The properties every plain object inherits from `Object.prototype`, so that
      `({})[name]` is defined for these names although `Object.keys({})` is empty. */
  const ObjectPrototypeNames: set<string> :=
    {"constructor", "hasOwnProperty", "isPrototypeOf", "propertyIsEnumerable", "toLocaleString",
     "toString", "valueOf", "__proto__", "__defineGetter__", "__defineSetter__",
     "__lookupGetter__", "__lookupSetter__"}

  /** `name` reads an inherited, built-in member of an otherwise empty object. */
  predicate Inherited(name: string)
  {
    name in ObjectPrototypeNames
  }

  /** The decimal digit `d`. */
  function DigitChar(d: nat): char
    requires d < 10
  {
    ('0' as int + d) as char
  }

  /** The decimal numeral of `n`. */
  function NatToDecimal(n: nat): string
  {
    if n < 10 then [DigitChar(n)] else NatToDecimal(n / 10) + [DigitChar(n % 10)]
  }

  /** JavaScript's ToString, which is also how a value becomes a property key
      (`socketList[name]`) and how `name + ':' + event_name` concatenates. */
  function ToStr(v: Value): string
  {
    match v
    case Undef => "undefined"
    case Null => "null"
    case Bool(b) => if b then "true" else "false"
    case Num(n) => if n < 0 then "-" + NatToDecimal(-n) else NatToDecimal(n)
    case Str(s) => s
    case Func(text) => text
    case Obj(_) => "[object Object]"
  }
}
