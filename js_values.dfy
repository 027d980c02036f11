/** The JavaScript values that the description objects handed to createModal, createRow and
    createEmbed are made of, and the few operations of the language those functions rely on:
    truthiness, property reads, `length`, `>` against a numeric limit, destructuring defaults. */
module JsValues {

  datatype Option<+T> = None | Some(value: T)

  /** A JavaScript value. Numbers are integers (no fractions, no NaN); arrays and plain
      objects are values, compared structurally (none of the modelled code compares them). */
  datatype JsValue =
    | Undefined
    | Null
    | Bool(b: bool)
    | Num(n: int)
    | Str(s: string)
    | Arr(elems: seq<JsValue>)
    | Obj(props: map<string, JsValue>)
  {
    /** `undefined` or `null`: reading any property of it throws a TypeError. */
    predicate IsNullish() {
      Undefined? || Null?
    }

    /** JavaScript's ToBoolean: what `if (v)` and `!v` test. */
    predicate Truthy() {
      match this
      case Undefined => false
      case Null => false
      case Bool(b) => b
      case Num(n) => n != 0
      case Str(s) => s != ""
      case Arr(_) => true
      case Obj(_) => true
    }
  }

  /** `scripts.isDefined`, whose source is not part of this model. Assumed, after the comment at
      src/djs/functions/create/createModal.js:43, to hold of every value except `undefined`,
      so `null` counts as defined. */
  predicate IsDefined(v: JsValue) {
    v != Undefined
  }

  /** A binding with a destructuring default (`{ style = d } = obj`): the default replaces
      `undefined` only. */
  function OrDefault(v: JsValue, d: JsValue): (r: JsValue)
    ensures IsDefined(d) ==> IsDefined(r)
    ensures v != Undefined ==> r == v
  {
    if v == Undefined then d else v
  }

  /** The number of UTF-16 code units of `s`, which is what JavaScript's `length` counts:
      a character beyond U+FFFF takes two. */
  function Utf16Length(s: string): (n: nat)
    ensures |s| <= n <= 2 * |s|
    ensures (forall i :: 0 <= i < |s| ==> s[i] as int <= 0xFFFF) ==> n == |s|
  {
    if s == [] then 0 else (if s[0] as int > 0xFFFF then 2 else 1) + Utf16Length(s[1..])
  }

  /** `v.key` for a value that is not nullish. Only the own data properties the modelled code
      reads exist: `length` of strings and arrays, and the keys of a plain object. */
  function Prop(v: JsValue, key: string): JsValue
    requires !v.IsNullish()
  {
    match v
    case Str(s) => if key == "length" then Num(Utf16Length(s)) else Undefined
    case Arr(elems) => if key == "length" then Num(|elems|) else Undefined
    case Obj(props) => if key in props then props[key] else Undefined
    case _ => Undefined
  }

  /** `x > limit` for a numeric `limit`: `x` is converted with ToNumber (`true` is 1, `null`
      is 0, `undefined` is NaN and never compares greater). Strings, arrays and objects, which
      JavaScript would also convert, compare as NaN here. */
  function GreaterThan(x: JsValue, limit: int): bool {
    match x
    case Num(n) => n > limit
    case Bool(b) => (if b then 1 else 0) > limit
    case Null => 0 > limit
    case _ => false
  }
}
