/** The JavaScript values the registry passes around: option bags, match contexts and model handles. */
module Values {

  /** A JavaScript value as far as the registry cares: numbers are taken as integers. */
  datatype Value =
    | Undefined
    | Null
    | Bool(b: bool)
    | Num(n: int)
    | Str(s: string)
    | Obj(id: nat)  // any object, array or function: opaque, always truthy

  /** JavaScript truthiness (`!!v`). */
  predicate Truthy(v: Value) {
    match v
    case Undefined => false
    case Null => false
    case Bool(b) => b
    case Num(n) => n != 0
    case Str(s) => s != ""
    case Obj(_) => true
  }

  /** A plain options object, `{ key: value, ... }`. */
  type Options = map<string, Value>

  /** The context object handed to matchers and creators; callers that omit it get `{}`. */
  type Context = map<string, Value>

  /** An opaque chat-model instance built by a vendor constructor. */
  datatype Handle = Handle(id: nat)
}
