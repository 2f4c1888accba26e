/**
 * JavaScript values as the loader sees them: the `obj: any` payloads of
 * `track` and `identify`, and the `number | string` organization identifier.
 */
module Values {
  import Text

  datatype Value =
    | Undefined
    | Null
    | Bool(b: bool)
    | Num(n: int)
    | Str(s: string)
    | Arr(items: seq<Value>)
    | Obj(fields: map<string, Value>)

  /** Index keys "0", "1", ... mapped to the items, as spreading an array or a string yields. */
  function IndexMap(items: seq<Value>): (m: map<string, Value>)
    ensures forall i :: 0 <= i < |items| ==> Text.Dec(i) in m && m[Text.Dec(i)] == items[i]
    ensures forall k :: k in m ==> exists i :: 0 <= i < |items| && k == Text.Dec(i)
  {
    forall i, j | 0 <= i < |items| && 0 <= j < |items| && Text.Dec(i) == Text.Dec(j)
      ensures i == j
    {
      Text.DecInjective(i, j);
    }
    map i | 0 <= i < |items| :: Text.Dec(i) := items[i]
  }

  /** The one-character strings of `s`, one per position. */
  function Chars(s: string): (r: seq<Value>)
    ensures |r| == |s| && forall i :: 0 <= i < |s| ==> r[i] == Str([s[i]])
  {
    seq(|s|, i requires 0 <= i < |s| => Str([s[i]]))
  }

  /**
   * The own enumerable properties that object spread `{ ...v }` copies:
   * an object's fields, an array's items or a string's characters under
   * their index keys, and nothing for `null`, `undefined`, booleans and numbers.
   */
  function Spread(v: Value): map<string, Value> {
    match v
    case Obj(fields) => fields
    case Arr(items) => IndexMap(items)
    case Str(s) => IndexMap(Chars(s))
    case _ => map[]
  }

  /** The property `track` stores the event name under. */
  const EVENT_KEY := "event"

  /** `{ ...obj, event: event }`: the argument `track` hands to `addProperties`. */
  function TrackPayload(obj: Value, event: string): map<string, Value> {
    Spread(obj)[EVENT_KEY := Str(event)]
  }

  /** The organization identifier, `number | string`. */
  datatype Ident = NumberId(n: int) | StringId(s: string)

  /** JavaScript truthiness of an identifier: neither `0` nor `""`. */
  predicate Truthy(id: Ident) {
    match id
    case NumberId(n) => n != 0
    case StringId(s) => s != ""
  }

  /** `${id}` in a template literal. */
  function IdentText(id: Ident): string {
    match id
    case NumberId(n) => Text.NumberText(n)
    case StringId(s) => s
  }
}
