/**
 * The JavaScript values the import code handles: parsed JSON, what the
 * engine throws, property reads on parsed JSON, truthiness, string
 * conversion, and `Promise.all` over an order-preserving map.
 */
module JsValues {
  import opened Outcomes
  import opened JsStrings

  /** A value produced by `JSON.parse`. Numbers are integers in this model. */
  datatype Json =
    | JNull
    | JBool(b: bool)
    | JNum(n: int)
    | JStr(s: string)
    | JArr(items: seq<Json>)
    | JObj(fields: map<string, Json>)

  /** The result of reading a property: `undefined`, or a JSON value. */
  datatype JsValue = Undefined | Value(json: Json)

  /** What a failing step throws (or what a promise rejects with). */
  datatype Thrown =
    | Error(message: string)        // `new Error(message)`, thrown by the code itself
    | TypeError(message: string)    // raised by the engine (V8 wording), or by `fetch` on a network failure
    | SyntaxError(message: string)  // raised by `json()` on a body that is not JSON
    | ReadErrorEvent(fileName: string)  // the FileReader error event of the named file; it has no `message`

  /** `error.message`: undefined for an error event, which is not an `Error`. */
  function MessageOf(t: Thrown): (m: JsValue)
    ensures m.Undefined? <==> t.ReadErrorEvent?
    ensures !t.ReadErrorEvent? ==> m == Value(JStr(t.message))
  {
    match t
    case Error(msg) => Value(JStr(msg))
    case TypeError(msg) => Value(JStr(msg))
    case SyntaxError(msg) => Value(JStr(msg))
    case ReadErrorEvent(_) => Undefined
  }

  /** The engine's message for reading property `key` of `null` or `undefined`. */
  function CannotRead(base: string, key: string): Thrown
  {
    TypeError("Cannot read properties of " + base + " (reading '" + key + "')")
  }

  /**
   * `v[key]` for a JSON value other than `null` (which throws, and which the
   * caller handles): the own property of an object, `undefined` for
   * everything else. The keys read by the import code are never an array
   * index, `length` or an inherited member.
   */
  function Get(v: Json, key: string): (r: JsValue)
    requires !v.JNull?
    ensures r.Value? <==> v.JObj? && key in v.fields
    ensures r.Value? ==> r.json == v.fields[key]
  {
    if v.JObj? && key in v.fields then Value(v.fields[key]) else Undefined
  }

  /** JavaScript truthiness: `undefined`, `null`, `false`, `0` and `""` are falsy. */
  predicate Truthy(v: JsValue)
  {
    match v
    case Undefined => false
    case Value(j) =>
      match j
      case JNull => false
      case JBool(b) => b
      case JNum(n) => n != 0
      case JStr(s) => s != ""
      case JArr(_) => true
      case JObj(_) => true
  }

  /** `String(v)`, which is also what a template literal `${v}` produces. */
  function ToString(v: JsValue): string
  {
    match v
    case Undefined => "undefined"
    case Value(j) => JsonToString(j)
  }

  /**
   * `String(j)` of a parsed JSON value: an array joins its elements with
   * `,`, rendering `null` elements as the empty string.
   */
  function JsonToString(j: Json): string
    decreases j
  {
    match j
    case JNull => "null"
    case JBool(b) => if b then "true" else "false"
    case JNum(n) => IntToString(n)
    case JStr(s) => s
    case JArr(items) =>
      Join(seq(|items|, i requires 0 <= i < |items| => if items[i].JNull? then "" else JsonToString(items[i])), ",")
    case JObj(_) => "[object Object]"
  }

  /**
   * `Promise.all(xs.map(f))`: succeeds with the results in input order when
   * every element succeeds; otherwise rejects with the error of a failing
   * element. Which failing element is a matter of timing in the source; the
   * model takes the first, and its contract promises only "some failing one".
   */
  function All<A, B(==)>(xs: seq<A>, f: A -> Result<B, Thrown>): (r: Result<seq<B>, Thrown>)
    ensures r.Success? <==> forall i :: 0 <= i < |xs| ==> f(xs[i]).Success?
    ensures r.Success? ==> |r.value| == |xs| && forall i :: 0 <= i < |xs| ==> f(xs[i]) == Success(r.value[i])
    ensures r.Failure? ==> exists i :: 0 <= i < |xs| && f(xs[i]) == Failure(r.error)
  {
    if |xs| == 0 then Success([])
    else
      match f(xs[0])
      case Failure(e) => Failure(e)
      case Success(y) =>
        match All(xs[1..], f)
        case Failure(e) =>
          assert exists i :: 0 <= i < |xs[1..]| && f(xs[1..][i]) == Failure(e);
          Failure(e)
        case Success(ys) =>
          assert forall i :: 1 <= i < |xs| ==> xs[i] == xs[1..][i - 1];
          Success([y] + ys)
  }
}
