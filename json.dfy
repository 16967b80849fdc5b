/** JSON values as both halves of the system exchange them: the bodies of the
    HTTP replies, the LLM responses after json.loads, and the values of the
    agent-graph state. Numbers are integers only. */
module Json {

  datatype Json =
    | JNull
    | JBool(b: bool)
    | JNum(n: int)
    | JStr(s: string)
    | JArr(items: seq<Json>)
    | JObj(fields: map<string, Json>)

  /** Whether JavaScript treats the value as true in an `if` or a `||`. */
  predicate JsTruthy(j: Json) {
    match j
    case JNull => false
    case JBool(b) => b
    case JNum(n) => n != 0
    case JStr(s) => s != ""
    case JArr(_) => true
    case JObj(_) => true
  }

  /** Whether Python treats the value as true in an `if`, `not` or `and`. */
  predicate PyTruthy(j: Json) {
    match j
    case JNull => false
    case JBool(b) => b
    case JNum(n) => n != 0
    case JStr(s) => s != ""
    case JArr(xs) => xs != []
    case JObj(m) => m != map[]
  }

  /** Whether Python's `len` accepts the value (str, list and dict do). */
  predicate HasLen(j: Json) {
    j.JStr? || j.JArr? || j.JObj?
  }

  /** The two languages disagree exactly on empty lists and empty dicts. */
  lemma TruthinessDiffersOnEmptyContainers(j: Json)
    ensures JsTruthy(j) != PyTruthy(j) <==> j == JArr([]) || j == JObj(map[])
  {
  }

  /** A list of strings as a JSON array. */
  function Strings(xs: seq<string>): (r: Json)
    ensures r.JArr? && |r.items| == |xs|
    ensures forall i :: 0 <= i < |xs| ==> r.items[i] == JStr(xs[i])
  {
    if xs == [] then JArr([]) else JArr([JStr(xs[0])] + Strings(xs[1..]).items)
  }
}
