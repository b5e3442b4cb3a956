/** The JSON values the service's responses decode to, with the parts of Python's
    behaviour on them that the client relies on: truthiness, `str()`, `d[k]` and `d.get(k)`. */
module JsonValues {
  import opened Wrappers

  /** A decoded JSON document. Numbers are integers; JSON numbers with a fraction are not modelled.
      An object maps its (string) keys to values. */
  datatype Json =
    | JNull
    | JBool(b: bool)
    | JNum(n: int)
    | JStr(s: string)
    | JArr(items: seq<Json>)
    | JObj(fields: map<string, Json>)

  /** Python's `bool(v)`: None, False, 0 and empty strings, lists and dicts are falsy. */
  predicate Truthy(j: Json) {
    match j
    case JNull => false
    case JBool(b) => b
    case JNum(n) => n != 0
    case JStr(s) => s != ""
    case JArr(xs) => xs != []
    case JObj(m) => m != map[]
  }

  /** Python's truthiness of an optional string argument: None and "" are falsy. */
  predicate GivenText(o: Option<string>) {
    o.Some? && o.value != ""
  }

  /** Python's hashability: lists and dicts cannot be dictionary keys. */
  predicate Hashable(j: Json) {
    !j.JArr? && !j.JObj?
  }

  /** Decimal digits of a natural number, as `str()` prints them: no leading zero. */
  function NatText(n: nat): (r: string)
    ensures |r| >= 1
    ensures forall i :: 0 <= i < |r| ==> '0' <= r[i] <= '9'
    ensures r[0] == '0' <==> n == 0
    ensures n == 0 ==> r == "0"
    decreases n
  {
    var d := ['0' + (n % 10) as char];
    if n < 10 then d else NatText(n / 10) + d
  }

  /** The number a string of decimal digits denotes. */
  function DecimalValue(s: string): int
  {
    if s == [] then 0 else 10 * DecimalValue(s[..|s| - 1]) + (s[|s| - 1] as int - '0' as int)
  }

  /** The digits `NatText` prints denote the number they were printed from. */
  lemma {:induction false} NatTextValue(n: nat)
    ensures DecimalValue(NatText(n)) == n
    decreases n
  {
    var d := ['0' + (n % 10) as char];
    if n >= 10 {
      NatTextValue(n / 10);
      var t := NatText(n / 10) + d;
      assert t[..|t| - 1] == NatText(n / 10);
    }
  }

  /** Python's `str(v)` for a scalar; None for an array or an object, whose `repr` is not modelled. */
  function Render(j: Json): (r: Option<string>)
    ensures r.Some? <==> Hashable(j)
    ensures j.JStr? ==> r == Some(j.s)
  {
    match j
    case JNull => Some("None")
    case JBool(b) => Some(if b then "True" else "False")
    case JNum(n) => Some(if n < 0 then "-" + NatText(-n) else NatText(n))
    case JStr(s) => Some(s)
    case JArr(_) => None
    case JObj(_) => None
  }

  /** Python's `d.get(k)` on a dict: the value, or None when the key is absent. */
  function Get(m: map<string, Json>, k: string): (r: Json)
    ensures k in m ==> r == m[k]
    ensures k !in m ==> r == JNull
  {
    if k in m then m[k] else JNull
  }
}
