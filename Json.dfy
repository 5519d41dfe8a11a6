/** JSON values as produced by `JSON.parse`, which itself is not modelled. */
module Json {
  import opened Wrappers

  datatype Json =
    | JNull
    | JBool(b: bool)
    | JNum(n: int)
    | JStr(s: string)
    | JArr(items: seq<Json>)
    | JObj(fields: map<string, Json>)

  /** A JSON array whose items are all strings. */
  predicate IsStringArray(j: Json) {
    j.JArr? && forall i :: 0 <= i < |j.items| ==> j.items[i].JStr?
  }

  /** A JSON object whose values are all strings (zod's `record(string())`). */
  predicate IsStringRecord(j: Json) {
    j.JObj? && forall k :: k in j.fields ==> j.fields[k].JStr?
  }

  function StringsOf(j: Json): (r: seq<string>)
    requires IsStringArray(j)
    ensures |r| == |j.items|
    ensures forall i :: 0 <= i < |r| ==> j.items[i] == JStr(r[i])
  {
    seq(|j.items|, i requires 0 <= i < |j.items| => j.items[i].s)
  }

  function StringMapOf(j: Json): (r: map<string, string>)
    requires IsStringRecord(j)
    ensures r.Keys == j.fields.Keys
    ensures forall k :: k in r ==> j.fields[k] == JStr(r[k])
  {
    map k | k in j.fields :: j.fields[k].s
  }

  function FromStrings(xs: seq<string>): (j: Json)
    ensures IsStringArray(j) && StringsOf(j) == xs
  {
    JArr(seq(|xs|, i requires 0 <= i < |xs| => JStr(xs[i])))
  }

  function FromStringMap(m: map<string, string>): (j: Json)
    ensures IsStringRecord(j) && StringMapOf(j) == m
  {
    JObj(map k | k in m :: JStr(m[k]))
  }

  /** JavaScript truthiness: `null`, `false`, `0` and `""` are falsy, every array and object truthy. */
  predicate IsTruthy(j: Json) {
    match j
    case JNull => false
    case JBool(b) => b
    case JNum(n) => n != 0
    case JStr(s) => s != ""
    case _ => true
  }

  /** `a || b` on values that may be `undefined` (`None`). */
  function JsOr(a: Option<Json>, b: Option<Json>): Option<Json> {
    if a.Some? && IsTruthy(a.value) then a else b
  }

  function Digit(d: int): char
    requires 0 <= d < 10
  {
    "0123456789"[d]
  }

  predicate IsDigit(c: char) {
    '0' <= c <= '9'
  }

  /** `String(n)` for an integer: its decimal digits, after a `-` when negative. */
  function DecimalText(n: int): (r: string)
    ensures |r| > 0
    ensures n >= 0 ==> forall i :: 0 <= i < |r| ==> IsDigit(r[i])
    ensures n < 0 ==> r[0] == '-' && r[1..] == DecimalText(-n)
    decreases if n < 0 then 1 - n else n
  {
    if n < 0 then "-" + DecimalText(-n)
    else if n < 10 then [Digit(n)]
    else DecimalText(n / 10) + [Digit(n % 10)]
  }

  /** The value a string of decimal digits denotes. */
  function DigitsValue(s: string): int
    requires forall i :: 0 <= i < |s| ==> IsDigit(s[i])
  {
    if s == [] then 0 else DigitsValue(s[..|s| - 1]) * 10 + (s[|s| - 1] as int - '0' as int)
  }

  /** Reading back the digits of a non-negative integer gives the integer. */
  lemma {:induction false} DecimalTextRoundTrip(n: nat)
    ensures DigitsValue(DecimalText(n)) == n
  {
    if n >= 10 {
      DecimalTextRoundTrip(n / 10);
      var r := DecimalText(n);
      assert r[..|r| - 1] == DecimalText(n / 10);
    }
  }

  /** `items.join(',')` over already converted items. */
  function CommaJoined(texts: seq<string>): string {
    if |texts| == 0 then ""
    else if |texts| == 1 then texts[0]
    else CommaJoined(texts[..|texts| - 1]) + "," + texts[|texts| - 1]
  }

  /**
   * `${j}` in a template literal: strings as they are, numbers in decimal, `true`/`false`,
   * `null`, objects as `[object Object]`, arrays as their items joined by commas with
   * `null` items empty.
   */
  function TemplateText(j: Json): string
    decreases j, 0
  {
    match j
    case JNull => "null"
    case JBool(b) => if b then "true" else "false"
    case JNum(n) => DecimalText(n)
    case JStr(s) => s
    case JArr(items) => CommaJoined(seq(|items|, i requires 0 <= i < |items| => ItemText(items[i])))
    case JObj(_) => "[object Object]"
  }

  /** An array item as `join` converts it. */
  function ItemText(j: Json): string
    decreases j, 1
  {
    if j.JNull? then "" else TemplateText(j)
  }

  /** Only an array can be truthy and still convert to the empty string. */
  lemma TruthyTextNonEmpty(j: Json)
    requires IsTruthy(j) && !j.JArr?
    ensures TemplateText(j) != ""
  {
  }
}
