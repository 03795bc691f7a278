/**
 * The request side of the gateway: a parsed JSON body, Python's truthiness test
 * on it, `dict.get` with a default and `str.lower()`.
 */
module JsonValues {

  /** A value produced by parsing a JSON request body. JSON numbers (int or float) are reals. */
  datatype Json =
    | JNull
    | JBool(b: bool)
    | JNum(n: real)
    | JStr(s: string)
    | JArr(items: seq<Json>)
    | JObj(fields: map<string, Json>)

  /** Python's `bool(x)` for a value parsed from JSON: None, False, 0, "", [] and {} are falsy. */
  predicate Truthy(j: Json): (b: bool)
    ensures !b <==> j == JNull || j == JBool(false) || j == JNum(0.0) || j == JStr("") || j == JArr([]) || j == JObj(map[])
  {
    match j
    case JNull => false
    case JBool(b) => b
    case JNum(n) => n != 0.0
    case JStr(s) => s != ""
    case JArr(items) => items != []
    case JObj(fields) => fields != map[]
  }

  /** `d.get(key, default)` on a JSON object. A key mapped to JSON null gives JNull, not the default. */
  function GetOr(d: map<string, Json>, key: string, default: Json): (r: Json)
    ensures key in d ==> r == d[key]
    ensures key !in d ==> r == default
  {
    if key in d then d[key] else default
  }

  /** `d.get(key)`: a missing key reads as None. */
  function Get(d: map<string, Json>, key: string): (r: Json)
    ensures key in d ==> r == d[key]
    ensures key !in d ==> r == JNull
  {
    GetOr(d, key, JNull)
  }

  /**
   * One character of `str.lower()`, as far as it can affect a comparison with an
   * ASCII keyword: A-Z map to a-z and KELVIN SIGN (U+212A) maps to 'k'. Every other
   * character that Python lower-cases maps to a non-ASCII result, which no keyword
   * contains, so it is kept as it is.
   */
  function LowerChar(c: char): (r: char)
    ensures 'A' <= c <= 'Z' ==> r as int == c as int + 32
    ensures c == '\U{212A}' ==> r == 'k'
    ensures !('A' <= c <= 'Z') && c != '\U{212A}' ==> r == c
  {
    if 'A' <= c <= 'Z' then (c as int + 32) as char
    else if c == '\U{212A}' then 'k'
    else c
  }

  /**
   * `s.lower()`, character by character. Python's `lower()` can change a string's
   * length (U+0130 becomes 'i' followed by U+0307), so this agrees with Python only
   * for the question the source asks: whether the result equals an ASCII keyword.
   */
  function Lower(s: string): (r: string)
    ensures |r| == |s|
    ensures forall i :: 0 <= i < |s| ==> r[i] == LowerChar(s[i])
  {
    seq(|s|, i requires 0 <= i < |s| => LowerChar(s[i]))
  }

  /** Exactly the four case variants of "or" lower-case to "or". */
  lemma LowerOr(s: string)
    ensures Lower(s) == "or" <==> s in {"or", "Or", "oR", "OR"}
  {
    if Lower(s) == "or" {
      assert |s| == 2;
      assert LowerChar(s[0]) == 'o' && LowerChar(s[1]) == 'r';
      assert s[0] == 'o' || s[0] == 'O';
      assert s[1] == 'r' || s[1] == 'R';
      assert s == [s[0], s[1]];
    }
  }
}
