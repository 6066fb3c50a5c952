/**
 * Decoded JSON values, the shape `json.loads` gives to a websocket frame.
 * Numbers are integers only; floating point is not modelled.
 */
module JsonValues {

  import opened Wrappers

  datatype Json =
    | JNull
    | JBool(b: bool)
    | JInt(i: int)
    | JStr(s: string)
    | JArr(items: seq<Json>)
    | JObj(fields: map<string, Json>)

  /** Python truthiness of a decoded value, as `if event_type:` tests it. */
  predicate Truthy(v: Json) {
    match v
    case JNull => false
    case JBool(b) => b
    case JInt(i) => i != 0
    case JStr(s) => s != ""
    case JArr(items) => items != []
    case JObj(fields) => fields != map[]
  }

  function Digit(d: nat): char
    requires d < 10
  {
    "0123456789"[d]
  }

  /** Decimal digits of a natural number, most significant first. */
  function Digits(n: nat): (r: string)
    decreases n
  {
    if n < 10 then [Digit(n)] else Digits(n / 10) + [Digit(n % 10)]
  }

  /**
   * Python's `str()` of a scalar, as an f-string renders it. Containers are
   * rendered by `repr` in Python, which is not modelled: they give None.
   */
  function PyStr(v: Json): Option<string> {
    match v
    case JNull => Some("None")
    case JBool(b) => Some(if b then "True" else "False")
    case JInt(i) => Some(if i < 0 then "-" + Digits(-i) else Digits(i))
    case JStr(s) => Some(s)
    case _ => None
  }

  /** `needle` occurs in `haystack` starting at index `i`. */
  predicate OccursAt(haystack: string, needle: string, i: int) {
    0 <= i && i + |needle| <= |haystack| && haystack[i..i + |needle|] == needle
  }

  lemma OccursAtShift(haystack: string, needle: string, i: int)
    requires |haystack| > 0 && 0 <= i
    ensures OccursAt(haystack, needle, i + 1) <==> OccursAt(haystack[1..], needle, i)
  {
    if i + 1 + |needle| <= |haystack| {
      var a, b := haystack[i + 1..i + 1 + |needle|], haystack[1..][i..i + |needle|];
      assert |a| == |b|;
      forall k | 0 <= k < |a| ensures a[k] == b[k] { }
      assert a == b;
    }
  }

  /** Python's `needle in haystack` for two strings: `needle` occurs as a contiguous slice. */
  function Contains(haystack: string, needle: string): (b: bool)
    ensures b <==> exists i :: OccursAt(haystack, needle, i)
    decreases |haystack|
  {
    if |haystack| < |needle| then false
    else if haystack[..|needle|] == needle then assert OccursAt(haystack, needle, 0); true
    else
      var rest := Contains(haystack[1..], needle);
      assert rest ==> exists i :: OccursAt(haystack, needle, i) by {
        if rest {
          var i :| OccursAt(haystack[1..], needle, i);
          OccursAtShift(haystack, needle, i);
        }
      }
      assert !rest ==> forall i :: !OccursAt(haystack, needle, i) by {
        if !rest {
          forall i ensures !OccursAt(haystack, needle, i) {
            if i > 0 {
              OccursAtShift(haystack, needle, i - 1);
            }
          }
        }
      }
      rest
  }
}
