/** The slice of JavaScript semantics the app's logic depends on: dynamic
    values and their truthiness, numbers that may be NaN with a truncating
    `%`, the `\s` character class, and the string operations the handlers
    use (`replace(/\D/g, '')`, `slice(0, n)`, `includes`, `trim`). */
module JsValues {
  import opened Seqs
  import opened Wrappers

  /** A JavaScript value as it appears in request and response bodies.
      Numbers are integers here; floating point is not modelled. */
  datatype Json =
    | JUndefined
    | JNull
    | JBool(b: bool)
    | JNum(n: int)
    | JStr(s: string)
    | JArray(items: seq<Json>)
    | JObject(fields: map<string, Json>)

  /** JavaScript's ToBoolean: `undefined`, `null`, `false`, `0` and `''` are falsy. */
  predicate Truthy(v: Json) {
    match v
    case JUndefined => false
    case JNull => false
    case JBool(b) => b
    case JNum(n) => n != 0
    case JStr(s) => s != ""
    case JArray(_) => true
    case JObject(_) => true
  }

  /** Value of an optional string property: absent reads as `undefined`. */
  function OptStr(s: Option<string>): Json {
    match s
    case Some(v) => JStr(v)
    case None => JUndefined
  }

  /** Reads `obj.key` from a plain object: a missing key reads as `undefined`. */
  function Field(fields: map<string, Json>, key: string): Json {
    if key in fields then fields[key] else JUndefined
  }

  /** `v?.key` on a value known to be an object or not: only an object has
      own properties here; anything else reads as `undefined`. */
  function Prop(v: Json, key: string): Json {
    if v.JObject? then Field(v.fields, key) else JUndefined
  }

  // ----- numbers -----

  /** A JavaScript number restricted to integers and NaN. */
  datatype JsNumber = Num(v: int) | NaN

  function Plus(a: JsNumber, b: JsNumber): JsNumber {
    if a.Num? && b.Num? then Num(a.v + b.v) else NaN
  }

  function Minus(a: JsNumber, b: JsNumber): JsNumber {
    if a.Num? && b.Num? then Num(a.v - b.v) else NaN
  }

  function Times(a: JsNumber, b: JsNumber): JsNumber {
    if a.Num? && b.Num? then Num(a.v * b.v) else NaN
  }

  /** The remainder of JavaScript's `%`: it takes the sign of the dividend
      (truncated division), unlike Dafny's Euclidean `%`. */
  function TruncRem10(x: int): (r: int)
    ensures -10 < r < 10
    ensures x >= 0 ==> r == x % 10
    ensures x < 0 ==> r <= 0 && (r == 0 <==> x % 10 == 0)
    ensures (x - r) % 10 == 0
  {
    if x >= 0 then x % 10 else -((-x) % 10)
  }

  /** `a % 10` on a JavaScript number. */
  function Rem10(a: JsNumber): JsNumber {
    if a.Num? then Num(TruncRem10(a.v)) else NaN
  }

  /** `a === b` on numbers: NaN equals nothing, and -0 equals 0, which the
      integer model gets for free. */
  predicate StrictEq(a: JsNumber, b: JsNumber) {
    a.Num? && b.Num? && a.v == b.v
  }

  // ----- characters -----

  predicate IsAsciiDigit(c: char) {
    '0' <= c <= '9'
  }

  function DigitValue(c: char): (d: int)
    requires IsAsciiDigit(c)
    ensures 0 <= d <= 9
  {
    c as int - '0' as int
  }

  /** ECMAScript WhiteSpace and LineTerminator code points: the set matched by
      the regular-expression class `\s` and stripped by `String.prototype.trim`. */
  predicate IsJsWhitespace(c: char) {
    || c == '\t' || c == '\n' || c == '\U{B}' || c == '\U{C}' || c == '\r'
    || c == ' ' || c == '\U{A0}' || c == '\U{1680}'
    || ('\U{2000}' <= c <= '\U{200A}')
    || c == '\U{2028}' || c == '\U{2029}' || c == '\U{202F}' || c == '\U{205F}'
    || c == '\U{3000}' || c == '\U{FEFF}'
  }

  // ----- strings -----

  /** `s.replace(/\D/g, '')`: keeps the ASCII digits of `s`, in order. */
  function DigitsOnly(s: string): (r: string)
    ensures |r| <= |s|
    ensures forall i :: 0 <= i < |r| ==> IsAsciiDigit(r[i])
  {
    if s == [] then []
    else if IsAsciiDigit(s[0]) then [s[0]] + DigitsOnly(s[1..])
    else DigitsOnly(s[1..])
  }

  /** The filter distributes over concatenation, so together with its effect
      on a single character it determines the result completely. */
  lemma {:induction false} DigitsOnlyAppend(a: string, b: string)
    ensures DigitsOnly(a + b) == DigitsOnly(a) + DigitsOnly(b)
  {
    if a == [] {
      assert a + b == b;
    } else {
      assert (a + b)[0] == a[0];
      assert (a + b)[1..] == a[1..] + b;
      DigitsOnlyAppend(a[1..], b);
    }
  }

  /** A string made of digits passes through unchanged. */
  lemma {:induction false} DigitsOnlyKeepsDigitStrings(s: string)
    requires forall i :: 0 <= i < |s| ==> IsAsciiDigit(s[i])
    ensures DigitsOnly(s) == s
  {
    if s != [] {
      DigitsOnlyKeepsDigitStrings(s[1..]);
    }
  }

  /** Filtering twice is filtering once. */
  lemma DigitsOnlyIdempotent(s: string)
    ensures DigitsOnly(DigitsOnly(s)) == DigitsOnly(s)
  {
    DigitsOnlyKeepsDigitStrings(DigitsOnly(s));
  }

  /** The digits kept appear in `s` in the same order. */
  lemma {:induction false} DigitsOnlyIsSubsequence(s: string)
    ensures IsSubsequence(DigitsOnly(s), s)
  {
    if s == [] {
      EmptyIsSubsequence(s);
    } else {
      DigitsOnlyIsSubsequence(s[1..]);
      assert s == [s[0]] + s[1..];
      if IsAsciiDigit(s[0]) {
        SubsequenceCons(s[0], DigitsOnly(s[1..]), s[1..]);
      } else {
        SubsequenceSkip(s[0], DigitsOnly(s[1..]), s[1..]);
      }
    }
  }

  /** `s.slice(0, n)`: a negative end counts back from the end of the string. */
  function Slice0<T>(s: seq<T>, n: int): (r: seq<T>)
    ensures |r| <= |s| && r == s[..|r|]
    ensures n >= 0 ==> |r| == if n < |s| then n else |s|
    ensures n < 0 ==> |r| == if |s| + n > 0 then |s| + n else 0
  {
    if n >= 0 then (if n < |s| then s[..n] else s)
    else (if |s| + n > 0 then s[..|s| + n] else [])
  }

  /** `needle` occurs in `hay` starting at index `i`. */
  predicate OccursAt(hay: string, needle: string, i: nat) {
    i + |needle| <= |hay| && hay[i..i + |needle|] == needle
  }

  /** `hay.includes(needle)`. */
  function Includes(hay: string, needle: string): (r: bool)
    ensures r <==> exists i: nat :: OccursAt(hay, needle, i)
    decreases |hay|
  {
    if |needle| > |hay| then false
    else if hay[..|needle|] == needle then (assert OccursAt(hay, needle, 0); true)
    else
      var rest := Includes(hay[1..], needle);
      assert forall i: nat :: OccursAt(hay[1..], needle, i) <==> OccursAt(hay, needle, i + 1) by {
        forall i: nat ensures OccursAt(hay[1..], needle, i) <==> OccursAt(hay, needle, i + 1) {
          if i + |needle| <= |hay[1..]| {
            assert hay[1..][i..i + |needle|] == hay[i + 1..i + 1 + |needle|];
          }
        }
      }
      assert !OccursAt(hay, needle, 0);
      assert (exists i: nat :: OccursAt(hay, needle, i)) ==> exists i: nat :: OccursAt(hay[1..], needle, i) by {
        if exists i: nat :: OccursAt(hay, needle, i) {
          var i: nat :| OccursAt(hay, needle, i);
          assert i > 0;
          assert OccursAt(hay[1..], needle, i - 1);
        }
      }
      rest
  }

  /** `s.indexOf(c)` for a single character: the first position holding it. */
  function IndexOf(s: string, c: char): (r: Option<nat>)
    ensures r.Some? ==> r.value < |s| && s[r.value] == c && forall k :: 0 <= k < r.value ==> s[k] != c
    ensures r.None? ==> forall k :: 0 <= k < |s| ==> s[k] != c
  {
    if s == [] then None
    else if s[0] == c then Some(0)
    else
      var rest := IndexOf(s[1..], c);
      if rest.Some? then Some(rest.value + 1) else None
  }

  /** `!s.trim()`: the string is empty or consists of whitespace only. */
  predicate IsBlank(s: string) {
    forall i :: 0 <= i < |s| ==> IsJsWhitespace(s[i])
  }

  // ----- number to string -----

  function DigitChar(d: int): (c: char)
    requires 0 <= d <= 9
    ensures IsAsciiDigit(c) && DigitValue(c) == d
  {
    ('0' as int + d) as char
  }

  /** The decimal digits of `n`, without leading zeros (`String(n)` for n >= 0). */
  function NatToDecimal(n: nat): (s: string)
    ensures |s| > 0
    ensures forall i :: 0 <= i < |s| ==> IsAsciiDigit(s[i])
    decreases n
  {
    if n < 10 then [DigitChar(n)] else NatToDecimal(n / 10) + [DigitChar(n % 10)]
  }

  /** `String(i)` for an integer: a minus sign exactly for a negative
      number, followed by digits that read back as its magnitude. */
  function IntToDecimal(i: int): (s: string)
    ensures |s| > 0
    ensures s[0] == '-' <==> i < 0
    ensures i < 0 ==> AllDigits(s[1..]) && DecimalValue(s[1..]) == -i
    ensures i >= 0 ==> AllDigits(s) && DecimalValue(s) == i
  {
    if i < 0 then
      var d := NatToDecimal(-i);
      DecimalRoundTrip(-i);
      assert ("-" + d)[1..] == d;
      "-" + d
    else
      DecimalRoundTrip(i);
      NatToDecimal(i)
  }

  predicate AllDigits(s: string) {
    forall i :: 0 <= i < |s| ==> IsAsciiDigit(s[i])
  }

  /** The value of a string of decimal digits. */
  function DecimalValue(s: string): nat
    requires AllDigits(s)
  {
    if s == [] then 0 else 10 * DecimalValue(s[..|s| - 1]) + DigitValue(s[|s| - 1])
  }

  /** Printing a number and reading it back gives the number. */
  lemma {:induction false} DecimalRoundTrip(n: nat)
    ensures DecimalValue(NatToDecimal(n)) == n
    decreases n
  {
    if n >= 10 {
      DecimalRoundTrip(n / 10);
      var s := NatToDecimal(n);
      assert s[..|s| - 1] == NatToDecimal(n / 10);
    }
  }

  /** String conversion (`String(v)`, which `localStorage.setItem` and
      template literals also apply). An array joins its elements with commas,
      writing `null` and `undefined` elements as empty text. */
  function ToStr(v: Json): string
    decreases v, 1
  {
    match v
    case JUndefined => "undefined"
    case JNull => "null"
    case JBool(b) => if b then "true" else "false"
    case JNum(n) => IntToDecimal(n)
    case JStr(s) => s
    case JArray(items) => JoinItems(items)
    case JObject(_) => "[object Object]"
  }

  function JoinItems(items: seq<Json>): string
    decreases items, 0
  {
    if items == [] then ""
    else
      var first := if items[0].JNull? || items[0].JUndefined? then "" else ToStr(items[0]);
      if |items| == 1 then first else first + "," + JoinItems(items[1..])
  }
}
