/** Decoded JSON values, as `response.json()` hands them to the bot, and the
    few pieces of Python behaviour on them that the bot relies on. */
module Json {

  /** A decoded JSON document. Objects become Python dicts, arrays lists. */
  datatype Json =
    | Null
    | Bool(b: bool)
    | Int(i: int)
    | Str(s: string)
    | List(items: seq<Json>)
    | Object(fields: map<string, Json>)

  /** Python's name for the type of a decoded value, as it appears in the
      interpreter's own error messages. */
  function TypeName(j: Json): string
  {
    match j
    case Null => "NoneType"
    case Bool(_) => "bool"
    case Int(_) => "int"
    case Str(_) => "str"
    case List(_) => "list"
    case Object(_) => "dict"
  }

  /** `d.get(key, default)` on a dict. */
  function Get(fields: map<string, Json>, key: string, default: Json): Json
  {
    if key in fields then fields[key] else default
  }

  /** `needle` occurs in `haystack` starting at index `k`. */
  predicate OccursAt(needle: string, haystack: string, k: int)
  {
    0 <= k && k + |needle| <= |haystack| && haystack[k..k + |needle|] == needle
  }

  /** `needle in haystack` for two Python strings: a substring test. */
  predicate IsSubstring(needle: string, haystack: string)
  {
    exists k | 0 <= k <= |haystack| - |needle| :: OccursAt(needle, haystack, k)
  }

  function DigitChar(d: nat): (c: char)
    requires d < 10
    ensures '0' <= c <= '9' && c as int - '0' as int == d
  {
    ('0' as int + d) as char
  }

  /** Decimal digits of a natural number, most significant first. */
  function Digits(n: nat): (r: string)
    ensures |r| >= 1
    ensures forall k | 0 <= k < |r| :: '0' <= r[k] <= '9'
    ensures |r| > 1 ==> r[0] != '0'
    decreases n
  {
    if n < 10 then [DigitChar(n)] else Digits(n / 10) + [DigitChar(n % 10)]
  }

  /** The number a string of decimal digits denotes. */
  function DecimalValue(s: string): nat
    requires forall k | 0 <= k < |s| :: '0' <= s[k] <= '9'
  {
    if s == [] then 0
    else DecimalValue(s[..|s| - 1]) * 10 + (s[|s| - 1] as int - '0' as int)
  }

  /** Reading back the decimal digits of `n` gives `n`. */
  lemma {:induction false} DigitsRoundTrip(n: nat)
    ensures DecimalValue(Digits(n)) == n
  {
    if n >= 10 {
      DigitsRoundTrip(n / 10);
      var d, c := Digits(n / 10), DigitChar(n % 10);
      assert Digits(n) == d + [c];
      assert (d + [c])[..|d|] == d;
      assert DecimalValue(d + [c]) == DecimalValue(d) * 10 + n % 10;
    }
  }

  /** How an f-string renders a decoded value: strings verbatim, integers in
      decimal, `True`/`False` and `None` for the constants. Lists and dicts
      are rendered by a placeholder only. */
  function Format(j: Json): (r: string)
    ensures j.Str? ==> r == j.s
    ensures j.Int? && j.i >= 0 ==> r == Digits(j.i) && DecimalValue(r) == j.i
    ensures j.Int? ==> |r| >= 1
    ensures j.Int? && j.i < 0 ==> r[0] == '-' && r[1..] == Digits(-j.i) && DecimalValue(r[1..]) == -j.i
    ensures j.Null? ==> r == "None"
    ensures j.Bool? ==> r == (if j.b then "True" else "False")
  {
    match j
    case Str(s) => s
    case Int(i) =>
      DigitsRoundTrip(if i < 0 then -i else i);
      if i < 0 then "-" + Digits(-i) else Digits(i)
    case Bool(b) => if b then "True" else "False"
    case Null => "None"
    case List(_) => "[...]"
    case Object(_) => "{...}"
  }
}
