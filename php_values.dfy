/** The PHP values that flow through the fixture loader and the generic model:
    configuration entries, fixture parameters and `_meta` overrides. */
module PhpValues {

  import opened Wrappers

  /** A PHP value. PHP arrays appear either as a list (integer keys 0..n-1) or
      as a string-keyed map; floats and objects are not part of this model. */
  datatype Value =
    | Null
    | Bool(b: bool)
    | Int(i: int)
    | Str(s: string)
    | List(items: seq<Value>)
    | Map(entries: map<string, Value>)

  /** A PHP `TypeError`, naming the argument or key that had the wrong type. */
  datatype TypeError = TypeError(name: string)

  /** `is_array($v)`. */
  predicate IsArray(v: Value) {
    v.List? || v.Map?
  }

  /** The values a parameter declared `array` accepts. */
  type PhpArray = v: Value | IsArray(v) witness List([])

  /** The values PHP's `(bool)` cast turns into `false` (floats left out). */
  const FalsyValues: set<Value> :=
    {Null, Bool(false), Int(0), Str(""), Str("0"), List([]), Map(map[])}

  /** PHP's `(bool)` cast. */
  function Truthy(v: Value): (r: bool)
    ensures !r <==> v in FalsyValues
  {
    match v
    case Null => false
    case Bool(b) => b
    case Int(i) => i != 0
    case Str(s) => s != "" && s != "0"
    case List(items) => items != []
    case Map(entries) => entries != map[]
  }

  predicate IsDigit(c: char) {
    '0' <= c <= '9'
  }

  /** The decimal digits of `n`, without leading zeros. */
  function Digits(n: nat): (r: string)
    ensures r != []
    ensures forall k :: 0 <= k < |r| ==> IsDigit(r[k])
    ensures r[0] == '0' ==> n == 0
    decreases n
  {
    if n < 10 then [('0' as int + n) as char]
    else Digits(n / 10) + [('0' as int + n % 10) as char]
  }

  /** The number a string of decimal digits denotes. */
  function DigitsValue(s: string): nat
    requires forall k :: 0 <= k < |s| ==> IsDigit(s[k])
  {
    if s == [] then 0
    else
      assert IsDigit(s[|s| - 1]);
      var d: nat := s[|s| - 1] as int - '0' as int;
      DigitsValue(s[..|s| - 1]) * 10 + d
  }

  /** `Digits` loses nothing: reading the digits back gives the number. */
  lemma {:induction false} DigitsRoundTrip(n: nat)
    ensures DigitsValue(Digits(n)) == n
  {
    if n >= 10 {
      var d := Digits(n / 10);
      var r := Digits(n);
      assert r[..|r| - 1] == d;
      DigitsRoundTrip(n / 10);
    }
  }

  /** How PHP turns an int into a string: an optional minus sign, then digits. */
  function DecimalString(i: int): (r: string)
    ensures r != []
    ensures r[0] == '-' <==> i < 0
  {
    if i < 0 then "-" + Digits(-i) else Digits(i)
  }

  /** The sign and the digits of `DecimalString(i)` give back `i`. */
  lemma DecimalStringRoundTrip(i: int)
    ensures var r := DecimalString(i);
      if i < 0 then r[1..] == Digits(-i) && 0 - DigitsValue(r[1..]) == i
      else DigitsValue(r) == i
  {
    if i < 0 {
      assert DecimalString(i)[1..] == Digits(-i);
      DigitsRoundTrip(-i);
    } else {
      DigitsRoundTrip(i);
    }
  }

  /** A non-null value returned from a function declared `?string`, in PHP's
      coercive typing mode: strings pass, ints and bools are converted, arrays
      are a `TypeError`. */
  function ReturnAsString(v: Value, name: string): (r: Result<string, TypeError>)
    requires !v.Null?
    ensures r.Err? <==> IsArray(v)
    ensures v.Str? ==> r == Ok(v.s)
    ensures v.Int? ==> r == Ok(DecimalString(v.i))
    ensures v.Bool? ==> r == Ok(if v.b then "1" else "")
  {
    match v
    case Str(s) => Ok(s)
    case Int(i) => Ok(DecimalString(i))
    case Bool(b) => Ok(if b then "1" else "")
    case _ => Err(TypeError(name))
  }
}
