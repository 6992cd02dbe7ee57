/**
 * The JSON values the handlers read out of the provider's replies, and the
 * Python operations applied to them: `d.get(key)`, `d.get(key, default)`,
 * truthiness and `str(value)` (which is also what an f-string does).
 * A member of an object is an `Option<Value>`: `None` when the key is absent.
 */
module Json {
  import opened Wrappers

  datatype Value = Null | Bool(b: bool) | Int(i: int) | Str(s: string)

  /** `d.get(key)`: an absent key reads as `None`, the same as a JSON null. */
  function Get(member: Option<Value>): (v: Value)
    ensures member.None? ==> v == Null
    ensures member.Some? ==> v == member.value
  {
    if member.Some? then member.value else Null
  }

  /** `d.get(key, default)`: only an absent key gives the default; a JSON null stays null. */
  function GetOr(member: Option<Value>, default: Value): (v: Value)
    ensures member.None? ==> v == default
    ensures member.Some? ==> v == member.value
  {
    if member.Some? then member.value else default
  }

  /** Python's truthiness of a scalar. */
  predicate Truthy(v: Value)
  {
    match v
    case Null => false
    case Bool(b) => b
    case Int(i) => i != 0
    case Str(s) => s != ""
  }

  function Digit(d: nat): (c: char)
    requires d < 10
    ensures '0' <= c <= '9' && c as int - '0' as int == d
  {
    (d + '0' as int) as char
  }

  predicate IsDigits(s: string)
  {
    forall i :: 0 <= i < |s| ==> '0' <= s[i] <= '9'
  }

  /** The decimal numeral of a natural number, without leading zeros. */
  function Numeral(n: nat): (s: string)
    ensures |s| >= 1 && IsDigits(s)
    decreases n
  {
    if n < 10 then [Digit(n)] else Numeral(n / 10) + [Digit(n % 10)]
  }

  /** `str(i)` for an integer. */
  function IntText(i: int): (s: string)
    ensures |s| >= 1
  {
    if i < 0 then "-" + Numeral(-i) else Numeral(i)
  }

  /** `str(v)`: the text of a string, "None" for null, "True"/"False", a decimal numeral. */
  function PyStr(v: Value): string
  {
    match v
    case Null => "None"
    case Bool(b) => if b then "True" else "False"
    case Int(i) => IntText(i)
    case Str(s) => s
  }

  /** The number a string of digits denotes. */
  function NumeralValue(s: string): (n: nat)
    requires IsDigits(s)
    decreases |s|
  {
    if s == [] then 0
    else NumeralValue(s[..|s| - 1]) * 10 + (s[|s| - 1] as int - '0' as int)
  }

  /** Reading an integer's text back: the inverse of `str(i)`. */
  function IntValue(s: string): int
  {
    if |s| >= 1 && s[0] == '-' && IsDigits(s[1..]) then -(NumeralValue(s[1..]) as int)
    else if IsDigits(s) then NumeralValue(s)
    else 0
  }

  lemma {:induction false} NumeralRoundTrip(n: nat)
    ensures NumeralValue(Numeral(n)) == n
    decreases n
  {
    if n >= 10 {
      NumeralRoundTrip(n / 10);
      var s := Numeral(n);
      assert s[..|s| - 1] == Numeral(n / 10);
    }
  }

  /** `str` on integers can be read back, so two integers with the same text are equal. */
  lemma IntTextRoundTrip(i: int)
    ensures IntValue(IntText(i)) == i
  {
    if i < 0 {
      NumeralRoundTrip(-i);
      assert IntText(i)[1..] == Numeral(-i);
    } else {
      NumeralRoundTrip(i);
      assert IntText(i)[0] != '-';
    }
  }

  /**
   * Comparing `str(v)` with a string: a string value matches only itself, and
   * an integer value matches exactly one text, its decimal numeral.
   */
  lemma PyStrMatches(v: Value, text: string)
    ensures v.Str? ==> (PyStr(v) == text <==> v.s == text)
    ensures v.Int? && PyStr(v) == text ==> IntValue(text) == v.i
  {
    if v.Int? {
      IntTextRoundTrip(v.i);
    }
  }
}
