/** The parts of JavaScript's value semantics that the login script relies on:
    truthiness (`if (x)`, `x || y`), conversion to a string (assigning to
    `textContent`, `localStorage.setItem`, `"Bearer " + token`) and
    `String.prototype.trim`. */
module Js {

  /** The integers a JavaScript number holds exactly: magnitude at most
      `Number.MAX_SAFE_INTEGER`, 2^53 - 1. */
  const MaxSafeInteger: int := 9007199254740991

  type SafeInteger = n: int | -MaxSafeInteger <= n <= MaxSafeInteger

  /** A JavaScript value as far as the script inspects it. Numbers are taken to
      be safe integers; an object or array carries the text `String(v)` gives
      for it. */
  datatype JsValue =
    | Undefined
    | Null
    | Bool(b: bool)
    | Number(n: SafeInteger)
    | Str(s: string)
    | Composite(rendering: string)

  /** ToBoolean: what `if (v)` and `v || w` test. The falsy values are
      undefined, null, false, 0 and the empty string. */
  function Truthy(v: JsValue): (b: bool)
    ensures !b <==> v == Undefined || v == Null || v == Bool(false) || v == Number(0) || v == Str("")
  {
    match v
    case Undefined => false
    case Null => false
    case Bool(b) => b
    case Number(n) => n != 0
    case Str(s) => s != ""
    case Composite(_) => true
  }

  /** ToString: the text a value becomes when it is shown or stored. A string
      is itself, a number its decimal numeral, which reads back as the number. */
  function Text(v: JsValue): (r: string)
    ensures v.Str? ==> r == v.s
    ensures v.Number? ==> |r| > 0 && NumeralValue(r) == v.n
    ensures v.Undefined? ==> r == "undefined"
    ensures v.Null? ==> r == "null"
    ensures v.Bool? ==> r == if v.b then "true" else "false"
  {
    match v
    case Undefined => "undefined"
    case Null => "null"
    case Bool(b) => if b then "true" else "false"
    case Number(n) => NumberTextRoundTrip(n); NumberText(n)
    case Str(s) => s
    case Composite(rendering) => rendering
  }

  predicate IsDigit(c: char) {
    '0' <= c <= '9'
  }

  function DigitChar(d: nat): (c: char)
    requires d < 10
    ensures IsDigit(c) && c as int - '0' as int == d
  {
    ('0' as int + d) as char
  }

  /** The decimal numeral of a natural number, without leading zeros. */
  function NatDigits(n: nat): (r: string)
    ensures |r| > 0 && forall i :: 0 <= i < |r| ==> IsDigit(r[i])
    ensures r[0] == '0' ==> n == 0
    decreases n
  {
    if n < 10 then [DigitChar(n)] else NatDigits(n / 10) + [DigitChar(n % 10)]
  }

  /** The number a string of decimal digits denotes. */
  function DigitsValue(s: string): nat
    requires forall i :: 0 <= i < |s| ==> IsDigit(s[i])
  {
    if s == [] then 0
    else
      assert IsDigit(s[|s| - 1]);
      DigitsValue(s[..|s| - 1]) * 10 + (s[|s| - 1] as int - '0' as int)
  }

  /** The numeral of a natural number reads back as that number. */
  lemma {:induction false} NatDigitsRoundTrip(n: nat)
    ensures DigitsValue(NatDigits(n)) == n
  {
    if n >= 10 {
      var s := NatDigits(n / 10);
      NatDigitsRoundTrip(n / 10);
      assert (s + [DigitChar(n % 10)])[..|s|] == s;
    }
  }

  /** The value of an optionally signed decimal numeral. */
  function NumeralValue(s: string): int
    requires |s| > 0
  {
    var magnitude := s[1..];
    if s[0] == '-' && forall i :: 0 <= i < |magnitude| ==> IsDigit(magnitude[i]) then
      -(DigitsValue(magnitude) as int)
    else if forall i :: 0 <= i < |s| ==> IsDigit(s[i]) then DigitsValue(s) as int
    else 0
  }

  /** The text of an integer reads back as that integer. */
  lemma NumberTextRoundTrip(n: SafeInteger)
    ensures NumeralValue(NumberText(n)) == n
  {
    if n < 0 {
      NatDigitsRoundTrip(-n);
    } else {
      NatDigitsRoundTrip(n);
    }
  }

  /** `String(n)` for a safe integer `n`: a minus sign exactly when `n` is negative,
      then the numeral of its magnitude. */
  function NumberText(n: SafeInteger): (r: string)
    ensures |r| > 0 && (r[0] == '-' <==> n < 0)
    ensures n < 0 ==> r[1..] == NatDigits(-n)
    ensures n >= 0 ==> r == NatDigits(n)
  {
    if n < 0 then "-" + NatDigits(-n) else NatDigits(n)
  }

  /** The code points `trim` removes: ECMAScript's WhiteSpace (tab, vertical
      tab, form feed, space, no-break space, byte order mark and the Unicode
      space separators) and LineTerminator (LF, CR, LS, PS) productions. */
  predicate IsWhitespace(c: char) {
    var u := c as int;
    u == 0x09 || u == 0x0A || u == 0x0B || u == 0x0C || u == 0x0D || u == 0x20
    || u == 0xA0 || u == 0x1680 || (0x2000 <= u <= 0x200A) || u == 0x2028
    || u == 0x2029 || u == 0x202F || u == 0x205F || u == 0x3000 || u == 0xFEFF
  }

  /** `s` without its leading whitespace: a suffix of `s` that is empty or
      starts with a character other than whitespace. */
  function TrimStart(s: string): (r: string)
    ensures |r| <= |s| && r == s[|s| - |r|..]
    ensures r == [] || !IsWhitespace(r[0])
  {
    if s != [] && IsWhitespace(s[0]) then TrimStart(s[1..]) else s
  }

  /** `s` without its trailing whitespace: a prefix of `s` that is empty or
      ends with a character other than whitespace. */
  function TrimEnd(s: string): (r: string)
    ensures |r| <= |s| && r == s[..|r|]
    ensures r == [] || !IsWhitespace(r[|r| - 1])
  {
    if s != [] && IsWhitespace(s[|s| - 1]) then TrimEnd(s[..|s| - 1]) else s
  }

  /** `s.trim()`: an infix of `s` that neither starts nor ends with
      whitespace. */
  function Trim(s: string): (r: string)
    ensures var k := |s| - |TrimStart(s)|; k + |r| <= |s| && r == s[k..k + |r|]
    ensures r != [] ==> !IsWhitespace(r[0]) && !IsWhitespace(r[|r| - 1])
  {
    TrimEnd(TrimStart(s))
  }

  /** Everything `TrimStart` drops is whitespace. */
  lemma {:induction false} TrimStartDropsWhitespace(s: string)
    ensures forall i :: 0 <= i < |s| - |TrimStart(s)| ==> IsWhitespace(s[i])
  {
    if s != [] && IsWhitespace(s[0]) {
      TrimStartDropsWhitespace(s[1..]);
      forall i | 0 < i < |s| - |TrimStart(s)| ensures IsWhitespace(s[i]) {
        assert s[i] == s[1..][i - 1];
      }
    }
  }

  /** Everything `TrimEnd` drops is whitespace. */
  lemma {:induction false} TrimEndDropsWhitespace(s: string)
    ensures forall i :: |TrimEnd(s)| <= i < |s| ==> IsWhitespace(s[i])
  {
    if s != [] && IsWhitespace(s[|s| - 1]) {
      TrimEndDropsWhitespace(s[..|s| - 1]);
      forall i | |TrimEnd(s)| <= i < |s| - 1 ensures IsWhitespace(s[i]) {
        assert s[i] == s[..|s| - 1][i];
      }
    }
  }

  /** `s.trim()` removes exactly the whitespace at both ends: every character
      outside the kept infix is whitespace, so every other character is kept. */
  lemma TrimKeepsAllElse(s: string)
    ensures var k := |s| - |TrimStart(s)|;
      forall i :: 0 <= i < |s| && !IsWhitespace(s[i]) ==> k <= i < k + |Trim(s)|
  {
    var t := TrimStart(s);
    var k := |s| - |t|;
    TrimStartDropsWhitespace(s);
    TrimEndDropsWhitespace(t);
    forall i | k + |Trim(s)| <= i < |s| ensures IsWhitespace(s[i]) {
      assert s[i] == t[i - k];
    }
  }

  /** A field value trims to the empty string exactly when it is all whitespace
      (this is what `if (!email)` and `if (!otp)` test). */
  lemma TrimEmptyIff(s: string)
    ensures Trim(s) == [] <==> forall i :: 0 <= i < |s| ==> IsWhitespace(s[i])
  {
    TrimKeepsAllElse(s);
  }
}
