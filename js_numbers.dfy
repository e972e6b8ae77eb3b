/**
 * The number conversion behind `v > 0` (section 7.2.13 of ECMA-262, IsLessThan):
 * a string goes through StringToNumber (section 7.1.4.1.1), an array through
 * `join(",")` and then StringToNumber, a boolean to 0 or 1, null to 0, undefined and
 * a plain object to NaN. Numbers are reals, so only the sign of the converted value
 * is computed: no rounding, no underflow.
 */
module JsNumbers {
  import opened JsValues

  /** WhiteSpace and LineTerminator of ECMA-262: what StringToNumber trims. */
  predicate IsJsSpace(c: char) {
    || c == '\t' || c == '\n' || c == '\U{000B}' || c == '\U{000C}' || c == '\r' || c == ' '
    || c == '\U{00A0}' || c == '\U{1680}' || ('\U{2000}' <= c <= '\U{200A}')
    || c == '\U{2028}' || c == '\U{2029}' || c == '\U{202F}' || c == '\U{205F}'
    || c == '\U{3000}' || c == '\U{FEFF}'
  }

  /** `s` without its leading white space. */
  function TrimStart(s: string): (r: string)
    ensures |r| <= |s| && r == s[|s| - |r|..]
    ensures r == [] || !IsJsSpace(r[0])
    ensures forall i :: 0 <= i < |s| - |r| ==> IsJsSpace(s[i])
  {
    if s != [] && IsJsSpace(s[0]) then TrimStart(s[1..]) else s
  }

  /** `s` without its trailing white space. */
  function TrimEnd(s: string): (r: string)
    ensures |r| <= |s| && r == s[..|r|]
    ensures r == [] || !IsJsSpace(r[|r| - 1])
    ensures forall i :: |r| <= i < |s| ==> IsJsSpace(s[i])
  {
    if s != [] && IsJsSpace(s[|s| - 1]) then TrimEnd(s[..|s| - 1]) else s
  }

  predicate IsDigit(c: char) {
    '0' <= c <= '9'
  }

  predicate AllDigits(s: string) {
    forall i :: 0 <= i < |s| ==> IsDigit(s[i])
  }

  /** Some character is a digit 1-9 (for hexadecimal, also a-f, A-F). */
  predicate SomeNonZero(s: string) {
    exists i :: 0 <= i < |s| && (('1' <= s[i] <= '9') || ('a' <= s[i] <= 'f') || ('A' <= s[i] <= 'F'))
  }

  /** The position of the first character satisfying `p`, or the length. */
  function FirstWhere(s: string, p: char -> bool): (i: nat)
    ensures i <= |s|
    ensures i < |s| ==> p(s[i])
    ensures forall j :: 0 <= j < i ==> !p(s[j])
  {
    if s == [] || p(s[0]) then 0 else 1 + FirstWhere(s[1..], p)
  }

  predicate IsExponentMark(c: char) {
    c == 'e' || c == 'E'
  }

  predicate IsDot(c: char) {
    c == '.'
  }

  /** The digits of the given radix mark (`x`, `o`, `b`, either case). */
  predicate IsRadixDigit(mark: char, c: char) {
    if mark == 'x' || mark == 'X' then IsDigit(c) || ('a' <= c <= 'f') || ('A' <= c <= 'F')
    else if mark == 'o' || mark == 'O' then '0' <= c <= '7'
    else '0' <= c <= '1'
  }

  predicate IsRadixMark(c: char) {
    c == 'x' || c == 'X' || c == 'o' || c == 'O' || c == 'b' || c == 'B'
  }

  /** `0x…`, `0o…` or `0b…` after its mark: at least one digit of the radix, all of them valid. */
  predicate NonDecimalIsPositive(mark: char, digits: string) {
    && digits != []
    && (forall i :: 0 <= i < |digits| ==> IsRadixDigit(mark, digits[i]))
    && SomeNonZero(digits)
  }

  /** An ExponentPart after its `e`: an optional sign and at least one digit. */
  predicate ValidExponent(x: string) {
    var d := if x != [] && (x[0] == '+' || x[0] == '-') then x[1..] else x;
    d != [] && AllDigits(d)
  }

  /** Digits, optionally a '.' and more digits. */
  predicate ValidMantissa(m: string) {
    var p := FirstWhere(m, IsDot);
    AllDigits(m[..p]) && (p < |m| ==> AllDigits(m[p + 1..]))
  }

  /**
   * A StrUnsignedDecimalLiteral other than `Infinity` denoting a value above zero:
   * a valid mantissa with a nonzero digit and a valid exponent, if any.
   */
  predicate UnsignedIsPositive(u: string) {
    var e := FirstWhere(u, IsExponentMark);
    && ValidMantissa(u[..e])
    && SomeNonZero(u[..e])
    && (e < |u| ==> ValidExponent(u[e + 1..]))
  }

  /** A trimmed StrNumericLiteral denoting a value above zero. */
  predicate LiteralIsPositive(t: string) {
    if t == "Infinity" || t == "+Infinity" then true
    else if |t| >= 2 && t[0] == '0' && IsRadixMark(t[1]) then NonDecimalIsPositive(t[1], t[2..])
    else if t != [] && t[0] == '+' then UnsignedIsPositive(t[1..])
    else UnsignedIsPositive(t)
  }

  /** `Number(s) > 0` */
  predicate StringIsPositive(s: string) {
    LiteralIsPositive(TrimEnd(TrimStart(s)))
  }

  /**
   * `v > 0` for the element of a one-element array, converted through its text:
   * a number's text converts back to the number, `true`, `false`, an object's
   * `[object Object]` convert to NaN, null and undefined to the empty text, 0.
   */
  predicate SoleElementIsPositive(v: Js) {
    match v
    case Num(x) => x > 0.0
    case Str(s) => StringIsPositive(s)
    case Arr(es) => |es| == 1 && SoleElementIsPositive(es[0])
    case _ => false
  }

  /**
   * `v > 0`. An array's text is the texts of its elements joined with ',': with two
   * or more elements it holds a ',', which no numeric literal does, so it is NaN;
   * the empty array's text is empty, so 0.
   */
  predicate IsPositive(v: Js) {
    match v
    case Num(x) => x > 0.0
    case Bool(b) => b
    case Str(s) => StringIsPositive(s)
    case Arr(es) => |es| == 1 && SoleElementIsPositive(es[0])
    case _ => false
  }

  /** The first position satisfying `p` is the one that satisfies it with none before. */
  lemma FirstWhereIs(s: string, p: char -> bool, k: nat)
    requires k <= |s| && (k < |s| ==> p(s[k]))
    requires forall j :: 0 <= j < k ==> !p(s[j])
    ensures FirstWhere(s, p) == k
  {
  }

  /** A text that starts and ends with non-blank characters is its own trimmed text. */
  lemma TrimKeeps(s: string)
    requires s != [] && !IsJsSpace(s[0]) && !IsJsSpace(s[|s| - 1])
    ensures TrimEnd(TrimStart(s)) == s
  {
  }

  /** A trimmed text opening with a digit not followed by a radix mark is a decimal literal. */
  lemma DecimalLiteral(t: string)
    requires t != [] && IsDigit(t[0]) && (|t| >= 2 ==> !IsRadixMark(t[1]))
    ensures LiteralIsPositive(t) == UnsignedIsPositive(t)
  {
    assert t != "Infinity" && t != "+Infinity" by {
      assert "Infinity"[0] == 'I' && "+Infinity"[0] == '+';
    }
  }

  /** Without an exponent, a decimal literal is its mantissa. */
  lemma NoExponent(t: string)
    requires forall i :: 0 <= i < |t| ==> !IsExponentMark(t[i])
    ensures UnsignedIsPositive(t) == (ValidMantissa(t) && SomeNonZero(t))
  {
    FirstWhereIs(t, IsExponentMark, |t|);
    assert t[..|t|] == t;
  }

  /** A plain run of decimal digits with a nonzero digit is above zero. */
  lemma DigitsArePositive(s: string)
    requires s != [] && AllDigits(s) && SomeNonZero(s)
    ensures StringIsPositive(s)
  {
    assert IsDigit(s[0]) && IsDigit(s[|s| - 1]);
    TrimKeeps(s);
    assert |s| >= 2 ==> IsDigit(s[1]);
    DecimalLiteral(s);
    NoExponent(s);
    FirstWhereIs(s, IsDot, |s|);
    assert s[..|s|] == s;
  }

  /**
   * A trimmed text that starts with anything but a digit, '.', '+' or the 'I' of
   * `Infinity` is no numeric literal above zero: '-' makes it negative, any other
   * character makes it NaN.
   */
  lemma NonNumericStartIsNotPositive(t: string)
    requires t != [] && !IsDigit(t[0]) && t[0] != '.' && t[0] != '+' && t[0] != 'I'
    ensures !LiteralIsPositive(t)
  {
    assert t != "Infinity" && t != "+Infinity" by {
      assert "Infinity"[0] == 'I' && "+Infinity"[0] == '+';
    }
    var e := FirstWhere(t, IsExponentMark);
    if e > 0 {
      var m := t[..e];
      assert m[0] == t[0] && !IsDot(m[0]);
      assert FirstWhere(m, IsDot) > 0;
      assert m[..FirstWhere(m, IsDot)][0] == t[0];
      assert !ValidMantissa(m);
    } else {
      assert !SomeNonZero(t[..e]);
    }
    assert !UnsignedIsPositive(t);
  }

  /** A text whose first non-blank character is '-' is never above zero. */
  lemma NegativeIsNotPositive(s: string)
    requires TrimStart(s) != [] && TrimStart(s)[0] == '-'
    ensures !StringIsPositive(s)
  {
    var t := TrimEnd(TrimStart(s));
    if t != [] {
      assert t[0] == '-';
      NonNumericStartIsNotPositive(t);
    }
  }

  /** A text keeps the nonzero digit of its prefix. */
  lemma SomeNonZeroPrefix(a: string, t: string)
    requires a <= t && SomeNonZero(a)
    ensures SomeNonZero(t)
  {
    var k :| 0 <= k < |a| && (('1' <= a[k] <= '9') || ('a' <= a[k] <= 'f') || ('A' <= a[k] <= 'F'));
    assert t[k] == a[k];
  }

  /** Digits, a '.', and digits, with a nonzero digit before the '.', are above zero. */
  lemma FractionIsPositive(a: string, b: string)
    requires a != [] && AllDigits(a) && AllDigits(b) && SomeNonZero(a)
    ensures LiteralIsPositive(a + "." + b)
  {
    var t := a + "." + b;
    forall i | 0 <= i < |t| ensures IsDigit(t[i]) || IsDot(t[i]) {
      if i < |a| { assert t[i] == a[i]; }
      else if i > |a| { assert t[i] == b[i - |a| - 1]; }
    }
    assert |t| >= 2 ==> !IsRadixMark(t[1]);
    DecimalLiteral(t);
    NoExponent(t);
    forall j | 0 <= j < |a| ensures !IsDot(t[j]) {
      assert t[j] == a[j];
    }
    FirstWhereIs(t, IsDot, |a|);
    assert t[..|a|] == a && t[|a| + 1..] == b;
    assert ValidMantissa(t);
    SomeNonZeroPrefix(a, t);
  }

  /** A leading blank does not change a text's number. */
  lemma LeadingBlankIgnored(c: char, s: string)
    requires IsJsSpace(c)
    ensures StringIsPositive([c] + s) == StringIsPositive(s)
  {
    assert ([c] + s)[1..] == s;
  }

  /** Prices given as digit text, or as a one-element array, count as numbers. */
  lemma NumericTextPrices()
    ensures IsPositive(Str("5")) && IsPositive(Arr([Str("3")])) && IsPositive(Arr([Num(5.0)]))
  {
    assert AllDigits("5") && SomeNonZero("5") by { assert "5"[0] == '5'; }
    assert AllDigits("3") && SomeNonZero("3") by { assert "3"[0] == '3'; }
    DigitsArePositive("5");
    DigitsArePositive("3");
  }

  /** A price with a fractional part, as text. */
  lemma DecimalTextPrice()
    ensures IsPositive(Str("12.50"))
  {
    assert AllDigits("12") && AllDigits("50") && SomeNonZero("12") by {
      assert "12"[0] == '1' && "12"[1] == '2' && "50"[0] == '5' && "50"[1] == '0';
    }
    FractionIsPositive("12", "50");
    var t := "12" + "." + "50";
    assert t == "12.50";
    assert t[0] == '1' && t[4] == '0';
    TrimKeeps(t);
  }

  /** A text of white space only trims to the empty text, which converts to 0. */
  lemma BlankIsNotPositive(s: string)
    requires forall i :: 0 <= i < |s| ==> IsJsSpace(s[i])
    ensures !StringIsPositive(s)
  {
    assert TrimEnd(TrimStart(s)) == [];
    assert !SomeNonZero([]);
    FirstWhereIs([], IsExponentMark, 0);
    assert [] != "Infinity" && [] != "+Infinity";
  }

  /** Empty and blank text convert to 0. */
  lemma BlankTextIsNotPositive()
    ensures !IsPositive(Str("")) && !IsPositive(Str(" "))
  {
    BlankIsNotPositive("");
    assert " "[0] == ' ';
    BlankIsNotPositive(" ");
  }

  /** Zero as text converts to 0. */
  lemma ZeroTextIsNotPositive()
    ensures !IsPositive(Str("0"))
  {
    assert "0"[0] == '0';
    TrimKeeps("0");
    FirstWhereIs("0", IsExponentMark, 1);
    assert "0"[..1] == "0";
    assert !SomeNonZero("0");
  }

  /** Negative text, the empty array, longer arrays and null are not above zero. */
  lemma OtherNonPositivePrices()
    ensures !IsPositive(Str("-5")) && !IsPositive(Arr([])) && !IsPositive(Arr([Num(1.0), Num(2.0)])) && !IsPositive(Null)
  {
    assert "-5"[0] == '-';
    NegativeIsNotPositive("-5");
  }

  /** A price formatted with a currency sign is NaN, so it is not above zero. */
  lemma CurrencyTextPriceIsNotPositive()
    ensures !IsPositive(Str("$5.00"))
  {
    var t := "$5.00";
    assert t[0] == '$' && t[|t| - 1] == '0';
    TrimKeeps(t);
    NonNumericStartIsNotPositive(t);
  }
}
