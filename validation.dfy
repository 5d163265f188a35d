/** The integer validators: validate_int accepts an int (a bool is one) as
    it is and otherwise converts with int(), turning int()'s ValueError into
    its own message; validate_positive_int also refuses anything <= 0. */
module Validation {
  import opened Wrappers
  import opened Text
  import opened Values
  import opened Exceptions

  const NotAnInteger := "Value must be an integer"
  const NotPositive := "Value must be a positive integer"
  /** The start of int()'s own message, which validate_int replaces. */
  const InvalidLiteral := "invalid literal for int() with base 10"
  /** sys.get_int_max_str_digits() as CPython 3.11 and later set it: int()
      of a str with more digits than this raises ValueError, and so does
      str() of an int that would need more. */
  const MaxStrDigits := 4300

  /** The ValueError message int() gives past the digit limit. */
  function LimitMessage(digits: nat): (m: string)
    ensures StartsWith(m, "Exceeds the limit (4300 digits) for integer string conversion")
  {
    "Exceeds the limit (4300 digits) for integer string conversion: value has " + Decimal(digits)
      + " digits; use sys.set_int_max_str_digits() to increase the limit"
  }

  /** The number of decimal digits in s. */
  function DigitCount(s: string): (n: nat)
    ensures n <= |s|
    ensures (forall i :: 0 <= i < |s| ==> IsDigit(s[i])) ==> n == |s|
  {
    if s == [] then 0 else (if IsDigit(s[0]) then 1 else 0) + DigitCount(s[1..])
  }

  /** The whitespace int() ignores around its argument (ASCII only). */
  predicate IsSpace(c: char)
  {
    c == ' ' || c == '\t' || c == '\n' || c == '\r' || c == 11 as char || c == 12 as char
  }

  predicate AllSpace(s: string) { forall i :: 0 <= i < |s| ==> IsSpace(s[i]) }

  /** s.lstrip() */
  function LTrim(s: string): (r: string)
    ensures |r| <= |s| && r == s[|s| - |r|..]
    ensures r == [] || !IsSpace(r[0])
    ensures AllSpace(s[..|s| - |r|])
  {
    if s != [] && IsSpace(s[0]) then LTrim(s[1..]) else s
  }

  /** s.rstrip() */
  function RTrim(s: string): (r: string)
    ensures |r| <= |s| && r == s[..|r|]
    ensures r == [] || !IsSpace(r[|r| - 1])
    ensures AllSpace(s[|r|..])
  {
    if s != [] && IsSpace(s[|s| - 1]) then RTrim(s[..|s| - 1]) else s
  }

  /** s.strip() */
  function Trim(s: string): string
  {
    RTrim(LTrim(s))
  }

  /** The body of a base-10 literal: digits, with single underscores
      allowed only between two digits. */
  predicate DigitGroups(s: string)
  {
    && |s| > 0 && IsDigit(s[0]) && IsDigit(s[|s| - 1])
    && (forall i :: 0 <= i < |s| ==> IsDigit(s[i]) || s[i] == '_')
    && (forall i :: 0 <= i < |s| - 1 ==> s[i] == '_' ==> s[i + 1] != '_')
  }

  /** The characters of s other than '_'. */
  function DropUnderscores(s: string): (r: string)
    ensures (forall i :: 0 <= i < |s| ==> IsDigit(s[i]) || s[i] == '_') ==>
      forall i :: 0 <= i < |r| ==> IsDigit(r[i])
    ensures (forall i :: 0 <= i < |s| ==> s[i] != '_') ==> r == s
  {
    if s == [] then [] else (if s[0] == '_' then [] else [s[0]]) + DropUnderscores(s[1..])
  }

  /** The literal int() reads once whitespace is stripped: an optional
      sign, then digit groups; None where int() raises ValueError. */
  function ParseLiteral(t: string): (r: Option<int>)
    ensures r.Some? ==> |t| > 0
  {
    if |t| > 0 && (t[0] == '-' || t[0] == '+') then
      if DigitGroups(t[1..]) then
        var magnitude := DigitsValue(DropUnderscores(t[1..])) as int;
        Some(if t[0] == '-' then -magnitude else magnitude)
      else None
    else if DigitGroups(t) then Some(DigitsValue(DropUnderscores(t)) as int)
    else None
  }

  /** int(s) for a str s: surrounding whitespace, an optional sign, then
      digit groups; None where int() raises ValueError. What it reads has
      at least one digit, and is negative only behind a '-'. */
  function ParseInt(s: string): (r: Option<int>)
    ensures r.Some? ==> |Trim(s)| > 0 && DigitCount(Trim(s)) > 0
    ensures r.Some? && r.value < 0 ==> Trim(s)[0] == '-'
    ensures r.Some? && Trim(s)[0] == '-' ==> r.value <= 0
  {
    ParseLiteral(Trim(s))
  }

  /** The int a validated value stands for; True and False are 1 and 0. */
  function IntOf(v: Value): int
    requires v.VInt? || v.VBool?
  {
    if v.VInt? then v.i else if v.b then 1 else 0
  }

  /** int() of a text literal: its parse, ValueError when it does not
      parse, and the limit's ValueError when it has too many digits. */
  function ConvertText(s: string): (r: Result<int, Error>)
    ensures r.Ok? <==> ParseInt(s).Some? && DigitCount(s) <= MaxStrDigits
    ensures r.Ok? ==> r.value == ParseInt(s).value
    ensures ParseInt(s).None? ==> r == Err(ValueError(InvalidLiteral))
    ensures ParseInt(s).Some? && DigitCount(s) > MaxStrDigits ==> r == Err(ValueError(LimitMessage(DigitCount(s))))
  {
    if ParseInt(s).None? then Err(ValueError(InvalidLiteral))
    else if DigitCount(s) > MaxStrDigits then Err(ValueError(LimitMessage(DigitCount(s))))
    else Ok(ParseInt(s).value)
  }

  /** int(v) for a value that is not an int: strs and ASCII bytes are parsed
      (within the digit limit), non-ASCII bytes cannot be, and other kinds
      raise TypeError. */
  function Convert(v: Value): (r: Result<int, Error>)
    requires !v.VInt? && !v.VBool?
    ensures v.VStr? ==> r == ConvertText(v.s)
    ensures v.VBytes? && (forall i :: 0 <= i < |v.bytes| ==> v.bytes[i] < 128) ==> r == ConvertText(AsciiChars(v.bytes))
    ensures r.Err? ==> r.error.ValueError? || r.error.TypeError?
    ensures r.Err? && r.error.ValueError? ==> v.VStr? || v.VBytes?
  {
    match v
    case VStr(s) => ConvertText(s)
    case VBytes(bs) =>
      if forall i :: 0 <= i < |bs| ==> bs[i] < 128 then ConvertText(AsciiChars(bs))
      else Err(ValueError(InvalidLiteral))
    case _ =>
      Err(TypeError("int() argument must be a string, a bytes-like object or a real number, not '" + TypeName(v) + "'"))
  }

  /** validate_int(v): an int or bool comes back unchanged; anything else
      becomes the int int() makes of it; a ValueError from int() is replaced
      by "Value must be an integer" and any other error passes through. */
  function ValidateInt(v: Value): (r: Result<Value, Error>)
    ensures v.VInt? || v.VBool? ==> r == Ok(v)
    ensures r.Ok? ==> r.value.VInt? || r.value.VBool?
    ensures v.VStr? ==> (r.Ok? <==> ParseInt(v.s).Some? && DigitCount(v.s) <= MaxStrDigits)
    ensures v.VStr? && r.Ok? ==> r.value == VInt(ParseInt(v.s).value)
    ensures r.Err? && r.error.ValueError? ==> r.error.message == NotAnInteger
    ensures v.VNone? || v.VList? || v.VDict? || v.VObject? ==> r.Err? && r.error.TypeError?
  {
    if v.VInt? || v.VBool? then Ok(v)
    else
      match Convert(v)
      case Ok(n) => Ok(VInt(n))
      case Err(ValueError(_)) => Err(ValueError(NotAnInteger))
      case Err(e) => Err(e)
  }

  /** validate_positive_int(v): validate_int's result when it stands for a
      number above zero; "Value must be a positive integer" when it stands
      for zero or less; validate_int's own error otherwise. */
  function ValidatePositiveInt(v: Value): (r: Result<Value, Error>)
    ensures r.Ok? ==> r == ValidateInt(v) && IntOf(r.value) > 0
    ensures ValidateInt(v).Err? ==> r == ValidateInt(v)
    ensures ValidateInt(v).Ok? && IntOf(ValidateInt(v).value) <= 0 ==> r == Err(ValueError(NotPositive))
  {
    match ValidateInt(v)
    case Err(e) => Err(e)
    case Ok(w) => if IntOf(w) <= 0 then Err(ValueError(NotPositive)) else Ok(w)
  }

  /** Validating a validated value changes nothing. */
  lemma ValidateIntIdempotent(v: Value)
    requires ValidateInt(v).Ok?
    ensures ValidateInt(ValidateInt(v).value) == ValidateInt(v)
  {
  }

  lemma DecimalChars(n: int)
    ensures var s := Decimal(n);
      && |s| > 0 && !IsSpace(s[0]) && !IsSpace(s[|s| - 1])
      && forall i :: 0 <= i < |s| ==> s[i] != '_'
  {
  }

  /** The digits str() writes for a natural number form a literal body
      with no underscores to drop. */
  lemma NatDigitsGroups(m: nat)
    ensures DigitGroups(NatDigits(m)) && DropUnderscores(NatDigits(m)) == NatDigits(m)
  {
    var d := NatDigits(m);
    assert forall i :: 0 <= i < |d| ==> d[i] != '_';
  }

  /** int(str(n)) == n. */
  lemma ParseIntDecimal(n: int)
    ensures ParseInt(Decimal(n)) == Some(n)
  {
    if n < 0 {
      NegativeDecimal(n);
    } else {
      NaturalDecimal(n);
    }
  }

  lemma NaturalDecimal(n: int)
    requires n >= 0
    ensures ParseInt(Decimal(n)) == Some(n)
  {
    var d := Decimal(n);
    assert d == NatDigits(n);
    assert IsDigit(d[0]) && IsDigit(d[|d| - 1]);
    NatDigitsGroups(n);
    var v := DigitsValue(d);
    calc {
      ParseInt(d);
      == { ParseStripped(d); }
      ParseLiteral(d);
      == { ParseUnsigned(d); }
      Some(v as int);
      == { NatDigitsValue(n); }
      Some(n);
    }
  }

  lemma NegativeDecimal(n: int)
    requires n < 0
    ensures ParseInt(Decimal(n)) == Some(n)
  {
    var m: nat := -n;
    NegativeLiteral(m);
    assert Decimal(n) == "-" + NatDigits(m);
    DecimalChars(n);
    ParseStripped(Decimal(n));
  }

  /** '-' and the digits of m read back as -m. */
  lemma NegativeLiteral(m: nat)
    ensures ParseLiteral("-" + NatDigits(m)) == Some(-(m as int))
  {
    var d := NatDigits(m);
    NatDigitsGroups(m);
    NatDigitsValue(m);
    ParseNegative("-" + d, d, m);
  }

  /** validate_int(str(n)) is the int n, for every n that str() can write
      (str() itself raises past the digit limit). */
  lemma ValidateIntDecimal(n: int)
    requires DigitCount(Decimal(n)) <= MaxStrDigits
    ensures ValidateInt(VStr(Decimal(n))) == Ok(VInt(n))
  {
    ParseIntDecimal(n);
  }

  /** A literal past the digit limit fails validation like any other
      unparsable value, with validate_int's own message. */
  lemma ValidateIntTooLong(s: string)
    requires ParseInt(s).Some? && DigitCount(s) > MaxStrDigits
    ensures ValidateInt(VStr(s)) == Err(ValueError(NotAnInteger))
    ensures ValidatePositiveInt(VStr(s)) == Err(ValueError(NotAnInteger))
  {
  }

  /** validate_positive_int(str(n)) succeeds exactly when n > 0. */
  lemma ValidatePositiveDecimal(n: int)
    requires DigitCount(Decimal(n)) <= MaxStrDigits
    ensures ValidatePositiveInt(VStr(Decimal(n))).Ok? <==> n > 0
    ensures n > 0 ==> ValidatePositiveInt(VStr(Decimal(n))) == Ok(VInt(n))
  {
    ValidateIntDecimal(n);
  }

  /** A bool is an int: True passes both validators unchanged, False fails
      the positive check. */
  lemma ValidateBools()
    ensures ValidatePositiveInt(VBool(true)) == Ok(VBool(true))
    ensures ValidatePositiveInt(VBool(false)) == Err(ValueError(NotPositive))
  {
  }

  /** Leading whitespace is ignored by lstrip. */
  lemma {:induction false} LTrimSpacePrefix(a: string, x: string)
    requires AllSpace(a)
    ensures LTrim(a + x) == LTrim(x)
  {
    if a != [] {
      assert (a + x)[1..] == a[1..] + x;
      LTrimSpacePrefix(a[1..], x);
    } else {
      assert a + x == x;
    }
  }

  /** Trailing whitespace is ignored by rstrip. */
  lemma {:induction false} RTrimSpaceSuffix(x: string, b: string)
    requires AllSpace(b)
    ensures RTrim(x + b) == RTrim(x)
  {
    if b != [] {
      assert (x + b)[..|x + b| - 1] == x + b[..|b| - 1];
      RTrimSpaceSuffix(x, b[..|b| - 1]);
    } else {
      assert x + b == x;
    }
  }

  /** lstrip of x + b: either x keeps a non-space and b rides along, or x is
      all whitespace and so is what lstrip leaves of b. */
  lemma {:induction false} LTrimAppend(x: string, b: string)
    requires AllSpace(b)
    ensures LTrim(x + b) == LTrim(x) + b || (LTrim(x) == [] && AllSpace(LTrim(x + b)))
  {
    if x == [] {
      assert x + b == b;
    } else if IsSpace(x[0]) {
      assert (x + b)[1..] == x[1..] + b;
      LTrimAppend(x[1..], b);
    }
  }

  /** strip() does not see whitespace around its argument. */
  lemma TrimPadded(a: string, s: string, b: string)
    requires AllSpace(a) && AllSpace(b)
    ensures Trim(a + s + b) == Trim(s)
  {
    assert a + s + b == a + (s + b);
    LTrimSpacePrefix(a, s + b);
    LTrimAppend(s, b);
    if LTrim(s + b) == LTrim(s) + b {
      RTrimSpaceSuffix(LTrim(s), b);
    }
  }

  /** int() does not see whitespace around its argument. */
  lemma ParseIntPadded(a: string, s: string, b: string)
    requires AllSpace(a) && AllSpace(b)
    ensures ParseInt(a + s + b) == ParseInt(s)
  {
    TrimPadded(a, s, b);
  }

  /** strip() leaves a string that neither starts nor ends with whitespace. */
  lemma TrimUnpadded(s: string)
    requires s == [] || (!IsSpace(s[0]) && !IsSpace(s[|s| - 1]))
    ensures Trim(s) == s
  {
    assert LTrim(s) == s;
  }

  lemma ThousandDigits()
    ensures DropUnderscores("1_000") == "1000"
  {
    DropLeadingDigit();
    DropLeadingUnderscore();
    ZerosKept();
    ThousandText();
  }

  lemma ThousandText()
    ensures "1" + "000" == "1000"
  {
  }

  lemma DropLeadingDigit()
    ensures DropUnderscores("1_000") == "1" + DropUnderscores("_000")
  {
    assert "1_000"[1..] == "_000";
  }

  lemma DropLeadingUnderscore()
    ensures DropUnderscores("_000") == DropUnderscores("000")
  {
    assert "_000"[1..] == "000";
  }

  lemma ZerosKept()
    ensures DropUnderscores("000") == "000"
  {
    assert forall i :: 0 <= i < |"000"| ==> "000"[i] != '_';
  }

  lemma ThousandValue()
    ensures DigitsValue("1000") == 1000
  {
    assert "1000"[..3] == "100" && "100"[..2] == "10" && "10"[..1] == "1";
  }

  lemma ThousandGroups()
    ensures DigitGroups("1_000")
  {
  }

  /** Text that neither starts nor ends with whitespace is read as it is. */
  lemma ParseStripped(s: string)
    requires s == [] || (!IsSpace(s[0]) && !IsSpace(s[|s| - 1]))
    ensures ParseInt(s) == ParseLiteral(s)
  {
    TrimUnpadded(s);
  }

  /** An unsigned literal reads as its digits. */
  lemma ParseUnsigned(s: string)
    requires DigitGroups(s)
    ensures ParseLiteral(s) == Some(DigitsValue(DropUnderscores(s)) as int)
  {
  }

  /** A '-' followed by a literal body without underscores reads as the
      negated value of its digits. */
  lemma ParseNegative(s: string, t: string, v: nat)
    requires |s| > 0 && s[0] == '-' && s[1..] == t
    requires DigitGroups(t) && DropUnderscores(t) == t && DigitsValue(t) == v
    ensures ParseLiteral(s) == Some(-(v as int))
  {
  }

  /** Single underscores between digits are allowed and ignored. */
  lemma ParseIntUnderscore()
    ensures ParseInt("1_000") == Some(1000)
  {
    ParseStripped("1_000");
    ThousandGroups();
    ParseUnsigned("1_000");
    ThousandDigits();
    ThousandValue();
  }

  /** A leading '+' is accepted. */
  lemma ParseIntPlus()
    ensures ParseInt("+7") == Some(7)
  {
    ParseStripped("+7");
    PlusSevenText();
    ParsePositive("+7", "7", 7);
  }

  lemma PlusSevenText()
    ensures |"+7"| > 0 && "+7"[0] == '+' && "+7"[1..] == "7"
    ensures DigitGroups("7") && DropUnderscores("7") == "7" && DigitsValue("7") == 7
  {
    assert "7"[..0] == [];
  }

  /** A '+' followed by a literal body without underscores reads as the
      value of its digits. */
  lemma ParsePositive(s: string, t: string, v: nat)
    requires |s| > 0 && s[0] == '+' && s[1..] == t
    requires DigitGroups(t) && DropUnderscores(t) == t && DigitsValue(t) == v
    ensures ParseLiteral(s) == Some(v as int)
  {
  }

  /** A character that is neither a digit nor '_' spoils a literal. */
  lemma StrayCharacter(s: string, i: nat)
    requires i < |s| && !IsDigit(s[i]) && s[i] != '_'
    ensures !DigitGroups(s)
  {
  }

  /** Two underscores in a row spoil a literal. */
  lemma DoubleUnderscore(s: string, i: nat)
    requires i + 1 < |s| && s[i] == '_' && s[i + 1] == '_'
    ensures !DigitGroups(s)
  {
  }

  /** int() refuses "1__0", "_1" and "1.5". */
  lemma RejectDoubleUnderscore()
    ensures ParseInt("1__0") == None
  {
    ParseStripped("1__0");
    DoubleUnderscore("1__0", 1);
  }

  lemma RejectLeadingUnderscore()
    ensures ParseInt("_1") == None
  {
    ParseStripped("_1");
    LeadingUnderscoreText();
    UnsignedRefused("_1");
  }

  lemma LeadingUnderscoreText()
    ensures |"_1"| > 0 && "_1"[0] == '_' && !DigitGroups("_1")
  {
    assert !IsDigit("_1"[0]);
  }

  /** Text with no sign in front that is not digit groups is refused. */
  lemma UnsignedRefused(t: string)
    requires |t| > 0 && t[0] != '-' && t[0] != '+' && !DigitGroups(t)
    ensures ParseLiteral(t) == None
  {
  }

  lemma RejectPoint()
    ensures ParseInt("1.5") == None
  {
    ParseStripped("1.5");
    StrayCharacter("1.5", 1);
  }

  /** A string of whitespace only has no digits to read. */
  lemma RejectBlank()
    ensures ParseInt(" ") == None
  {
    TrimPadded(" ", "", "");
    assert " " + "" + "" == " ";
    TrimUnpadded("");
  }
}
