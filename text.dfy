/** String helpers shared by the model: decimal rendering and parsing of
    integers (Python's str(int) and int(str)), Python's strip family with a
    single-character argument, joining, and substring search. Strings are
    sequences of characters; no Unicode case mapping or normalisation. */
module Text {
  import opened Wrappers

  predicate IsDigit(c: char) { '0' <= c <= '9' }

  function DigitChar(d: nat): (c: char)
    requires d < 10
    ensures IsDigit(c)
  {
    ['0', '1', '2', '3', '4', '5', '6', '7', '8', '9'][d]
  }

  function DigitValue(c: char): (d: nat)
    requires IsDigit(c)
    ensures d < 10
  {
    c as int - '0' as int
  }

  /** The decimal digits of n, most significant first, without leading zeros. */
  function NatDigits(n: nat): (s: string)
    ensures |s| > 0 && forall i :: 0 <= i < |s| ==> IsDigit(s[i])
    ensures |s| > 1 ==> s[0] != '0'
  {
    if n < 10 then [DigitChar(n)] else NatDigits(n / 10) + [DigitChar(n % 10)]
  }

  /** Python's str() of an int. */
  function Decimal(n: int): string
  {
    if n < 0 then "-" + NatDigits(-n) else NatDigits(n)
  }

  /** The value of a non-empty run of decimal digits. */
  function DigitsValue(s: string): nat
    requires forall i :: 0 <= i < |s| ==> IsDigit(s[i])
  {
    if s == [] then 0 else DigitsValue(s[..|s| - 1]) * 10 + DigitValue(s[|s| - 1])
  }

  predicate AllDigits(s: string) { |s| > 0 && forall i :: 0 <= i < |s| ==> IsDigit(s[i]) }

  /** Reads back a string produced by Decimal: an optional '-' and digits. */
  function ParseDecimal(s: string): Option<int>
  {
    if |s| > 0 && s[0] == '-' && AllDigits(s[1..]) then Some(0 - DigitsValue(s[1..]) as int)
    else if AllDigits(s) then Some(DigitsValue(s) as int)
    else None
  }

  lemma DigitCharValue(d: nat)
    requires d < 10
    ensures DigitValue(DigitChar(d)) == d
  {
  }

  lemma {:induction false} NatDigitsValue(n: nat)
    ensures DigitsValue(NatDigits(n)) == n
  {
    if n < 10 {
      DigitCharValue(n);
    } else {
      var s := NatDigits(n);
      NatDigitsValue(n / 10);
      DigitCharValue(n % 10);
      assert s[..|s| - 1] == NatDigits(n / 10);
    }
  }

  /** Decimal rendering is read back exactly: str(n) determines n. */
  lemma DecimalRoundTrip(n: int)
    ensures ParseDecimal(Decimal(n)) == Some(n)
  {
    if n < 0 {
      var m: nat := -n;
      assert Decimal(n) == "-" + NatDigits(m);
      NatDigitsValue(m);
      ParseSigned(NatDigits(m));
    } else {
      NatDigitsValue(n);
      ParseUnsigned(NatDigits(n));
    }
  }

  /** Digits alone read as their value. */
  lemma ParseUnsigned(digits: string)
    requires AllDigits(digits)
    ensures ParseDecimal(digits) == Some(DigitsValue(digits) as int)
  {
    assert IsDigit(digits[0]);
  }

  /** A '-' followed by digits reads as minus their value. */
  lemma ParseSigned(digits: string)
    requires AllDigits(digits)
    ensures ParseDecimal("-" + digits) == Some(0 - DigitsValue(digits) as int)
  {
    assert ("-" + digits)[1..] == digits;
  }

  /** Python's s.rstrip(c): drops every trailing c. */
  function RStrip(s: string, c: char): (r: string)
    ensures |r| <= |s| && r == s[..|r|]
    ensures r == [] || r[|r| - 1] != c
    ensures forall i :: |r| <= i < |s| ==> s[i] == c
  {
    if s != [] && s[|s| - 1] == c then RStrip(s[..|s| - 1], c) else s
  }

  /** Python's s.lstrip(c): drops every leading c. */
  function LStrip(s: string, c: char): (r: string)
    ensures |r| <= |s| && r == s[|s| - |r|..]
    ensures r == [] || r[0] != c
    ensures forall i :: 0 <= i < |s| - |r| ==> s[i] == c
  {
    if s != [] && s[0] == c then LStrip(s[1..], c) else s
  }

  /** Every character of s is c. */
  predicate Only(s: string, c: char)
  {
    forall i :: 0 <= i < |s| ==> s[i] == c
  }

  /** s is core with nothing but c characters on either side of it. */
  ghost predicate PaddedWith(s: string, core: string, c: char)
  {
    exists k :: 0 <= k <= |s| - |core| && s[k..k + |core|] == core && Only(s[..k], c) && Only(s[k + |core|..], c)
  }

  /** Python's s.strip(c): s with the c characters on both ends removed,
      so that what is left neither starts nor ends with c. */
  function Strip(s: string, c: char): (r: string)
    ensures r == [] || (r[0] != c && r[|r| - 1] != c)
    ensures PaddedWith(s, r, c)
    ensures r == [] <==> Only(s, c)
  {
    StripPadded(s, c);
    LStrip(RStrip(s, c), c)
  }

  /** What lstrip leaves of what rstrip leaves sits in s between runs of c. */
  lemma StripPadded(s: string, c: char)
    ensures PaddedWith(s, LStrip(RStrip(s, c), c), c)
    ensures LStrip(RStrip(s, c), c) == [] <==> Only(s, c)
  {
    RStripParts(s, c);
    LStripParts(RStrip(s, c), c);
    PaddedOf(s, RStrip(s, c), LStrip(RStrip(s, c), c), c);
  }

  lemma RStripParts(s: string, c: char)
    ensures Only(s[|RStrip(s, c)|..], c)
  {
  }

  lemma LStripParts(t: string, c: char)
    ensures Only(t[..|t| - |LStrip(t, c)|], c)
  {
  }

  /** s is t followed by c's, and t is c's followed by r, where t does not end in c. */
  lemma PaddedOf(s: string, t: string, r: string, c: char)
    requires |t| <= |s| && t == s[..|t|] && Only(s[|t|..], c)
    requires |r| <= |t| && r == t[|t| - |r|..] && Only(t[..|t| - |r|], c)
    requires t == [] || t[|t| - 1] != c
    ensures PaddedWith(s, r, c)
    ensures r == [] <==> Only(s, c)
  {
    PaddedWitness(s, t, r, c);
    AllPadding(s, t, r, c);
    LastKept(s, t, c);
  }

  /** r sits in s at |t| - |r|, with c's on both sides. */
  lemma PaddedWitness(s: string, t: string, r: string, c: char)
    requires |t| <= |s| && t == s[..|t|] && Only(s[|t|..], c)
    requires |r| <= |t| && r == t[|t| - |r|..] && Only(t[..|t| - |r|], c)
    ensures PaddedWith(s, r, c)
  {
    var k := |t| - |r|;
    assert s[k..k + |r|] == r;
    assert s[..k] == t[..k];
    assert s[k + |r|..] == s[|t|..];
  }

  /** When nothing is left between the two runs of c, s is c's only. */
  lemma AllPadding(s: string, t: string, r: string, c: char)
    requires |t| <= |s| && t == s[..|t|] && Only(s[|t|..], c)
    requires |r| <= |t| && r == t[|t| - |r|..] && Only(t[..|t| - |r|], c)
    ensures r == [] ==> Only(s, c)
  {
    if r == [] {
      forall i | 0 <= i < |s| ensures s[i] == c {
        if i < |t| {
          assert s[i] == t[..|t| - |r|][i];
        } else {
          assert s[i] == s[|t|..][i - |t|];
        }
      }
    }
  }

  /** A t that does not end in c, taken from the front of s, is empty when s is all c. */
  lemma LastKept(s: string, t: string, c: char)
    requires |t| <= |s| && t == s[..|t|]
    requires t == [] || t[|t| - 1] != c
    ensures Only(s, c) ==> t == []
  {
    if t != [] {
      assert s[|t| - 1] == t[|t| - 1];
    }
  }

  /** Python's sep.join(parts). */
  function Join(sep: string, parts: seq<string>): string
  {
    if parts == [] then ""
    else if |parts| == 1 then parts[0]
    else parts[0] + sep + Join(sep, parts[1..])
  }

  predicate StartsWith(s: string, prefix: string) { |prefix| <= |s| && s[..|prefix|] == prefix }

  /** Whether pat occurs in s at position i. */
  predicate OccursAt(s: string, pat: string, i: nat) { i + |pat| <= |s| && s[i..i + |pat|] == pat }

  /** Python's s.find(pat), None standing for -1: the first position where pat occurs. */
  function Find(s: string, pat: string, from: nat := 0): (r: Option<nat>)
    requires from <= |s|
    decreases |s| - from
    ensures r.Some? ==> from <= r.value && OccursAt(s, pat, r.value)
    ensures r.Some? ==> forall j :: from <= j < r.value ==> !OccursAt(s, pat, j)
    ensures r.None? ==> forall j :: from <= j <= |s| ==> !OccursAt(s, pat, j)
  {
    if OccursAt(s, pat, from) then Some(from)
    else if from == |s| then None
    else Find(s, pat, from + 1)
  }

  function CountChar(s: string, c: char): nat
  {
    if s == [] then 0 else (if s[0] == c then 1 else 0) + CountChar(s[1..], c)
  }

  lemma CountCharAppend(a: string, b: string, c: char)
    ensures CountChar(a + b, c) == CountChar(a, c) + CountChar(b, c)
  {
    if a != [] {
      assert (a + b)[1..] == a[1..] + b;
      CountCharAppend(a[1..], b, c);
    } else {
      assert a + b == b;
    }
  }
}
