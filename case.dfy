/** snake_to_pascal: split at '_', capitalise each piece (first character
    upper case, the rest lower case, as str.capitalize does on ASCII), and
    concatenate. Case mapping is modelled for ASCII letters only. */
module Case {
  import opened Text

  function Upper(c: char): (u: char)
    ensures u != '_' <==> c != '_'
  {
    if 'a' <= c <= 'z' then (c as int - 32) as char else c
  }

  function Lower(c: char): (l: char)
    ensures l != '_' <==> c != '_'
  {
    if 'A' <= c <= 'Z' then (c as int + 32) as char else c
  }

  /** str.capitalize */
  function Capitalize(w: string): (r: string)
    ensures |r| == |w|
    ensures forall i :: 0 <= i < |r| ==> (r[i] == '_' <==> w[i] == '_')
  {
    if w == [] then [] else [Upper(w[0])] + seq(|w| - 1, i requires 0 <= i < |w| - 1 => Lower(w[i + 1]))
  }

  /** s.split('_'): always at least one piece; no piece holds '_'. */
  function Split(s: string): (parts: seq<string>)
    ensures |parts| > 0
    ensures forall i :: 0 <= i < |parts| ==> '_' !in parts[i]
  {
    if s == [] then [""]
    else
      var rest := Split(s[1..]);
      if s[0] == '_' then [""] + rest else [[s[0]] + rest[0]] + rest[1..]
  }

  function Concat(parts: seq<string>): string
  {
    if parts == [] then "" else parts[0] + Concat(parts[1..])
  }

  function CapitalizeAll(parts: seq<string>): (r: seq<string>)
    ensures |r| == |parts| && forall i :: 0 <= i < |parts| ==> r[i] == Capitalize(parts[i])
  {
    seq(|parts|, i requires 0 <= i < |parts| => Capitalize(parts[i]))
  }

  /** The class name for a snake_case name: it holds no '_', and (for
      ASCII input) every other character of the input is kept, one for one. */
  function SnakeToPascal(s: string): (r: string)
    ensures '_' !in r
    ensures |r| == |s| - CountChar(s, '_')
  {
    CapsHaveNoUnderscore(s);
    ConcatLength(CapitalizeAll(Split(s)));
    SplitLength(s);
    Concat(CapitalizeAll(Split(s)))
  }

  /** Splitting then joining with '_' gives the input back. */
  lemma {:induction false} SplitJoin(s: string)
    ensures Join("_", Split(s)) == s
  {
    if s != [] {
      var rest := Split(s[1..]);
      SplitJoin(s[1..]);
      if s[0] == '_' {
        assert Split(s) == [""] + rest;
        assert Join("_", Split(s)) == "" + "_" + Join("_", rest);
      } else {
        var parts := [[s[0]] + rest[0]] + rest[1..];
        if |rest| == 1 {
          assert Join("_", parts) == [s[0]] + rest[0];
        } else {
          assert parts[1..] == rest[1..];
          assert Join("_", parts) == [s[0]] + rest[0] + "_" + Join("_", rest[1..]);
        }
      }
    }
  }

  /** The pieces of a + "_" + b are those of a followed by those of b. */
  lemma {:induction false} SplitAppend(a: string, b: string)
    ensures Split(a + "_" + b) == Split(a) + Split(b)
  {
    if a == [] {
      assert a + "_" + b == "_" + b;
      assert ("_" + b)[1..] == b;
    } else {
      assert (a + "_" + b)[1..] == a[1..] + "_" + b;
      SplitAppend(a[1..], b);
    }
  }

  lemma {:induction false} ConcatAppend(p: seq<string>, q: seq<string>)
    ensures Concat(p + q) == Concat(p) + Concat(q)
  {
    if p == [] {
      assert p + q == q;
    } else {
      assert (p + q)[1..] == p[1..] + q;
      ConcatAppend(p[1..], q);
    }
  }

  lemma {:induction false} ConcatNoUnderscore(p: seq<string>)
    requires forall i :: 0 <= i < |p| ==> '_' !in p[i]
    ensures '_' !in Concat(p)
  {
    if p != [] {
      ConcatNoUnderscore(p[1..]);
    }
  }

  function SumLengths(p: seq<string>): nat
  {
    if p == [] then 0 else |p[0]| + SumLengths(p[1..])
  }

  lemma {:induction false} ConcatLength(p: seq<string>)
    ensures |Concat(p)| == SumLengths(p)
  {
    if p != [] {
      ConcatLength(p[1..]);
    }
  }

  lemma {:induction false} SplitLength(s: string)
    ensures SumLengths(Split(s)) + CountChar(s, '_') == |s|
    ensures SumLengths(CapitalizeAll(Split(s))) == SumLengths(Split(s))
  {
    if s != [] {
      SplitLength(s[1..]);
      var rest := Split(s[1..]);
      assert rest == [rest[0]] + rest[1..];
      if s[0] != '_' {
        var parts := [[s[0]] + rest[0]] + rest[1..];
        assert parts[1..] == rest[1..];
      }
      CapitalizeLength(Split(s));
    }
  }

  lemma {:induction false} CapitalizeLength(p: seq<string>)
    ensures SumLengths(CapitalizeAll(p)) == SumLengths(p)
  {
    if p != [] {
      CapitalizeLength(p[1..]);
      assert CapitalizeAll(p)[1..] == CapitalizeAll(p[1..]);
    }
  }

  lemma CapsHaveNoUnderscore(s: string)
    ensures '_' !in Concat(CapitalizeAll(Split(s)))
  {
    var caps := CapitalizeAll(Split(s));
    forall i | 0 <= i < |caps| ensures '_' !in caps[i] {
      assert '_' !in Split(s)[i];
    }
    ConcatNoUnderscore(caps);
  }

  /** The pieces are converted in order: a + "_" + b converts to the
      conversion of a followed by that of b. */
  lemma PascalAppend(a: string, b: string)
    ensures SnakeToPascal(a + "_" + b) == SnakeToPascal(a) + SnakeToPascal(b)
  {
    SplitAppend(a, b);
    CapitalizeAllAppend(Split(a), Split(b));
    ConcatAppend(CapitalizeAll(Split(a)), CapitalizeAll(Split(b)));
  }

  lemma CapitalizeAllAppend(p: seq<string>, q: seq<string>)
    ensures CapitalizeAll(p + q) == CapitalizeAll(p) + CapitalizeAll(q)
  {
  }

  /** A name without '_' is simply capitalised; "" stays "". */
  lemma {:induction false} PascalSingleWord(s: string)
    requires '_' !in s
    ensures SnakeToPascal(s) == Capitalize(s)
  {
    SplitSingleWord(s);
    assert Concat([Capitalize(s)]) == Capitalize(s) + Concat([]);
  }

  lemma {:induction false} SplitSingleWord(s: string)
    requires '_' !in s
    ensures Split(s) == [s]
  {
    if s != [] {
      SplitSingleWord(s[1..]);
      assert [s[0]] + s[1..] == s;
    }
  }

  /** Repeated or edge underscores give empty pieces, which add nothing. */
  lemma EmptyPiecesVanish(a: string, b: string)
    ensures SnakeToPascal(a + "__" + b) == SnakeToPascal(a) + SnakeToPascal(b)
  {
    var ub := "_" + b;
    assert a + "__" + b == a + "_" + ub;
    PascalAppend(a, ub);
    LeadingUnderscore(b);
  }

  /** A leading underscore gives an empty first piece. */
  lemma LeadingUnderscore(b: string)
    ensures SnakeToPascal("_" + b) == SnakeToPascal(b)
  {
    PascalAppend("", b);
    assert "" + "_" + b == "_" + b;
    PascalSingleWord("");
    assert Capitalize("") == "";
  }
}
