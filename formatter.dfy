/** The console/file log formatter: it rewrites a record whose message has
    no '%' placeholder by appending its arguments, picks a format string
    from the record's `log_type` and `api_response_code`, wraps the level
    name in an ANSI colour when colouring is on, and removes every ANSI
    colour sequence from the output when it is off. */
module LogFormatter {
  import opened Wrappers
  import opened Text
  import opened Values
  import opened Dicts

  const Esc: char := 27 as char
  const Reset: string := [Esc] + "[0m"

  const DefaultFmt := "%(asctime)s - %(levelname)s - %(message)s"
  const UserFmt :=
    "%(asctime)s - %(levelname)s - [TX: %(transaction_id)s] "
    + "- [Service: %(service)s] - [Caller: %(caller)s] "
    + "- [User: %(user_id)s] - [URI: %(request_uri)s] - %(message)s"
  const DataFmt :=
    "%(asctime)s - %(levelname)s - [Data: %(data_id)s] "
    + "- [Service: %(service)s] - [Caller: %(caller)s] "
    + "- [URI: %(request_uri)s] - %(message)s"
  const ResponseSuffix := " - [Response: %(api_response_code)s]"

  predicate EndsWith(s: string, suffix: string) { |suffix| <= |s| && s[|s| - |suffix|..] == suffix }

  /** record.args: the tuple of the logging call's arguments, or the one
      mapping the call passed on its own. */
  datatype Args = ArgTuple(items: seq<Value>) | ArgMapping(entries: Dict<string, Value>)

  /** How LogRecord stores the call's arguments: a lone non-empty dict
      becomes record.args itself; anything else is kept as the tuple. */
  function RecordArgs(call: seq<Value>): (a: Args)
    ensures a.ArgMapping? <==> |call| == 1 && call[0].VDict? && call[0].entries != []
    ensures a.ArgTuple? ==> a.items == call
    ensures a.ArgMapping? ==> a.entries == call[0].entries
  {
    if |call| == 1 && call[0].VDict? && call[0].entries != [] then ArgMapping(call[0].entries)
    else ArgTuple(call)
  }

  /** What `for arg in record.args` visits: the tuple's items, or the
      mapping's keys. */
  function Elements(a: Args): (e: seq<Value>)
    ensures a.ArgTuple? ==> e == a.items
    ensures a.ArgMapping? ==> |e| == |a.entries| && forall i :: 0 <= i < |e| ==> e[i] == VStr(a.entries[i].0)
  {
    match a
    case ArgTuple(items) => items
    case ArgMapping(entries) => seq(|entries|, i requires 0 <= i < |entries| => VStr(entries[i].0))
  }

  /** A LogRecord as the formatter sees it: msg, args, levelname, and the
      extra attributes it looks up by name (log_type, api_response_code). */
  class LogRecord {
    var msg: string
    var args: Args
    var levelname: string
    var attrs: Dict<string, Value>

    /** The record of a logging call with these positional arguments. */
    constructor(msg: string, call: seq<Value>, levelname: string, attrs: Dict<string, Value>)
      ensures this.msg == msg && this.args == RecordArgs(call) && this.levelname == levelname && this.attrs == attrs
    {
      this.msg := msg;
      this.args := RecordArgs(call);
      this.levelname := levelname;
      this.attrs := attrs;
    }
  }

  /** Whether the arguments are appended to the message: record.args is
      truthy and msg has no '%'. */
  predicate NeedsRewrite(msg: string, args: Args)
  {
    |Elements(args)| > 0 && '%' !in msg
  }

  /** The message after the rewrite: msg, a space, and the str() of every
      element of record.args separated by spaces. */
  function Rewritten(msg: string, args: Args): (m: string)
    ensures StartsWith(m, msg + " ")
    ensures CountChar(m, '%') == CountChar(msg, '%') + CountChar(Join(" ", ArgStrs(Elements(args))), '%')
  {
    CountCharAppend(msg + " ", Join(" ", ArgStrs(Elements(args))), '%');
    CountCharAppend(msg, " ", '%');
    msg + " " + Join(" ", ArgStrs(Elements(args)))
  }

  function ArgStrs(args: seq<Value>): (strs: seq<string>)
    ensures |strs| == |args| && forall i :: 0 <= i < |args| ==> strs[i] == Values.Str(args[i])
  {
    seq(|args|, i requires 0 <= i < |args| => Values.Str(args[i]))
  }

  /** The format for a record with these extra attributes: the user format
      when log_type is "user", the data format for any other log_type, the
      default without one; the response suffix when api_response_code is
      set to something other than None. */
  function ChooseFormat(attrs: Dict<string, Value>): (f: string)
    ensures HasResponseCode(attrs) ==> f in [UserFmt + ResponseSuffix, DataFmt + ResponseSuffix, DefaultFmt + ResponseSuffix]
    ensures !HasResponseCode(attrs) ==> f in [UserFmt, DataFmt, DefaultFmt]
  {
    var base :=
      if "log_type" in Keys(attrs) then
        (if Get(attrs, "log_type") == Some(VStr("user")) then UserFmt else DataFmt)
      else DefaultFmt;
    if HasResponseCode(attrs) then base + ResponseSuffix else base
  }

  /** getattr(record, "api_response_code", None) is not None */
  predicate HasResponseCode(attrs: Dict<string, Value>)
  {
    GetOr(attrs, "api_response_code", VNone) != VNone
  }

  /** The colour code for a level, "" for a level without one. */
  function Colour(level: string): (c: string)
    ensures c != "" <==> level in {"DEBUG", "INFO", "WARNING", "ERROR", "CRITICAL"}
  {
    if level == "DEBUG" then [Esc] + "[34m"
    else if level == "INFO" then [Esc] + "[32m"
    else if level == "WARNING" then [Esc] + "[33m"
    else if level == "ERROR" then [Esc] + "[31m"
    else if level == "CRITICAL" then [Esc] + "[1;31m"
    else ""
  }

  /** The levelname a coloured formatter puts in the record. */
  function ColouredLevel(level: string): (r: string)
    ensures Colour(level) == "" ==> r == level
    ensures Colour(level) != "" ==> StartsWith(r, Colour(level)) && EndsWith(r, Reset) && |r| == |Colour(level)| + |level| + |Reset|
  {
    var c := Colour(level);
    if c != "" then c + level + Reset else level
  }

  predicate IsParamChar(c: char) { IsDigit(c) || c == ';' }

  /** The length of the ANSI sequence ESC '[' [0-9;]* 'm' at the start of s,
      if one is there. Because the run of digits and ';' is taken whole and
      'm' is neither, this is the only way the pattern can match at 0. */
  function EscapeAt(s: string): (n: Option<nat>)
    ensures n.Some? ==> 3 <= n.value <= |s| && s[0] == Esc && s[1] == '[' && s[n.value - 1] == 'm'
    ensures n.Some? ==> forall k :: 2 <= k < n.value - 1 ==> IsParamChar(s[k])
  {
    if |s| >= 3 && s[0] == Esc && s[1] == '[' then
      var end := ParamRunEnd(s, 2);
      if end < |s| && s[end] == 'm' then Some(end + 1) else None
    else None
  }

  /** The first position at or after i that is not a digit or ';'. */
  function ParamRunEnd(s: string, i: nat): (j: nat)
    requires i <= |s|
    ensures i <= j <= |s| && (j < |s| ==> !IsParamChar(s[j]))
    ensures forall k :: i <= k < j ==> IsParamChar(s[k])
    decreases |s| - i
  {
    if i < |s| && IsParamChar(s[i]) then ParamRunEnd(s, i + 1) else i
  }

  /** ANSI_ESCAPE.sub("", s): scanning from the left, every ANSI colour
      sequence is dropped and every other character kept. */
  function StripAnsi(s: string): (r: string)
    ensures |r| <= |s|
    decreases |s|
  {
    if s == [] then []
    else match EscapeAt(s)
      case Some(n) => StripAnsi(s[n..])
      case None => [s[0]] + StripAnsi(s[1..])
  }

  class Formatter {
    const colored: bool
    /** self._style._fmt: the format the logging machinery will apply. */
    var styleFmt: string

    constructor(colored: bool)
      ensures this.colored == colored && styleFmt == DefaultFmt
    {
      this.colored := colored;
      styleFmt := DefaultFmt;
    }

    /** format(record). `render` stands for logging.Formatter.format: what
        it makes of the chosen format and the record as rewritten. */
    method Format(record: LogRecord, render: (string, string, string, Args) -> string) returns (output: string)
      modifies this, record
      ensures NeedsRewrite(old(record.msg), old(record.args)) ==>
        record.msg == Rewritten(old(record.msg), old(record.args)) && record.args == ArgTuple([])
      ensures !NeedsRewrite(old(record.msg), old(record.args)) ==>
        record.msg == old(record.msg) && record.args == old(record.args)
      ensures styleFmt == ChooseFormat(record.attrs)
      ensures record.levelname == if colored then ColouredLevel(old(record.levelname)) else old(record.levelname)
      ensures record.attrs == old(record.attrs)
      ensures var rendered := render(styleFmt, record.levelname, record.msg, record.args);
        output == if colored then rendered else StripAnsi(rendered)
    {
      var elements := Elements(record.args);
      if |elements| > 0 && '%' !in record.msg {
        var extra := Join(" ", ArgStrs(elements));
        record.msg := record.msg + " " + extra;
        record.args := ArgTuple([]);
      }

      var fmt;
      if "log_type" in Keys(record.attrs) {
        fmt := if GetOr(record.attrs, "log_type", VNone) == VStr("user") then UserFmt else DataFmt;
      } else {
        fmt := DefaultFmt;
      }
      if GetOr(record.attrs, "api_response_code", VNone) != VNone {
        fmt := fmt + ResponseSuffix;
      }
      assert fmt == ChooseFormat(record.attrs);
      styleFmt := fmt;

      if colored {
        var lvl := record.levelname;
        var color := "";
        if lvl == "DEBUG" {
          color := [Esc] + "[34m";
        } else if lvl == "INFO" {
          color := [Esc] + "[32m";
        } else if lvl == "WARNING" {
          color := [Esc] + "[33m";
        } else if lvl == "ERROR" {
          color := [Esc] + "[31m";
        } else if lvl == "CRITICAL" {
          color := [Esc] + "[1;31m";
        }
        assert color == Colour(lvl);
        if color != "" {
          record.levelname := color + lvl + Reset;
        }
      }

      output := render(styleFmt, record.levelname, record.msg, record.args);
      if !colored {
        output := StripAnsi(output);
      }
    }
  }

  /** After the rewrite the record has no arguments, so a second pass
      leaves it as it is. */
  lemma RewriteOnce(msg: string, args: Args)
    requires NeedsRewrite(msg, args)
    ensures !NeedsRewrite(Rewritten(msg, args), ArgTuple([]))
  {
  }

  /** The rewritten message has no '%' placeholder exactly when no argument
      brings one in. */
  lemma RewrittenPercentFree(msg: string, args: Args)
    requires NeedsRewrite(msg, args)
    ensures '%' !in Rewritten(msg, args) <==> '%' !in Join(" ", ArgStrs(Elements(args)))
  {
    var m := Rewritten(msg, args);
    CountCharZero(msg);
    CountCharZero(m);
    CountCharZero(Join(" ", ArgStrs(Elements(args))));
  }

  /** A call whose only argument is a non-empty dict appends the dict's
      keys, in order, not its str(). */
  lemma MappingArgsAppendKeys(msg: string, e: Dict<string, Value>)
    requires e != [] && '%' !in msg
    ensures NeedsRewrite(msg, RecordArgs([VDict(e)]))
    ensures ArgStrs(Elements(RecordArgs([VDict(e)]))) == seq(|e|, i requires 0 <= i < |e| => e[i].0)
  {
  }

  /** logger.info("done", {"a": 1}) is written as "done a". */
  lemma MappingArgsExample()
    ensures Rewritten("done", RecordArgs([VDict([("a", VInt(1))])])) == "done a"
  {
    var strs := ArgStrs(Elements(RecordArgs([VDict([("a", VInt(1))])])));
    assert strs == ["a"];
    assert Join(" ", strs) == "a";
  }

  lemma {:induction false} CountCharZero(s: string)
    ensures CountChar(s, '%') == 0 <==> '%' !in s
  {
    if s != [] {
      CountCharZero(s[1..]);
      assert s == [s[0]] + s[1..];
    }
  }

  /** The response suffix ends the format exactly when api_response_code
      is set. */
  lemma ResponseSuffixIff(attrs: Dict<string, Value>)
    ensures EndsWith(ChooseFormat(attrs), ResponseSuffix) <==> HasResponseCode(attrs)
  {
    var f := ChooseFormat(attrs);
    if !HasResponseCode(attrs) {
      assert f[|f| - 1] == 's';
      assert ResponseSuffix[|ResponseSuffix| - 1] == ']';
    } else {
      assert f[|f| - |ResponseSuffix|..] == ResponseSuffix;
    }
  }

  /** Two strings that differ at i do not start with one another. */
  lemma Mismatch(f: string, p: string, i: nat)
    requires i < |f| && i < |p| && f[i] != p[i]
    ensures !StartsWith(f, p)
  {
  }

  lemma SelectsFormat(base: string, attrs: Dict<string, Value>)
    requires base == UserFmt || base == DataFmt || base == DefaultFmt
    requires ChooseFormat(attrs) == base || ChooseFormat(attrs) == base + ResponseSuffix
    ensures StartsWith(ChooseFormat(attrs), UserFmt) <==> base == UserFmt
    ensures StartsWith(ChooseFormat(attrs), DataFmt) <==> base == DataFmt
    ensures StartsWith(ChooseFormat(attrs), DefaultFmt) <==> base == DefaultFmt
  {
    var f := ChooseFormat(attrs);
    assert f[..|base|] == base;
    assert UserFmt[31] == 'T' && DataFmt[31] == 'D';
    assert UserFmt[30] == '[' && DataFmt[30] == '[' && DefaultFmt[30] == '%';
    if base == UserFmt {
      Mismatch(f, DataFmt, 31);
      Mismatch(f, DefaultFmt, 30);
    } else if base == DataFmt {
      Mismatch(f, UserFmt, 31);
      Mismatch(f, DefaultFmt, 30);
    } else {
      Mismatch(f, UserFmt, 30);
      Mismatch(f, DataFmt, 30);
    }
  }

  /** The user format is chosen exactly for log_type "user", the data format
      for any other log_type, the default for a record without one. */
  lemma FormatSelection(attrs: Dict<string, Value>)
    ensures StartsWith(ChooseFormat(attrs), UserFmt) <==> Get(attrs, "log_type") == Some(VStr("user"))
    ensures StartsWith(ChooseFormat(attrs), DataFmt) <==> "log_type" in Keys(attrs) && Get(attrs, "log_type") != Some(VStr("user"))
    ensures StartsWith(ChooseFormat(attrs), DefaultFmt) <==> "log_type" !in Keys(attrs)
  {
    if "log_type" !in Keys(attrs) {
      SelectsFormat(DefaultFmt, attrs);
    } else if Get(attrs, "log_type") == Some(VStr("user")) {
      SelectsFormat(UserFmt, attrs);
    } else {
      SelectsFormat(DataFmt, attrs);
    }
  }

  /** Stripping leaves a string without ESC unchanged. */
  lemma {:induction false} StripAnsiPlain(s: string)
    requires Esc !in s
    ensures StripAnsi(s) == s
    decreases |s|
  {
    if s != [] {
      StripAnsiPlain(s[1..]);
    }
  }

  /** Stripping passes over ESC-free text and continues after it. */
  lemma {:induction false} StripAnsiPlainPrefix(p: string, rest: string)
    requires Esc !in p
    ensures StripAnsi(p + rest) == p + StripAnsi(rest)
    decreases |p|
  {
    if p != [] {
      assert (p + rest)[1..] == p[1..] + rest;
      StripAnsiPlainPrefix(p[1..], rest);
    } else {
      assert p + rest == rest;
    }
  }

  /** A complete colour sequence at the front is dropped whatever follows. */
  lemma StripAnsiCode(code: string, rest: string)
    requires |code| >= 3 && code[0] == Esc && code[1] == '[' && code[|code| - 1] == 'm'
    requires forall k :: 2 <= k < |code| - 1 ==> IsParamChar(code[k])
    ensures StripAnsi(code + rest) == StripAnsi(rest)
  {
    var s := code + rest;
    assert s[..|code|] == code;
    assert ParamRunEnd(s, 2) == |code| - 1 by {
      ParamRunFrom(s, 2, |code| - 1);
    }
    assert EscapeAt(s) == Some(|code|);
    assert s[|code|..] == rest;
  }

  lemma {:induction false} ParamRunFrom(s: string, i: nat, j: nat)
    requires i <= j < |s| && !IsParamChar(s[j])
    requires forall k :: i <= k < j ==> IsParamChar(s[k])
    ensures ParamRunEnd(s, i) == j
    decreases j - i
  {
    if i < j {
      ParamRunFrom(s, i + 1, j);
    }
  }

  /** ESC '[' parameters 'm': one complete colour sequence. */
  predicate IsColourCode(code: string)
  {
    |code| >= 3 && code[0] == Esc && code[1] == '[' && code[|code| - 1] == 'm' &&
    forall k :: 2 <= k < |code| - 1 ==> IsParamChar(code[k])
  }

  /** Every non-empty colour is one complete colour sequence. */
  lemma ColourIsCode(level: string)
    requires Colour(level) != ""
    ensures IsColourCode(Colour(level))
  {
  }

  /** A file log loses the colour a coloured formatter adds to a level name. */
  lemma StripColouredLevel(level: string)
    requires Esc !in level
    ensures StripAnsi(ColouredLevel(level)) == level
  {
    var c := Colour(level);
    if c == "" {
      StripAnsiPlain(level);
    } else {
      ColourIsCode(level);
      StripWrapped(c, level);
    }
  }

  /** Text between a colour sequence and the reset sequence comes out bare. */
  lemma StripWrapped(c: string, text: string)
    requires IsColourCode(c) && Esc !in text
    ensures StripAnsi(c + text + Reset) == text
  {
    StripAnsiCode(c, text + Reset);
    assert c + text + Reset == c + (text + Reset);
    StripAnsiPlainPrefix(text, Reset);
    ResetIsCode();
    StripAnsiCode(Reset, "");
    assert Reset + "" == Reset;
    assert text + [] == text;
  }

  lemma ResetIsCode()
    ensures IsColourCode(Reset) && StripAnsi("") == ""
  {
  }
}
