/** The dynamically typed values that flow through configuration maps, log
    records and Kafka headers, with Python's truthiness and str(). */
module Values {
  import opened Wrappers
  import opened Text

  type byte = b: int | 0 <= b < 256

  datatype Value =
    | VNone
    | VBool(b: bool)
    | VInt(i: int)
    | VStr(s: string)
    | VBytes(bytes: seq<byte>)
    | VList(items: seq<Value>)
    | VDict(entries: seq<(string, Value)>)
      /** Any other object: not JSON-serialisable, has no int() conversion;
          `text` is what str() gives for it. */
    | VObject(text: string)

  /** Python's bool(v) for the value kinds above. */
  predicate Truthy(v: Value)
  {
    match v
    case VNone => false
    case VBool(b) => b
    case VInt(i) => i != 0
    case VStr(s) => |s| > 0
    case VBytes(bs) => |bs| > 0
    case VList(items) => |items| > 0
    case VDict(entries) => |entries| > 0
    case VObject(_) => true
  }

  /** Bytes whose every byte is ASCII decode to the characters with those codes. */
  function AsciiChars(bs: seq<byte>): string
    requires forall i :: 0 <= i < |bs| ==> bs[i] < 128
  {
    seq(|bs|, i requires 0 <= i < |bs| => bs[i] as char)
  }

  /** Python's str(v); containers use the repr of their elements, with
      strings quoted in single quotes (escapes are not modelled). */
  function Str(v: Value): string
    decreases v, 0
  {
    match v
    case VNone => "None"
    case VBool(b) => if b then "True" else "False"
    case VInt(i) => Decimal(i)
    case VStr(s) => s
    case VBytes(bs) => "b'" + seq(|bs|, i requires 0 <= i < |bs| => if bs[i] < 128 then bs[i] as char else '?') + "'"
    case VList(items) => "[" + Join(", ", seq(|items|, i requires 0 <= i < |items| => Repr(items[i]))) + "]"
    case VDict(entries) =>
      "{" + Join(", ", seq(|entries|, i requires 0 <= i < |entries| => "'" + entries[i].0 + "': " + Repr(entries[i].1))) + "}"
    case VObject(text) => text
  }

  /** Python's repr(v): strings quoted, everything else as str(). */
  function Repr(v: Value): string
    decreases v, 1
  {
    match v
    case VStr(s) => "'" + s + "'"
    case _ => Str(v)
  }

  /** Python's len(v), None for a value that has no len(). A dict's
      entries carry distinct keys, so its length is their number. */
  function Length(v: Value): (n: Option<nat>)
    ensures n.None? <==> v.VNone? || v.VBool? || v.VInt? || v.VObject?
    ensures n.Some? ==> (n.value > 0 <==> Truthy(v))
  {
    match v
    case VStr(s) => Some(|s|)
    case VBytes(bs) => Some(|bs|)
    case VList(items) => Some(|items|)
    case VDict(entries) => Some(|entries|)
    case _ => None
  }

  /** type(v).__name__ */
  function TypeName(v: Value): string
  {
    match v
    case VNone => "NoneType"
    case VBool(_) => "bool"
    case VInt(_) => "int"
    case VStr(_) => "str"
    case VBytes(_) => "bytes"
    case VList(_) => "list"
    case VDict(_) => "dict"
    case VObject(_) => "object"
  }

  /** The elements a `for` loop visits: a list's items, a str's one-character
      strs, a bytes object's ints, a dict's keys; None for a value that is
      not iterable. */
  function Iterate(v: Value): (r: Option<seq<Value>>)
    ensures r.None? <==> v.VNone? || v.VBool? || v.VInt? || v.VObject?
    ensures r.Some? ==> (|r.value| > 0 <==> Truthy(v))
    ensures v.VList? ==> r == Some(v.items)
  {
    match v
    case VList(items) => Some(items)
    case VStr(s) => Some(seq(|s|, i requires 0 <= i < |s| => VStr([s[i]])))
    case VBytes(bs) => Some(seq(|bs|, i requires 0 <= i < |bs| => VInt(bs[i])))
    case VDict(entries) => Some(seq(|entries|, i requires 0 <= i < |entries| => VStr(entries[i].0)))
    case _ => None
  }
}
