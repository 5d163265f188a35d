/** The framework's exception types. ConnectionException carries a status
    code, an error-type tag and a human-readable cause, and renders as
    "<error_type> - <status_code> - <info>"; the same text is handed to the
    base Exception when it is constructed. The other variants of `Error`
    stand for the Python exceptions the wrappers raise or let through. */
module Exceptions {
  import opened Wrappers
  import opened Text

  datatype ConnectionException = ConnectionException(
    statusCode: int,
    errorType: string,
    info: string,
    /** The message passed to Exception.__init__, i.e. args[0]. */
    message: string)

  /** The f-string shared by __init__ and __str__. It is read back exactly
      when the tag holds no '-': the tag and the status code can then be
      recovered from the text alone. */
  function Render(statusCode: int, errorType: string, info: string): (m: string)
    ensures '-' !in errorType ==> Parse(m) == Some((errorType, statusCode, info))
  {
    if '-' in errorType then errorType + " - " + (Decimal(statusCode) + " - " + info)
    else
      ReadBack(statusCode, errorType, info);
      errorType + " - " + (Decimal(statusCode) + " - " + info)
  }

  /** ConnectionException(status_code, error_type, info). */
  function NewConnectionException(statusCode: int, errorType: string, info: string): (e: ConnectionException)
    ensures e.statusCode == statusCode && e.errorType == errorType && e.info == info
    ensures e.message == Str(e)
  {
    ConnectionException(statusCode, errorType, info, Render(statusCode, errorType, info))
  }

  /** str(e): rendered from the three fields as they are now. */
  function Str(e: ConnectionException): string
  {
    Render(e.statusCode, e.errorType, e.info)
  }

  /** Reads a rendered exception back: the tag before the first " - ",
      the status code up to the next " - ", and the rest as info. */
  function Parse(s: string): Option<(string, int, string)>
  {
    match Find(s, " - ")
    case None => None
    case Some(i) =>
      var rest := s[i + 3..];
      match Find(rest, " - ")
      case None => None
      case Some(j) =>
        match ParseDecimal(rest[..j])
        case None => None
        case Some(code) => Some((s[..i], code, rest[j + 3..]))
  }

  datatype Error =
    | Connection(exc: ConnectionException)
      /** QueryException(error_type=..., info=...): imported by the graph
          wrappers, defined outside this model. */
    | Query(errorType: string, info: string)
    | ImportError(message: string)
    | AttributeError(message: string)
    | KeyError(key: string)
    | ValueError(message: string)
    | TypeError(message: string)
    | RuntimeError(message: string)
      /** The built-in ConnectionError, raised with three positional arguments. */
    | BuiltinConnectionError(code: int, errorType: string, info: string)
    | KafkaException(code: int)
    | UnicodeDecodeError
      /** A bare `raise Exception`. */
    | PlainException
      /** An exception raised by a driver call and let through unchanged. */
    | DriverError(message: string)

  /** raise ConnectionException(status_code, error_type, info) */
  function Raise(statusCode: int, errorType: string, info: string): (err: Error)
    ensures err.Connection? && err.exc.statusCode == statusCode && err.exc.errorType == errorType
    ensures err.exc.info == info && err.exc.message == Str(err.exc)
  {
    Connection(NewConnectionException(statusCode, errorType, info))
  }

  lemma NoSeparatorBefore(t: string, rest: string, j: nat)
    requires '-' !in t && j < |t| && rest != [] && rest[0] == ' '
    ensures !OccursAt(t + rest, " - ", j)
  {
    var s := t + rest;
    if j + 3 <= |s| {
      if j + 1 < |t| {
        assert s[j + 1] == t[j + 1] && t[j + 1] in t;
      } else {
        assert s[j + 1] == rest[0];
      }
      assert s[j + 1] != '-';
      assert s[j..j + 3][1] == s[j + 1];
    }
  }

  /** The first separator in a rendering comes right after the tag. */
  lemma FirstSeparator(errorType: string, rest: string)
    requires '-' !in errorType
    ensures Find(errorType + " - " + rest, " - ") == Some(|errorType|)
  {
    var s := errorType + " - " + rest;
    assert s == errorType + (" - " + rest);
    forall j | 0 <= j < |errorType| ensures !OccursAt(s, " - ", j) {
      NoSeparatorBefore(errorType, " - " + rest, j);
    }
    assert OccursAt(s, " - ", |errorType|);
  }

  /** The second separator comes right after the status code's digits. */
  lemma SecondSeparator(statusCode: int, info: string)
    ensures Find(Decimal(statusCode) + " - " + info, " - ") == Some(|Decimal(statusCode)|)
  {
    var d := Decimal(statusCode);
    var rest := d + " - " + info;
    forall j | 0 <= j < |d| ensures !OccursAt(rest, " - ", j) {
      assert rest[j] == d[j];
      if statusCode < 0 && j > 0 {
        assert d[j] == NatDigits(-statusCode)[j - 1];
      }
    }
    assert OccursAt(rest, " - ", |d|);
  }

  /** The text the f-string produces parses back into its three fields. */
  lemma ReadBack(statusCode: int, errorType: string, info: string)
    requires '-' !in errorType
    ensures Parse(errorType + " - " + (Decimal(statusCode) + " - " + info)) == Some((errorType, statusCode, info))
  {
    SecondSeparator(statusCode, info);
    DecimalRoundTrip(statusCode);
    ReadBackDigits(errorType, Decimal(statusCode), info, statusCode);
  }

  /** ReadBack for any digit text d that ends at the second separator. */
  lemma ReadBackDigits(errorType: string, d: string, info: string, code: int)
    requires '-' !in errorType
    requires Find(d + " - " + info, " - ") == Some(|d|) && ParseDecimal(d) == Some(code)
    ensures Parse(errorType + " - " + (d + " - " + info)) == Some((errorType, code, info))
  {
    var rest := d + " - " + info;
    SplitFirst(errorType, rest);
    SplitAround(d, info);
    ParseOf(errorType + " - " + rest, |errorType|, rest, |d|, code);
  }

  /** The tag and what follows the first separator, read off a rendering. */
  lemma SplitFirst(errorType: string, rest: string)
    requires '-' !in errorType
    ensures Find(errorType + " - " + rest, " - ") == Some(|errorType|)
    ensures (errorType + " - " + rest)[..|errorType|] == errorType
    ensures (errorType + " - " + rest)[|errorType| + 3..] == rest
  {
    FirstSeparator(errorType, rest);
    assert errorType + " - " + rest == errorType + (" - " + rest);
  }

  /** The two sides of a " - " joining two texts. */
  lemma SplitAround(left: string, right: string)
    ensures (left + " - " + right)[..|left|] == left
    ensures (left + " - " + right)[|left| + 3..] == right
  {
    assert left + " - " + right == left + (" - " + right);
  }

  /** Parse, read off from where the two separators are found. */
  lemma ParseOf(s: string, i: nat, rest: string, j: nat, code: int)
    requires Find(s, " - ") == Some(i) && s[i + 3..] == rest
    requires Find(rest, " - ") == Some(j) && ParseDecimal(rest[..j]) == Some(code)
    ensures Parse(s) == Some((s[..i], code, rest[j + 3..]))
  {
  }
}
