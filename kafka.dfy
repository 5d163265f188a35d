/** The Kafka wrapper, KafkaClient: mode allocation, the produce/consume
    connect, decode_header and the bounded `find` scan. Producer and
    consumer calls are oracles; the wall clock is a sequence of readings. */
module Kafka {
  import opened Wrappers
  import opened Dicts
  import opened Values
  import opened Exceptions
  import opened Clients
  import opened Drivers
  import Auto

  /** KafkaClient.MODES */
  const Modes: seq<Value> := [VStr("produce"), VStr("consume")]

  /** librdkafka's code for "reached the end of a partition" (KafkaError._PARTITION_EOF). */
  const PartitionEof := -191

  const NotConnectedInfo := "Connection to Kafka not yet established, try KafkaClient.connect()."
  const UnreachableInfo := "Connection to Kafka client cannot be established caused by either an invalid configuration or unreachable host."
  const UnhealthyInfo := "Cannot connect to producer at this stage. Caused by unreachable server."
  const ModeUnsetMessage := "Mode not set, use KafkaClient.allocate() to set kafka mode."

  /** What consumer.list_topics did. */
  datatype TopicListing = Listed | KafkaFailure | OtherFailure(message: string)

  /** A consumed message: msg.topic(), msg.key(), msg.value(), and
      msg.headers() (None, or the (key, value) pairs). */
  datatype Message = Message(topic: Value, key: Value, value: Value, headers: Option<seq<(Value, Value)>>)

  /** One consumer.poll(): nothing, an error message with its code, or a message. */
  datatype Poll = NoMessage | ErrorMessage(code: int) | Delivered(msg: Message)

  /** `topics if isinstance(topics, list) else [topics]` */
  function TopicList(topics: Value): (r: seq<Value>)
    ensures topics.VList? ==> r == topics.items
    ensures !topics.VList? ==> r == [topics]
  {
    if topics.VList? then topics.items else [topics]
  }

  /** v.decode() for bytes (ASCII only here), v itself otherwise. */
  function DecodeValue(v: Value): (r: Result<Value, Error>)
    ensures !v.VBytes? ==> r == Ok(v)
    ensures v.VBytes? && r.Ok? ==> r.value.VStr? && |r.value.s| == |v.bytes|
    ensures v.VBytes? && r.Ok? ==> forall i :: 0 <= i < |v.bytes| ==> r.value.s[i] as int == v.bytes[i]
  {
    if !v.VBytes? then Ok(v)
    else if forall i :: 0 <= i < |v.bytes| ==> v.bytes[i] < 128 then Ok(VStr(AsciiChars(v.bytes)))
    else Err(UnicodeDecodeError)
  }

  /** decode_header(headers): {k: decoded v for k, v in headers}, built
      pair by pair, so a later duplicate key overwrites an earlier one. */
  function DecodeHeader(headers: seq<(string, Value)>): (r: Result<Dict<string, Value>, Error>)
    ensures r.Ok? <==> forall i :: 0 <= i < |headers| ==> DecodeValue(headers[i].1).Ok?
    decreases |headers|
  {
    if headers == [] then Ok([])
    else
      var (k, v) := headers[|headers| - 1];
      match DecodeHeader(headers[..|headers| - 1])
      case Err(e) => Err(e)
      case Ok(d) =>
        match DecodeValue(v)
        case Err(e) => Err(e)
        case Ok(dv) => Ok(Dicts.Set(d, k, dv))
  }

  /** The decoded headers form a dict with exactly the header keys, each once. */
  lemma {:induction false} DecodeHeaderKeys(headers: seq<(string, Value)>)
    requires DecodeHeader(headers).Ok?
    ensures Wf(DecodeHeader(headers).value)
    ensures forall k :: k in Keys(DecodeHeader(headers).value) <==> k in Keys(headers)
  {
    if headers != [] {
      var n := |headers|;
      var (k, v) := headers[n - 1];
      var init := headers[..n - 1];
      DecodeHeaderKeys(init);
      assert Keys(headers) == Keys(init) + [k];
      KeysAfterSet(DecodeHeader(init).value, k, DecodeValue(v).value, Keys(init), Keys(headers));
    }
  }

  lemma KeysAfterSet(d: Dict<string, Value>, k: string, v: Value, before: seq<string>, after: seq<string>)
    requires Wf(d) && forall x :: x in Keys(d) <==> x in before
    requires after == before + [k]
    ensures Wf(Dicts.Set(d, k, v))
    ensures forall x :: x in Keys(Dicts.Set(d, k, v)) <==> x in after
  {
    SetKeys(d, k, v);
  }

  /** The value decoded for a key is that of the last pair carrying it. */
  lemma {:induction false} DecodeHeaderGet(headers: seq<(string, Value)>, i: nat)
    requires i < |headers| && DecodeHeader(headers).Ok?
    requires forall j :: i < j < |headers| ==> headers[j].0 != headers[i].0
    ensures DecodeValue(headers[i].1).Ok?
    ensures Get(DecodeHeader(headers).value, headers[i].0) == Some(DecodeValue(headers[i].1).value)
  {
    var n := |headers|;
    var init := headers[..n - 1];
    var (k, v) := headers[n - 1];
    assert DecodeHeader(init).Ok? && DecodeValue(v).Ok?;
    var d := DecodeHeader(init).value;
    assert DecodeHeader(headers) == Ok(Dicts.Set(d, k, DecodeValue(v).value));
    SetGet(d, k, DecodeValue(v).value, headers[i].0);
    if i < n - 1 {
      assert init[i] == headers[i];
      DecodeHeaderGet(init, i);
    }
  }

  /** One pair of the header scan of `find`: a pair whose key equals
      `key` has its value decoded (an AttributeError when it is not bytes)
      and compared with `value`. */
  function PairMatch(pair: (Value, Value), key: Value, value: Value): (r: Result<bool, Error>)
    ensures r == Ok(true) <==> pair.0 == key && pair.1.VBytes? && DecodeValue(pair.1) == Ok(value)
    ensures pair.0 != key ==> r == Ok(false)
  {
    var (k, v) := pair;
    if k != key then Ok(false)
    else if !v.VBytes? then Err(AttributeError("'" + TypeName(v) + "' object has no attribute 'decode'"))
    else
      match DecodeValue(v)
      case Err(e) => Err(e)
      case Ok(decoded) => Ok(decoded == value)
  }

  /** The header scan: pairs in order, stopping at the first match or error. */
  function HeaderMatch(headers: seq<(Value, Value)>, key: Value, value: Value): Result<bool, Error>
    decreases |headers|
  {
    if headers == [] then Ok(false)
    else
      match PairMatch(headers[0], key, value)
      case Err(e) => Err(e)
      case Ok(found) => if found then Ok(true) else HeaderMatch(headers[1..], key, value)
  }

  /** One step of the header scan from pair j. */
  lemma HeaderMatchStep(headers: seq<(Value, Value)>, j: nat, key: Value, value: Value)
    requires j < |headers|
    ensures PairMatch(headers[j], key, value).Err? ==>
              HeaderMatch(headers[j..], key, value) == Err(PairMatch(headers[j], key, value).error)
    ensures PairMatch(headers[j], key, value) == Ok(true) ==> HeaderMatch(headers[j..], key, value) == Ok(true)
    ensures PairMatch(headers[j], key, value) == Ok(false) ==>
              HeaderMatch(headers[j..], key, value) == HeaderMatch(headers[j + 1..], key, value)
  {
    assert headers[j..][1..] == headers[j + 1..];
    assert headers[j..][0] == headers[j];
  }

  /** A match is a pair that carries `key` and whose bytes decode to
      `value`, and every pair before it was passed over without an error. */
  lemma {:induction false} HeaderMatchWitness(headers: seq<(Value, Value)>, key: Value, value: Value)
    requires HeaderMatch(headers, key, value) == Ok(true)
    ensures exists j :: FirstMatchAt(headers, key, value, j)
    decreases |headers|
  {
    if PairMatch(headers[0], key, value) == Ok(true) {
      assert FirstMatchAt(headers, key, value, 0);
    } else {
      assert PairMatch(headers[0], key, value) == Ok(false);
      HeaderMatchWitness(headers[1..], key, value);
      var j: nat :| FirstMatchAt(headers[1..], key, value, j);
      assert headers[j + 1] == headers[1..][j];
      forall i | 0 <= i < j + 1
        ensures PairMatch(headers[i], key, value) == Ok(false)
      {
        if i > 0 {
          assert headers[i] == headers[1..][i - 1];
        }
      }
      assert FirstMatchAt(headers, key, value, j + 1);
    }
  }

  /** Pair j is the first that matches: it carries `key` with bytes that
      decode to `value`, and every earlier pair compares as no match. */
  predicate FirstMatchAt(headers: seq<(Value, Value)>, key: Value, value: Value, j: nat)
  {
    && j < |headers| && headers[j].0 == key && headers[j].1.VBytes? && DecodeValue(headers[j].1) == Ok(value)
    && forall i :: 0 <= i < j ==> PairMatch(headers[i], key, value) == Ok(false)
  }

  /** `find` matches a message when its headers are truthy and the scan finds the pair. */
  function MessageMatch(m: Message, key: Value, value: Value): Result<bool, Error>
  {
    if m.headers.None? || m.headers.value == [] then Ok(false)
    else HeaderMatch(m.headers.value, key, value)
  }

  /** Reading `i` of the clock is past the deadline. */
  predicate Expired(ticks: seq<int>, timeout: int, i: nat)
    requires 0 < i < |ticks|
  {
    ticks[i] - ticks[0] > timeout
  }

  /** The clock passes the deadline at some reading, and the consumer has
      a poll result for every check before the last reading. */
  predicate Bounded(ticks: seq<int>, polls: seq<Poll>, timeout: int)
  {
    && |polls| + 1 >= |ticks|
    && exists k :: 0 < k < |ticks| && Expired(ticks, timeout, k)
  }

  /** No deadline check up to reading i has fired. */
  predicate Pending(ticks: seq<int>, timeout: int, i: nat)
  {
    i < |ticks| && forall j :: 0 < j <= i ==> !Expired(ticks, timeout, j)
  }

  lemma NextReading(ticks: seq<int>, polls: seq<Poll>, timeout: int, i: nat)
    requires Bounded(ticks, polls, timeout) && Pending(ticks, timeout, i)
    ensures i + 1 < |ticks| && i < |polls|
  {
    var k :| 0 < k < |ticks| && Expired(ticks, timeout, k);
    assert k > i;
  }

  /** `find` from check i on: before each poll, None once the clock has
      passed the deadline; empty polls and partition-EOF errors are
      skipped, any other error raises KafkaException; the first message
      that matches is returned. */
  function Scan(key: Value, value: Value, timeout: int, ticks: seq<int>, polls: seq<Poll>, i: nat): (r: Result<Option<Message>, Error>)
    requires Bounded(ticks, polls, timeout) && Pending(ticks, timeout, i)
    ensures r.Ok? && r.value.Some? ==> MessageMatch(r.value.value, key, value) == Ok(true)
    ensures r.Ok? && r.value.Some? ==> exists j :: i <= j < |polls| && polls[j] == Delivered(r.value.value)
    decreases |ticks| - i
  {
    NextReading(ticks, polls, timeout, i);
    if Expired(ticks, timeout, i + 1) then Ok(None)
    else
      match polls[i]
      case NoMessage => Scan(key, value, timeout, ticks, polls, i + 1)
      case ErrorMessage(code) =>
        if code == PartitionEof then Scan(key, value, timeout, ticks, polls, i + 1)
        else Err(KafkaException(code))
      case Delivered(m) =>
        match MessageMatch(m, key, value)
        case Err(e) => Err(e)
        case Ok(found) => if found then Ok(Some(m)) else Scan(key, value, timeout, ticks, polls, i + 1)
  }

  /** A message `find` returns was polled before the deadline, matches,
      and every earlier poll was skipped. */
  lemma {:induction false} ScanFound(key: Value, value: Value, timeout: int, ticks: seq<int>, polls: seq<Poll>, i: nat)
    requires Bounded(ticks, polls, timeout) && Pending(ticks, timeout, i)
    requires Scan(key, value, timeout, ticks, polls, i).Ok? && Scan(key, value, timeout, ticks, polls, i).value.Some?
    ensures exists j :: i <= j < |polls| && j + 1 < |ticks| && Pending(ticks, timeout, j + 1) &&
              polls[j] == Delivered(Scan(key, value, timeout, ticks, polls, i).value.value) &&
              MessageMatch(polls[j].msg, key, value) == Ok(true) &&
              forall l :: i <= l < j ==> Skipped(polls[l], key, value)
    decreases |ticks| - i
  {
    NextReading(ticks, polls, timeout, i);
    var m := Scan(key, value, timeout, ticks, polls, i).value.value;
    if polls[i].Delivered? && MessageMatch(polls[i].msg, key, value) == Ok(true) {
      assert Pending(ticks, timeout, i + 1);
    } else {
      ScanPassesOver(key, value, timeout, ticks, polls, i);
      ScanFound(key, value, timeout, ticks, polls, i + 1);
      var j :| i + 1 <= j < |polls| && j + 1 < |ticks| && Pending(ticks, timeout, j + 1) &&
               polls[j] == Delivered(m) && MessageMatch(polls[j].msg, key, value) == Ok(true) &&
               forall l :: i + 1 <= l < j ==> Skipped(polls[l], key, value);
    }
  }

  /** A scan that goes on past check i without an error skipped poll i
      and continues from the next check. */
  lemma ScanPassesOver(key: Value, value: Value, timeout: int, ticks: seq<int>, polls: seq<Poll>, i: nat)
    requires Bounded(ticks, polls, timeout) && Pending(ticks, timeout, i)
    requires i + 1 < |ticks| && i < |polls| && !Expired(ticks, timeout, i + 1)
    requires Scan(key, value, timeout, ticks, polls, i).Ok?
    requires !(polls[i].Delivered? && MessageMatch(polls[i].msg, key, value) == Ok(true))
    ensures Skipped(polls[i], key, value) && Pending(ticks, timeout, i + 1)
    ensures Scan(key, value, timeout, ticks, polls, i) == Scan(key, value, timeout, ticks, polls, i + 1)
  {
  }

  /** What the scan does at check i, before it moves on. */
  lemma ScanAt(key: Value, value: Value, timeout: int, ticks: seq<int>, polls: seq<Poll>, i: nat)
    requires Bounded(ticks, polls, timeout) && Pending(ticks, timeout, i)
    ensures i + 1 < |ticks| && i < |polls|
    ensures Expired(ticks, timeout, i + 1) ==> Scan(key, value, timeout, ticks, polls, i) == Ok(None)
    ensures !Expired(ticks, timeout, i + 1) && polls[i].ErrorMessage? && polls[i].code != PartitionEof ==>
              Scan(key, value, timeout, ticks, polls, i) == Err(KafkaException(polls[i].code))
    ensures !Expired(ticks, timeout, i + 1) && polls[i].Delivered? && MessageMatch(polls[i].msg, key, value).Err? ==>
              Scan(key, value, timeout, ticks, polls, i) == Err(MessageMatch(polls[i].msg, key, value).error)
    ensures !Expired(ticks, timeout, i + 1) && polls[i].Delivered? && MessageMatch(polls[i].msg, key, value) == Ok(true) ==>
              Scan(key, value, timeout, ticks, polls, i) == Ok(Some(polls[i].msg))
  {
    NextReading(ticks, polls, timeout, i);
  }

  /** A skipped poll before the deadline hands the scan on to the next check. */
  lemma ScanSkip(key: Value, value: Value, timeout: int, ticks: seq<int>, polls: seq<Poll>, i: nat)
    requires Bounded(ticks, polls, timeout) && Pending(ticks, timeout, i)
    requires i + 1 < |ticks| && i < |polls| && !Expired(ticks, timeout, i + 1)
    requires Skipped(polls[i], key, value)
    ensures Pending(ticks, timeout, i + 1)
    ensures Scan(key, value, timeout, ticks, polls, i) == Scan(key, value, timeout, ticks, polls, i + 1)
  {
  }

  /** A poll result the scan passes over. */
  predicate Skipped(p: Poll, key: Value, value: Value)
  {
    match p
    case NoMessage => true
    case ErrorMessage(code) => code == PartitionEof
    case Delivered(m) => MessageMatch(m, key, value) == Ok(false)
  }

  /** Reading k is the first past the deadline after check i, and every
      poll from i up to it was passed over. */
  predicate TimedOutAt(key: Value, value: Value, timeout: int, ticks: seq<int>, polls: seq<Poll>, i: nat, k: nat)
  {
    && i < k < |ticks| && k - 1 <= |polls|
    && Expired(ticks, timeout, k) && Pending(ticks, timeout, k - 1)
    && forall l :: i <= l < k - 1 ==> Skipped(polls[l], key, value)
  }

  /** `find` returns None only at a reading past the deadline, and only
      after every poll before it was passed over. */
  lemma {:induction false} ScanTimesOut(key: Value, value: Value, timeout: int, ticks: seq<int>, polls: seq<Poll>, i: nat)
    requires Bounded(ticks, polls, timeout) && Pending(ticks, timeout, i)
    requires Scan(key, value, timeout, ticks, polls, i) == Ok(None)
    ensures exists k :: TimedOutAt(key, value, timeout, ticks, polls, i, k)
    decreases |ticks| - i
  {
    NextReading(ticks, polls, timeout, i);
    if !Expired(ticks, timeout, i + 1) {
      ScanPassesOver(key, value, timeout, ticks, polls, i);
      ScanTimesOut(key, value, timeout, ticks, polls, i + 1);
      var k :| TimedOutAt(key, value, timeout, ticks, polls, i + 1, k);
      TimedOutEarlier(key, value, timeout, ticks, polls, i, k);
    } else {
      assert TimedOutAt(key, value, timeout, ticks, polls, i, i + 1);
    }
  }

  lemma TimedOutEarlier(key: Value, value: Value, timeout: int, ticks: seq<int>, polls: seq<Poll>, i: nat, k: nat)
    requires TimedOutAt(key, value, timeout, ticks, polls, i + 1, k)
    requires i < |polls| && Skipped(polls[i], key, value)
    ensures TimedOutAt(key, value, timeout, ticks, polls, i, k)
  {
  }

  /** The header loop of `find` for one message. */
  method MatchHeaders(m: Message, key: Value, value: Value) returns (r: Result<bool, Error>)
    ensures r == MessageMatch(m, key, value)
  {
    if m.headers.None? || m.headers.value == [] {
      return Ok(false);
    }
    r := ScanHeaders(m.headers.value, key, value);
  }

  /** The `for k, v in headers` loop: pairs in order until a match or an error. */
  method ScanHeaders(headers: seq<(Value, Value)>, key: Value, value: Value) returns (r: Result<bool, Error>)
    ensures r == HeaderMatch(headers, key, value)
  {
    var j := 0;
    while j < |headers|
      invariant 0 <= j <= |headers|
      invariant HeaderMatch(headers, key, value) == HeaderMatch(headers[j..], key, value)
    {
      HeaderMatchStep(headers, j, key, value);
      var step := PairMatch(headers[j], key, value);
      if step.Err? {
        return Err(step.error);
      }
      if step.value {
        return Ok(true);
      }
      j := j + 1;
    }
    assert headers[j..] == [];
    return Ok(false);
  }

  /** The polling loop of `find`: the clock is checked before each poll;
      without a consumer (`live` false) the first poll raises. */
  method PollLoop(key: Value, value: Value, timeout: int, ticks: seq<int>, polls: seq<Poll>, live: bool)
    returns (r: Result<Option<Message>, Error>)
    requires Bounded(ticks, polls, timeout)
    ensures live ==> r == Scan(key, value, timeout, ticks, polls, 0)
    ensures !live ==> r == Ok(None) || r == Err(AttributeError("'NoneType' object has no attribute 'poll'"))
  {
    var i := 0;
    while true
      invariant Pending(ticks, timeout, i)
      invariant Scan(key, value, timeout, ticks, polls, 0) == Scan(key, value, timeout, ticks, polls, i)
      decreases |ticks| - i
    {
      ScanAt(key, value, timeout, ticks, polls, i);
      if Expired(ticks, timeout, i + 1) {
        return Ok(None);
      }
      if !live {
        return Err(AttributeError("'NoneType' object has no attribute 'poll'"));
      }
      var p := polls[i];
      if p.NoMessage? || (p.ErrorMessage? && p.code == PartitionEof) {
        ScanSkip(key, value, timeout, ticks, polls, i);
        i := i + 1;
        continue;
      }
      if p.ErrorMessage? {
        return Err(KafkaException(p.code));
      }
      var found := MatchHeaders(p.msg, key, value);
      if found.Err? {
        return Err(found.error);
      }
      if found.value {
        return Ok(Some(p.msg));
      }
      ScanSkip(key, value, timeout, ticks, polls, i);
      i := i + 1;
    }
  }

  class KafkaClient {
    const config: Dict<string, Value>
    var handle: Option<Driver>
    var topics: Value
    /** The `mode` attribute; None while it has never been assigned. */
    var mode: Option<Value>
    ghost var log: seq<DriverCall>

    constructor (cls: Auto.ClientClass, kwargs: Dict<string, Value>, topics: Value)
      ensures config == MergeConfig(kwargs, cls.config)
      ensures handle.None? && this.topics == topics && mode.None? && log == []
    {
      config := MergeConfig(kwargs, cls.config);
      handle := None;
      this.topics := topics;
      mode := None;
      log := [];
    }

    /** allocate(mode): only a member of MODES is accepted; anything else
        raises a bare Exception and leaves the mode as it was. */
    method Allocate(m: Value) returns (r: Result<(), Error>)
      modifies this
      ensures m in Modes ==> r == Ok(()) && mode == Some(m)
      ensures m !in Modes ==> r == Err(PlainException) && mode == old(mode)
      ensures handle == old(handle) && topics == old(topics) && log == old(log)
    {
      if m !in Modes {
        return Err(PlainException);
      }
      mode := Some(m);
      return Ok(());
    }

    function Client(): (r: Result<Driver, Error>)
      reads this
      ensures r.Ok? <==> Live(handle)
      ensures r.Err? ==> r.error == Raise(404, "NoConnectionFound", NotConnectedInfo)
    {
      Accessor(handle, NotConnectedInfo)
    }

    function Status(): (connected: bool)
      reads this
      ensures connected <==> Client().Ok?
    {
      Live(handle)
    }

    function Host(): (r: Option<Value>)
      reads this
      ensures r == ConfiguredUri(config)
    {
      ConfiguredUri(config)
    }

    /** connect(): a no-op while a handle is held. Otherwise the mode must
        be set and truthy. "produce" constructs the producer and runs the
        health check (503 Unhealthy when it fails); "consume" constructs the
        consumer, subscribes the topic list (an error from subscribe
        propagates, the handle kept) and lists topics (503
        ConnectionFailed when that raises a KafkaException). A constructor
        that raises (an unknown configuration key, say) propagates its error
        with no handle kept. A handle left falsy, or no handle for any other
        mode, raises 500. */
    method Connect(built: Result<Driver, string>, healthy: Probe, subscribing: Completion, listing: TopicListing)
      returns (r: Result<(), Error>)
      modifies this
      ensures mode == old(mode) && topics == old(topics)
      ensures old(handle).Some? ==> r == Ok(()) && handle == old(handle) && log == old(log)
      ensures old(handle).None? && mode.None? ==>
                r == Err(AttributeError("'KafkaClient' object has no attribute 'mode'")) && handle.None? && log == old(log)
      ensures old(handle).None? && mode.Some? && !Truthy(mode.value) ==>
                r == Err(RuntimeError(ModeUnsetMessage)) && handle.None? && log == old(log)
      ensures old(handle).None? && mode.Some? && mode.value in Modes && built.Err? ==>
                r == Err(DriverError(built.error)) && handle.None? && log == old(log)
      ensures old(handle).None? && mode == Some(VStr("produce")) && built.Ok? ==>
                && handle == Some(built.value)
                && log == old(log) + [Constructed(built.value), HealthChecked(built.value)]
                && r == match healthy
                        case Raised(msg) => Err(DriverError(msg))
                        case Answered(false) => Err(BuiltinConnectionError(503, "Unhealthy", UnhealthyInfo))
                        case Answered(true) =>
                          if built.value.truthy then Ok(()) else Err(Raise(500, "InvalidConfiguration", UnreachableInfo))
      ensures old(handle).None? && mode == Some(VStr("consume")) && built.Ok? && subscribing.Failed? ==>
                && handle == Some(built.value)
                && log == old(log) + [Constructed(built.value), Subscribed(built.value, TopicList(topics))]
                && r == Err(DriverError(subscribing.message))
      ensures old(handle).None? && mode == Some(VStr("consume")) && built.Ok? && subscribing.Completed? ==>
                && handle == Some(built.value)
                && log == old(log) + [Constructed(built.value), Subscribed(built.value, TopicList(topics)), ListedTopics(built.value)]
                && r == match listing
                        case Listed => Ok(())
                        case KafkaFailure => Err(Raise(503, "ConnectionFailed", UnreachableInfo))
                        case OtherFailure(msg) => Err(DriverError(msg))
      ensures old(handle).None? && mode.Some? && Truthy(mode.value) && mode.value !in Modes ==>
                r == Err(Raise(500, "InvalidConfiguration", UnreachableInfo)) && handle.None? && log == old(log)
    {
      if handle.Some? {
        return Ok(());
      }
      if mode.None? {
        return Err(AttributeError("'KafkaClient' object has no attribute 'mode'"));
      }
      if !Truthy(mode.value) {
        return Err(RuntimeError(ModeUnsetMessage));
      }
      if mode.value in Modes && built.Err? {
        return Err(DriverError(built.error));
      }
      if mode.value == VStr("produce") {
        handle := Some(built.value);
        log := log + [Constructed(built.value), HealthChecked(built.value)];
        match healthy {
          case Raised(msg) => return Err(DriverError(msg));
          case Answered(ok) =>
            if !ok {
              return Err(BuiltinConnectionError(503, "Unhealthy", UnhealthyInfo));
            }
        }
      }
      if mode.value == VStr("consume") {
        handle := Some(built.value);
        log := log + [Constructed(built.value), Subscribed(built.value, TopicList(topics))];
        if subscribing.Failed? {
          return Err(DriverError(subscribing.message));
        }
        log := log + [ListedTopics(built.value)];
        match listing {
          case Listed => return Ok(());
          case KafkaFailure => return Err(Raise(503, "ConnectionFailed", UnreachableInfo));
          case OtherFailure(msg) => return Err(DriverError(msg));
        }
      }
      if !Live(handle) {
        return Err(Raise(500, "InvalidConfiguration", UnreachableInfo));
      }
      return Ok(());
    }

    /** disconnect(): clears the field unconditionally; the driver is not closed. */
    method Disconnect()
      modifies this
      ensures handle.None? && log == old(log) && mode == old(mode) && topics == old(topics)
    {
      handle := None;
    }

    /** find(key, value, timeout): the scan over the polls, the clock read
        once at the start and once before each poll. The handle is closed
        in a `finally`, on every path; an error that close raises replaces
        the scan's outcome. Without a handle that close raises
        AttributeError, which is what the caller sees. */
    method Find(key: Value, value: Value, timeout: int, ticks: seq<int>, polls: seq<Poll>, closing: Completion)
      returns (r: Result<Option<Message>, Error>)
      requires Bounded(ticks, polls, timeout)
      modifies this
      ensures handle == old(handle) && mode == old(mode) && topics == old(topics)
      ensures handle.None? ==> r == Err(AttributeError("'NoneType' object has no attribute 'close'")) && log == old(log)
      ensures handle.Some? ==> log == old(log) + [Closed(handle.value)]
      ensures handle.Some? && closing.Completed? ==> r == Scan(key, value, timeout, ticks, polls, 0)
      ensures handle.Some? && closing.Failed? ==> r == Err(DriverError(closing.message))
    {
      r := PollLoop(key, value, timeout, ticks, polls, handle.Some?);
      if handle.None? {
        return Err(AttributeError("'NoneType' object has no attribute 'close'"));
      }
      log := log + [Closed(handle.value)];
      if closing.Failed? {
        return Err(DriverError(closing.message));
      }
    }
  }
}
