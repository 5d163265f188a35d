/** The OpenSearch wrappers: OpensearchClient, its async variant (run here
    as sequential code) and the older stub under config/clients. Each owns
    one optional driver handle; `host` is derived from configuration alone. */
module OpenSearch {
  import opened Wrappers
  import opened Text
  import opened Dicts
  import opened Values
  import opened Exceptions
  import opened BaseConfigs
  import opened Clients
  import opened Drivers
  import Auto

  const NotConnectedInfo := "Connection to Opensearch not yet established, try OpensearchClient.connect()."
  const AsyncNotConnectedInfo := "Async connection to Opensearch not yet established; call AsyncOpensearchClient.connect()."
  const UnreachableInfo := "Connection to Opensearch client cannot be established caused by either an invalid configuration or unreachable host."
  const AsyncUnreachableInfo := "Async connection to Opensearch cannot be established; invalid config or unreachable host."

  /** "https" when use_ssl is truthy, "http" otherwise (also when absent). */
  function Scheme(config: Dict<string, Value>): (s: string)
    ensures s == "https" <==> Truthy(GetOr(config, "use_ssl", VBool(false)))
    ensures s == "https" || s == "http"
  {
    if Truthy(GetOr(config, "use_ssl", VBool(false))) then "https" else "http"
  }

  /** The path part of one host entry. The sync wrapper uses a truthy
      url_prefix verbatim; the async one strips '/' from both ends of it
      (which needs a str) and drops it when nothing is left. */
  function PrefixPath(prefix: Value, strip: bool): (r: Result<Option<string>, Error>)
    ensures !strip ==> r.Ok? && (r.value.Some? <==> Truthy(prefix))
    ensures !strip && Truthy(prefix) ==> r == Ok(Some(Values.Str(prefix)))
    ensures strip ==> (r.Ok? <==> prefix.VStr?)
    ensures strip && prefix.VStr? ==> (r.value.None? <==> Only(prefix.s, '/'))
    ensures strip && r.Ok? && r.value.Some? ==>
              && r.value.value != [] && r.value.value[0] != '/' && r.value.value[|r.value.value| - 1] != '/'
              && PaddedWith(prefix.s, r.value.value, '/')
    ensures strip && prefix.VBytes? ==> r == Err(TypeError("a bytes-like object is required, not 'str'"))
  {
    if !strip then
      Ok(if Truthy(prefix) then Some(Values.Str(prefix)) else None)
    else if prefix.VStr? then Ok(StrippedPrefix(prefix.s))
    else if prefix.VBytes? then Err(TypeError("a bytes-like object is required, not 'str'"))
    else Err(AttributeError("'" + TypeName(prefix) + "' object has no attribute 'strip'"))
  }

  /** url_prefix.strip("/") or None */
  function StrippedPrefix(prefix: string): (r: Option<string>)
    ensures r.None? <==> Only(prefix, '/')
    ensures r.Some? ==> && r.value != [] && r.value[0] != '/' && r.value[|r.value| - 1] != '/'
                        && PaddedWith(prefix, r.value, '/')
  {
    var p := Strip(prefix, '/');
    if p != "" then Some(p) else None
  }

  /** One host entry rendered as scheme://host:port[/prefix]; url_prefix
      is read first, then host, then port. */
  function RenderEntry(scheme: string, item: Value, strip: bool): (r: Result<string, Error>)
    ensures !item.VDict? ==> r == Err(AttributeError("'" + TypeName(item) + "' object has no attribute 'get'"))
    ensures item.VDict? && PrefixPath(GetOr(item.entries, "url_prefix", VStr("")), strip).Ok? ==>
              (r.Ok? <==> "host" in Keys(item.entries) && "port" in Keys(item.entries))
    ensures item.VDict? && PrefixPath(GetOr(item.entries, "url_prefix", VStr("")), strip).Err? ==>
              r == Err(PrefixPath(GetOr(item.entries, "url_prefix", VStr("")), strip).error)
    ensures r.Ok? ==>
              StartsWith(r.value, scheme + "://" + Values.Str(GetOr(item.entries, "host", VNone)) + ":"
                                  + Values.Str(GetOr(item.entries, "port", VNone)))
    ensures r.Ok? ==>
              var net := scheme + "://" + Values.Str(GetOr(item.entries, "host", VNone)) + ":"
                         + Values.Str(GetOr(item.entries, "port", VNone));
              var path := PrefixPath(GetOr(item.entries, "url_prefix", VStr("")), strip).value;
              r.value == if path.Some? then net + "/" + path.value else net
  {
    if !item.VDict? then Err(AttributeError("'" + TypeName(item) + "' object has no attribute 'get'"))
    else
      var e := item.entries;
      match PrefixPath(GetOr(e, "url_prefix", VStr("")), strip)
      case Err(err) => Err(err)
      case Ok(path) =>
        if "host" !in Keys(e) then Err(KeyError("host"))
        else if "port" !in Keys(e) then Err(KeyError("port"))
        else
          var net := scheme + "://" + Values.Str(GetOr(e, "host", VNone)) + ":" + Values.Str(GetOr(e, "port", VNone));
          Ok(if path.Some? then net + "/" + path.value else net)
  }

  function EntryRenderer(scheme: string, strip: bool): Value -> Result<string, Error>
  {
    item => RenderEntry(scheme, item, strip)
  }

  /** The `host` property: None when hosts is absent or falsy, otherwise
      the entries rendered in order and joined by ", ". */
  function HostString(config: Dict<string, Value>, strip: bool): (r: Result<Option<string>, Error>)
    ensures var hosts := GetOr(config, "hosts", VList([]));
            && (r == Ok(None) <==> !Truthy(hosts))
            && (Truthy(hosts) && Iterate(hosts).None? ==>
                  r == Err(TypeError("'" + TypeName(hosts) + "' object is not iterable")))
            && (Truthy(hosts) && Iterate(hosts).Some? ==>
                  (r.Ok? <==> forall i :: 0 <= i < |Iterate(hosts).value| ==>
                                RenderEntry(Scheme(config), Iterate(hosts).value[i], strip).Ok?))
  {
    var hostsData := GetOr(config, "hosts", VList([]));
    if !Truthy(hostsData) then Ok(None)
    else
      match Iterate(hostsData)
      case None => Err(TypeError("'" + TypeName(hostsData) + "' object is not iterable"))
      case Some(items) =>
        var f := EntryRenderer(Scheme(config), strip);
        match MapResults(f, items)
        case Err(err) =>
          MapResultsFirstErr(f, items);
          Err(err)
        case Ok(parts) => Ok(Some(Join(", ", parts)))
  }

  /** The host loop: each entry rendered and appended, then joined. */
  method RenderHosts(config: Dict<string, Value>, strip: bool) returns (r: Result<Option<string>, Error>)
    ensures r == HostString(config, strip)
  {
    var scheme := Scheme(config);
    var hostsData := GetOr(config, "hosts", VList([]));
    if !Truthy(hostsData) {
      return Ok(None);
    }
    var iterated := Iterate(hostsData);
    if iterated.None? {
      return Err(TypeError("'" + TypeName(hostsData) + "' object is not iterable"));
    }
    var items := iterated.value;
    ghost var f := EntryRenderer(scheme, strip);
    var results: seq<string> := [];
    var i := 0;
    while i < |items|
      invariant 0 <= i <= |items|
      invariant MapResults(f, items[..i]) == Ok(results)
    {
      var entry := RenderEntry(scheme, items[i], strip);
      assert f(items[i]) == entry;
      MapResultsStep(f, items, i);
      if entry.Err? {
        MapResultsPrefixErr(f, items, i + 1);
        return Err(entry.error);
      }
      results := results + [entry.value];
      i := i + 1;
    }
    assert items[..i] == items;
    return Ok(Some(Join(", ", results)));
  }

  lemma {:induction false} JoinAppend(p: seq<string>, q: seq<string>)
    requires p != [] && q != []
    ensures Join(", ", p + q) == Join(", ", p) + ", " + Join(", ", q)
  {
    if |p| == 1 {
      assert (p + q)[1..] == q;
    } else {
      assert (p + q)[1..] == p[1..] + q;
      JoinAppend(p[1..], q);
    }
  }

  /** A host list that renders is its entries joined: a list made of two
      parts renders as the first part, ", ", then the second. */
  lemma HostsCompose(config: Dict<string, Value>, strip: bool, a: seq<Value>, b: seq<Value>)
    requires GetOr(config, "hosts", VList([])) == VList(a + b) && a != [] && b != []
    requires HostString(config, strip).Ok?
    ensures MapResults(EntryRenderer(Scheme(config), strip), a).Ok?
    ensures MapResults(EntryRenderer(Scheme(config), strip), b).Ok?
    ensures HostString(config, strip) == Ok(Some(
              Join(", ", MapResults(EntryRenderer(Scheme(config), strip), a).value) + ", " +
              Join(", ", MapResults(EntryRenderer(Scheme(config), strip), b).value)))
  {
    var f := EntryRenderer(Scheme(config), strip);
    MapResultsSplit(f, a, b);
    JoinAppend(MapResults(f, a).value, MapResults(f, b).value);
  }

  /** The first entry that cannot be rendered decides the error. */
  lemma HostFirstBadEntry(config: Dict<string, Value>, strip: bool, items: seq<Value>)
    requires GetOr(config, "hosts", VList([])) == VList(items)
    requires HostString(config, strip).Err?
    ensures exists i :: 0 <= i < |items| &&
              RenderEntry(Scheme(config), items[i], strip) == Err(HostString(config, strip).error) &&
              forall j :: 0 <= j < i ==> RenderEntry(Scheme(config), items[j], strip).Ok?
  {
    var f := EntryRenderer(Scheme(config), strip);
    MapResultsFirstErr(f, items);
  }

  lemma Decimal9200()
    ensures Decimal(9200) == "9200"
  {
    assert NatDigits(9200) == NatDigits(920) + ['0'];
    assert NatDigits(920) == NatDigits(92) + ['0'];
    assert NatDigits(92) == NatDigits(9) + ['2'];
  }

  /** A hosts list of one entry renders as that entry alone. */
  lemma HostSingle(config: Dict<string, Value>, strip: bool, item: Value, url: string)
    requires GetOr(config, "hosts", VList([])) == VList([item])
    requires RenderEntry(Scheme(config), item, strip) == Ok(url)
    ensures HostString(config, strip) == Ok(Some(url))
  {
    MapResultsOk(EntryRenderer(Scheme(config), strip), [item], [url]);
  }

  lemma ExampleConfig(e: Dict<string, Value>, ssl: bool)
    ensures GetOr([("hosts", VList([VDict(e)])), ("use_ssl", VBool(ssl))], "hosts", VList([])) == VList([VDict(e)])
    ensures Scheme([("hosts", VList([VDict(e)])), ("use_ssl", VBool(ssl))]) == if ssl then "https" else "http"
  {
    var c := [("hosts", VList([VDict(e)])), ("use_ssl", VBool(ssl))];
    assert Keys(c) == ["hosts", "use_ssl"];
    assert c[1..] == [("use_ssl", VBool(ssl))] && c[1..][1..] == [];
    assert Get(c, "use_ssl") == Some(VBool(ssl));
  }

  lemma PlainEntry()
    ensures RenderEntry("http", VDict([("host", VStr("a")), ("port", VInt(9200))]), false)
         == Ok("http://a:9200")
  {
    var e := [("host", VStr("a")), ("port", VInt(9200))];
    assert Keys(e) == ["host", "port"];
    assert GetOr(e, "url_prefix", VStr("")) == VStr("");
    Decimal9200();
    assert Values.Str(GetOr(e, "port", VNone)) == "9200";
    assert e[1..][1..] == [];
    assert Get(e, "host") == Some(VStr("a"));
    assert Get(e, "port") == Some(VInt(9200));
    assert PrefixPath(GetOr(e, "url_prefix", VStr("")), false) == Ok(None);
    assert GetOr(e, "host", VNone) == VStr("a");
    assert Values.Str(GetOr(e, "host", VNone)) == "a";
    assert "http" + "://" + "a" + ":" + "9200" == "http://a:9200";
  }

  /** A single host without prefix and without use_ssl renders as "http://a:9200". */
  lemma HostExamplePlain()
    ensures HostString([("hosts", VList([VDict([("host", VStr("a")), ("port", VInt(9200))])])), ("use_ssl", VBool(false))], false)
         == Ok(Some("http://a:9200"))
  {
    var e := [("host", VStr("a")), ("port", VInt(9200))];
    var c := [("hosts", VList([VDict(e)])), ("use_ssl", VBool(false))];
    ExampleConfig(e, false);
    PlainEntry();
    HostSingle(c, false, VDict(e), "http://a:9200");
  }

  lemma SslFields(e: Dict<string, Value>)
    requires e == [("host", VStr("a")), ("port", VInt(9200)), ("url_prefix", VStr("v1"))]
    ensures "host" in Keys(e) && "port" in Keys(e)
    ensures GetOr(e, "url_prefix", VStr("")) == VStr("v1")
    ensures GetOr(e, "host", VNone) == VStr("a") && GetOr(e, "port", VNone) == VInt(9200)
  {
    assert Keys(e) == ["host", "port", "url_prefix"];
    assert e[1..][1..] == [("url_prefix", VStr("v1"))] && e[1..][1..][1..] == [];
    assert Get(e[1..][1..], "url_prefix") == Some(VStr("v1"));
    assert Get(e, "url_prefix") == Some(VStr("v1"));
    assert Get(e, "host") == Some(VStr("a"));
    assert Get(e, "port") == Some(VInt(9200));
  }

  lemma SslEntry()
    ensures RenderEntry("https", VDict([("host", VStr("a")), ("port", VInt(9200)), ("url_prefix", VStr("v1"))]), false)
         == Ok("https://a:9200/v1")
  {
    var e := [("host", VStr("a")), ("port", VInt(9200)), ("url_prefix", VStr("v1"))];
    SslFields(e);
    SslParts();
  }

  /** The pieces RenderEntry puts together for the example entry. */
  lemma SslParts()
    ensures Values.Str(VStr("a")) == "a" && Values.Str(VInt(9200)) == "9200"
    ensures PrefixPath(VStr("v1"), false) == Ok(Some("v1"))
    ensures "https" + "://" + "a" + ":" + "9200" + "/" + "v1" == "https://a:9200/v1"
  {
    Decimal9200();
    assert "https" + "://" == "https://";
    assert "https://" + "a" + ":" == "https://a:";
    assert "https://a:" + "9200" == "https://a:9200";
  }

  /** With use_ssl and url_prefix "v1" the same host renders as "https://a:9200/v1". */
  lemma HostExampleSsl()
    ensures HostString([("hosts", VList([VDict([("host", VStr("a")), ("port", VInt(9200)), ("url_prefix", VStr("v1"))])])), ("use_ssl", VBool(true))], false)
         == Ok(Some("https://a:9200/v1"))
  {
    var e := [("host", VStr("a")), ("port", VInt(9200)), ("url_prefix", VStr("v1"))];
    var c := [("hosts", VList([VDict(e)])), ("use_ssl", VBool(true))];
    ExampleConfig(e, true);
    SslEntry();
    HostSingle(c, false, VDict(e), "https://a:9200/v1");
  }

  /** The async wrapper strips '/' around the prefix: "/v1/" renders like
      "v1", and a prefix of only slashes adds no path; the sync one keeps
      "/v1/" as it is. */
  lemma AsyncPrefixStripped()
    ensures PrefixPath(VStr("/v1/"), true) == PrefixPath(VStr("v1"), true) == Ok(Some("v1"))
    ensures PrefixPath(VStr("//"), true) == Ok(None)
    ensures PrefixPath(VStr("/v1/"), false) == Ok(Some("/v1/"))
  {
    StripSlashesV1();
    StripSlashesOnly();
    assert Strip("/v1/", '/') == "v1" && Strip("v1", '/') == "v1" && Strip("//", '/') == "";
    assert Truthy(VStr("/v1/")) && Values.Str(VStr("/v1/")) == "/v1/";
  }

  lemma StripSlashesV1()
    ensures LStrip(RStrip("/v1/", '/'), '/') == "v1"
    ensures LStrip(RStrip("v1", '/'), '/') == "v1"
  {
    assert "/v1/"[..3] == "/v1";
    assert RStrip("/v1/", '/') == "/v1";
    assert "/v1"[1..] == "v1";
    assert LStrip("/v1", '/') == "v1";
    assert RStrip("v1", '/') == "v1" && LStrip("v1", '/') == "v1";
  }

  lemma StripSlashesOnly()
    ensures RStrip("//", '/') == ""
  {
    assert "//"[..1] == "/" && "/"[..0] == "";
  }

  /** OpensearchClient */
  class OpensearchClient {
    const config: Dict<string, Value>
    var handle: Option<Driver>
    ghost var log: seq<DriverCall>

    constructor (cls: Auto.ClientClass, kwargs: Dict<string, Value>)
      ensures config == MergeConfig(kwargs, cls.config)
      ensures handle.None? && log == []
    {
      config := MergeConfig(kwargs, cls.config);
      handle := None;
      log := [];
    }

    /** The `client` property. */
    function Client(): (r: Result<Driver, Error>)
      reads this
      ensures r.Ok? <==> Live(handle)
      ensures r.Err? ==> r.error == Raise(404, "NoConnectionFound", NotConnectedInfo)
    {
      Accessor(handle, NotConnectedInfo)
    }

    /** The `status` property, given what ping does: False without a live
        handle, the ping answer with one, False when ping raises. */
    method Status(ping: Probe) returns (alive: bool)
      ensures alive <==> Live(handle) && ping == Answered(true)
    {
      if !Live(handle) {
        return false;
      }
      match ping
      case Answered(a) => return a;
      case Raised(_) => return false;
    }

    /** The `host` property. */
    method Host() returns (r: Result<Option<string>, Error>)
      ensures r == HostString(config, false)
    {
      r := RenderHosts(config, false);
    }

    /** connect(): a no-op while a handle is held; otherwise evaluates host
        (for the log line), constructs the driver and pings it. A
        constructor that raises propagates its error with no handle kept. A
        False ping raises 500 InvalidConfiguration with the new handle kept;
        an exception from ping propagates, also with the handle kept. */
    method Connect(built: Result<Driver, string>, ping: Probe) returns (r: Result<(), Error>)
      modifies this
      ensures old(handle).Some? ==> r == Ok(()) && handle == old(handle) && log == old(log)
      ensures old(handle).None? && HostString(config, false).Err? ==>
                r == Err(HostString(config, false).error) && handle == old(handle) && log == old(log)
      ensures old(handle).None? && HostString(config, false).Ok? && built.Err? ==>
                r == Err(DriverError(built.error)) && handle == old(handle) && log == old(log)
      ensures old(handle).None? && HostString(config, false).Ok? && built.Ok? ==>
                && handle == Some(built.value)
                && log == old(log) + [Constructed(built.value), Pinged(built.value)]
                && r == match ping
                        case Answered(true) => Ok(())
                        case Answered(false) => Err(Raise(500, "InvalidConfiguration", UnreachableInfo))
                        case Raised(m) => Err(DriverError(m))
    {
      if handle.Some? {
        return Ok(());
      }
      var host := RenderHosts(config, false);
      if host.Err? {
        return Err(host.error);
      }
      if built.Err? {
        return Err(DriverError(built.error));
      }
      handle := Some(built.value);
      log := log + [Constructed(built.value), Pinged(built.value)];
      match ping
      case Answered(alive) =>
        if !alive {
          return Err(Raise(500, "InvalidConfiguration", UnreachableInfo));
        }
        return Ok(());
      case Raised(m) =>
        return Err(DriverError(m));
    }

    /** disconnect(): nothing without a live handle; otherwise close, then
        clear. A close that raises propagates, and the handle is kept. */
    method Disconnect(closing: Completion) returns (r: Result<(), Error>)
      modifies this
      ensures !Live(old(handle)) ==> r == Ok(()) && handle == old(handle) && log == old(log)
      ensures Live(old(handle)) ==> log == old(log) + [Closed(old(handle).value)]
      ensures Live(old(handle)) && closing.Completed? ==> r == Ok(()) && handle.None?
      ensures Live(old(handle)) && closing.Failed? ==> r == Err(DriverError(closing.message)) && handle == old(handle)
    {
      if !Live(handle) {
        return Ok(());
      }
      log := log + [Closed(handle.value)];
      if closing.Failed? {
        return Err(DriverError(closing.message));
      }
      handle := None;
      return Ok(());
    }
  }

  /** Two connects in a row construct the driver at most once: the first
      connect that constructs successfully keeps its driver, and a later
      connect is then a no-op. A first construction that raises leaves no
      handle, so the second connect constructs again. */
  method ConnectTwice(c: OpensearchClient, built1: Result<Driver, string>, ping1: Probe, built2: Result<Driver, string>, ping2: Probe)
    returns (r1: Result<(), Error>, r2: Result<(), Error>)
    requires c.handle.None? && c.log == [] && HostString(c.config, false).Ok?
    modifies c
    ensures CountConstructed(c.log) == if built1.Ok? || built2.Ok? then 1 else 0
    ensures c.handle == if built1.Ok? then Some(built1.value) else if built2.Ok? then Some(built2.value) else None
    ensures built1.Err? ==> r1 == Err(DriverError(built1.error))
    ensures built1.Ok? ==> r2 == Ok(())
  {
    r1 := c.Connect(built1, ping1);
    r2 := c.Connect(built2, ping2);
    if built1.Ok? || built2.Ok? {
      var b := if built1.Ok? then built1.value else built2.value;
      assert c.log == [Constructed(b), Pinged(b)];
      assert c.log[1..] == [Pinged(b)];
      assert c.log[1..][1..] == [];
      assert CountConstructed(c.log[1..][1..]) == 0;
      assert CountConstructed(c.log[1..]) == 0;
    } else {
      assert c.log == [];
    }
  }

  /** AsyncOpensearchClient, its coroutines run to completion in sequence. */
  class AsyncOpensearchClient {
    const config: Dict<string, Value>
    var handle: Option<Driver>
    ghost var log: seq<DriverCall>

    constructor (cls: Auto.ClientClass, kwargs: Dict<string, Value>)
      ensures config == MergeConfig(kwargs, cls.config)
      ensures handle.None? && log == []
    {
      config := MergeConfig(kwargs, cls.config);
      handle := None;
      log := [];
    }

    function Client(): (r: Result<Driver, Error>)
      reads this
      ensures r.Ok? <==> Live(handle)
      ensures r.Err? ==> r.error == Raise(404, "NoConnectionFound", AsyncNotConnectedInfo)
    {
      Accessor(handle, AsyncNotConnectedInfo)
    }

    method Status(ping: Probe) returns (alive: bool)
      ensures alive <==> Live(handle) && ping == Answered(true)
    {
      if !Live(handle) {
        return false;
      }
      match ping
      case Answered(a) => return a;
      case Raised(_) => return false;
    }

    method Host() returns (r: Result<Option<string>, Error>)
      ensures r == HostString(config, true)
    {
      r := RenderHosts(config, true);
    }

    /** connect(): here the guard is truthiness, so a handle that tests
        false is replaced by a newly constructed one. A constructor that
        raises propagates its error and leaves the old handle in place. */
    method Connect(built: Result<Driver, string>, ping: Probe) returns (r: Result<(), Error>)
      modifies this
      ensures Live(old(handle)) ==> r == Ok(()) && handle == old(handle) && log == old(log)
      ensures !Live(old(handle)) && HostString(config, true).Err? ==>
                r == Err(HostString(config, true).error) && handle == old(handle) && log == old(log)
      ensures !Live(old(handle)) && HostString(config, true).Ok? && built.Err? ==>
                r == Err(DriverError(built.error)) && handle == old(handle) && log == old(log)
      ensures !Live(old(handle)) && HostString(config, true).Ok? && built.Ok? ==>
                && handle == Some(built.value)
                && log == old(log) + [Constructed(built.value), Pinged(built.value)]
                && r == match ping
                        case Answered(true) => Ok(())
                        case Answered(false) => Err(Raise(500, "InvalidConfiguration", AsyncUnreachableInfo))
                        case Raised(m) => Err(DriverError(m))
    {
      if Live(handle) {
        return Ok(());
      }
      var host := RenderHosts(config, true);
      if host.Err? {
        return Err(host.error);
      }
      if built.Err? {
        return Err(DriverError(built.error));
      }
      handle := Some(built.value);
      log := log + [Constructed(built.value), Pinged(built.value)];
      match ping
      case Answered(alive) =>
        if !alive {
          return Err(Raise(500, "InvalidConfiguration", AsyncUnreachableInfo));
        }
        return Ok(());
      case Raised(m) =>
        return Err(DriverError(m));
    }

    /** disconnect(): close is awaited before the handle is cleared; a close
        that raises propagates, and the handle is kept. */
    method Disconnect(closing: Completion) returns (r: Result<(), Error>)
      modifies this
      ensures !Live(old(handle)) ==> r == Ok(()) && handle == old(handle) && log == old(log)
      ensures Live(old(handle)) ==> log == old(log) + [Closed(old(handle).value)]
      ensures Live(old(handle)) && closing.Completed? ==> r == Ok(()) && handle.None?
      ensures Live(old(handle)) && closing.Failed? ==> r == Err(DriverError(closing.message)) && handle == old(handle)
    {
      if !Live(handle) {
        return Ok(());
      }
      log := log + [Closed(handle.value)];
      if closing.Failed? {
        return Err(DriverError(closing.message));
      }
      handle := None;
      return Ok(());
    }
  }

  /** `hosts` is a non-empty list whose first entry is a dict with a "host" key. */
  predicate FirstHostEntry(config: Dict<string, Value>)
  {
    && "hosts" in Keys(config)
    && GetOr(config, "hosts", VNone).VList?
    && |GetOr(config, "hosts", VNone).items| > 0
    && GetOr(config, "hosts", VNone).items[0].VDict?
    && "host" in Keys(GetOr(config, "hosts", VNone).items[0].entries)
  }

  /** The TypeError Python raises for `v["host"]` on a value that is not a dict. */
  function StrIndexError(v: Value): (e: Error)
    requires !v.VDict?
    ensures e.TypeError?
    ensures v.VNone? || v.VBool? || v.VInt? || v.VObject? ==> e.message == "'" + TypeName(v) + "' object is not subscriptable"
  {
    match v
    case VList(_) => TypeError("list indices must be integers or slices, not str")
    case VStr(_) => TypeError("string indices must be integers, not 'str'")
    case VBytes(_) => TypeError("byte indices must be integers or slices, not str")
    case _ => TypeError("'" + TypeName(v) + "' object is not subscriptable")
  }

  /** The older stub wrapper: its handle is just the text "Connected to <host>". */
  class LegacyOpensearchClient {
    const config: Dict<string, Value>
    var handle: Option<string>

    constructor (cls: Auto.ClientClass, kwargs: Dict<string, Value>)
      ensures config == MergeConfig(kwargs, cls.config) && handle.None?
    {
      config := MergeConfig(kwargs, cls.config);
      handle := None;
    }

    /** The `client` property: the handle as it is, None included. */
    function Client(): (r: Option<string>)
      reads this
      ensures r == handle
    {
      handle
    }

    /** True when the handle is truthy: never before connect(), always after it. */
    function Status(): (connected: bool)
      reads this
      ensures handle.None? ==> !connected
      ensures handle.Some? && StartsWith(handle.value, "Connected to ") ==> connected
    {
      handle.Some? && |handle.value| > 0
    }

    /** The `host` property: None when `hosts` is absent or has length 0;
        otherwise hosts[0]["host"], with the errors Python raises on the way. */
    function Host(): (r: Result<Option<Value>, Error>)
      reads this
      ensures "hosts" !in Keys(config) ==> r == Ok(None)
      ensures "hosts" in Keys(config) && Length(GetOr(config, "hosts", VNone)) == Some(0) ==> r == Ok(None)
      ensures "hosts" in Keys(config) && Length(GetOr(config, "hosts", VNone)).None? ==>
                r == Err(TypeError("object of type '" + TypeName(GetOr(config, "hosts", VNone)) + "' has no len()"))
      ensures "hosts" in Keys(config) && GetOr(config, "hosts", VNone).VDict? && Truthy(GetOr(config, "hosts", VNone)) ==>
                r == Err(KeyError("0"))
      ensures FirstHostEntry(config) ==> r == Ok(Some(GetOr(GetOr(config, "hosts", VNone).items[0].entries, "host", VNone)))
      ensures r.Ok? && r.value.Some? ==> FirstHostEntry(config)
    {
      if "hosts" !in Keys(config) then Ok(None)
      else
        match GetOr(config, "hosts", VNone)
        case VList(items) =>
          if |items| == 0 then Ok(None)
          else if !items[0].VDict? then Err(StrIndexError(items[0]))
          else if "host" !in Keys(items[0].entries) then Err(KeyError("host"))
          else Ok(Some(GetOr(items[0].entries, "host", VNone)))
        case VDict(entries) => if |entries| == 0 then Ok(None) else Err(KeyError("0"))
        case VStr(str) => if |str| == 0 then Ok(None) else Err(StrIndexError(VStr([str[0]])))
        case VBytes(bs) => if |bs| == 0 then Ok(None) else Err(StrIndexError(VInt(bs[0])))
        case other => Err(TypeError("object of type '" + TypeName(other) + "' has no len()"))
    }

    /** connect(): always overwrites the handle, with no idempotence guard. */
    method Connect() returns (r: Result<(), Error>)
      modifies this
      ensures Host().Err? ==> r == Err(Host().error) && handle == old(handle)
      ensures Host().Ok? ==>
                r == Ok(()) && handle == Some("Connected to " + Values.Str(if Host().value.Some? then Host().value.value else VNone))
    {
      var host := Host();
      if host.Err? {
        return Err(host.error);
      }
      var shown := if host.value.Some? then host.value.value else VNone;
      handle := Some("Connected to " + Values.Str(shown));
      return Ok(());
    }

    method Disconnect()
      modifies this
      ensures handle.None?
    {
      handle := None;
    }
  }
}
