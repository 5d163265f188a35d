/** The HTTP wrappers, ProxiedClient (a requests-style session) and
    AsyncProxiedClient (an aiohttp-style session, run in sequence): URL
    building, proxy credentials, the session lifecycle and the verbs. The
    HTTP exchange itself is an oracle. */
module Proxied {
  import opened Wrappers
  import opened Text
  import opened Dicts
  import opened Values
  import opened Exceptions
  import Drivers

  const NotConnectedInfo := "HTTP session not yet established; call connect() first."
  const AsyncNotConnectedInfo := "Async HTTP session not yet established; call connect() first."
  const UnpackMessage := "not enough values to unpack (expected 2, got 1)"

  /** The Response record: status, raw body and headers (the timing is not modelled). */
  datatype Response = Response(status: int, content: seq<byte>, headers: Dict<string, string>)

  /** What the server side of one request did: answered, or the library raised. */
  datatype Reply = Answered(response: Response) | Failed(message: string)

  /** A requests-style session as connect() configures it. `verify` is set
      only without a custom TLS context; `tlsMounted` records the adapter
      mounted for "https://". */
  datatype Session = Session(
    id: nat,
    tlsMounted: bool,
    verify: Option<bool>,
    auth: Option<(string, string)>,
    proxies: Option<Dict<string, string>>)

  /** An aiohttp-style session: TLS context given to its connector, basic
      auth and total timeout, each only when configured. */
  datatype AsyncSession = AsyncSession(id: nat, tls: bool, auth: Option<(string, string)>, timeout: Option<real>)

  /** A request as it leaves the wrapper. */
  datatype Sent = Sent(session: nat, verb: string, url: string, proxy: Option<string>, proxyAuth: Option<(string, string)>)

  /** The request methods of ProxiedClient. */
  datatype Verb = GET | HEAD | POST | PUT | PATCH | DELETE | OPTIONS

  function VerbName(v: Verb): (name: string)
    ensures |name| >= 3 && forall i :: 0 <= i < |name| ==> 'A' <= name[i] <= 'Z'
  {
    match v
    case GET => "GET"
    case HEAD => "HEAD"
    case POST => "POST"
    case PUT => "PUT"
    case PATCH => "PATCH"
    case DELETE => "DELETE"
    case OPTIONS => "OPTIONS"
  }

  /** One `key=value` field of a query string. */
  function Field(entry: (string, Value)): (f: string)
    ensures |f| > 0
  {
    entry.0 + "=" + Values.Str(entry.1)
  }

  /** urlencode(params): the fields in the dict's order, separated by '&'
      (percent-escaping is not modelled). Empty exactly when there are no
      params, and a single param is its own field. */
  function UrlEncode(params: Dict<string, Value>): (q: string)
    ensures q == [] <==> params == []
    ensures |params| == 1 ==> q == Field(params[0])
  {
    Join("&", Fields(params))
  }

  function Fields(params: Dict<string, Value>): (fs: seq<string>)
    ensures |fs| == |params| && forall i :: 0 <= i < |params| ==> fs[i] == Field(params[i])
  {
    seq(|params|, i requires 0 <= i < |params| => Field(params[i]))
  }

  /** Each further field follows an '&': the query of several params is the
      first field, '&', then the query of the rest. */
  lemma UrlEncodeCons(params: Dict<string, Value>)
    requires |params| > 1
    ensures UrlEncode(params) == Field(params[0]) + "&" + UrlEncode(params[1..])
  {
    assert Fields(params)[1..] == Fields(params[1..]);
  }

  /** `_build_url`: the host without trailing '/', one '/', the endpoint
      without leading '/', then "?" and the encoded params when there are any. */
  function BuildUrl(host: string, endpoint: string, params: Option<Dict<string, Value>>): (url: string)
    ensures params.None? || params.value == [] ==> url == RStrip(host, '/') + "/" + LStrip(endpoint, '/')
    ensures params.Some? && params.value != [] ==>
              url == RStrip(host, '/') + "/" + LStrip(endpoint, '/') + ("?" + UrlEncode(params.value))
  {
    Assemble(RStrip(host, '/'), LStrip(endpoint, '/'), params)
  }

  /** f"{base}/{path}", then "?" and the encoded params when they are truthy. */
  function Assemble(base: string, path: string, params: Option<Dict<string, Value>>): string
  {
    var url := base + "/" + path;
    if params.Some? && params.value != [] then url + ("?" + UrlEncode(params.value)) else url
  }

  /** url starts with base, one '/', and room for tail, and neither base
      nor tail puts a further '/' beside that one. */
  predicate OneSlashSeam(url: string, base: string, tail: string)
  {
    && |base| + 1 + |tail| <= |url|
    && StartsWith(url, base + "/")
    && (base == [] || url[|base| - 1] != '/')
    && (tail == [] || url[|base| + 1] != '/')
  }

  /** The host part and the endpoint part meet at exactly one '/'. */
  lemma BuildUrlOneSlash(host: string, endpoint: string, params: Option<Dict<string, Value>>)
    ensures OneSlashSeam(BuildUrl(host, endpoint, params), RStrip(host, '/'), LStrip(endpoint, '/'))
  {
    AssembleSeam(RStrip(host, '/'), LStrip(endpoint, '/'), params);
  }

  lemma AssembleSeam(base: string, tail: string, params: Option<Dict<string, Value>>)
    requires base == [] || base[|base| - 1] != '/'
    requires tail == [] || tail[0] != '/'
    ensures OneSlashSeam(Assemble(base, tail, params), base, tail)
  {
    var url := Assemble(base, tail, params);
    if params.Some? && params.value != [] {
      SlashJoin(base, tail, "?" + UrlEncode(params.value), url);
    } else {
      SlashJoin(base, tail, "", url);
    }
  }

  /** A url made of base, "/", tail and a rest, where neither base nor tail brings a '/' of its own to the seam. */
  lemma SlashJoin(base: string, tail: string, rest: string, url: string)
    requires base == [] || base[|base| - 1] != '/'
    requires tail == [] || tail[0] != '/'
    requires url == base + "/" + tail + rest
    ensures OneSlashSeam(url, base, tail)
  {
    assert url[..|base| + 1] == base + "/";
    if base != [] {
      assert url[|base| - 1] == base[|base| - 1];
    }
    if tail != [] {
      assert url[|base| + 1] == tail[0];
    }
  }

  lemma {:induction false} RStripExtra(s: string, c: char)
    ensures RStrip(s + [c], c) == RStrip(s, c)
  {
    assert (s + [c])[..|s|] == s;
  }

  lemma {:induction false} LStripExtra(s: string, c: char)
    ensures LStrip([c] + s, c) == LStrip(s, c)
  {
    assert ([c] + s)[1..] == s;
  }

  /** Extra slashes on either side of the join change nothing. */
  lemma BuildUrlSlashInsensitive(host: string, endpoint: string, params: Option<Dict<string, Value>>)
    ensures BuildUrl(host + "/", endpoint, params) == BuildUrl(host, endpoint, params)
    ensures BuildUrl(host, "/" + endpoint, params) == BuildUrl(host, endpoint, params)
  {
    RStripExtra(host, '/');
    LStripExtra(endpoint, '/');
    BuildUrlParts(host + "/", host, endpoint, endpoint, params);
    BuildUrlParts(host, host, "/" + endpoint, endpoint, params);
  }

  /** BuildUrl depends on the host and the endpoint only through their
      stripped forms. */
  lemma BuildUrlParts(host: string, host': string, endpoint: string, endpoint': string, params: Option<Dict<string, Value>>)
    requires RStrip(host, '/') == RStrip(host', '/') && LStrip(endpoint, '/') == LStrip(endpoint', '/')
    ensures BuildUrl(host, endpoint, params) == BuildUrl(host', endpoint', params)
  {
  }

  /** The proxy URL with proxy credentials: split at the first "://" and
      user:pass@ written in front of the rest, the userinfo component of
      section 3.2.1 of RFC 3986. A URL without "://" fails to unpack. */
  function EmbedCredentials(proxyUrl: string, user: string, password: string): (r: Result<string, Error>)
    ensures r.Err? <==> Find(proxyUrl, "://").None?
    ensures r.Err? ==> r.error == ValueError(UnpackMessage)
  {
    match Find(proxyUrl, "://")
    case None => Err(ValueError(UnpackMessage))
    case Some(i) => Ok(proxyUrl[..i] + "://" + user + ":" + password + "@" + proxyUrl[i + 3..])
  }

  /** The embedded URL splits at its first "://" into the original scheme
      and the userinfo followed by the original rest. */
  lemma EmbedCredentialsSplits(proxyUrl: string, user: string, password: string)
    requires EmbedCredentials(proxyUrl, user, password).Ok?
    ensures var r := EmbedCredentials(proxyUrl, user, password).value;
            var i := Find(proxyUrl, "://").value;
            && Find(r, "://") == Some(i)
            && r[..i] == proxyUrl[..i]
            && r[i + 3..] == user + ":" + password + "@" + proxyUrl[i + 3..]
  {
    var r := EmbedCredentials(proxyUrl, user, password).value;
    var i := Find(proxyUrl, "://").value;
    var tail := user + ":" + password + "@" + proxyUrl[i + 3..];
    assert r == proxyUrl[..i] + "://" + tail;
    assert proxyUrl[i..i + 3] == "://";
    forall k | 0 <= k < i + 3 ensures r[k] == proxyUrl[k] {
      if k >= i {
        assert proxyUrl[k] == proxyUrl[i..i + 3][k - i];
      }
    }
    FirstOccurrenceKept(proxyUrl, r, "://", i);
  }

  /** A first occurrence is what Find returns. */
  lemma {:induction false} FindFirst(s: string, pat: string, i: nat)
    requires OccursAt(s, pat, i) && forall j :: 0 <= j < i ==> !OccursAt(s, pat, j)
    ensures Find(s, pat) == Some(i)
  {
  }

  /** Text that agrees with s up to the end of s's first occurrence of pat
      has its first occurrence at the same place. */
  lemma FirstOccurrenceKept(s: string, t: string, pat: string, i: nat)
    requires i + |pat| <= |s| && i + |pat| <= |t|
    requires forall k :: 0 <= k < i + |pat| ==> t[k] == s[k]
    requires Find(s, pat) == Some(i)
    ensures Find(t, pat) == Some(i)
  {
    forall j | 0 <= j <= i ensures OccursAt(t, pat, j) <==> OccursAt(s, pat, j) {
      assert t[j..j + |pat|] == s[j..j + |pat|];
    }
    FindFirst(t, pat, i);
  }

  /** `{"http": url, "https": url}` */
  function ProxyTable(url: string): (t: Dict<string, string>)
    ensures Keys(t) == ["http", "https"] && Get(t, "http") == Some(url) && Get(t, "https") == Some(url)
  {
    var t := [("http", url), ("https", url)];
    assert t[1..] == [("https", url)];
    t
  }

  /** A non-empty string: Python truthiness of an optional str setting. */
  predicate Given(s: Option<string>)
  {
    s.Some? && s.value != ""
  }

  class ProxiedClient {
    const host: string
    const auth: Option<(string, string)>
    const sslEnabled: bool
    const verify: bool
    const proxy: Option<string>
    const proxyAuth: Option<(string, string)>
    var session: Option<Session>
    /** The sessions close() was called on, by id, in order. */
    ghost var closed: seq<nat>
    ghost var sent: seq<Sent>

    constructor (host: string, auth: Option<(string, string)>, sslEnabled: bool, verify: bool,
                 proxy: Option<string>, proxyAuth: Option<(string, string)>)
      ensures this.host == host && this.auth == auth && this.sslEnabled == sslEnabled && this.verify == verify
      ensures this.proxy == proxy && this.proxyAuth == proxyAuth
      ensures session.None? && closed == [] && sent == []
    {
      this.host := host;
      this.auth := auth;
      this.sslEnabled := sslEnabled;
      this.verify := verify;
      this.proxy := proxy;
      this.proxyAuth := proxyAuth;
      session := None;
      closed := [];
      sent := [];
    }

    /** The `host` property: the constructor's host, unchanged, connected or not. */
    function Host(): (r: string)
      ensures r == host
    {
      host
    }

    function Client(): (r: Result<Session, Error>)
      reads this
      ensures r.Ok? <==> session.Some?
      ensures r.Ok? ==> session == Some(r.value)
      ensures r.Err? ==> r.error == Raise(404, "NoConnectionFound", NotConnectedInfo)
    {
      if session.Some? then Ok(session.value) else Err(Raise(404, "NoConnectionFound", NotConnectedInfo))
    }

    function Status(): (connected: bool)
      reads this
      ensures connected <==> Client().Ok?
    {
      session.Some?
    }

    /** The proxies the session gets: none without a proxy; the proxy URL,
        with credentials embedded when proxy_auth is set, for both schemes. */
    function Proxies(): (r: Result<Option<Dict<string, string>>, Error>)
      ensures !Given(proxy) ==> r == Ok(None)
      ensures Given(proxy) && proxyAuth.None? ==> r == Ok(Some(ProxyTable(proxy.value)))
      ensures Given(proxy) && proxyAuth.Some? ==>
                r == match EmbedCredentials(proxy.value, proxyAuth.value.0, proxyAuth.value.1)
                     case Ok(url) => Ok(Some(ProxyTable(url)))
                     case Err(e) => Err(e)
    {
      if !Given(proxy) then Ok(None)
      else if proxyAuth.None? then Ok(Some(ProxyTable(proxy.value)))
      else
        match EmbedCredentials(proxy.value, proxyAuth.value.0, proxyAuth.value.1)
        case Ok(url) => Ok(Some(ProxyTable(url)))
        case Err(e) => Err(e)
    }

    /** connect(): a no-op while a session exists. Otherwise a new session
        mounts the TLS adapter when ssl is enabled (else takes `verify`),
        takes basic auth when given, and the proxies; a proxy URL that
        cannot be split leaves no session behind. */
    method Connect(id: nat) returns (r: Result<(), Error>)
      modifies this
      ensures closed == old(closed) && sent == old(sent)
      ensures old(session).Some? ==> r == Ok(()) && session == old(session)
      ensures old(session).None? && Proxies().Err? ==> r == Err(Proxies().error) && session.None?
      ensures old(session).None? && Proxies().Ok? ==>
                r == Ok(()) &&
                session == Some(Session(id, sslEnabled, if sslEnabled then None else Some(verify), auth, Proxies().value))
    {
      if session.Some? {
        return Ok(());
      }
      var s := Session(id, false, None, None, None);
      if sslEnabled {
        s := s.(tlsMounted := true);
      } else {
        s := s.(verify := Some(verify));
      }
      if auth.Some? {
        s := s.(auth := auth);
      }
      if Given(proxy) {
        var proxyUrl := proxy.value;
        if proxyAuth.Some? {
          var embedded := EmbedCredentials(proxyUrl, proxyAuth.value.0, proxyAuth.value.1);
          if embedded.Err? {
            return Err(embedded.error);
          }
          proxyUrl := embedded.value;
        }
        s := s.(proxies := Some(ProxyTable(proxyUrl)));
      }
      session := Some(s);
      return Ok(());
    }

    /** disconnect(): nothing without a session; otherwise close, then
        clear. A close that raises propagates, and the session is kept. */
    method Disconnect(closing: Drivers.Completion) returns (r: Result<(), Error>)
      modifies this
      ensures sent == old(sent)
      ensures old(session).None? ==> r == Ok(()) && session.None? && closed == old(closed)
      ensures old(session).Some? ==> closed == old(closed) + [old(session).value.id]
      ensures old(session).Some? && closing.Completed? ==> r == Ok(()) && session.None?
      ensures old(session).Some? && closing.Failed? ==> r == Err(DriverError(closing.message)) && session == old(session)
    {
      if session.None? {
        return Ok(());
      }
      closed := closed + [session.value.id];
      if closing.Failed? {
        return Err(DriverError(closing.message));
      }
      session := None;
      return Ok(());
    }

    /** get/head/post/put/patch/delete/options: connect first (so a fresh
        client opens its session here), build the URL, send on the session. */
    method Call(verb: Verb, endpoint: string, params: Option<Dict<string, Value>>, id: nat, reply: Reply)
      returns (r: Result<Response, Error>)
      modifies this
      ensures closed == old(closed)
      ensures old(session).Some? ==> session == old(session)
      ensures old(session).None? && Proxies().Err? ==> r == Err(Proxies().error) && session.None? && sent == old(sent)
      ensures old(session).Some? || Proxies().Ok? ==>
                && session.Some?
                && (old(session).None? ==> session.value.id == id)
                && sent == old(sent) + [Sent(session.value.id, VerbName(verb), BuildUrl(host, endpoint, params),
                                             if session.value.proxies.Some? then Get(session.value.proxies.value, "http") else None,
                                             None)]
                && r == match reply
                        case Answered(resp) => Ok(resp)
                        case Failed(m) => Err(DriverError(m))
    {
      var c := Connect(id);
      if c.Err? {
        return Err(c.error);
      }
      var url := BuildUrl(host, endpoint, params);
      var s := session.value;
      sent := sent + [Sent(s.id, VerbName(verb), url, if s.proxies.Some? then Get(s.proxies.value, "http") else None, None)];
      match reply {
        case Answered(resp) => return Ok(resp);
        case Failed(m) => return Err(DriverError(m));
      }
    }
  }

  class AsyncProxiedClient {
    const host: string
    const auth: Option<(string, string)>
    const sslEnabled: bool
    const proxy: Option<string>
    const proxyAuth: Option<(string, string)>
    const timeout: Option<real>
    var session: Option<AsyncSession>
    ghost var closed: seq<nat>
    ghost var sent: seq<Sent>

    constructor (host: string, auth: Option<(string, string)>, sslEnabled: bool,
                 proxy: Option<string>, proxyAuth: Option<(string, string)>, timeout: Option<real>)
      ensures this.host == host && this.auth == auth && this.sslEnabled == sslEnabled
      ensures this.proxy == proxy && this.proxyAuth == proxyAuth && this.timeout == timeout
      ensures session.None? && closed == [] && sent == []
    {
      this.host := host;
      this.auth := auth;
      this.sslEnabled := sslEnabled;
      this.proxy := proxy;
      this.proxyAuth := proxyAuth;
      this.timeout := timeout;
      session := None;
      closed := [];
      sent := [];
    }

    function Host(): (r: string)
      ensures r == host
    {
      host
    }

    function Client(): (r: Result<AsyncSession, Error>)
      reads this
      ensures r.Ok? <==> session.Some?
      ensures r.Ok? ==> session == Some(r.value)
      ensures r.Err? ==> r.error == Raise(404, "NoConnectionFound", AsyncNotConnectedInfo)
    {
      if session.Some? then Ok(session.value) else Err(Raise(404, "NoConnectionFound", AsyncNotConnectedInfo))
    }

    function Status(): (connected: bool)
      reads this
      ensures connected <==> Client().Ok?
    {
      session.Some?
    }

    /** connect(): a no-op while a session exists; otherwise a session whose
        connector carries the TLS context when ssl is enabled, with a total
        timeout only for a truthy timeout and basic auth only when given. */
    method Connect(id: nat)
      modifies this
      ensures closed == old(closed) && sent == old(sent)
      ensures old(session).Some? ==> session == old(session)
      ensures old(session).None? ==>
                session == Some(AsyncSession(id, sslEnabled, auth,
                                             if timeout.Some? && timeout.value != 0.0 then timeout else None))
    {
      if session.Some? {
        return;
      }
      var t := if timeout.Some? && timeout.value != 0.0 then timeout else None;
      session := Some(AsyncSession(id, sslEnabled, auth, t));
    }

    /** disconnect(): as the sync one; the close is awaited. */
    method Disconnect(closing: Drivers.Completion) returns (r: Result<(), Error>)
      modifies this
      ensures sent == old(sent)
      ensures old(session).None? ==> r == Ok(()) && session.None? && closed == old(closed)
      ensures old(session).Some? ==> closed == old(closed) + [old(session).value.id]
      ensures old(session).Some? && closing.Completed? ==> r == Ok(()) && session.None?
      ensures old(session).Some? && closing.Failed? ==> r == Err(DriverError(closing.message)) && session == old(session)
    {
      if session.None? {
        return Ok(());
      }
      closed := closed + [session.value.id];
      if closing.Failed? {
        return Err(DriverError(closing.message));
      }
      session := None;
      return Ok(());
    }

    /** _request(method, endpoint, params): connect, build the URL, send
        with the proxy and, only when set, the proxy credentials. */
    method Request(m: string, endpoint: string, params: Option<Dict<string, Value>>, id: nat, reply: Reply)
      returns (r: Result<Response, Error>)
      modifies this
      ensures closed == old(closed) && session.Some?
      ensures old(session).Some? ==> session == old(session)
      ensures old(session).None? ==> session.value.id == id
      ensures sent == old(sent) + [Sent(session.value.id, m, BuildUrl(host, endpoint, params), proxy, proxyAuth)]
      ensures r == match reply
                   case Answered(resp) => Ok(resp)
                   case Failed(msg) => Err(DriverError(msg))
    {
      Connect(id);
      var url := BuildUrl(host, endpoint, params);
      var s := Client();
      sent := sent + [Sent(s.value.id, m, url, proxy, proxyAuth)];
      match reply {
        case Answered(resp) => return Ok(resp);
        case Failed(msg) => return Err(DriverError(msg));
      }
    }

    method Get(endpoint: string, params: Option<Dict<string, Value>>, id: nat, reply: Reply) returns (r: Result<Response, Error>)
      modifies this
      ensures closed == old(closed) && session.Some?
      ensures old(session).Some? ==> session == old(session)
      ensures old(session).None? ==> session.value.id == id
      ensures sent == old(sent) + [Sent(session.value.id, "GET", BuildUrl(host, endpoint, params), proxy, proxyAuth)]
      ensures r == match reply
                   case Answered(resp) => Ok(resp)
                   case Failed(msg) => Err(DriverError(msg))
    {
      r := Request("GET", endpoint, params, id, reply);
    }

    method Head(endpoint: string, params: Option<Dict<string, Value>>, id: nat, reply: Reply) returns (r: Result<Response, Error>)
      modifies this
      ensures closed == old(closed) && session.Some?
      ensures old(session).Some? ==> session == old(session)
      ensures old(session).None? ==> session.value.id == id
      ensures sent == old(sent) + [Sent(session.value.id, "HEAD", BuildUrl(host, endpoint, params), proxy, proxyAuth)]
      ensures r == match reply
                   case Answered(resp) => Ok(resp)
                   case Failed(msg) => Err(DriverError(msg))
    {
      r := Request("HEAD", endpoint, params, id, reply);
    }

    method Post(endpoint: string, params: Option<Dict<string, Value>>, id: nat, reply: Reply) returns (r: Result<Response, Error>)
      modifies this
      ensures closed == old(closed) && session.Some?
      ensures old(session).Some? ==> session == old(session)
      ensures old(session).None? ==> session.value.id == id
      ensures sent == old(sent) + [Sent(session.value.id, "POST", BuildUrl(host, endpoint, params), proxy, proxyAuth)]
      ensures r == match reply
                   case Answered(resp) => Ok(resp)
                   case Failed(msg) => Err(DriverError(msg))
    {
      r := Request("POST", endpoint, params, id, reply);
    }

    method Put(endpoint: string, params: Option<Dict<string, Value>>, id: nat, reply: Reply) returns (r: Result<Response, Error>)
      modifies this
      ensures closed == old(closed) && session.Some?
      ensures old(session).Some? ==> session == old(session)
      ensures old(session).None? ==> session.value.id == id
      ensures sent == old(sent) + [Sent(session.value.id, "PUT", BuildUrl(host, endpoint, params), proxy, proxyAuth)]
      ensures r == match reply
                   case Answered(resp) => Ok(resp)
                   case Failed(msg) => Err(DriverError(msg))
    {
      r := Request("PUT", endpoint, params, id, reply);
    }

    method Patch(endpoint: string, params: Option<Dict<string, Value>>, id: nat, reply: Reply) returns (r: Result<Response, Error>)
      modifies this
      ensures closed == old(closed) && session.Some?
      ensures old(session).Some? ==> session == old(session)
      ensures old(session).None? ==> session.value.id == id
      ensures sent == old(sent) + [Sent(session.value.id, "PATCH", BuildUrl(host, endpoint, params), proxy, proxyAuth)]
      ensures r == match reply
                   case Answered(resp) => Ok(resp)
                   case Failed(msg) => Err(DriverError(msg))
    {
      r := Request("PATCH", endpoint, params, id, reply);
    }

    method Delete(endpoint: string, params: Option<Dict<string, Value>>, id: nat, reply: Reply) returns (r: Result<Response, Error>)
      modifies this
      ensures closed == old(closed) && session.Some?
      ensures old(session).Some? ==> session == old(session)
      ensures old(session).None? ==> session.value.id == id
      ensures sent == old(sent) + [Sent(session.value.id, "DELETE", BuildUrl(host, endpoint, params), proxy, proxyAuth)]
      ensures r == match reply
                   case Answered(resp) => Ok(resp)
                   case Failed(msg) => Err(DriverError(msg))
    {
      r := Request("DELETE", endpoint, params, id, reply);
    }
  }
}
