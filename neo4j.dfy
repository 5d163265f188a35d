/** The Neo4j wrappers, Neo4jClient and AsyncNeo4jClient (the latter's
    coroutines run in sequence), and the transaction executor behind their
    queries. The driver's session and transaction calls are oracles: a
    TxScript says which of them raises. */
module Neo4j {
  import opened Wrappers
  import opened Dicts
  import opened Values
  import opened Exceptions
  import opened Clients
  import opened Drivers
  import Auto

  const NotConnectedInfo := "Connection to Neo4j not yet established, try Neo4jClient.connect()."
  const AsyncNotConnectedInfo := "Async connection to Neo4j not yet established; call connect()."
  const UnreachableInfo := "Connection to Neo4j client cannot be established caused by either an invalid configuration or unreachable host."
  const AsyncUnreachableInfo := "Async connection to Neo4j cannot be established."

  const ExportCypher := "CALL n10s.rdf.export.cypher($query, $config)"
  const LabelsQuery := "CALL db.labels() YIELD label RETURN label as labels"
  const AsyncLabelsQuery := "CALL db.labels() YIELD label RETURN label AS labels"
  const DefaultRdfFormat := "Turtle"

  /** What one driver call did: returned, or raised an exception whose str() is `message`. */
  datatype Step = Done | Raises(message: string)

  /** The driver's behaviour for one execute_safe_query: begin_transaction,
      tx.run, result.data() (the records, or the message it raised),
      tx.commit and, when it is reached, tx.rollback. */
  datatype TxScript = TxScript(begin: Step, run: Step, data: Result<seq<Value>, string>, commit: Step, rollback: Step)

  /** What the executor does, in order. */
  datatype TxEvent =
    | SessionOpened
    | Begun
    | Ran(query: string, params: Value)
    | Collected
    | Committed
    | RolledBack
    | SessionClosed

  datatype TxRun = TxRun(result: Result<seq<Value>, Error>, events: seq<TxEvent>)

  /** The steps all succeed: the transaction commits. */
  predicate Succeeds(s: TxScript)
  {
    s.begin.Done? && s.run.Done? && s.data.Ok? && s.commit.Done?
  }

  /** The message of the first of run, data and commit that raised. */
  function FailureMessage(s: TxScript): string
    requires s.begin.Done? && !Succeeds(s)
  {
    if s.run.Raises? then s.run.message
    else if s.data.Err? then s.data.error
    else s.commit.message
  }

  /** One execute_safe_query once the driver is present: open a session,
      begin; then run, collect all records, commit and return them; a
      failure after begin rolls back and raises QueryException("REFUSED",
      "Query failed: <message>"). A failure of begin, or of the rollback
      itself, propagates as it is. The session is closed on every path. */
  function Transaction(query: string, params: Value, s: TxScript): (t: TxRun)
    ensures |t.events| >= 2 && t.events[0] == SessionOpened && t.events[|t.events| - 1] == SessionClosed
    ensures t.result.Ok? <==> Succeeds(s)
    ensures t.result.Ok? <==> Committed in t.events
    ensures Succeeds(s) ==>
              t.result == Ok(s.data.value) &&
              t.events == [SessionOpened, Begun, Ran(query, params), Collected, Committed, SessionClosed]
    ensures s.begin.Raises? ==> t.result == Err(DriverError(s.begin.message)) && t.events == [SessionOpened, SessionClosed]
    ensures s.begin.Done? && !Succeeds(s) && s.rollback.Done? ==>
              t.result == Err(Query("REFUSED", "Query failed: " + FailureMessage(s))) &&
              t.events[|t.events| - 2] == RolledBack
    ensures s.begin.Done? && !Succeeds(s) && s.rollback.Raises? ==> t.result == Err(DriverError(s.rollback.message))
    ensures RolledBack in t.events <==> s.begin.Done? && !Succeeds(s) && s.rollback.Done?
  {
    if s.begin.Raises? then TxRun(Err(DriverError(s.begin.message)), [SessionOpened, SessionClosed])
    else
      var ran := [SessionOpened, Begun, Ran(query, params)];
      if Succeeds(s) then TxRun(Ok(s.data.value), ran + [Collected, Committed, SessionClosed])
      else
        var reached := ran + (if s.run.Done? && s.data.Ok? then [Collected] else []);
        if s.rollback.Raises? then TxRun(Err(DriverError(s.rollback.message)), reached + [SessionClosed])
        else TxRun(Err(Query("REFUSED", "Query failed: " + FailureMessage(s))), reached + [RolledBack, SessionClosed])
  }

  /** Records are collected before the commit: whenever Committed happens,
      Collected comes right before it, and Ran before that. */
  lemma CollectBeforeCommit(query: string, params: Value, s: TxScript, i: nat)
    requires i < |Transaction(query, params, s).events| && Transaction(query, params, s).events[i] == Committed
    ensures i >= 2 && Transaction(query, params, s).events[i - 1] == Collected
    ensures Transaction(query, params, s).events[i - 2] == Ran(query, params)
  {
  }

  /** A commit and a rollback never both happen. */
  lemma CommitExcludesRollback(query: string, params: Value, s: TxScript)
    ensures !(Committed in Transaction(query, params, s).events && RolledBack in Transaction(query, params, s).events)
  {
  }

  /** The writes a trace makes durable. A run stages its write in the open
      transaction; a commit makes the staged writes durable; a rollback,
      the end of the session, or a new session discards what is staged. */
  function Commits(events: seq<TxEvent>, staged: seq<(string, Value)>): seq<(string, Value)>
  {
    if events == [] then []
    else
      match events[0]
      case Ran(q, p) => Commits(events[1..], staged + [(q, p)])
      case Committed => staged + Commits(events[1..], [])
      case RolledBack => Commits(events[1..], [])
      case SessionOpened => Commits(events[1..], [])
      case SessionClosed => Commits(events[1..], [])
      case _ => Commits(events[1..], staged)
  }

  /** The writes the database holds after the trace, oldest first. */
  function CommitLog(events: seq<TxEvent>): seq<(string, Value)>
  {
    Commits(events, [])
  }

  /** Without a commit, nothing staged ever becomes durable. */
  lemma {:induction false} NoCommitNoWrites(events: seq<TxEvent>, staged: seq<(string, Value)>)
    requires Committed !in events
    ensures Commits(events, staged) == []
  {
    if events != [] {
      assert events[0] != Committed;
      assert Committed !in events[1..];
      match events[0]
      case Ran(q, p) => NoCommitNoWrites(events[1..], staged + [(q, p)]);
      case RolledBack => NoCommitNoWrites(events[1..], []);
      case SessionOpened => NoCommitNoWrites(events[1..], []);
      case SessionClosed => NoCommitNoWrites(events[1..], []);
      case Begun => NoCommitNoWrites(events[1..], staged);
      case Collected => NoCommitNoWrites(events[1..], staged);
    }
  }

  /** The writes of a history followed by a new session are those of the
      history, then those of the session. */
  lemma {:induction false} CommitsAppend(a: seq<TxEvent>, b: seq<TxEvent>, staged: seq<(string, Value)>)
    requires b != [] && b[0] == SessionOpened
    ensures Commits(a + b, staged) == Commits(a, staged) + Commits(b, [])
  {
    if a == [] {
      assert a + b == b;
    } else {
      assert (a + b)[0] == a[0] && (a + b)[1..] == a[1..] + b;
      match a[0]
      case Ran(q, p) => CommitsAppend(a[1..], b, staged + [(q, p)]);
      case Committed => CommitsAppend(a[1..], b, []);
      case RolledBack => CommitsAppend(a[1..], b, []);
      case SessionOpened => CommitsAppend(a[1..], b, []);
      case SessionClosed => CommitsAppend(a[1..], b, []);
      case Begun => CommitsAppend(a[1..], b, staged);
      case Collected => CommitsAppend(a[1..], b, staged);
    }
  }

  /** A transaction makes its write durable exactly when it succeeds: a
      failing one, and in particular one that rolls back, writes nothing. */
  lemma TransactionWrites(query: string, params: Value, s: TxScript)
    ensures CommitLog(Transaction(query, params, s).events)
         == if Transaction(query, params, s).result.Ok? then [(query, params)] else []
    ensures RolledBack in Transaction(query, params, s).events ==> CommitLog(Transaction(query, params, s).events) == []
  {
    if Succeeds(s) {
      SuccessfulRunCommits(query, params);
    } else {
      NoCommitNoWrites(Transaction(query, params, s).events, []);
    }
  }

  /** The trace of a successful transaction commits exactly its one query. */
  lemma SuccessfulRunCommits(query: string, params: Value)
    ensures CommitLog([SessionOpened, Begun, Ran(query, params), Collected, Committed, SessionClosed]) == [(query, params)]
  {
    var e := [SessionOpened, Begun, Ran(query, params), Collected, Committed, SessionClosed];
    assert e[1..] == [Begun, Ran(query, params), Collected, Committed, SessionClosed];
    assert e[1..][1..] == [Ran(query, params), Collected, Committed, SessionClosed];
    assert e[1..][1..][1..] == [Collected, Committed, SessionClosed];
    assert e[1..][1..][1..][1..] == [Committed, SessionClosed];
    assert e[1..][1..][1..][1..][1..] == [SessionClosed];
    var w := [(query, params)];
    assert Commits(e[1..][1..][1..][1..][1..], []) == [];
    assert Commits(e[1..][1..][1..][1..], w) == w;
    assert Commits(e[1..][1..][1..], w) == w;
    assert [] + w == w;
    assert Commits(e[1..][1..], []) == w;
    assert Commits(e[1..], []) == w;
  }

  /** The params of export_rdf: {"cypherQuery": query, "config": {"format": format, "cypherParams": params}}. */
  function ExportParams(query: string, params: Value, format: string): (p: Value)
    ensures p.VDict? && Keys(p.entries) == ["cypherQuery", "config"]
    ensures Get(p.entries, "cypherQuery") == Some(VStr(query))
    ensures Get(p.entries, "config").Some? && Get(p.entries, "config").value.VDict?
    ensures Get(Get(p.entries, "config").value.entries, "format") == Some(VStr(format))
    ensures Get(Get(p.entries, "config").value.entries, "cypherParams") == Some(params)
  {
    var config := [("format", VStr(format)), ("cypherParams", params)];
    assert config[1..] == [("cypherParams", params)];
    var p := [("cypherQuery", VStr(query)), ("config", VDict(config))];
    assert p[1..] == [("config", VDict(config))];
    VDict(p)
  }

  /** `params or {}`: None, and any other falsy params, become an empty map. */
  function OrEmpty(params: Value): (p: Value)
    ensures Truthy(params) ==> p == params
    ensures !Truthy(params) ==> p == VDict([])
  {
    if Truthy(params) then params else VDict([])
  }

  /** The session block of execute_safe_query once the driver is present:
      open a session and a transaction, run, collect, commit; on a failure
      after begin, roll back and raise QueryException("REFUSED", ...). The
      result and the session events are those of Transaction. */
  method RunInSession(query: string, params: Value, s: TxScript) returns (r: Result<seq<Value>, Error>, ghost trace: seq<TxEvent>)
    ensures r == Transaction(query, params, s).result
    ensures trace == Transaction(query, params, s).events
  {
    ghost var t := Transaction(query, params, s);
    trace := [SessionOpened];
    if s.begin.Raises? {
      trace := trace + [SessionClosed];
      r := Err(DriverError(s.begin.message));
      assert trace == t.events;
      return;
    }
    trace := trace + [Begun, Ran(query, params)];
    var failure: Option<string> := None;
    var records: seq<Value> := [];
    if s.run.Raises? {
      failure := Some(s.run.message);
    } else if s.data.Err? {
      failure := Some(s.data.error);
    } else {
      records := s.data.value;
      trace := trace + [Collected];
      if s.commit.Raises? {
        failure := Some(s.commit.message);
      } else {
        trace := trace + [Committed];
      }
    }
    if failure.None? {
      trace := trace + [SessionClosed];
      r := Ok(records);
      assert Succeeds(s) && trace == t.events;
    } else if s.rollback.Raises? {
      trace := trace + [SessionClosed];
      r := Err(DriverError(s.rollback.message));
      assert trace == t.events;
    } else {
      assert failure.value == FailureMessage(s);
      trace := trace + [RolledBack, SessionClosed];
      r := Err(Query("REFUSED", "Query failed: " + failure.value));
      assert trace == t.events;
    }
  }

  class Neo4jClient {
    const config: Dict<string, Value>
    var handle: Option<Driver>
    ghost var log: seq<DriverCall>
    /** The executor's steps, in order, over the client's lifetime. */
    ghost var events: seq<TxEvent>

    /** The writes the database has committed through this client: those
        its event trace makes durable. */
    ghost function Store(): seq<(string, Value)>
      reads this
    {
      CommitLog(events)
    }

    constructor (cls: Auto.ClientClass, kwargs: Dict<string, Value>)
      ensures config == MergeConfig(kwargs, cls.config)
      ensures handle.None? && log == [] && events == []
    {
      config := MergeConfig(kwargs, cls.config);
      handle := None;
      log := [];
      events := [];
    }

    function Client(): (r: Result<Driver, Error>)
      reads this
      ensures r.Ok? <==> Live(handle)
      ensures r.Err? ==> r.error == Raise(404, "NoConnectionFound", NotConnectedInfo)
    {
      Accessor(handle, NotConnectedInfo)
    }

    /** The `status` property: a truthy driver is present; no probe is made. */
    function Status(): (connected: bool)
      reads this
      ensures connected <==> Client().Ok?
    {
      Live(handle)
    }

    function Host(): (r: Option<Value>)
      reads this
      ensures r == ConfiguredUri(config)
    {
      ConfiguredUri(config)
    }

    /** connect(): a no-op while a driver is held (even a falsy one);
        otherwise constructs the driver and keeps it, raising 500
        InvalidConfiguration when it tests false. A constructor that raises
        (a bad URI scheme, say) propagates its error with no driver kept. */
    method Connect(built: Result<Driver, string>) returns (r: Result<(), Error>)
      modifies this
      ensures old(handle).Some? ==> r == Ok(()) && handle == old(handle) && log == old(log)
      ensures old(handle).None? && built.Err? ==>
                r == Err(DriverError(built.error)) && handle == old(handle) && log == old(log)
      ensures old(handle).None? && built.Ok? ==>
                handle == Some(built.value) && log == old(log) + [Constructed(built.value)] &&
                r == (if built.value.truthy then Ok(()) else Err(Raise(500, "InvalidConfiguration", UnreachableInfo)))
      ensures events == old(events)
    {
      if handle.Some? {
        return Ok(());
      }
      if built.Err? {
        return Err(DriverError(built.error));
      }
      handle := Some(built.value);
      log := log + [Constructed(built.value)];
      if !built.value.truthy {
        return Err(Raise(500, "InvalidConfiguration", UnreachableInfo));
      }
      return Ok(());
    }

    /** disconnect(): clears the field; the driver is not closed. */
    method Disconnect()
      modifies this
      ensures handle.None? && log == old(log) && events == old(events)
    {
      handle := None;
    }

    /** execute_safe_query(query, params): 404 NoConnectionFound before any
        session is opened when no driver is present; otherwise the
        transaction, with params passed as given. The store gains the
        write exactly when the transaction commits. */
    method ExecuteSafeQuery(query: string, params: Value, s: TxScript) returns (r: Result<seq<Value>, Error>)
      modifies this
      ensures handle == old(handle) && log == old(log)
      ensures !Live(handle) ==>
                r == Err(Raise(404, "NoConnectionFound", NotConnectedInfo)) && events == old(events)
      ensures Live(handle) ==>
                && r == Transaction(query, params, s).result
                && events == old(events) + Transaction(query, params, s).events
                && Store() == old(Store()) + (if r.Ok? then [(query, params)] else [])
    {
      if !Live(handle) {
        return Err(Raise(404, "NoConnectionFound", NotConnectedInfo));
      }
      ghost var before := events;
      ghost var trace;
      r, trace := RunInSession(query, params, s);
      events := events + trace;
      CommitsAppend(before, trace, []);
      TransactionWrites(query, params, s);
    }

    /** export_rdf(query, params, format): its own 404 check, then the
        fixed n10s cypher with the export params. */
    method ExportRdf(query: string, params: Value, s: TxScript, format: string := DefaultRdfFormat) returns (r: Result<seq<Value>, Error>)
      modifies this
      ensures handle == old(handle) && log == old(log)
      ensures !Live(handle) ==>
                r == Err(Raise(404, "NoConnectionFound", NotConnectedInfo)) && events == old(events)
      ensures Live(handle) ==>
                && r == Transaction(ExportCypher, ExportParams(query, params, format), s).result
                && events == old(events) + Transaction(ExportCypher, ExportParams(query, params, format), s).events
                && Store() == old(Store()) + (if r.Ok? then [(ExportCypher, ExportParams(query, params, format))] else [])
    {
      if !Live(handle) {
        return Err(Raise(404, "NoConnectionFound", NotConnectedInfo));
      }
      r := ExecuteSafeQuery(ExportCypher, ExportParams(query, params, format), s);
    }

    /** The `labels` property: the labels query with params None. */
    method Labels(s: TxScript) returns (r: Result<seq<Value>, Error>)
      modifies this
      ensures handle == old(handle) && log == old(log)
      ensures !Live(handle) ==> r == Err(Raise(404, "NoConnectionFound", NotConnectedInfo)) && events == old(events)
      ensures Live(handle) ==>
                r == Transaction(LabelsQuery, VNone, s).result &&
                events == old(events) + Transaction(LabelsQuery, VNone, s).events &&
                Store() == old(Store()) + (if r.Ok? then [(LabelsQuery, VNone)] else [])
    {
      r := ExecuteSafeQuery(LabelsQuery, VNone, s);
    }
  }

  class AsyncNeo4jClient {
    const config: Dict<string, Value>
    var handle: Option<Driver>
    ghost var log: seq<DriverCall>
    ghost var events: seq<TxEvent>

    ghost function Store(): seq<(string, Value)>
      reads this
    {
      CommitLog(events)
    }

    constructor (cls: Auto.ClientClass, kwargs: Dict<string, Value>)
      ensures config == MergeConfig(kwargs, cls.config)
      ensures handle.None? && log == [] && events == []
    {
      config := MergeConfig(kwargs, cls.config);
      handle := None;
      log := [];
      events := [];
    }

    function Client(): (r: Result<Driver, Error>)
      reads this
      ensures r.Ok? <==> Live(handle)
      ensures r.Err? ==> r.error == Raise(404, "NoConnectionFound", AsyncNotConnectedInfo)
    {
      Accessor(handle, AsyncNotConnectedInfo)
    }

    /** The `status` property: False without a driver; with one, True when
        verify_connectivity returns and False when it raises. */
    method Status(verify: Probe) returns (connected: bool)
      ensures connected <==> Live(handle) && verify.Answered?
    {
      if !Live(handle) {
        return false;
      }
      return verify.Answered?;
    }

    function Host(): (r: Option<Value>)
      reads this
      ensures r == ConfiguredUri(config)
    {
      ConfiguredUri(config)
    }

    /** connect(): a no-op while a driver is held; otherwise constructs
        and keeps the driver (500 when it tests false). A constructor that
        raises propagates its error with no driver kept. */
    method Connect(built: Result<Driver, string>) returns (r: Result<(), Error>)
      modifies this
      ensures old(handle).Some? ==> r == Ok(()) && handle == old(handle) && log == old(log)
      ensures old(handle).None? && built.Err? ==>
                r == Err(DriverError(built.error)) && handle == old(handle) && log == old(log)
      ensures old(handle).None? && built.Ok? ==>
                handle == Some(built.value) && log == old(log) + [Constructed(built.value)] &&
                r == (if built.value.truthy then Ok(()) else Err(Raise(500, "InvalidConfiguration", AsyncUnreachableInfo)))
      ensures events == old(events)
    {
      if handle.Some? {
        return Ok(());
      }
      if built.Err? {
        return Err(DriverError(built.error));
      }
      handle := Some(built.value);
      log := log + [Constructed(built.value)];
      if !built.value.truthy {
        return Err(Raise(500, "InvalidConfiguration", AsyncUnreachableInfo));
      }
      return Ok(());
    }

    /** disconnect(): nothing without a driver; otherwise close is awaited,
        then the field cleared. A close that raises propagates, and the
        driver is kept. */
    method Disconnect(closing: Completion) returns (r: Result<(), Error>)
      modifies this
      ensures events == old(events)
      ensures !Live(old(handle)) ==> r == Ok(()) && handle == old(handle) && log == old(log)
      ensures Live(old(handle)) ==> log == old(log) + [Closed(old(handle).value)]
      ensures Live(old(handle)) && closing.Completed? ==> r == Ok(()) && handle.None?
      ensures Live(old(handle)) && closing.Failed? ==> r == Err(DriverError(closing.message)) && handle == old(handle)
    {
      if !Live(handle) {
        return Ok(());
      }
      log := log + [Closed(handle.value)];
      if closing.Failed? {
        return Err(DriverError(closing.message));
      }
      handle := None;
      return Ok(());
    }

    /** execute_safe_query(query, params): as the sync one, but falsy
        params (None by default) are sent as an empty map. */
    method ExecuteSafeQuery(query: string, params: Value, s: TxScript) returns (r: Result<seq<Value>, Error>)
      modifies this
      ensures handle == old(handle) && log == old(log)
      ensures !Live(handle) ==>
                r == Err(Raise(404, "NoConnectionFound", AsyncNotConnectedInfo)) && events == old(events)
      ensures Live(handle) ==>
                && r == Transaction(query, OrEmpty(params), s).result
                && events == old(events) + Transaction(query, OrEmpty(params), s).events
                && Store() == old(Store()) + (if r.Ok? then [(query, OrEmpty(params))] else [])
    {
      if !Live(handle) {
        return Err(Raise(404, "NoConnectionFound", AsyncNotConnectedInfo));
      }
      var sent := if Truthy(params) then params else VDict([]);
      ghost var before := events;
      ghost var trace;
      r, trace := RunInSession(query, sent, s);
      events := events + trace;
      CommitsAppend(before, trace, []);
      TransactionWrites(query, sent, s);
    }

    method ExportRdf(query: string, params: Value, s: TxScript, format: string := DefaultRdfFormat) returns (r: Result<seq<Value>, Error>)
      modifies this
      ensures handle == old(handle) && log == old(log)
      ensures !Live(handle) ==>
                r == Err(Raise(404, "NoConnectionFound", AsyncNotConnectedInfo)) && events == old(events)
      ensures Live(handle) ==>
                && r == Transaction(ExportCypher, ExportParams(query, params, format), s).result
                && events == old(events) + Transaction(ExportCypher, ExportParams(query, params, format), s).events
                && Store() == old(Store()) + (if r.Ok? then [(ExportCypher, ExportParams(query, params, format))] else [])
    {
      if !Live(handle) {
        return Err(Raise(404, "NoConnectionFound", AsyncNotConnectedInfo));
      }
      r := ExecuteSafeQuery(ExportCypher, ExportParams(query, params, format), s);
    }

    /** The `labels` property: no params, so an empty map is sent. */
    method Labels(s: TxScript) returns (r: Result<seq<Value>, Error>)
      modifies this
      ensures handle == old(handle) && log == old(log)
      ensures !Live(handle) ==> r == Err(Raise(404, "NoConnectionFound", AsyncNotConnectedInfo)) && events == old(events)
      ensures Live(handle) ==>
                r == Transaction(AsyncLabelsQuery, VDict([]), s).result &&
                events == old(events) + Transaction(AsyncLabelsQuery, VDict([]), s).events &&
                Store() == old(Store()) + (if r.Ok? then [(AsyncLabelsQuery, VDict([]))] else [])
    {
      r := ExecuteSafeQuery(AsyncLabelsQuery, VNone, s);
    }
  }
}
