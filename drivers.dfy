/** The third-party driver handles the wrappers own, and the calls the
    wrappers make on them. A driver's own behaviour is not modelled: each
    call's result is supplied to the wrapper operation as a parameter. */
module Drivers {
  import opened Wrappers
  import opened Values
  import opened Exceptions
  import opened Dicts

  /** A driver handle as the wrapper stores it. `truthy` is what `not handle`
      sees: a driver class that defines __len__ can test false. */
  datatype Driver = Driver(id: nat, truthy: bool)

  /** What a liveness call (ping, verify_connectivity) did. */
  datatype Probe = Answered(alive: bool) | Raised(message: string)

  /** What a call whose return value is discarded (close, subscribe) did. */
  datatype Completion = Completed | Failed(message: string)

  /** The calls a wrapper makes on its driver, in the order made. */
  datatype DriverCall =
    | Constructed(d: Driver)
    | Pinged(d: Driver)
    | Closed(d: Driver)
    | HealthChecked(d: Driver)
    | Subscribed(d: Driver, topics: seq<Value>)
    | ListedTopics(d: Driver)

  /** `not self._client` is false: a handle is held and tests true. */
  predicate Live(handle: Option<Driver>)
  {
    handle.Some? && handle.value.truthy
  }

  /** The `client` property shared by the wrappers: the handle, or
      ConnectionException(404, "NoConnectionFound", info). */
  function Accessor(handle: Option<Driver>, info: string): (r: Result<Driver, Error>)
    ensures r.Ok? <==> Live(handle)
    ensures r.Ok? ==> handle == Some(r.value)
    ensures r.Err? ==> r.error == Raise(404, "NoConnectionFound", info)
  {
    if Live(handle) then Ok(handle.value) else Err(Raise(404, "NoConnectionFound", info))
  }

  function CountConstructed(log: seq<DriverCall>): nat
  {
    if log == [] then 0 else (if log[0].Constructed? then 1 else 0) + CountConstructed(log[1..])
  }

  /** The `host` property of the Neo4j and Kafka wrappers: the configured
      "uri" when it is truthy, None when it is absent or falsy. */
  function ConfiguredUri(config: Dict<string, Value>): (r: Option<Value>)
    ensures r.Some? <==> "uri" in Keys(config) && Truthy(GetOr(config, "uri", VStr("")))
    ensures r.Some? ==> Get(config, "uri") == r
  {
    var uri := GetOr(config, "uri", VStr(""));
    if Truthy(uri) then Some(uri) else None
  }
}
