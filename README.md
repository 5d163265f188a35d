# Plyght client wrappers and utilities, modelled in Dafny

Plyght wraps third-party drivers for OpenSearch, Neo4j, Kafka and plain
HTTP behind one lifecycle: `client` / `status` / `host` properties,
idempotent `connect()` and `disconnect()`, and ConnectionException for
every failure the wrappers themselves detect. Configuration reaches a
wrapper through the `configuration` class decorator, `get_kwargs` and the
merge in `Client.__init__`. Alongside the wrappers sit:

- a dict-backed attribute store, `State`;
- the integer validators;
- the console/file log formatter and the schema-driven JSON log formatter.

The model follows the code file by file:

- **Pure logic** is written as datatypes, functions and lemmas. This covers:
  - URL and host rendering;
  - the exception text;
  - the snake_case to PascalCase conversion;
  - header decoding;
  - integer parsing;
  - format selection;
  - ANSI stripping;
  - the JSON schema walk.
- **Stateful code** is written as classes. A wrapper holds its driver handle
  in a field that `Connect`/`Disconnect` reassign. `State` writes through to
  a shared `Mapping` object. The formatters rewrite the record in place.
- **Loops** become methods with loop invariants, each proved equal to a
  specification function. This covers:
  - the OpenSearch host loop;
  - the `get_kwargs` flattening loop;
  - the Kafka header scan and polling loop;
  - `_extras` and the JSON formatter's schema loop.

The drivers are oracles. Whatever a driver call does (ping, health check,
list_topics, a session's transaction steps, an HTTP reply) is a parameter
of the wrapper operation. A ghost log records the calls the wrapper makes
on the driver, in order. This lets the contracts state what is called, in
which order, how often, and what ends up closed.

Python dicts are ordered association lists (module `Dicts`). Lookups take
the last binding, assignment replaces in place or appends, and `|` is a
left-to-right sequence of assignments. Python values are a small `Value`
datatype with Python truthiness and `str()`.

Where the documentation of the system and its code disagree, the model
follows the code. `Client.__init__` computes `kwargs | self._config.dump()`,
so on a shared key the configuration declared through `@configuration`
overrides the keyword argument passed at the call site. The documentation
describes the opposite precedence. `Clients.MergeValues` and
`Clients.DeclaredWinsExample` state the behaviour as written.

## Model

| member | source | states |
|---|---|---|
| Clients.MergeConfig | plyght/config/clients/client.py:16-20 | without a declared configuration the config is the kwargs; with one, its keys are the union of both, the kwargs' keys keep their order as a prefix, and well-formedness (distinct keys) is preserved |
| Clients.MergeValues | plyght/config/clients/concurrent/async_client.py:25-27 | the merged value of a key is the declared one whenever the declared configuration has that key, the call-site one otherwise |
| Clients.DeclaredWinsExample | plyght/config/clients/client.py:16-20 | declared use_ssl False merged with call-site use_ssl True stays False, and the declared hosts are kept |
| Auto.SearchScope | plyght/config/auto.py:14-18 | the module searched is module_path when it is non-empty, otherwise the class's own module |
| Auto.Resolve | plyght/config/auto.py:12-25 | the lookup succeeds exactly when the scope is importable and defines the PascalCase class name, yielding that class's configuration; otherwise ImportError with the "not found" message |
| Auto.Configuration | plyght/config/auto.py:10-28 | on success the decorator binds the found configuration as cls._config and returns cls; on failure it raises the ImportError and leaves the class unchanged |
| Auto.NotFoundNamesBoth | config/auto.py:18-23 | the ImportError message contains the looked-up class name (which has no '_') and ends with the quoted scope searched |
| Auto.FlattenGet | plyght/config/auto.py:38-48 | key by key, get_kwargs returns the kwargs entry when kwargs supplies the key; otherwise "self", "__class__" and "kwargs" are absent, and any other local passes through unchanged |
| Auto.Flatten | plyght/config/auto.py:38-48 | get_kwargs fails exactly when a "kwargs" local exists and is not a dict, with AttributeError "'<type>' object has no attribute 'items'" |
| Auto.GetKwargs | plyght/config/auto.py:38-48 | the loop over kwargs.items() computes exactly the flattened locals; a non-dict kwargs raises AttributeError |
| Auto.AssignEach | plyght/config/auto.py:45-46 | assigning each kwargs pair in order leaves the locals updated by kwargs: a kwargs key takes its kwargs value, every other local keeps its own (with Dicts.UpdateGet) |
| BaseConfigs.BaseConfig.GetItem | plyght/config/base_config.py:25-29 | cfg[key] succeeds exactly for the keys of dump(), returning dump()'s value, else KeyError(key) |
| BaseConfigs.BaseConfig.Iter | plyght/config/base_config.py:31-35 | iteration yields one key per entry of dump(), in dump()'s order, and exactly the keys cfg[key] accepts |
| BaseConfigs.BaseConfig.Len | plyght/config/base_config.py:37-41 | len(cfg) is the number of keys iteration yields |
| BaseConfigs.MappingView | config/base_config.py:25-41 | the i-th key iteration yields is dump()'s i-th key, and no key repeats; len() counts them; indexing by the i-th key yields the i-th value |
| Exceptions.NewConnectionException | plyght/config/clients/exceptions.py:8-12 | the three fields are stored as given and the message handed to Exception equals str(e) |
| Exceptions.Raise | config/clients/exceptions.py:8-15 | a raised ConnectionException carries the given code, tag and info, and its message is its str() |
| Exceptions.Render | plyght/config/clients/exceptions.py:12-15 | when the error type contains no '-', the rendered text "<type> - <code> - <info>" parses back to exactly (type, code, info), so the text determines all three fields |
| Exceptions.FirstSeparator | plyght/config/clients/exceptions.py:14-15 | in a rendering, the first " - " follows the error type immediately when the type has no '-' |
| Exceptions.SecondSeparator | plyght/config/clients/exceptions.py:14-15 | the next " - " follows the status code's decimal digits immediately, for negative codes too |
| Case.Split | util/converters/case.py:1-2 | str.split('_') yields at least one piece and no piece contains '_' |
| Case.Capitalize | util/converters/case.py:1-2 | for ASCII input, str.capitalize keeps the length and the position of every underscore |
| Case.SplitJoin | util/converters/case.py:1-2 | joining the pieces with '_' gives the input back |
| Case.SplitAppend | util/converters/case.py:1-2 | the pieces of a + "_" + b are those of a followed by those of b |
| Case.SnakeToPascal | util/converters/case.py:1-2 | the class name contains no '_', and for ASCII input its length is the input's minus its underscores: every other character is kept |
| Case.PascalAppend | util/converters/case.py:1-2 | the conversion of a + "_" + b is that of a followed by that of b |
| Case.PascalSingleWord | util/converters/case.py:1-2 | a name without '_' is simply capitalised |
| Case.EmptyPiecesVanish | util/converters/case.py:1-2 | a doubled underscore contributes nothing: a + "__" + b converts like a + "_" + b |
| Case.LeadingUnderscore | util/converters/case.py:1-2 | a leading underscore is dropped |
| Drivers.Accessor | plyght/config/clients/kafka_client.py:49-56 | the client property returns the handle exactly when it is held and truthy, else ConnectionException 404 NoConnectionFound |
| Drivers.ConfiguredUri | plyght/config/clients/neo4j_client.py:74-80 | host is the configured "uri" exactly when it is present and truthy, else None |
| OpenSearch.Scheme | plyght/config/clients/opensearch_client.py:82-83 | the scheme is "https" exactly when use_ssl is truthy, "http" otherwise (also when absent) |
| OpenSearch.PrefixPath | plyght/config/clients/concurrent/opensearch_client.py:92-94 | the sync wrapper gives str(url_prefix) exactly when it is truthy; the async one succeeds exactly on a str (bytes and other types raise). It gives no path exactly when the prefix is all '/'. Otherwise it gives the prefix with its outer '/' removed: the path neither starts nor ends with '/' and is the prefix with only '/' on either side |
| OpenSearch.RenderEntry | plyght/config/clients/opensearch_client.py:91-96 | a non-dict entry raises AttributeError; an unreadable url_prefix raises its error; otherwise the entry renders exactly when it has host and port, and then as scheme://host:port, followed by "/" and the path when there is one |
| OpenSearch.RenderHosts | plyght/config/clients/opensearch_client.py:82-98 | the host loop computes the entries rendered in order and joined by ", ", None for no hosts, and the first entry's error |
| OpenSearch.HostString | plyght/config/clients/opensearch_client.py:82-98 | None exactly when hosts is absent or falsy; a truthy hosts that is not iterable raises TypeError "'<type>' object is not iterable"; otherwise it succeeds exactly when every entry renders |
| OpenSearch.HostsCompose | plyght/config/clients/opensearch_client.py:90-98 | a host list made of two parts renders as the first part's rendering, ", ", then the second's |
| OpenSearch.HostFirstBadEntry | plyght/config/clients/opensearch_client.py:90-96 | a failing host property fails with the error of the first entry that cannot be rendered, all earlier ones rendering |
| OpenSearch.HostSingle | plyght/config/clients/opensearch_client.py:90-98 | a one-entry list renders as that entry alone |
| OpenSearch.HostExamplePlain | plyght/config/clients/opensearch_client.py:82-98 | {host: "a", port: 9200} without use_ssl renders as "http://a:9200" |
| OpenSearch.HostExampleSsl | plyght/config/clients/opensearch_client.py:82-98 | with use_ssl and url_prefix "v1" it renders as "https://a:9200/v1" |
| OpenSearch.AsyncPrefixStripped | plyght/config/clients/concurrent/opensearch_client.py:92-94 | the async wrapper renders "/v1/" like "v1" and drops "//", while the sync one keeps "/v1/" |
| OpenSearch.OpensearchClient.constructor | plyght/config/clients/opensearch_client.py:26-33 | the config is the merge of the arguments with the declared configuration, and no handle is held |
| OpenSearch.OpensearchClient.Client | plyght/config/clients/opensearch_client.py:44-51 | the handle exactly when held and truthy, else 404 NoConnectionFound |
| OpenSearch.OpensearchClient.Status | plyght/config/clients/opensearch_client.py:61-72 | True exactly when a live handle is held and ping answers True; False when ping raises |
| OpenSearch.OpensearchClient.Host | plyght/config/clients/opensearch_client.py:82-98 | the rendered host string of the configuration |
| OpenSearch.OpensearchClient.Connect | plyght/config/clients/opensearch_client.py:105-118 | a no-op while a handle is held; otherwise the driver is constructed once and pinged, and the handle is kept; a raising constructor propagates its error, keeps no handle and calls nothing more; a False ping raises 500 InvalidConfiguration, and a raising ping propagates |
| OpenSearch.OpensearchClient.Disconnect | plyght/config/clients/opensearch_client.py:124-127 | a live handle is closed once and then cleared; a close that raises propagates its error and the handle is kept; without a live handle nothing happens |
| OpenSearch.ConnectTwice | plyght/config/clients/opensearch_client.py:105-106 | two connects in a row construct at most one driver: after a successful first connect the second is a no-op and the first handle is kept; after a raising constructor the first connect propagates its error and the second constructs again |
| OpenSearch.AsyncOpensearchClient.constructor | plyght/config/clients/concurrent/opensearch_client.py:28-36 | the config is the merge of the arguments with the declared configuration, and no handle is held |
| OpenSearch.AsyncOpensearchClient.Client | plyght/config/clients/concurrent/opensearch_client.py:47-54 | the handle exactly when held and truthy, else the async 404 NoConnectionFound |
| OpenSearch.AsyncOpensearchClient.Status | plyght/config/clients/concurrent/opensearch_client.py:64-74 | True exactly when a live handle is held and ping answers True |
| OpenSearch.AsyncOpensearchClient.Host | plyght/config/clients/concurrent/opensearch_client.py:84-95 | the host string with slash-stripped prefixes |
| OpenSearch.AsyncOpensearchClient.Connect | plyght/config/clients/concurrent/opensearch_client.py:104-114 | a no-op while a truthy handle is held (a falsy one is replaced); otherwise construct, keep and ping, raising 500 on a False ping; a raising constructor propagates its error and leaves the handle and the calls as they were |
| OpenSearch.AsyncOpensearchClient.Disconnect | plyght/config/clients/concurrent/opensearch_client.py:120-123 | a live handle is closed once and then cleared; a close that raises propagates its error and the handle is kept; without a live handle nothing happens |
| OpenSearch.LegacyOpensearchClient.constructor | config/clients/opensearch_client.py:7-14 | the config is the merged configuration, and no handle is held |
| OpenSearch.LegacyOpensearchClient.Client | config/clients/opensearch_client.py:16-18 | the handle as it is, None included, never an error |
| OpenSearch.LegacyOpensearchClient.Status | config/clients/opensearch_client.py:20-22 | False before connect, True once connect has stored its "Connected to ..." text |
| OpenSearch.LegacyOpensearchClient.Host | config/clients/opensearch_client.py:24-31 | None without hosts or when len(hosts) is 0 (also "", {} and b""); TypeError when hosts has no len(); KeyError 0 for a non-empty dict; a host exactly when hosts is a non-empty list whose first entry is a dict with "host", and then that field; otherwise the TypeError or KeyError of the subscript |
| OpenSearch.LegacyOpensearchClient.Connect | config/clients/opensearch_client.py:33-38 | always overwrites the handle with "Connected to " + str(host); a failing host lookup propagates |
| OpenSearch.LegacyOpensearchClient.Disconnect | config/clients/opensearch_client.py:40-44 | the handle is cleared |
| Neo4j.Transaction | plyght/config/clients/neo4j_client.py:131-142 | the session is opened first and closed last on every path. The result is Ok exactly when all steps succeed, and exactly then a commit happens. A failure after begin rolls back and raises QueryException REFUSED "Query failed: ...". A failing begin propagates its error. A rollback that itself raises propagates its error instead of the REFUSED one. A rollback happens exactly on a failure after begin |
| Neo4j.CollectBeforeCommit | plyght/config/clients/neo4j_client.py:134-136 | a commit comes right after the records are collected, which come right after the run |
| Neo4j.CommitExcludesRollback | plyght/config/clients/neo4j_client.py:133-142 | a transaction never both commits and rolls back |
| Neo4j.NoCommitNoWrites | plyght/config/clients/neo4j_client.py:131-142 | a trace without a commit makes no staged write durable |
| Neo4j.CommitsAppend | plyght/config/clients/neo4j_client.py:131 | each `async with session()` starts afresh: the writes of a history followed by a new session are the history's writes, then the session's |
| Neo4j.TransactionWrites | plyght/config/clients/neo4j_client.py:132-142 | a transaction's trace makes exactly its own write durable when it succeeds, and nothing when it fails; in particular a trace that rolls back writes nothing |
| Neo4j.RunInSession | plyght/config/clients/concurrent/neo4j_client.py:128-137 | the session block's result and event trace are those of Transaction |
| Neo4j.ExportParams | plyght/config/clients/neo4j_client.py:167-177 | the export params are {"cypherQuery": query, "config": {"format": format, "cypherParams": params}} |
| Neo4j.OrEmpty | plyght/config/clients/concurrent/neo4j_client.py:131 | truthy params are sent as given, falsy ones as an empty map |
| Neo4j.Neo4jClient.constructor | plyght/config/clients/neo4j_client.py:26-33 | the merged configuration, no driver, and an empty event trace, hence no committed writes |
| Neo4j.Neo4jClient.Client | plyght/config/clients/neo4j_client.py:44-51 | the driver exactly when held and truthy, else 404 NoConnectionFound |
| Neo4j.Neo4jClient.Status | plyght/config/clients/neo4j_client.py:61-65 | connected exactly when client would succeed; no probe is made |
| Neo4j.Neo4jClient.Host | plyght/config/clients/neo4j_client.py:74-80 | the configured uri when it is truthy, else None |
| Neo4j.Neo4jClient.Connect | plyght/config/clients/neo4j_client.py:88-102 | a no-op while any driver is held; otherwise one construction, with the driver kept, and 500 InvalidConfiguration when it tests false; a raising constructor propagates its error and leaves the handle and the calls as they were |
| Neo4j.Neo4jClient.Disconnect | plyght/config/clients/neo4j_client.py:104-108 | the field is cleared and nothing is closed |
| Neo4j.Neo4jClient.ExecuteSafeQuery | plyght/config/clients/neo4j_client.py:123-142 | 404 with no session opened when there is no live driver; otherwise the transaction's result and events. The committed writes, computed from the event trace, gain this query exactly when the transaction commits |
| Neo4j.Neo4jClient.ExportRdf | plyght/config/clients/neo4j_client.py:160-178 | 404 without a driver; otherwise the n10s export cypher run with the export params (format "Turtle" unless given), committed as one write exactly when it succeeds |
| Neo4j.Neo4jClient.Labels | plyght/config/clients/neo4j_client.py:180-184 | the labels query run with params None, committed as one write exactly when it succeeds |
| Neo4j.AsyncNeo4jClient.constructor | plyght/config/clients/concurrent/neo4j_client.py:27-35 | the merged configuration, no driver, and empty logs |
| Neo4j.AsyncNeo4jClient.Client | plyght/config/clients/concurrent/neo4j_client.py:46-52 | the driver exactly when held and truthy, else the async 404 |
| Neo4j.AsyncNeo4jClient.Status | plyght/config/clients/concurrent/neo4j_client.py:62-70 | True exactly when a live driver is held and verify_connectivity returns |
| Neo4j.AsyncNeo4jClient.Host | plyght/config/clients/concurrent/neo4j_client.py:79-83 | the configured uri when it is truthy, else None |
| Neo4j.AsyncNeo4jClient.Connect | plyght/config/clients/concurrent/neo4j_client.py:89-98 | a no-op while a driver is held; otherwise one construction, with 500 when the driver tests false; a raising constructor propagates its error and leaves the handle and the calls as they were |
| Neo4j.AsyncNeo4jClient.Disconnect | plyght/config/clients/concurrent/neo4j_client.py:104-107 | a live driver is closed once and then cleared; a close that raises propagates its error and the driver is kept; without a live driver nothing happens |
| Neo4j.AsyncNeo4jClient.ExecuteSafeQuery | plyght/config/clients/concurrent/neo4j_client.py:122-137 | 404 without a driver; otherwise the transaction with falsy params sent as {}. The committed writes, computed from the event trace, gain this query exactly on commit |
| Neo4j.AsyncNeo4jClient.ExportRdf | plyght/config/clients/concurrent/neo4j_client.py:151-164 | 404 without a driver; otherwise the export cypher with the export params (format "Turtle" unless given), committed as one write exactly when it succeeds |
| Neo4j.AsyncNeo4jClient.Labels | plyght/config/clients/concurrent/neo4j_client.py:166-172 | the labels query run with an empty map, committed as one write exactly when it succeeds |
| Kafka.TopicList | plyght/config/clients/kafka_client.py:116-118 | a list of topics is subscribed as it is; anything else as a one-element list |
| Kafka.DecodeValue | plyght/config/clients/kafka_client.py:191-192 | non-bytes pass unchanged; bytes decode to a str of the same length, character by character |
| Kafka.DecodeHeaderKeys | plyght/config/clients/kafka_client.py:190-194 | the decoded headers have exactly the header keys, each once |
| Kafka.DecodeHeaderGet | plyght/config/clients/kafka_client.py:190-194 | a key maps to the decoded value of the last pair carrying it |
| Kafka.DecodeHeader | plyght/config/clients/kafka_client.py:190-194 | the decode succeeds exactly when every header value decodes, so one undecodable value makes the whole decode fail |
| Kafka.PairMatch | plyght/config/clients/kafka_client.py:250 | a pair matches exactly when its key equals key and its bytes decode to value; another key never matches |
| Kafka.HeaderMatchStep | plyght/config/clients/kafka_client.py:249-250 | the scan stops at the first error or match and otherwise moves to the next pair |
| Kafka.HeaderMatchWitness | plyght/config/clients/kafka_client.py:249-256 | a match is a pair carrying key whose bytes decode to value, and every earlier pair compared as a non-match without raising |
| Kafka.Scan | plyght/config/clients/kafka_client.py:231-256 | a message find returns is one of the polled messages, and its headers match key and value |
| Kafka.ScanHeaders | plyght/config/clients/kafka_client.py:249-250 | the header loop computes the header scan |
| Kafka.MatchHeaders | plyght/config/clients/kafka_client.py:247-250 | a message matches only with truthy headers on which the scan succeeds |
| Kafka.NextReading | plyght/config/clients/kafka_client.py:234-238 | while no deadline check has fired, another clock reading and another poll exist |
| Kafka.ScanAt | plyght/config/clients/kafka_client.py:234-256 | at each check: None once the clock is past the deadline; KafkaException for an error other than partition EOF; the message on a match |
| Kafka.ScanSkip | plyght/config/clients/kafka_client.py:239-244 | a missing message, a partition EOF or a non-matching message before the deadline hands over to the next check |
| Kafka.ScanPassesOver | plyght/config/clients/kafka_client.py:239-256 | a scan that continues without error skipped the poll it passed |
| Kafka.ScanFound | plyght/config/clients/kafka_client.py:235-256 | a returned message was polled before the deadline, matches, and every earlier poll was skipped |
| Kafka.ScanTimesOut | plyght/config/clients/kafka_client.py:235-236 | None is returned only at the first reading past the deadline, with every poll before it skipped |
| Kafka.TimedOutEarlier | plyght/config/clients/kafka_client.py:239-244 | a time-out after skipped polls is a time-out of the scan started before them |
| Kafka.PollLoop | plyght/config/clients/kafka_client.py:231-256 | with a consumer the polling loop computes the scan; without one it returns None or the AttributeError of None.poll |
| Kafka.KafkaClient.constructor | plyght/config/clients/kafka_client.py:24-32 | the merged configuration, no handle, the given topics, and no mode |
| Kafka.KafkaClient.Allocate | plyght/config/clients/kafka_client.py:34-41 | a mode in MODES is set; anything else raises Exception and keeps the mode |
| Kafka.KafkaClient.Client | plyght/config/clients/kafka_client.py:49-56 | the handle exactly when held and truthy, else 404 NoConnectionFound |
| Kafka.KafkaClient.Status | plyght/config/clients/kafka_client.py:66-70 | connected exactly when client would succeed |
| Kafka.KafkaClient.Host | plyght/config/clients/kafka_client.py:79-85 | the configured uri when it is truthy, else None |
| Kafka.KafkaClient.Connect | plyght/config/clients/kafka_client.py:93-137 | a no-op while a handle is held. An unassigned mode gives AttributeError and a falsy one RuntimeError. produce constructs and health-checks, with 503 Unhealthy. consume constructs, subscribes the topic list and lists topics, with 503 ConnectionFailed on KafkaException; an error from subscribe propagates, with the consumer kept and no topics listed. A raising Producer or Consumer constructor propagates its error, with no handle and no calls made. A mode outside MODES gets 500 |
| Kafka.KafkaClient.Disconnect | plyght/config/clients/kafka_client.py:139-143 | the field is cleared and nothing is closed |
| Kafka.KafkaClient.Find | plyght/config/clients/kafka_client.py:227-258 | the scan's result, with the consumer closed afterwards on every path; an error from that close replaces the scan's result; without a consumer, the AttributeError raised by the close in `finally` |
| Proxied.VerbName | plyght/config/clients/proxied_client.py:206-335 | every verb is sent as an upper-case method name |
| Proxied.BuildUrl | plyght/config/clients/proxied_client.py:101-114 | host without trailing '/', one '/', endpoint without leading '/', then "?" and the encoded params exactly when params are non-empty |
| Proxied.UrlEncode | plyght/config/clients/proxied_client.py:112-113 | the query is empty exactly without params, and one param gives its key=value field alone |
| Proxied.UrlEncodeCons | plyght/config/clients/proxied_client.py:112-113 | the query of several params is the first field, '&', then the query of the rest |
| Proxied.BuildUrlOneSlash | plyght/config/clients/proxied_client.py:109-111 | the url starts with the host stripped of trailing '/', then one '/', and neither the character before nor the one after that '/' is another '/' |
| Proxied.BuildUrlSlashInsensitive | plyght/config/clients/concurrent/proxied_client.py:109-121 | an extra '/' after the host or before the endpoint changes nothing |
| Proxied.BuildUrlParts | plyght/config/clients/proxied_client.py:109-114 | the URL depends on host and endpoint only through their stripped forms |
| Proxied.EmbedCredentials | plyght/config/clients/proxied_client.py:188-192 | fails exactly when the proxy URL has no "://", with the unpacking ValueError |
| Proxied.EmbedCredentialsSplits | plyght/config/clients/proxied_client.py:189-192 | the embedded URL keeps the scheme and puts user:password@ in front of the rest |
| Proxied.ProxyTable | plyght/config/clients/proxied_client.py:193 | the same proxy URL for "http" and "https", in that order |
| Proxied.ProxiedClient.constructor | plyght/config/clients/proxied_client.py:59-99 | the settings are stored and there is no session |
| Proxied.ProxiedClient.Host | plyght/config/clients/proxied_client.py:116-121 | the configured host, unchanged |
| Proxied.ProxiedClient.Client | plyght/config/clients/proxied_client.py:131-137 | the session exactly when one exists, else 404 NoConnectionFound |
| Proxied.ProxiedClient.Status | plyght/config/clients/proxied_client.py:146-149 | connected exactly when client would succeed |
| Proxied.ProxiedClient.Proxies | plyght/config/clients/proxied_client.py:186-193 | no proxies without a proxy; the proxy for both schemes, with credentials embedded when proxy_auth is set |
| Proxied.ProxiedClient.Connect | plyght/config/clients/proxied_client.py:175-194 | a no-op while a session exists. Otherwise a session with the TLS adapter (ssl) or `verify`, auth when given, and the proxies. A proxy URL that cannot be split leaves no session |
| Proxied.ProxiedClient.Disconnect | plyght/config/clients/proxied_client.py:200-204 | a session is closed once and then cleared; a close that raises propagates its error and the session is kept; without a session nothing happens |
| Proxied.ProxiedClient.Call | plyght/config/clients/proxied_client.py:217-227 | connects first, then sends exactly one request with the verb and the built URL through the session's proxy, and returns the reply |
| Proxied.AsyncProxiedClient.constructor | plyght/config/clients/concurrent/proxied_client.py:25-67 | the settings are stored and there is no session |
| Proxied.AsyncProxiedClient.Host | plyght/config/clients/concurrent/proxied_client.py:69-72 | the configured host, unchanged |
| Proxied.AsyncProxiedClient.Client | plyght/config/clients/concurrent/proxied_client.py:82-95 | the session exactly when one exists, else the async 404 |
| Proxied.AsyncProxiedClient.Status | plyght/config/clients/concurrent/proxied_client.py:74-80 | connected exactly when client would succeed |
| Proxied.AsyncProxiedClient.Connect | plyght/config/clients/concurrent/proxied_client.py:123-132 | a no-op while a session exists; otherwise a session with the TLS context when ssl is on, auth when given, and a total timeout only for a truthy timeout |
| Proxied.AsyncProxiedClient.Disconnect | plyght/config/clients/concurrent/proxied_client.py:134-140 | a session is closed once and then cleared; a close that raises propagates its error and the session is kept; without a session nothing happens |
| Proxied.AsyncProxiedClient.Request | plyght/config/clients/concurrent/proxied_client.py:142-166 | connects, then sends exactly one request with the method, the built URL, the proxy and the proxy credentials, and returns the reply |
| Proxied.AsyncProxiedClient.Get | plyght/config/clients/concurrent/proxied_client.py:168-172 | connects unless a session exists (keeping it), sends exactly one GET to the built URL with the proxy and proxy credentials, closes nothing, and returns the reply or the error it raised |
| Proxied.AsyncProxiedClient.Head | plyght/config/clients/concurrent/proxied_client.py:174-178 | connects unless a session exists (keeping it), sends exactly one HEAD to the built URL with the proxy and proxy credentials, closes nothing, and returns the reply or the error it raised |
| Proxied.AsyncProxiedClient.Post | plyght/config/clients/concurrent/proxied_client.py:180-184 | connects unless a session exists (keeping it), sends exactly one POST to the built URL with the proxy and proxy credentials, closes nothing, and returns the reply or the error it raised |
| Proxied.AsyncProxiedClient.Put | plyght/config/clients/concurrent/proxied_client.py:186-190 | connects unless a session exists (keeping it), sends exactly one PUT to the built URL with the proxy and proxy credentials, closes nothing, and returns the reply or the error it raised |
| Proxied.AsyncProxiedClient.Patch | plyght/config/clients/concurrent/proxied_client.py:192-196 | connects unless a session exists (keeping it), sends exactly one PATCH to the built URL with the proxy and proxy credentials, closes nothing, and returns the reply or the error it raised |
| Proxied.AsyncProxiedClient.Delete | plyght/config/clients/concurrent/proxied_client.py:198-202 | connects unless a session exists (keeping it), sends exactly one DELETE to the built URL with the proxy and proxy credentials, closes nothing, and returns the reply or the error it raised |
| StateStore.MissingAttribute | plyght/core/structures/state.py:23-24 | the message starts "'State' object has no attribute '" |
| StateStore.State.constructor | plyght/core/structures/state.py:11-14 | a given dict is kept by reference, not copied; without one the store starts empty |
| StateStore.State.SetAttr | plyght/core/structures/state.py:16-17 | the key reads back as the value, every other key is unchanged, and distinct keys stay distinct |
| StateStore.State.GetAttr | plyght/core/structures/state.py:9-24 | `_state` reads as the store itself; any other key gives the stored value exactly when it is present, else AttributeError naming the class and key |
| StateStore.StateSlotShadowed | plyght/core/structures/state.py:9-21 | a value assigned to `_state` goes into the store, but reading `_state` still yields the store and never that value |
| StateStore.State.DelAttr | plyght/core/structures/state.py:26-27 | a present key is removed and nothing else changes; a missing key raises KeyError (not AttributeError) and changes nothing |
| StateStore.SharedBacking | plyght/core/structures/state.py:11-17 | a caller's dict handed to State sees the writes made through it, and reads back the written value for every key but `_state` |
| StateStore.SetThenDelete | plyght/core/structures/state.py:16-27 | after set then delete, reading a key other than `_state` raises AttributeError, and deleting again raises KeyError |
| Validation.ValidateInt | plyght/util/validation/basic.py:8-13 | an int or bool comes back unchanged; for ASCII input, a str succeeds exactly when int() parses it within 4300 digits, giving that int; a failed conversion is ValueError "Value must be an integer"; None, lists, dicts and objects are TypeError |
| Validation.ValidatePositiveInt | plyght/util/validation/basic.py:38-41 | validate_int's result when it stands for a number > 0, its error when it fails, and ValueError "Value must be a positive integer" otherwise |
| Validation.Convert | plyght/util/validation/basic.py:8-13 | for ASCII input, int() of a str or bytes is the conversion of its text; other values are TypeError |
| Validation.ConvertText | plyght/util/validation/basic.py:8-13 | int() of a text succeeds exactly when it parses with at most 4300 digits, giving the parse; otherwise ValueError "invalid literal ..." or the digit-limit message |
| Validation.ParseInt | plyght/util/validation/basic.py:8-13 | a literal int() reads has at least one digit, and is negative only behind a '-' |
| Validation.ValidateIntIdempotent | plyght/util/validation/basic.py:8-13 | validating a validated value changes nothing |
| Validation.ParseIntDecimal | plyght/util/validation/basic.py:8-13 | the literal parser reads str(n) back as n for every int (the digit limit is Validation.ConvertText's) |
| Validation.ValidateIntDecimal | plyght/util/validation/basic.py:8-13 | validate_int(str(n)) is the int n whenever str(n) exists, i.e. has at most 4300 digits |
| Validation.ValidatePositiveDecimal | plyght/util/validation/basic.py:38-41 | validate_positive_int(str(n)) succeeds exactly when n > 0, with n, whenever str(n) has at most 4300 digits |
| Validation.ValidateIntTooLong | plyght/util/validation/basic.py:8-13 | a well-formed literal of more than 4300 digits is refused by both validators with "Value must be an integer" |
| Validation.ValidateBools | plyght/util/validation/basic.py:38-41 | True passes unchanged; False fails as not positive |
| Validation.ParseIntPadded | plyght/util/validation/basic.py:8-13 | surrounding whitespace does not change what int() reads |
| Validation.ParseIntUnderscore | plyght/util/validation/basic.py:8-13 | "1_000" reads as 1000 |
| Validation.ParseIntPlus | plyght/util/validation/basic.py:8-13 | "+7" reads as 7 |
| Validation.RejectDoubleUnderscore | plyght/util/validation/basic.py:8-13 | "1__0" is refused |
| Validation.RejectLeadingUnderscore | plyght/util/validation/basic.py:8-13 | "_1" is refused |
| Validation.RejectPoint | plyght/util/validation/basic.py:8-13 | "1.5" is refused |
| Validation.RejectBlank | plyght/util/validation/basic.py:8-13 | a blank string is refused |
| LogFormatter.Rewritten | plyght/util/logging/formatter.py:37-40 | the rewritten message starts with msg and a space, and its '%' count is msg's plus that of the joined strings of the elements record.args iterates (a mapping's keys) |
| LogFormatter.ArgStrs | plyght/util/logging/formatter.py:38 | one str() per argument, in order |
| LogFormatter.RecordArgs | plyght/util/logging/formatter.py:37-38 | record.args is the one mapping a call passed on its own when it is a non-empty dict, else the tuple of the call's arguments |
| LogFormatter.Elements | plyght/util/logging/formatter.py:38 | iterating record.args yields a tuple's items, or a mapping's keys in order |
| LogFormatter.MappingArgsAppendKeys | plyght/util/logging/formatter.py:37-40 | a record whose args is a non-empty mapping and whose msg has no '%' is rewritten, with the mapping's keys appended |
| LogFormatter.MappingArgsExample | plyght/util/logging/formatter.py:37-40 | msg "done" with args {"a": 1} becomes "done a" |
| LogFormatter.RewriteOnce | plyght/util/logging/formatter.py:37-40 | a rewritten record is never rewritten again |
| LogFormatter.RewrittenPercentFree | plyght/util/logging/formatter.py:37-40 | the rewritten message is free of '%' exactly when the argument strings are |
| LogFormatter.ResponseSuffixIff | plyght/util/logging/formatter.py:46-47 | the response suffix ends the format exactly when api_response_code is present and not None |
| LogFormatter.ChooseFormat | plyght/util/logging/formatter.py:42-47 | the format is one of the user, data and default formats, followed by the response suffix exactly when api_response_code is set |
| LogFormatter.FormatSelection | plyght/util/logging/formatter.py:42-45 | the user format exactly for log_type "user", the data format exactly for any other log_type, the default format exactly without one |
| LogFormatter.Colour | plyght/util/logging/formatter.py:52-62 | a colour exactly for DEBUG, INFO, WARNING, ERROR and CRITICAL |
| LogFormatter.ColouredLevel | plyght/util/logging/formatter.py:63-64 | a coloured level is colour + level + reset; a level without a colour is unchanged |
| LogFormatter.EscapeAt | plyght/util/logging/formatter.py:13 | a recognised sequence is ESC '[' digits-or-';' 'm' |
| LogFormatter.StripAnsi | plyght/util/logging/formatter.py:68-69 | stripping never lengthens the text |
| LogFormatter.StripAnsiPlain | plyght/util/logging/formatter.py:68-69 | text without ESC is unchanged |
| LogFormatter.StripAnsiPlainPrefix | plyght/util/logging/formatter.py:68-69 | ESC-free text is kept and stripping continues after it |
| LogFormatter.StripAnsiCode | plyght/util/logging/formatter.py:13 | a complete colour sequence at the front is removed |
| LogFormatter.StripColouredLevel | plyght/util/logging/formatter.py:50-69 | stripping a coloured level name gives the plain level back |
| LogFormatter.StripWrapped | plyght/util/logging/formatter.py:63-69 | text between a colour sequence and the reset comes out bare |
| LogFormatter.Formatter.constructor | plyght/util/logging/formatter.py:15-33 | the colour flag is stored and the default format is installed |
| LogFormatter.Formatter.Format | plyght/util/logging/formatter.py:35-70 | the record's message and args are rewritten exactly when needed (a mapping contributes its keys) and args is emptied; the chosen format is installed; the level is coloured when colored; the output is the rendering, ANSI-stripped when not colored |
| JsonLog.InitialSchema | plyght/util/logging/json_formatter.py:73-81 | a None or empty schema becomes the default schema; any other schema is kept |
| JsonLog.Resolve | plyght/util/logging/json_formatter.py:107-111 | callables are called; special tokens go to their handler; other names read the attribute or None; only a non-str specifier fails (getattr's TypeError) |
| JsonLog.JsonSafe | plyght/util/logging/json_formatter.py:93-97 | the result is always serialisable: the value itself when json.dumps accepts it, else str(value), never None for a non-None value |
| JsonLog.JsonFormatter.constructor | plyght/util/logging/json_formatter.py:58-83 | the schema is dict(schema or default); indent and sort_keys are stored |
| JsonLog.JsonFormatter.Extras | plyght/util/logging/json_formatter.py:123-131 | the loop computes the extras of the record for the consumed keys |
| JsonLog.JsonFormatter.Format | plyght/util/logging/json_formatter.py:141-155 | the schema loop computes the payload, or the TypeError of the first refused specifier |
| JsonLog.ExtrasGet | plyght/util/logging/json_formatter.py:123-131 | an extra exists exactly for a public, unconsumed, non-None attribute, and holds its JSON-safe value |
| JsonLog.ExtrasShape | plyght/util/logging/json_formatter.py:125-130 | every extra is unconsumed, public, non-None and serialisable |
| JsonLog.WalkErrStays | plyght/util/logging/json_formatter.py:144-150 | once a prefix of the schema fails, the whole walk fails the same way |
| JsonLog.WalkFails | plyght/util/logging/json_formatter.py:144-150 | the walk fails exactly when some entry other than "@all" has a specifier getattr refuses |
| JsonLog.WalkHolds | plyght/util/logging/json_formatter.py:144-153 | the walk keeps its invariant over the whole schema |
| JsonLog.PayloadGet | plyght/util/logging/json_formatter.py:141-153 | key by key, a schema key whose specifier resolved to something other than None holds that value; otherwise a public attribute holds its JSON-safe value; nothing else is present, and no value is None |
| JsonLog.Payload | plyght/util/logging/json_formatter.py:141-153 | the payload fails exactly when some entry other than "@all" has a specifier getattr refuses |
| JsonLog.FormatPayload | plyght/util/logging/json_formatter.py:141-155 | a failed payload propagates; a successful one is handed on unchanged when every value is serialisable, and otherwise fails with TypeError naming a value json.dumps cannot serialise |
| JsonLog.DefaultSchemaWalks | plyght/util/logging/json_formatter.py:73-81 | the default schema has distinct keys and its walk never fails |
| JsonLog.DefaultSchemaPayload | plyght/util/logging/json_formatter.py:41-56 | with the default schema, "time" and "msg" are the record's time and message, and "level" is its level when one is set |

## Left out

- The abstract interfaces (`Client`/`AsyncClient` in plyght/config/clients/client.py:22-62 and concurrent/async_client.py, and the abstract `BaseConfig.dump`) declare no behaviour; a configuration is represented by the dict its `dump()` returns.
- config/clients/client.py and util/converters' `CaseConverter` class are not part of this model. The legacy wrapper and the legacy decorator are modelled as if the merge and `CaseConverter.pascal` were the plyght ones (snake_to_pascal). config/auto.py defines no `get_kwargs`, which the legacy wrapper imports; the model passes the legacy wrapper its flattened arguments.
- Driver internals (OpenSearch, Neo4j, confluent-kafka, requests, aiohttp) are oracles: the outcome of each driver call the wrappers make is a parameter of the wrapper operation, including whether a constructor, ping, health check, subscribe, list_topics, close, HTTP send or transaction step raises, and a driver's truthiness is part of its handle. Three calls are assumed not to raise: Kafka's `poll`, and the opening and closing of a Neo4j session around a transaction. What a driver error carries beyond its message is not modelled.
- `ping`, `reconnect` and `_delivery_report` of KafkaClient are not modelled: they only log or re-run the constructors. The producer health check is an oracle (`Probe`).
- TLS: `ssl_context`, `SSLAdapter`, `init_poolmanager` and certificate loading are reduced to a flag that a TLS context is used.
- Proxied.UrlEncode: percent-escaping of `urlencode` is not modelled; keys and `str()` of values are joined with '=' and '&'.
- Response timing (`perf_counter`, `response_time`) is left out, and `Response` is a plain record of status, body and headers.
- Proxied.ProxiedClient.Call: the `**kwargs` passed through to the session are not modelled. The request is recorded with the session's "http" proxy entry.
- The wall clock of `find` is a sequence of integer readings. Kafka.KafkaClient.Find requires (`Bounded`) that the readings eventually pass the deadline and that enough polls are supplied. The model therefore does not capture a clock that never advances.
- Kafka.KafkaClient.Find returns the matched `Message` rather than the dict built from it.
- KafkaClient's `mode` is never assigned in `__init__`, so reading it before `allocate` raises AttributeError. The model keeps it as an `Option`.
- Kafka.DecodeValue: only ASCII decoding is modelled; any byte above 127 is a UnicodeDecodeError, so valid multi-byte UTF-8 is refused.
- Module import and class lookup (`importlib`, `getattr(mod, name)`) are a registry map. Frame inspection (`inspect.currentframe().f_back.f_locals`) is a dict of locals.
- The async wrappers run as sequential code; no interleaving of coroutines is modelled.
- QueryException is defined outside the modelled files; it is an `Error` variant carrying its error type and info.
- Logging calls (`Logger`, `log_exceptions`) and the logger modules are left out.
- LogFormatter.Formatter.Format: `logging.Formatter.format` itself (%-substitution, `asctime` with `time.gmtime`) is the `render` parameter. `record.msg` is assumed to be a str.
- JsonLog.JsonFormatter.Format returns the payload handed to `json.dumps`, not the JSON text. Indentation, key sorting and escaping are not modelled. Extras are made JSON-safe, but a schema value (a name specifier resolving to bytes or another object, or a callable's result) can still be refused: the model then returns a TypeError whose message is paraphrased as "Object is not JSON serializable" (Python names the type, as in "Object of type bytes is not JSON serializable"). Schema callables are assumed not to raise.
- JsonLog.JsonSafe, JsonLog.ExtrasGet, JsonLog.PayloadGet: floats are not modelled. A record's `created`, `msecs` and `relativeCreated` are floats, which json.dumps keeps as numbers; the model carries them as objects, so they are rendered as strings.
- JsonLog.SpecialValue: `@time` and `@exception` are taken from the record as rendered strings; `datetime` formatting and traceback rendering are not modelled.
- JsonLog.Resolve: `getattr` is modelled over the record's `__dict__` only, so class attributes and methods of LogRecord are not visible to a name specifier.
- Validation.Convert: `int()` of an arbitrary object (`__int__`, `__index__`, `__trunc__`) is reduced to a TypeError. Digits and whitespace are ASCII only: Python's `int()` also reads other Unicode decimal digits (`int("１２") == 12`) and Unicode whitespace, which the model refuses with ValueError.
- Validation.ConvertText: the 4300-digit limit is the default of CPython 3.11 and later (`sys.set_int_max_str_digits` is not modelled); an over-long text that is not a literal gets the "invalid literal" message, as the model checks the literal first.
- Validation.ValidateInt: inherits the ASCII-only digits and whitespace of Validation.Convert, so a str of non-ASCII decimal digits is a ValueError in the model but an int in Python.
- Case.Capitalize: casing is ASCII only; `str.capitalize` also maps other letters (`"aÉ".capitalize() == "Aé"`) and can change the length (`"ß".capitalize() == "Ss"`), so the length property holds for ASCII input only.
- Case.SnakeToPascal: the length clause rests on Case.Capitalize and holds for ASCII input only; a letter such as `ß` makes Python's output longer.
- `validate_float` and `validate_positive_float` (floating point) are left out.
- plyght/models/util.py, the decorators module and the `__init__` re-export modules hold no modelled behaviour.
- Values.Repr: `repr` escaping of strings is not modelled.
- StateStore.State.GetAttr: normal attribute lookup is modelled for `_state` only. Dunder names (`__class__`, `__dict__`, `__doc__`) and the class's methods are found before `__getattr__` is consulted, but the model decides them by the backing dict. `_state` reads as a copy of the dict's entries, so aliasing through it is not captured.
- StateStore: keys are strings only; `State` stores no non-string attribute names.
- OpenSearch.LegacyOpensearchClient.Host: an arbitrary object stands for a value with neither `len()` nor item access; an object that defines `__len__` or `__getitem__` is not modelled.
- OpenSearch.LegacyOpensearchClient.Host: the KeyError for a non-empty dict carries the integer key 0 in Python, whose text is `0`; the model's KeyError takes a string key and carries "0".
- StateStore.MissingAttribute: subclasses of `State` are not modelled, so the class name in the message is always `State`, where Python uses the runtime class name.
- Clients.MergeConfig: as written, the declared configuration wins over the call-site keyword arguments, which reverses the precedence the system's documentation describes.
