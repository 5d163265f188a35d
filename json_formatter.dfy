/** The schema-driven JSON log formatter. A schema maps output keys to
    specifiers (a callable, a special "@" token, or a record attribute
    name); the walk fills a payload in schema order, marks each key that got
    a non-None value as consumed, and splices the record's remaining public
    attributes in at the "@all" key, or after the walk when there is none. */
module JsonLog {
  import opened Wrappers
  import opened Text
  import opened Values
  import opened Dicts
  import opened Exceptions

  /** A LogRecord as the formatter reads it: `attrs` is its __dict__;
      `time`, `message` and `exception` are what the @time, @message and
      @exception handlers make of it (the ISO timestamp, getMessage(), the
      formatted traceback when exc_info is set). */
  datatype Record = Record(attrs: Dict<string, Value>, time: string, message: string, exception: Option<string>)

  /** A schema specifier: a callable, a str, or any other value (which
      getattr refuses as an attribute name). */
  datatype Spec = Call(f: Record -> Value) | Name(name: string) | Other(v: Value)

  const AllKey := "@all"

  const SpecialTokens: set<string> :=
    {"@time", "@level", "@message", "@exception", "@logger", "@module", "@file", "@line"}

  /** The schema used when none, or an empty one, is given. */
  const DefaultSchema: Dict<string, Spec> :=
    [("time", Name("@time")), ("level", Name("@level")), ("msg", Name("@message")), (AllKey, Other(VNone))]

  /** dict(schema or default) */
  function InitialSchema(schema: Option<Dict<string, Spec>>): (r: Dict<string, Spec>)
    ensures schema.None? || schema.value == [] ==> r == DefaultSchema
    ensures schema.Some? && schema.value != [] ==> r == schema.value
  {
    if schema.Some? && schema.value != [] then schema.value else DefaultSchema
  }

  /** getattr(rec, name, None) for an attribute held in the record's __dict__. */
  function Attr(rec: Record, name: string): Value
  {
    GetOr(rec.attrs, name, VNone)
  }

  /** The handler of a special token. */
  function SpecialValue(token: string, rec: Record): Value
    requires token in SpecialTokens
  {
    if token == "@time" then VStr(rec.time)
    else if token == "@level" then Attr(rec, "levelname")
    else if token == "@message" then VStr(rec.message)
    else if token == "@exception" then (if rec.exception.Some? then VStr(rec.exception.value) else VNone)
    else if token == "@logger" then Attr(rec, "name")
    else if token == "@module" then Attr(rec, "module")
    else if token == "@file" then Attr(rec, "pathname")
    else Attr(rec, "lineno")
  }

  /** _resolve(spec, rec): a callable is called, a special token goes to its
      handler, any other str is read as an attribute (None when missing),
      and a specifier of another type makes getattr raise TypeError. */
  function Resolve(spec: Spec, rec: Record): (r: Result<Value, Error>)
    ensures r.Err? <==> spec.Other? && !spec.v.VStr?
    ensures spec.Call? ==> r == Ok(spec.f(rec))
    ensures spec.Name? && spec.name !in SpecialTokens && spec.name !in Keys(rec.attrs) ==> r == Ok(VNone)
    ensures spec.Name? && spec.name !in SpecialTokens && spec.name in Keys(rec.attrs) ==> Some(r.value) == Get(rec.attrs, spec.name)
  {
    match spec
    case Call(f) => Ok(f(rec))
    case Name(name) => Ok(if name in SpecialTokens then SpecialValue(name, rec) else Attr(rec, name))
    case Other(v) =>
      if v.VStr? then Ok(if v.s in SpecialTokens then SpecialValue(v.s, rec) else Attr(rec, v.s))
      else Err(TypeError("attribute name must be string, not '" + TypeName(v) + "'"))
  }

  /** Whether json.dumps accepts the value: bytes and other objects are
      refused, also inside lists and dicts. */
  predicate Serialisable(v: Value)
    decreases v
  {
    match v
    case VBytes(_) => false
    case VObject(_) => false
    case VList(items) => forall i :: 0 <= i < |items| ==> Serialisable(items[i])
    case VDict(entries) => forall i :: 0 <= i < |entries| ==> Serialisable(entries[i].1)
    case _ => true
  }

  /** _json_safe(v): v itself when json.dumps accepts it, else str(v). */
  function JsonSafe(v: Value): (r: Value)
    ensures Serialisable(r)
    ensures Serialisable(v) ==> r == v
    ensures !Serialisable(v) ==> r == VStr(Values.Str(v))
    ensures v != VNone ==> r != VNone
  {
    if Serialisable(v) then v else VStr(Values.Str(v))
  }

  /** An attribute _extras takes when nothing consumed it: a public name
      whose value is not None. */
  predicate Public(rec: Record, k: string)
  {
    !StartsWith(k, "_") && Attr(rec, k) != VNone
  }

  /** _extras(rec, consumed), as the dict its loop builds from the record's
      attributes in order. */
  function ExtrasOf(attrs: Dict<string, Value>, consumed: set<string>): Dict<string, Value>
    decreases |attrs|
  {
    if attrs == [] then []
    else
      var out := ExtrasOf(attrs[..|attrs| - 1], consumed);
      var (k, v) := attrs[|attrs| - 1];
      if k !in consumed && !StartsWith(k, "_") && v != VNone then Set(out, k, JsonSafe(v)) else out
  }

  /** The state of the schema walk: the payload so far and the consumed keys. */
  datatype Walk = Walk(payload: Dict<string, Value>, consumed: set<string>)

  /** One schema entry: "@all" splices the extras in and ignores its spec;
      any other key is resolved and kept, and consumed, only when not None. */
  function Step(w: Walk, entry: (string, Spec), rec: Record): Result<Walk, Error>
  {
    var (key, spec) := entry;
    if key == AllKey then Ok(Walk(Update(w.payload, ExtrasOf(rec.attrs, w.consumed)), w.consumed))
    else
      match Resolve(spec, rec)
      case Err(e) => Err(e)
      case Ok(v) => if v == VNone then Ok(w) else Ok(Walk(Set(w.payload, key, v), w.consumed + {key}))
  }

  /** The walk over the schema entries in order; the first failing
      resolution stops it. */
  function WalkSchema(schema: Dict<string, Spec>, rec: Record): Result<Walk, Error>
    decreases |schema|
  {
    if schema == [] then Ok(Walk([], {}))
    else
      match WalkSchema(schema[..|schema| - 1], rec)
      case Err(e) => Err(e)
      case Ok(w) => Step(w, schema[|schema| - 1], rec)
  }

  /** The payload format() hands to json.dumps; it fails exactly when
      getattr refuses the specifier of some entry other than "@all". */
  function Payload(schema: Dict<string, Spec>, rec: Record): (r: Result<Dict<string, Value>, Error>)
    ensures r.Err? <==> exists i :: RefusedAt(schema, rec, i)
  {
    WalkFails(schema, rec);
    match WalkSchema(schema, rec)
    case Err(e) => Err(e)
    case Ok(w) => Ok(if AllKey in Keys(schema) then w.payload else Update(w.payload, ExtrasOf(rec.attrs, w.consumed)))
  }

  /** format(rec), up to the JSON text: the payload, or the TypeError
      json.dumps raises on a value it cannot serialise. */
  function FormatPayload(schema: Dict<string, Spec>, rec: Record): (r: Result<Dict<string, Value>, Error>)
    ensures Payload(schema, rec).Err? ==> r == Payload(schema, rec)
    ensures r.Ok? ==> r == Payload(schema, rec) && forall i :: 0 <= i < |r.value| ==> Serialisable(r.value[i].1)
    ensures Payload(schema, rec).Ok? && r.Err? ==>
              r.error == TypeError("Object is not JSON serializable") &&
              exists i :: 0 <= i < |Payload(schema, rec).value| && !Serialisable(Payload(schema, rec).value[i].1)
  {
    match Payload(schema, rec)
    case Err(e) => Err(e)
    case Ok(p) =>
      if forall i :: 0 <= i < |p| ==> Serialisable(p[i].1) then Ok(p)
      else Err(TypeError("Object is not JSON serializable"))
  }

  /** The value a schema key contributes: its resolved value when that is
      not None; nothing for "@all", an absent key, or a None value. */
  function SchemaValue(schema: Dict<string, Spec>, rec: Record, k: string): Option<Value>
  {
    if k == AllKey then None
    else match Get(schema, k)
      case None => None
      case Some(spec) =>
        match Resolve(spec, rec)
        case Ok(v) => if v == VNone then None else Some(v)
        case Err(_) => None
  }

  class JsonFormatter {
    const schema: Dict<string, Spec>
    const indent: Option<int>
    const sortKeys: bool

    constructor(schema: Option<Dict<string, Spec>>, indent: Option<int>, sortKeys: bool)
      ensures this.schema == InitialSchema(schema)
      ensures this.indent == indent && this.sortKeys == sortKeys
    {
      this.schema := InitialSchema(schema);
      this.indent := indent;
      this.sortKeys := sortKeys;
    }

    /** _extras(rec, consumed) */
    method Extras(rec: Record, consumed: set<string>) returns (out: Dict<string, Value>)
      ensures out == ExtrasOf(rec.attrs, consumed)
    {
      out := [];
      var i := 0;
      while i < |rec.attrs|
        invariant 0 <= i <= |rec.attrs|
        invariant out == ExtrasOf(rec.attrs[..i], consumed)
      {
        var (k, v) := rec.attrs[i];
        assert rec.attrs[..i + 1][..i] == rec.attrs[..i];
        if k !in consumed && !StartsWith(k, "_") && v != VNone {
          out := Set(out, k, JsonSafe(v));
        }
        i := i + 1;
      }
      assert rec.attrs[..i] == rec.attrs;
    }

    /** format(rec), up to the JSON text. */
    method Format(rec: Record) returns (r: Result<Dict<string, Value>, Error>)
      ensures r == FormatPayload(schema, rec)
    {
      var payload: Dict<string, Value> := [];
      var consumed: set<string> := {};
      var i := 0;
      while i < |schema|
        invariant 0 <= i <= |schema|
        invariant WalkSchema(schema[..i], rec) == Ok(Walk(payload, consumed))
      {
        var (key, spec) := schema[i];
        assert schema[..i + 1][..i] == schema[..i];
        if key == AllKey {
          var extras := Extras(rec, consumed);
          payload := Update(payload, extras);
        } else {
          var val := Resolve(spec, rec);
          if val.Err? {
            WalkErrStays(schema, rec, i + 1);
            assert schema[..|schema|] == schema;
            return Err(val.error);
          }
          if val.value != VNone {
            payload := Set(payload, key, val.value);
            consumed := consumed + {key};
          }
        }
        i := i + 1;
      }
      assert schema[..i] == schema;
      if AllKey !in Keys(schema) {
        var extras := Extras(rec, consumed);
        payload := Update(payload, extras);
      }
      if forall j :: 0 <= j < |payload| ==> Serialisable(payload[j].1) {
        r := Ok(payload);
      } else {
        r := Err(TypeError("Object is not JSON serializable"));
      }
    }
  }

  /** Once a prefix of the schema fails, the whole walk fails the same way. */
  lemma {:induction false} WalkErrStays(schema: Dict<string, Spec>, rec: Record, n: nat)
    requires n <= |schema| && WalkSchema(schema[..n], rec).Err?
    ensures WalkSchema(schema, rec) == WalkSchema(schema[..n], rec)
    decreases |schema| - n
  {
    if n < |schema| {
      assert schema[..n + 1][..n] == schema[..n];
      WalkErrStays(schema, rec, n + 1);
    } else {
      assert schema[..n] == schema;
    }
  }

  /** The extras: for a record with distinct attribute names, exactly the
      public, unconsumed attributes, each as its JSON-safe value. */
  lemma {:induction false} ExtrasGet(attrs: Dict<string, Value>, consumed: set<string>, k: string)
    requires Wf(attrs)
    ensures Get(ExtrasOf(attrs, consumed), k) ==
      if k !in consumed && !StartsWith(k, "_") && GetOr(attrs, k, VNone) != VNone
      then Some(JsonSafe(GetOr(attrs, k, VNone))) else None
    decreases |attrs|
  {
    if attrs != [] {
      var prefix := attrs[..|attrs| - 1];
      WfSnoc(attrs);
      ExtrasGet(prefix, consumed, k);
      ExtrasSnoc(prefix, attrs[|attrs| - 1], consumed, k);
      assert attrs == prefix + [attrs[|attrs| - 1]];
    }
  }

  /** One more attribute: its own key takes the extras' entry for it, when
      it qualifies; every other key is untouched. */
  lemma ExtrasSnoc(prefix: Dict<string, Value>, x: (string, Value), consumed: set<string>, k: string)
    requires x.0 !in Keys(prefix)
    ensures GetOr(prefix + [x], k, VNone) == if k == x.0 then x.1 else GetOr(prefix, k, VNone)
    ensures Get(ExtrasOf(prefix + [x], consumed), k) ==
      if k == x.0 then (if k !in consumed && !StartsWith(k, "_") && x.1 != VNone then Some(JsonSafe(x.1)) else Get(ExtrasOf(prefix, consumed), k))
      else Get(ExtrasOf(prefix, consumed), k)
  {
    var attrs := prefix + [x];
    assert attrs[..|attrs| - 1] == prefix;
    GetAppend(prefix, [x], k);
    assert Keys([x]) == [x.0];
    if x.0 !in consumed && !StartsWith(x.0, "_") && x.1 != VNone {
      SetGet(ExtrasOf(prefix, consumed), x.0, JsonSafe(x.1), k);
    }
  }

  /** Every extra is a public, unconsumed, JSON-serialisable, non-None value. */
  lemma ExtrasShape(attrs: Dict<string, Value>, consumed: set<string>, k: string)
    requires Wf(attrs) && k in Keys(ExtrasOf(attrs, consumed))
    ensures k !in consumed && !StartsWith(k, "_")
    ensures GetOr(ExtrasOf(attrs, consumed), k, VNone) != VNone
    ensures Serialisable(GetOr(ExtrasOf(attrs, consumed), k, VNone))
  {
    ExtrasGet(attrs, consumed, k);
  }

  /** What the walk over a prefix of the schema has established. */
  ghost predicate WalkInv(schema: Dict<string, Spec>, rec: Record, w: Walk)
  {
    && (forall k :: k in w.consumed <==> SchemaValue(schema, rec, k).Some?)
    && (forall k :: k in w.consumed ==> Get(w.payload, k) == SchemaValue(schema, rec, k))
    && (forall k :: Get(w.payload, k) != Some(VNone))
    && (forall k :: k in Keys(w.payload) ==> k in w.consumed || (AllKey in Keys(schema) && Public(rec, k)))
    && (AllKey in Keys(schema) ==>
          forall k :: k !in w.consumed && Public(rec, k) ==> Get(w.payload, k) == Some(JsonSafe(Attr(rec, k))))
  }

  /** A key's contribution once one more entry is added to the schema. */
  lemma SchemaValueSnoc(schema: Dict<string, Spec>, e: (string, Spec), rec: Record, k: string)
    ensures SchemaValue(schema + [e], rec, k) ==
      if k == e.0 then SchemaValue([e], rec, k) else SchemaValue(schema, rec, k)
  {
    GetAppend(schema, [e], k);
    GetAppend([], [e], k);
    assert [] + [e] == [e];
    assert Keys([e]) == [e.0];
  }

  /** The splice at "@all" keeps the invariant. */
  lemma StepAll(schema: Dict<string, Spec>, spec: Spec, rec: Record, w: Walk)
    requires Wf(rec.attrs) && WalkInv(schema, rec, w)
    ensures Step(w, (AllKey, spec), rec).Ok?
    ensures WalkInv(schema + [(AllKey, spec)], rec, Step(w, (AllKey, spec), rec).value)
  {
    var s' := schema + [(AllKey, spec)];
    var extras := ExtrasOf(rec.attrs, w.consumed);
    var p := Update(w.payload, extras);
    forall k
      ensures SchemaValue(s', rec, k) == SchemaValue(schema, rec, k)
      ensures Get(p, k) == if k in Keys(extras) then Get(extras, k) else Get(w.payload, k)
      ensures Get(extras, k) == if k !in w.consumed && Public(rec, k) then Some(JsonSafe(Attr(rec, k))) else None
    {
      SchemaValueSnoc(schema, (AllKey, spec), rec, k);
      UpdateGet(w.payload, extras, k);
      ExtrasGet(rec.attrs, w.consumed, k);
    }
    assert Keys(s') == Keys(schema) + [AllKey];
    UpdateKeys(w.payload, extras);
  }

  /** Resolving a key other than "@all" keeps the invariant. */
  lemma StepKey(schema: Dict<string, Spec>, key: string, spec: Spec, rec: Record, w: Walk)
    requires key != AllKey && key !in Keys(schema)
    requires WalkInv(schema, rec, w)
    requires Step(w, (key, spec), rec).Ok?
    ensures WalkInv(schema + [(key, spec)], rec, Step(w, (key, spec), rec).value)
  {
    var e := (key, spec);
    assert Get([e], key) == Some(spec);
    assert SchemaValue(schema, rec, key) == None;
    assert Keys(schema + [e]) == Keys(schema) + [key];
    if Resolve(spec, rec).value == VNone {
      StepKeySkipped(schema, key, spec, rec, w);
    } else {
      StepKeyKept(schema, key, spec, rec, w);
    }
  }

  /** A key whose specifier resolves to None adds nothing and keeps the invariant. */
  lemma StepKeySkipped(schema: Dict<string, Spec>, key: string, spec: Spec, rec: Record, w: Walk)
    requires key != AllKey && Keys(schema + [(key, spec)]) == Keys(schema) + [key]
    requires SchemaValue(schema, rec, key) == None && Get([(key, spec)], key) == Some(spec)
    requires WalkInv(schema, rec, w)
    requires Resolve(spec, rec) == Ok(VNone)
    ensures WalkInv(schema + [(key, spec)], rec, w)
  {
    var e := (key, spec);
    forall k ensures SchemaValue(schema + [e], rec, k) == SchemaValue(schema, rec, k) {
      SchemaValueSnoc(schema, e, rec, k);
    }
  }

  /** A key whose specifier resolves to a value is stored and consumed, keeping the invariant. */
  lemma StepKeyKept(schema: Dict<string, Spec>, key: string, spec: Spec, rec: Record, w: Walk)
    requires key != AllKey && Keys(schema + [(key, spec)]) == Keys(schema) + [key]
    requires SchemaValue(schema, rec, key) == None && Get([(key, spec)], key) == Some(spec)
    requires WalkInv(schema, rec, w)
    requires Resolve(spec, rec).Ok? && Resolve(spec, rec).value != VNone
    ensures WalkInv(schema + [(key, spec)], rec,
                    Walk(Set(w.payload, key, Resolve(spec, rec).value), w.consumed + {key}))
  {
    var e := (key, spec);
    var s' := schema + [e];
    var v := Resolve(spec, rec).value;
    var w' := Walk(Set(w.payload, key, v), w.consumed + {key});
    forall k
      ensures k in w'.consumed <==> SchemaValue(s', rec, k).Some?
      ensures k in w'.consumed ==> Get(w'.payload, k) == SchemaValue(s', rec, k)
      ensures Get(w'.payload, k) != Some(VNone)
    {
      SchemaValueSnoc(schema, e, rec, k);
      SetGet(w.payload, key, v, k);
    }
    assert AllKey in Keys(s') <==> AllKey in Keys(schema);
    forall k | k in Keys(w'.payload) ensures k in w'.consumed || (AllKey in Keys(s') && Public(rec, k)) {
      SetKeys(w.payload, key, v);
    }
    if AllKey in Keys(s') {
      forall k | k !in w'.consumed && Public(rec, k) ensures Get(w'.payload, k) == Some(JsonSafe(Attr(rec, k))) {
        SetGet(w.payload, key, v, k);
      }
    }
  }

  /** The walk keeps its invariant over the whole schema. */
  lemma {:induction false} WalkHolds(schema: Dict<string, Spec>, rec: Record)
    requires Wf(schema) && Wf(rec.attrs)
    ensures WalkSchema(schema, rec).Ok? ==> WalkInv(schema, rec, WalkSchema(schema, rec).value)
    decreases |schema|
  {
    if schema == [] {
      assert Keys(schema) == [];
    } else {
      var prefix := schema[..|schema| - 1];
      var e := schema[|schema| - 1];
      assert schema == prefix + [e];
      WfSnoc(schema);
      WalkHolds(prefix, rec);
      var r := WalkSchema(prefix, rec);
      if r.Ok? {
        if e.0 == AllKey {
          StepAll(prefix, e.1, rec, r.value);
        } else if Step(r.value, e, rec).Ok? {
          StepKey(prefix, e.0, e.1, rec, r.value);
        }
      }
    }
  }

  /** Entry i of the schema is not "@all" and getattr refuses its specifier. */
  predicate RefusedAt(schema: Dict<string, Spec>, rec: Record, i: int)
  {
    0 <= i < |schema| && schema[i].0 != AllKey && Resolve(schema[i].1, rec).Err?
  }

  /** The walk fails exactly when some entry other than "@all" has a
      specifier getattr refuses. */
  lemma {:induction false} WalkFails(schema: Dict<string, Spec>, rec: Record)
    ensures WalkSchema(schema, rec).Err? <==> exists i :: RefusedAt(schema, rec, i)
    decreases |schema|
  {
    if schema != [] {
      var prefix := schema[..|schema| - 1];
      var e := schema[|schema| - 1];
      WalkFails(prefix, rec);
      RefusedSnoc(prefix, e, rec);
      assert schema == prefix + [e];
    }
  }

  /** One more entry: the walk fails when the prefix did or the entry is refused. */
  lemma RefusedSnoc(prefix: Dict<string, Spec>, e: (string, Spec), rec: Record)
    ensures WalkSchema(prefix + [e], rec).Err? <==>
      WalkSchema(prefix, rec).Err? || (e.0 != AllKey && Resolve(e.1, rec).Err?)
    ensures (exists i :: RefusedAt(prefix + [e], rec, i)) <==>
      (exists i :: RefusedAt(prefix, rec, i)) || (e.0 != AllKey && Resolve(e.1, rec).Err?)
  {
    var s := prefix + [e];
    assert s[..|s| - 1] == prefix;
    if exists i :: RefusedAt(prefix, rec, i) {
      var i :| RefusedAt(prefix, rec, i);
      assert s[i] == prefix[i];
      assert RefusedAt(s, rec, i);
    }
    if e.0 != AllKey && Resolve(e.1, rec).Err? {
      assert RefusedAt(s, rec, |prefix|);
    }
    if exists i :: RefusedAt(s, rec, i) {
      var i :| RefusedAt(s, rec, i);
      if i < |prefix| {
        assert s[i] == prefix[i];
        assert RefusedAt(prefix, rec, i);
      }
    }
  }

  /** The payload of a successful walk, key by key: a schema key whose value
      resolved to something other than None holds that value; any other
      public attribute of the record holds its JSON-safe value; nothing
      else is in it, and no value in it is None. */
  lemma PayloadGet(schema: Dict<string, Spec>, rec: Record, k: string)
    requires Wf(schema) && Wf(rec.attrs) && Payload(schema, rec).Ok?
    ensures Get(Payload(schema, rec).value, k) ==
      if SchemaValue(schema, rec, k).Some? then SchemaValue(schema, rec, k)
      else if Public(rec, k) then Some(JsonSafe(Attr(rec, k)))
      else None
    ensures Get(Payload(schema, rec).value, k) != Some(VNone)
  {
    WalkHolds(schema, rec);
    var w := WalkSchema(schema, rec).value;
    if AllKey !in Keys(schema) {
      var extras := ExtrasOf(rec.attrs, w.consumed);
      UpdateGet(w.payload, extras, k);
      ExtrasGet(rec.attrs, w.consumed, k);
      assert k in Keys(w.payload) ==> k in w.consumed;
    } else {
      assert k in Keys(w.payload) ==> k in w.consumed || Public(rec, k);
    }
  }

  /** The default schema has distinct keys, and its walk never fails:
      its only non-str specifier belongs to "@all", whose spec is ignored. */
  lemma DefaultSchemaWalks(rec: Record)
    ensures Wf(DefaultSchema)
    ensures Payload(DefaultSchema, rec).Ok?
  {
    var s := DefaultSchema;
    WalkFails(s, rec);
    forall i | 0 <= i < |s| && s[i].0 != AllKey
      ensures !RefusedAt(s, rec, i)
    {
      assert s[i].1.Name?;
    }
  }

  /** A None or empty schema gives the default one, whose walk always
      succeeds and fills time, level and msg from the record. */
  lemma DefaultSchemaPayload(rec: Record)
    requires Wf(rec.attrs)
    ensures Payload(InitialSchema(None), rec).Ok?
    ensures Get(Payload(InitialSchema(None), rec).value, "time") == Some(VStr(rec.time))
    ensures Get(Payload(InitialSchema(None), rec).value, "msg") == Some(VStr(rec.message))
    ensures Attr(rec, "levelname") != VNone ==>
      Get(Payload(InitialSchema(None), rec).value, "level") == Some(Attr(rec, "levelname"))
  {
    var s := DefaultSchema;
    DefaultSchemaWalks(rec);
    GetWf(s, 0);
    GetWf(s, 1);
    GetWf(s, 2);
    PayloadGet(s, rec, "time");
    PayloadGet(s, rec, "msg");
    PayloadGet(s, rec, "level");
  }
}
