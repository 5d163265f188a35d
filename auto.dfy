/** The `configuration` class decorator and `get_kwargs`.

    Module import and attribute lookup are modelled by a registry: for each
    importable module path, the configuration classes it defines by name,
    each given by the configuration an instance of it holds. The caller's
    frame locals are modelled by a dict. */
module Auto {
  import opened Wrappers
  import opened Dicts
  import opened Values
  import opened Exceptions
  import opened BaseConfigs
  import Case

  type Registry = map<string, map<string, BaseConfig>>

  /** A wrapper class as the decorator sees it: the module it is defined in
      and its class-level `_config`, absent until decorated. */
  class ClientClass {
    const moduleName: string
    var config: Option<BaseConfig>

    constructor (moduleName: string)
      ensures this.moduleName == moduleName && config.None?
    {
      this.moduleName := moduleName;
      config := None;
    }
  }

  /** The class name looked up for a configuration kind. */
  function ConfigClassName(configType: string): string
  {
    Case.SnakeToPascal(configType)
  }

  /** `module_path or cls.__module__`: the scope searched and named in the error. */
  function SearchScope(modulePath: Option<string>, classModule: string): (scope: string)
    ensures modulePath.Some? && modulePath.value != "" ==> scope == modulePath.value
    ensures modulePath.None? || modulePath.value == "" ==> scope == classModule
  {
    if modulePath.Some? && modulePath.value != "" then modulePath.value else classModule
  }

  function NotFoundMessage(className: string, scope: string): string
  {
    "Configuration class '" + className + "' not found in module '" + scope + "'"
  }

  /** Import the scope, then fetch the class: a missing module or a missing
      class both become the same ImportError. */
  function Resolve(registry: Registry, configType: string, modulePath: Option<string>, classModule: string)
    : (r: Result<BaseConfig, Error>)
    ensures var name := ConfigClassName(configType);
            var scope := SearchScope(modulePath, classModule);
            && (r.Ok? <==> scope in registry && name in registry[scope])
            && (r.Ok? ==> r.value == registry[scope][name])
            && (r.Err? ==> r.error == ImportError(NotFoundMessage(name, scope)))
  {
    var name := ConfigClassName(configType);
    var scope := SearchScope(modulePath, classModule);
    if scope in registry && name in registry[scope] then Ok(registry[scope][name])
    else Err(ImportError(NotFoundMessage(name, scope)))
  }

  /** The decorator applied to `cls`: on success binds a new instance of the
      found class as `cls._config` and returns the class itself; on failure
      raises and leaves the class as it was. */
  method Configuration(cls: ClientClass, registry: Registry, configType: string, modulePath: Option<string>)
    returns (r: Result<ClientClass, Error>)
    modifies cls
    ensures var found := Resolve(registry, configType, modulePath, cls.moduleName);
            && (found.Ok? ==> r == Ok(cls) && cls.config == Some(found.value))
            && (found.Err? ==> r == Err(found.error) && cls.config == old(cls.config))
  {
    var found := Resolve(registry, configType, modulePath, cls.moduleName);
    if found.Err? {
      return Err(found.error);
    }
    cls.config := Some(found.value);
    return Ok(cls);
  }

  /** The ImportError names the class looked for and the scope searched. */
  lemma NotFoundNamesBoth(registry: Registry, configType: string, modulePath: Option<string>, classModule: string)
    requires Resolve(registry, configType, modulePath, classModule).Err?
    ensures var msg := Resolve(registry, configType, modulePath, classModule).error.message;
            var name := ConfigClassName(configType);
            var scope := SearchScope(modulePath, classModule);
            && msg[21..21 + |name|] == name
            && msg[|msg| - |scope| - 1..|msg| - 1] == scope
            && '_' !in name
  {
    var name := ConfigClassName(configType);
    var scope := SearchScope(modulePath, classModule);
    var msg := NotFoundMessage(name, scope);
    assert msg == "Configuration class '" + name + ("' not found in module '" + scope + "'");
    assert |"Configuration class '"| == 21;
  }

  /** get_kwargs as a function of the caller's locals: drop "self" and
      "__class__"; if "kwargs" is present, drop it and assign each of its
      entries at top level. A non-dict "kwargs" has no items(). */
  function Flatten(locals: Dict<string, Value>): (r: Result<Dict<string, Value>, Error>)
    ensures r.Err? <==> Get(locals, "kwargs").Some? && !Get(locals, "kwargs").value.VDict?
    ensures r.Err? ==>
              r.error == AttributeError("'" + TypeName(Get(locals, "kwargs").value) + "' object has no attribute 'items'")
  {
    RemoveGet(locals, "self", "kwargs");
    RemoveGet(Remove(locals, "self"), "__class__", "kwargs");
    var base := Remove(Remove(locals, "self"), "__class__");
    var kwargs: Option<Value> := Get(base, "kwargs");
    match kwargs
    case None => Ok(base)
    case Some(VDict(kw)) => Ok(Update(Remove(base, "kwargs"), kw))
    case Some(other) => Err(AttributeError("'" + TypeName(other) + "' object has no attribute 'items'"))
  }

  /** What get_kwargs returns, key by key: an entry of kwargs wins; "self",
      "__class__" and "kwargs" themselves are gone unless kwargs re-supplies
      them; every other local passes through unchanged. */
  lemma FlattenGet(locals: Dict<string, Value>, k: string)
    requires Flatten(locals).Ok?
    ensures var out := Flatten(locals).value;
            var kw := Get(locals, "kwargs");
            var fromKw := kw.Some? && kw.value.VDict? && k in Keys(kw.value.entries);
            Get(out, k) == if fromKw then Get(kw.value.entries, k)
                           else if k in {"self", "__class__", "kwargs"} then None
                           else Get(locals, k)
  {
    var base := Remove(Remove(locals, "self"), "__class__");
    RemoveGet(locals, "self", "kwargs");
    RemoveGet(Remove(locals, "self"), "__class__", "kwargs");
    RemoveGet(locals, "self", k);
    RemoveGet(Remove(locals, "self"), "__class__", k);
    var kwargs: Option<Value> := Get(base, "kwargs");
    match kwargs
    case None =>
    case Some(VDict(kw)) =>
      UpdateGet(Remove(base, "kwargs"), kw, k);
      RemoveGet(base, "kwargs", k);
  }

  /** The caller's locals flattened, working on a copy. */
  method GetKwargs(locals: Dict<string, Value>) returns (r: Result<Dict<string, Value>, Error>)
    ensures r == Flatten(locals)
  {
    var localVars := locals;
    localVars := Remove(localVars, "self");
    localVars := Remove(localVars, "__class__");
    var kwargs := Get(localVars, "kwargs");
    if kwargs.Some? {
      localVars := Remove(localVars, "kwargs");
      if !kwargs.value.VDict? {
        return Err(AttributeError("'" + TypeName(kwargs.value) + "' object has no attribute 'items'"));
      }
      localVars := AssignEach(localVars, kwargs.value.entries);
    }
    return Ok(localVars);
  }

  /** `for key, value in kwargs.items(): local_vars[key] = value` */
  method AssignEach(vars: Dict<string, Value>, kw: Dict<string, Value>) returns (out: Dict<string, Value>)
    ensures out == Update(vars, kw)
  {
    out := vars;
    var i := 0;
    while i < |kw|
      invariant 0 <= i <= |kw|
      invariant out == Update(vars, kw[..i])
    {
      UpdateSnoc(vars, kw[..i], kw[i]);
      assert kw[..i + 1] == kw[..i] + [kw[i]];
      out := Set(out, kw[i].0, kw[i].1);
      i := i + 1;
    }
    assert kw[..i] == kw;
  }
}
