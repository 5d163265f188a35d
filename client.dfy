/** The configuration merge that Client.__init__ and AsyncClient.__init__
    both perform: `kwargs | self._config.dump()` when the class carries a
    declared configuration, otherwise the keyword arguments alone. Python's
    `|` lets the right operand win on a shared key, so the DECLARED
    configuration overrides the call-site arguments. */
module Clients {
  import opened Wrappers
  import opened Dicts
  import opened Values
  import opened BaseConfigs

  function MergeConfig(kwargs: Dict<string, Value>, declared: Option<BaseConfig>): (merged: Dict<string, Value>)
    ensures declared.None? ==> merged == kwargs
    ensures declared.Some? ==> forall k :: k in Keys(merged) <==> k in Keys(kwargs) || k in Keys(declared.value.dump)
    ensures declared.Some? ==> |kwargs| <= |merged| && Keys(merged)[..|kwargs|] == Keys(kwargs)
    ensures Wf(kwargs) ==> Wf(merged)
  {
    if declared.Some? then
      UpdateKeys(kwargs, declared.value.dump);
      Update(kwargs, declared.value.dump)
    else kwargs
  }

  /** On a key the declared configuration has, its value wins; a key only
      the caller passed keeps the caller's value. */
  lemma MergeValues(kwargs: Dict<string, Value>, declared: BaseConfig, k: string)
    ensures Get(MergeConfig(kwargs, Some(declared)), k)
         == if k in Keys(declared.dump) then Get(declared.dump, k) else Get(kwargs, k)
  {
    UpdateGet(kwargs, declared.dump, k);
  }

  /** Declared {hosts: [...], use_ssl: False} merged with call-site
      {use_ssl: True} keeps use_ssl False: the call-site value loses. */
  lemma DeclaredWinsExample(hosts: Value)
    ensures var merged := MergeConfig([("use_ssl", VBool(true))],
                                      Some(BaseConfig([("hosts", hosts), ("use_ssl", VBool(false))])));
            Get(merged, "use_ssl") == Some(VBool(false)) && Get(merged, "hosts") == Some(hosts)
  {
    var declared := BaseConfig([("hosts", hosts), ("use_ssl", VBool(false))]);
    MergeValues([("use_ssl", VBool(true))], declared, "use_ssl");
    MergeValues([("use_ssl", VBool(true))], declared, "hosts");
    assert Keys(declared.dump) == ["hosts", "use_ssl"];
  }
}
