/** BaseConfig: a read-only Mapping view over a concrete configuration's
    dump(). A concrete configuration is represented by the dict its dump()
    returns; every Mapping operation delegates to that dict. */
module BaseConfigs {
  import opened Wrappers
  import opened Dicts
  import opened Values
  import opened Exceptions

  datatype BaseConfig = BaseConfig(dump: Dict<string, Value>)
  {
    /** cfg[key] */
    function GetItem(key: string): (r: Result<Value, Error>)
      ensures r.Ok? <==> key in Keys(dump)
      ensures r.Ok? ==> Get(dump, key) == Some(r.value)
      ensures r.Err? ==> r.error == KeyError(key)
    {
      match Get(dump, key)
      case Some(v) => Ok(v)
      case None => Err(KeyError(key))
    }

    /** iter(cfg), as the sequence of keys it yields: one per entry of
        dump(), in dump()'s order, and exactly the keys cfg[key] accepts. */
    function Iter(): (ks: seq<string>)
      ensures |ks| == |dump|
      ensures forall i :: 0 <= i < |ks| ==> ks[i] == dump[i].0
      ensures forall k :: k in ks <==> GetItem(k).Ok?
    {
      Keys(dump)
    }

    /** len(cfg): the number of keys iteration yields. */
    function Len(): (n: nat)
      ensures n == |Iter()|
    {
      |dump|
    }
  }

  /** The Mapping view is consistent: iteration yields each key of dump()
      once, in dump()'s order, len() counts them, and indexing by the i-th
      key yields the i-th value. */
  lemma MappingView(cfg: BaseConfig)
    requires Wf(cfg.dump)
    ensures |cfg.Iter()| == cfg.Len()
    ensures forall i :: 0 <= i < cfg.Len() ==> cfg.Iter()[i] == cfg.dump[i].0
    ensures forall i, j :: 0 <= i < j < |cfg.Iter()| ==> cfg.Iter()[i] != cfg.Iter()[j]
    ensures forall i :: 0 <= i < cfg.Len() ==> cfg.GetItem(cfg.Iter()[i]) == Ok(cfg.dump[i].1)
  {
    forall i | 0 <= i < cfg.Len() ensures cfg.GetItem(cfg.Iter()[i]) == Ok(cfg.dump[i].1) {
      GetWf(cfg.dump, i);
    }
  }
}
