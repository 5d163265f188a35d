/** Python's insertion-ordered dict, as a sequence of (key, value) entries.
    A dict built by Python never repeats a key (`Wf`); lookup returns the
    value of the LAST entry with the key, which for a well-formed dict is the
    only one, and which also gives the "later duplicates win" behaviour of a
    dict comprehension over a list of pairs. */
module Dicts {
  import opened Wrappers

  type Dict<K, V> = seq<(K, V)>

  /** The keys in iteration order: list(d). */
  function Keys<K, V>(d: Dict<K, V>): (ks: seq<K>)
    ensures |ks| == |d| && forall i :: 0 <= i < |d| ==> ks[i] == d[i].0
  {
    seq(|d|, i requires 0 <= i < |d| => d[i].0)
  }

  /** No key appears twice. */
  ghost predicate Wf<K, V>(d: Dict<K, V>)
  {
    forall i, j :: 0 <= i < j < |d| ==> d[i].0 != d[j].0
  }

  /** d.get(k): the value of the last entry for k, None when k is absent. */
  function Get<K(==), V>(d: Dict<K, V>, k: K): (r: Option<V>)
    ensures r.Some? <==> k in Keys(d)
  {
    if d == [] then None
    else
      var rest := Get(d[1..], k);
      if rest.Some? then rest
      else if d[0].0 == k then Some(d[0].1)
      else None
  }

  /** d.get(k, default) */
  function GetOr<K(==), V>(d: Dict<K, V>, k: K, default: V): (r: V)
    ensures k in Keys(d) ==> Get(d, k) == Some(r)
    ensures k !in Keys(d) ==> r == default
  {
    match Get(d, k)
    case Some(v) => v
    case None => default
  }

  /** Replaces the value of every entry for k, keeping positions. */
  function Replace<K(==), V>(d: Dict<K, V>, k: K, v: V): (r: Dict<K, V>)
    ensures Keys(r) == Keys(d)
  {
    if d == [] then [] else [if d[0].0 == k then (k, v) else d[0]] + Replace(d[1..], k, v)
  }

  /** d[k] = v: an existing key keeps its position, a new key goes last. */
  function Set<K(==), V>(d: Dict<K, V>, k: K, v: V): Dict<K, V>
  {
    if k in Keys(d) then Replace(d, k, v) else d + [(k, v)]
  }

  /** d.pop(k) / del d[k], on the entries: every entry for k is dropped. */
  function Remove<K(==), V>(d: Dict<K, V>, k: K): Dict<K, V>
  {
    if d == [] then [] else (if d[0].0 == k then [] else [d[0]]) + Remove(d[1..], k)
  }

  /** a | b, and equally a.update(b): a's entries, then b's assigned in order. */
  function Update<K(==), V>(a: Dict<K, V>, b: Dict<K, V>): Dict<K, V>
    decreases b
  {
    if b == [] then a else Update(Set(a, b[0].0, b[0].1), b[1..])
  }

  /** The binding Get finds is an entry of the list. */
  lemma {:induction false} GetEntry<K, V>(d: Dict<K, V>, k: K) returns (i: nat)
    requires k in Keys(d)
    ensures i < |d| && d[i].0 == k && Some(d[i].1) == Get(d, k)
  {
    if Get(d[1..], k).Some? {
      var j := GetEntry(d[1..], k);
      i := j + 1;
    } else {
      i := 0;
    }
  }

  lemma {:induction false} GetAppend<K, V>(a: Dict<K, V>, b: Dict<K, V>, k: K)
    ensures Get(a + b, k) == if k in Keys(b) then Get(b, k) else Get(a, k)
  {
    if a == [] {
      assert a + b == b;
    } else {
      assert (a + b)[1..] == a[1..] + b;
      GetAppend(a[1..], b, k);
    }
  }

  lemma {:induction false} GetReplace<K, V>(d: Dict<K, V>, k: K, v: V, k': K)
    ensures Get(Replace(d, k, v), k') == if k' != k then Get(d, k') else if k in Keys(d) then Some(v) else None
  {
    if d != [] {
      GetReplace(d[1..], k, v, k');
      assert Replace(d, k, v)[1..] == Replace(d[1..], k, v);
    }
  }

  /** Assignment: k now maps to v and every other key keeps its value. */
  lemma SetGet<K, V>(d: Dict<K, V>, k: K, v: V, k': K)
    ensures Get(Set(d, k, v), k') == if k' == k then Some(v) else Get(d, k')
  {
    if k in Keys(d) {
      GetReplace(d, k, v, k');
    } else {
      GetAppend(d, [(k, v)], k');
      assert Keys([(k, v)]) == [k];
    }
  }

  /** Assignment keeps existing positions and appends a new key. */
  lemma SetKeys<K, V>(d: Dict<K, V>, k: K, v: V)
    ensures Keys(Set(d, k, v)) == if k in Keys(d) then Keys(d) else Keys(d) + [k]
    ensures Wf(d) ==> Wf(Set(d, k, v))
  {
    var r := Set(d, k, v);
    if k !in Keys(d) {
      assert Keys(r) == Keys(d) + [k];
    }
  }

  /** Removal: k is gone and every other key keeps its value. */
  lemma {:induction false} RemoveGet<K, V>(d: Dict<K, V>, k: K, k': K)
    ensures Get(Remove(d, k), k') == if k' == k then None else Get(d, k')
  {
    if d != [] {
      var head := if d[0].0 == k then [] else [d[0]];
      RemoveGet(d[1..], k, k');
      GetAppend(head, Remove(d[1..], k), k');
    }
  }

  lemma RemoveKeys<K, V>(d: Dict<K, V>, k: K)
    ensures forall x :: x in Keys(Remove(d, k)) <==> x in Keys(d) && x != k
    ensures Wf(d) ==> Wf(Remove(d, k))
  {
    RemoveKeysIn(d, k);
    if Wf(d) {
      RemoveWf(d, k);
    }
  }

  lemma {:induction false} RemoveKeysIn<K, V>(d: Dict<K, V>, k: K)
    ensures forall x :: x in Keys(Remove(d, k)) <==> x in Keys(d) && x != k
  {
    if d != [] {
      RemoveKeysIn(d[1..], k);
      var tail := Remove(d[1..], k);
      if d[0].0 == k {
        assert Remove(d, k) == tail;
      } else {
        assert Remove(d, k) == [d[0]] + tail;
        KeysCons(d[0], tail);
      }
      assert d == [d[0]] + d[1..];
      KeysCons(d[0], d[1..]);
    }
  }

  lemma {:induction false} RemoveWf<K, V>(d: Dict<K, V>, k: K)
    requires Wf(d)
    ensures Wf(Remove(d, k))
  {
    if d != [] {
      WfCons(d);
      RemoveWf(d[1..], k);
      RemoveKeysIn(d[1..], k);
      var tail := Remove(d[1..], k);
      if d[0].0 == k {
        assert Remove(d, k) == tail;
      } else {
        assert Remove(d, k) == [d[0]] + tail;
        WfPrepend(d[0], tail);
      }
    }
  }

  lemma KeysCons<K, V>(e: (K, V), d: Dict<K, V>)
    ensures forall x :: x in Keys([e] + d) <==> x == e.0 || x in Keys(d)
  {
    assert Keys([e] + d) == [e.0] + Keys(d);
  }

  lemma KeysConcat<K, V>(a: Dict<K, V>, b: Dict<K, V>)
    ensures Keys(a + b) == Keys(a) + Keys(b)
  {
  }

  /** The tail of a well-formed dict is well formed and lacks the head's key. */
  lemma WfCons<K, V>(d: Dict<K, V>)
    requires Wf(d) && d != []
    ensures Wf(d[1..]) && d[0].0 !in Keys(d[1..])
  {
  }

  /** An entry whose key the dict lacks can go in front. */
  lemma WfPrepend<K, V>(e: (K, V), d: Dict<K, V>)
    requires Wf(d) && e.0 !in Keys(d)
    ensures Wf([e] + d)
  {
    var s := [e] + d;
    forall i, j | 0 <= i < j < |s| ensures s[i].0 != s[j].0 {
      assert s[j] == d[j - 1];
      if i > 0 {
        assert s[i] == d[i - 1];
      } else {
        assert Keys(d)[j - 1] == d[j - 1].0;
      }
    }
  }

  /** The last entry of a well-formed dict has a key the earlier entries lack. */
  lemma WfSnoc<K, V>(d: Dict<K, V>)
    requires Wf(d) && d != []
    ensures Wf(d[..|d| - 1]) && d[|d| - 1].0 !in Keys(d[..|d| - 1])
  {
    var prefix := d[..|d| - 1];
    forall j | 0 <= j < |prefix|
      ensures prefix[j].0 != d[|d| - 1].0
    {
      assert prefix[j] == d[j];
    }
  }

  /** In a well-formed dict the entry at i is what lookup of its key gives. */
  lemma {:induction false} GetWf<K, V>(d: Dict<K, V>, i: nat)
    requires Wf(d) && i < |d|
    ensures Get(d, d[i].0) == Some(d[i].1)
  {
    if i > 0 {
      GetWf(d[1..], i - 1);
    } else {
      assert d[0].0 !in Keys(d[1..]);
    }
  }

  /** a | b: a key of b takes b's value, a key only of a keeps a's value. */
  lemma {:induction false} UpdateGet<K, V>(a: Dict<K, V>, b: Dict<K, V>, k: K)
    ensures Get(Update(a, b), k) == if k in Keys(b) then Get(b, k) else Get(a, k)
    decreases b
  {
    if b != [] {
      UpdateGet(Set(a, b[0].0, b[0].1), b[1..], k);
      SetGet(a, b[0].0, b[0].1, k);
    }
  }

  /** a | b: the keys are those of a and of b; a's keys keep their order and
      positions at the front; the result is a well-formed dict when a is. */
  lemma {:induction false} UpdateKeys<K, V>(a: Dict<K, V>, b: Dict<K, V>)
    ensures forall k :: k in Keys(Update(a, b)) <==> k in Keys(a) || k in Keys(b)
    ensures |Keys(a)| <= |Keys(Update(a, b))| && Keys(Update(a, b))[..|a|] == Keys(a)
    ensures Wf(a) ==> Wf(Update(a, b))
    decreases b
  {
    if b != [] {
      var a' := Set(a, b[0].0, b[0].1);
      UpdateKeys(a', b[1..]);
      SetKeys(a, b[0].0, b[0].1);
      UpdateKeysStep(a, a', b);
    }
  }

  lemma UpdateKeysStep<K, V>(a: Dict<K, V>, a': Dict<K, V>, b: Dict<K, V>)
    requires b != [] && a' == Set(a, b[0].0, b[0].1)
    requires Keys(a') == if b[0].0 in Keys(a) then Keys(a) else Keys(a) + [b[0].0]
    requires forall k :: k in Keys(Update(a', b[1..])) <==> k in Keys(a') || k in Keys(b[1..])
    requires |Keys(a')| <= |Keys(Update(a', b[1..]))| && Keys(Update(a', b[1..]))[..|a'|] == Keys(a')
    ensures forall k :: k in Keys(Update(a, b)) <==> k in Keys(a) || k in Keys(b)
    ensures |Keys(a)| <= |Keys(Update(a, b))| && Keys(Update(a, b))[..|a|] == Keys(a)
  {
    assert Update(a, b) == Update(a', b[1..]);
    assert Keys(b) == [b[0].0] + Keys(b[1..]);
    assert Keys(a')[..|a|] == Keys(a);
  }

  /** Assigning the entries of b one at a time, in order, is a | b. */
  lemma {:induction false} UpdateSnoc<K, V>(a: Dict<K, V>, b: Dict<K, V>, x: (K, V))
    ensures Update(a, b + [x]) == Set(Update(a, b), x.0, x.1)
    decreases b
  {
    if b == [] {
      assert b + [x] == [x];
    } else {
      assert (b + [x])[1..] == b[1..] + [x];
      UpdateSnoc(Set(a, b[0].0, b[0].1), b[1..], x);
    }
  }
}
