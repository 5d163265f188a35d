/** The dict-backed attribute store `State`: attribute writes, reads and
    deletes all go to one backing dict, which may be a dict the caller owns
    and keeps using. */
module StateStore {
  import opened Wrappers
  import opened Dicts
  import opened Values
  import opened Exceptions
  import opened Text

  /** A Python dict object: one mutable map that several holders can share. */
  class Mapping {
    var entries: Dict<string, Value>

    constructor(entries: Dict<string, Value>)
      ensures this.entries == entries
    {
      this.entries := entries;
    }
  }

  /** The message of the AttributeError raised for a missing attribute. */
  function MissingAttribute(key: string): (m: string)
    ensures StartsWith(m, "'State' object has no attribute '")
  {
    "'State' object has no attribute '" + key + "'"
  }

  /** The one instance attribute of a State: normal attribute lookup finds
      it, so reading it never reaches __getattr__, while writing it goes
      through __setattr__ into the backing dict like any other name. */
  const StateSlot := "_state"

  class State {
    /** `_state`: stored by reference, never rebound. */
    const backing: Mapping

    /** State(state=None): a given dict is kept as is (not copied); without
        one the store starts empty. */
    constructor(init: Option<Mapping>)
      ensures init.Some? ==> backing == init.value
      ensures init.None? ==> fresh(backing) && backing.entries == []
    {
      if init.Some? {
        backing := init.value;
      } else {
        backing := new Mapping([]);
      }
    }

    /** state.key = value: writes through to the backing dict; every other
        key keeps its value and the keys keep their order. */
    method SetAttr(key: string, value: Value)
      modifies backing
      ensures backing.entries == Set(old(backing.entries), key, value)
      ensures Get(backing.entries, key) == Some(value)
      ensures forall k :: k != key ==> Get(backing.entries, k) == Get(old(backing.entries), k)
      ensures Wf(old(backing.entries)) ==> Wf(backing.entries)
    {
      backing.entries := Set(backing.entries, key, value);
      forall k ensures Get(backing.entries, k) == (if k == key then Some(value) else Get(old(backing.entries), k)) {
        SetGet(old(backing.entries), key, value, k);
      }
      SetKeys(old(backing.entries), key, value);
    }

    /** state.key: `_state` is the backing dict itself; any other key is
        the stored value, or AttributeError naming the class and the key
        when the backing dict has no such key. */
    function GetAttr(key: string): (r: Result<Value, Error>)
      reads this, backing
      ensures key == StateSlot ==> r == Ok(VDict(backing.entries))
      ensures key != StateSlot ==> (r.Ok? <==> key in Keys(backing.entries))
      ensures key != StateSlot && r.Ok? ==> Get(backing.entries, key) == Some(r.value)
      ensures r.Err? ==> r.error == AttributeError(MissingAttribute(key))
    {
      if key == StateSlot then Ok(VDict(backing.entries))
      else
        match Get(backing.entries, key)
        case Some(v) => Ok(v)
        case None => Err(AttributeError(MissingAttribute(key)))
    }

    /** del state.key: removes the key; a missing key raises the dict's own
        KeyError (not AttributeError) and changes nothing. */
    method DelAttr(key: string) returns (raised: Option<Error>)
      modifies backing
      ensures key in Keys(old(backing.entries)) ==>
        raised == None && backing.entries == Remove(old(backing.entries), key)
      ensures key !in Keys(old(backing.entries)) ==>
        raised == Some(KeyError(key)) && backing.entries == old(backing.entries)
      ensures key !in Keys(backing.entries)
      ensures forall k :: k != key ==> Get(backing.entries, k) == Get(old(backing.entries), k)
    {
      if key in Keys(backing.entries) {
        backing.entries := Remove(backing.entries, key);
        raised := None;
        RemoveKeys(old(backing.entries), key);
        forall k ensures Get(backing.entries, k) == (if k == key then None else Get(old(backing.entries), k)) {
          RemoveGet(old(backing.entries), key, k);
        }
      } else {
        raised := Some(KeyError(key));
      }
    }
  }

  /** A caller's dict handed to State sees the writes made through it, and
      a read through the State sees what the caller's dict holds; reading
      `_state` gives the caller's dict itself. */
  method SharedBacking(m: Mapping, key: string, value: Value) returns (s: State)
    modifies m
    ensures s.backing == m
    ensures Get(m.entries, key) == Some(value)
    ensures key != StateSlot ==> s.GetAttr(key) == Ok(value)
    ensures key == StateSlot ==> s.GetAttr(key) == Ok(VDict(m.entries))
  {
    s := new State(Some(m));
    s.SetAttr(key, value);
  }

  /** Deleting what was just set leaves the key missing again, so reading it
      raises AttributeError (`_state` still reads as the dict) and deleting
      it again raises KeyError. */
  method SetThenDelete(s: State, key: string, value: Value) returns (again: Option<Error>)
    modifies s.backing
    ensures key != StateSlot ==> s.GetAttr(key) == Err(AttributeError(MissingAttribute(key)))
    ensures key == StateSlot ==> s.GetAttr(key) == Ok(VDict(s.backing.entries))
    ensures again == Some(KeyError(key))
  {
    s.SetAttr(key, value);
    var first := s.DelAttr(key);
    assert first == None;
    again := s.DelAttr(key);
  }

  /** Assigning `_state` does not rebind the backing dict: the value is
      stored under the key "_state" inside it, and reading `_state` still
      gives the dict, now holding that entry. */
  method StateSlotShadowed(s: State, value: Value)
    modifies s.backing
    ensures s.GetAttr(StateSlot) == Ok(VDict(s.backing.entries))
    ensures Get(s.backing.entries, StateSlot) == Some(value)
    ensures s.GetAttr(StateSlot) != Ok(value)
  {
    s.SetAttr(StateSlot, value);
    GetSmaller(s.backing.entries, StateSlot);
  }

  /** A value stored in a dict is strictly smaller than the dict, so the two
      are never equal. */
  lemma GetSmaller(entries: Dict<string, Value>, key: string)
    requires Get(entries, key).Some?
    ensures Get(entries, key).value < VDict(entries)
  {
    var i := GetEntry(entries, key);
    assert entries[i] < VDict(entries);
  }
}
