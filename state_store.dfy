/** `StateService`: an application-wide string-keyed store of arbitrary values. */
module StateStore {
  import opened Wrappers

  class StateService<V> {
    var state: map<string, V>

    constructor ()
      ensures state == map[]
    {
      state := map[];
    }

    /** Replaces the store by a copy with `key` bound to `value`. */
    method SetState(key: string, value: V)
      modifies this
      ensures key in state && state[key] == value
      ensures forall k :: k != key ==> (k in state <==> k in old(state))
      ensures forall k :: k != key && k in state ==> state[k] == old(state)[k]
    {
      state := state[key := value];
    }

    /** The value stored under `key`; `None` models `undefined` for an absent key. */
    function GetState(key: string): (r: Option<V>)
      reads this
      ensures r.Some? <==> key in state
      ensures r.Some? ==> r.value == state[key]
    {
      if key in state then Some(state[key]) else None
    }

    method Reset()
      modifies this
      ensures state == map[]
      ensures forall k :: GetState(k) == None
    {
      state := map[];
    }
  }

  /**
   * A fresh store: two writes, then two reads, then a reset. The later write
   * wins on a shared key and leaves the other key alone; after the reset both
   * keys read as absent.
   */
  method WriteReadReset<V>(k1: string, v1: V, k2: string, v2: V)
    returns (first: Option<V>, second: Option<V>, afterReset: Option<V>)
    ensures first == if k1 == k2 then Some(v2) else Some(v1)
    ensures second == Some(v2)
    ensures afterReset == None
  {
    var store := new StateService<V>();
    store.SetState(k1, v1);
    store.SetState(k2, v2);
    first := store.GetState(k1);
    second := store.GetState(k2);
    store.Reset();
    afterReset := store.GetState(k1);
  }
}
