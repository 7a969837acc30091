/** Optional values, used for what the browser may not provide
    (a missing storage key, an absent `window.matchMedia`). */
module Wrappers {
  datatype Option<+T> = None | Some(value: T)
}

/** The two browser collaborators the theme logic talks to, as values:
    `localStorage` is a map from keys to strings, and the root element's
    `classList` is a set of class names. */
module Browser {
  import opened Wrappers

  type Storage = map<string, string>
  type ClassList = set<string>

  /** `localStorage.getItem(key)`: the stored string, or `null` (None) when the key is absent. */
  function GetItem(store: Storage, key: string): (r: Option<string>)
    ensures r.Some? <==> key in store
    ensures r.Some? ==> r.value == store[key]
  {
    if key in store then Some(store[key]) else None
  }

  /** `localStorage.setItem(key, value)`: overwrites the entry for `key`, every other key unchanged. */
  function SetItem(store: Storage, key: string, value: string): (r: Storage)
    ensures GetItem(r, key) == Some(value)
    ensures forall k :: k != key ==> GetItem(r, k) == GetItem(store, k)
    ensures r.Keys == store.Keys + {key}
  {
    store[key := value]
  }

  /** `classList.add(c)`: afterwards `c` is present; no other class is touched. */
  function Add(cs: ClassList, c: string): (r: ClassList)
    ensures c in r
    ensures forall x :: x != c ==> (x in r <==> x in cs)
  {
    cs + {c}
  }

  /** `classList.remove(c)`: afterwards `c` is absent (removing an absent class does nothing);
      no other class is touched. */
  function Remove(cs: ClassList, c: string): (r: ClassList)
    ensures c !in r
    ensures forall x :: x != c ==> (x in r <==> x in cs)
  {
    cs - {c}
  }

  /** Writing a key twice with the same value is the same as writing it once. */
  lemma SetItemIdempotent(store: Storage, key: string, value: string)
    ensures SetItem(SetItem(store, key, value), key, value) == SetItem(store, key, value)
  {
  }

  /** Writing a value a key already holds leaves the storage as it was. */
  lemma SetItemSameValue(store: Storage, key: string, value: string)
    requires GetItem(store, key) == Some(value)
    ensures SetItem(store, key, value) == store
  {
  }

  /** Adding (removing) a class twice is the same as adding (removing) it once, and
      either one leaves a list that already agrees unchanged. */
  lemma AddRemoveIdempotent(cs: ClassList, c: string)
    ensures Add(Add(cs, c), c) == Add(cs, c)
    ensures Remove(Remove(cs, c), c) == Remove(cs, c)
    ensures c in cs ==> Add(cs, c) == cs
    ensures c !in cs ==> Remove(cs, c) == cs
  {
  }
}
