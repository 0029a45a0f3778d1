/**
 * The keyed resource store (src/managers/templateManager.hh): a map from
 * keys to `shared_ptr` values, where a null `shared_ptr` is a stored value like any
 * other. `Get` goes through `operator[]`, so asking for a missing key
 * inserts a null entry for it; `Remove` reads the same way before erasing.
 *
 * The pure functions below say what `operator[]` answers and what it leaves
 * behind; the class's methods are stated in terms of them, and the lemmas
 * give the properties callers rely on.
 */
module TemplateManagers {
  import opened Wrappers

  /** What `items[key]` answers: the stored `shared_ptr`, or null for a missing key. */
  function Lookup<K, T>(items: map<K, Option<T>>, key: K): (r: Option<T>)
  {
    if key in items then items[key] else None
  }

  /** The map `items[key]` leaves behind: a missing key now holds null. */
  function Touched<K, T>(items: map<K, Option<T>>, key: K): (m: map<K, Option<T>>)
  {
    if key in items then items else items[key := None]
  }

  /** After `Add(k, v)`, `Get(k)` answers `v` and inserts nothing. */
  lemma GetAfterAdd<K, T>(items: map<K, Option<T>>, key: K, item: Option<T>)
    ensures Lookup(items[key := item], key) == item
    ensures Touched(items[key := item], key) == items[key := item]
  {
  }

  /** `Get` of a missing key answers null and adds a null entry for that key alone. */
  lemma GetMissingInserts<K, T>(items: map<K, Option<T>>, key: K)
    requires key !in items
    ensures Lookup(items, key) == None
    ensures Touched(items, key).Keys == items.Keys + {key} && Touched(items, key)[key] == None
  {
  }

  /** The entry `Get` inserts is invisible to later lookups: every key answers as it did before. */
  lemma TouchKeepsAnswers<K, T>(items: map<K, Option<T>>, key: K, other: K)
    ensures Lookup(Touched(items, key), other) == Lookup(items, other)
  {
  }

  /** A second `Get` of the same key changes nothing more. */
  lemma TouchIdempotent<K, T>(items: map<K, Option<T>>, key: K)
    ensures Touched(Touched(items, key), key) == Touched(items, key)
  {
  }

  /** After `Remove(k)` the key is absent, so a later `Get(k)` answers null. */
  lemma GetAfterRemove<K, T>(items: map<K, Option<T>>, key: K)
    ensures key !in items - {key}
    ensures Lookup(items - {key}, key) == None
  {
  }

  /** `Add`, `Get` and `Remove` of one key leave every other key's entry as it was. */
  lemma OtherKeysUnchanged<K, T>(items: map<K, Option<T>>, key: K, other: K, item: Option<T>)
    requires other != key
    ensures (other in items[key := item]) == (other in items) && Lookup(items[key := item], other) == Lookup(items, other)
    ensures (other in Touched(items, key)) == (other in items) && Lookup(Touched(items, key), other) == Lookup(items, other)
    ensures (other in items - {key}) == (other in items) && Lookup(items - {key}, other) == Lookup(items, other)
  {
  }

  class TemplateManager<K(==), T> {
    /** `items`; None is a null `shared_ptr`. */
    var items: map<K, Option<T>>

    /** An empty store. */
    constructor ()
      ensures items == map[]
    {
      items := map[];
    }

    /** `Add`: `item` is stored under `key`, replacing what was there. */
    method Add(key: K, item: Option<T>)
      modifies this
      ensures items == old(items)[key := item]
    {
      items := items[key := item];
    }

    /** `Get`: the stored `shared_ptr`, or null; a missing key is left holding null. */
    method Get(key: K) returns (r: Option<T>)
      modifies this
      ensures r == Lookup(old(items), key)
      ensures items == Touched(old(items), key)
    {
      if key !in items {
        items := items[key := None];
      }
      r := items[key];
    }

    /** `Remove`: the stored `shared_ptr`, or null, is returned and the key is erased. */
    method Remove(key: K) returns (r: Option<T>)
      modifies this
      ensures r == Lookup(old(items), key)
      ensures items == old(items) - {key}
    {
      if key !in items {
        items := items[key := None];
      }
      r := items[key];
      items := items - {key};
    }

    /** The destructor: every entry is dropped. */
    method Destroy()
      modifies this
      ensures items == map[]
    {
      items := map[];
    }
  }
}
