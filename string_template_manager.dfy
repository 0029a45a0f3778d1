/**
 * The string-keyed resource store (src/templateManager.hh): the same
 * operations as the generic store, with `std::string` keys. `operator[]`
 * behaves as `Lookup` and `Touched` in module TemplateManagers say, and the
 * lemmas there hold for string keys.
 */
module StringTemplateManagers {
  import opened Wrappers
  import opened TemplateManagers

  class StringTemplateManager<T> {
    /** `items`; None is a null `shared_ptr`. */
    var items: map<string, Option<T>>

    /** An empty store. */
    constructor ()
      ensures items == map[]
    {
      items := map[];
    }

    /** `Add`: `item` is stored under `key`, replacing what was there. */
    method Add(key: string, item: Option<T>)
      modifies this
      ensures items == old(items)[key := item]
    {
      items := items[key := item];
    }

    /** `Get`: the stored `shared_ptr`, or null; a missing key is left holding null. */
    method Get(key: string) returns (r: Option<T>)
      modifies this
      ensures r == Lookup(old(items), key)
      ensures items == Touched(old(items), key)
    {
      if key !in items {
        items := items[key := None];
      }
      r := items[key];
    }

    /** `Remove`: the stored `shared_ptr`, or null, is returned and the key is erased. */
    method Remove(key: string) returns (r: Option<T>)
      modifies this
      ensures r == Lookup(old(items), key)
      ensures items == old(items) - {key}
    {
      if key !in items {
        items := items[key := None];
      }
      r := items[key];
      items := items - {key};
    }

    /** The destructor: every entry is dropped. */
    method Destroy()
      modifies this
      ensures items == map[]
    {
      items := map[];
    }
  }
}
