/**
 * The browser's local storage, as a map from key to text, and the JSON text
 * format, as an abstract pair of an encoder and a decoder that may reject text.
 */
module Storage {
  import opened Wrappers

  type Store = map<string, string>

  const ProgressKey := "jee-prep-progress"
  const UserKey := "jee-prep-user"
  const ThemeKey := "jee-prep-theme"
  const SettingsKey := "timer-settings"

  /**
   * `JSON.stringify` and `JSON.parse` for values of type `T`. Decoding returns
   * `None` where `JSON.parse` throws.
   */
  datatype Codec<!T> = Codec(encode: T -> string, decode: string -> Option<T>)

  /** The codec reads back what it wrote, and never writes the empty text (JSON text never is). */
  ghost predicate Lawful<T(!new)>(c: Codec<T>) {
    forall x: T :: c.encode(x) != "" && c.decode(c.encode(x)) == Some(x)
  }

  /**
   * `const saved = localStorage.getItem(key); if (saved) ...`: a missing key
   * (`null`) and the empty text are both falsy and read as nothing stored.
   */
  function Saved(store: Store, key: string): (r: Option<string>)
    ensures r.Some? <==> key in store && store[key] != ""
    ensures r.Some? ==> r.value == store[key]
  {
    if key in store && store[key] != "" then Some(store[key]) else None
  }

  /** `if (!userId)` on an optional id: `undefined` and the empty id are both falsy. */
  predicate Present(userId: Option<string>) {
    userId.Some? && userId.value != ""
  }

  /** The decoded value stored under `key`, if there is one and it decodes. */
  function Restore<T>(store: Store, key: string, c: Codec<T>): (r: Option<T>)
    ensures r.Some? ==> Saved(store, key).Some? && c.decode(store[key]) == r
  {
    match Saved(store, key)
    case Some(text) => c.decode(text)
    case None => None
  }

  /** What was saved under a key is what is restored from it. */
  lemma RestoreSaved<T(!new)>(store: Store, key: string, c: Codec<T>, x: T)
    requires Lawful(c)
    ensures Restore(store[key := c.encode(x)], key, c) == Some(x)
  {
  }
}
