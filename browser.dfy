/** The browser facilities the storefront leans on: `localStorage` as a
    string-to-string map, JSON encoding as an abstract codec, and the
    JavaScript notion of a "truthy" optional string. */
module Browser {

  datatype Option<+T> = None | Some(value: T)

  /** JSON encoding and parsing for one value type, left abstract. `decode`
      answers None where the text is not the encoding of a value of the
      type; it does not tell a parse failure from well-formed JSON of
      another shape. */
  datatype Codec<!T> = Codec(encode: T -> string, decode: string -> Option<T>)

  /** What a well-behaved JSON codec guarantees: decoding an encoding gives
      the value back, and an encoding is never the empty string. */
  ghost predicate RoundTrips<T(!new)>(c: Codec<T>) {
    forall x: T :: c.encode(x) != "" && c.decode(c.encode(x)) == Some(x)
  }

  /** JavaScript truthiness of a stored string: null and "" are falsy. */
  predicate Truthy(s: Option<string>) {
    s.Some? && s.value != ""
  }

  /** The page's `localStorage`: one map shared by every store. */
  class LocalStorage {
    var entries: map<string, string>

    constructor (initial: map<string, string>)
      ensures entries == initial
    {
      entries := initial;
    }

    /** `getItem`: null (None) for a missing key. */
    function GetItem(key: string): (r: Option<string>)
      reads this
      ensures r.Some? <==> key in entries
      ensures r.Some? ==> r.value == entries[key]
    {
      if key in entries then Some(entries[key]) else None
    }

    method SetItem(key: string, value: string)
      modifies this
      ensures entries == old(entries)[key := value]
    {
      entries := entries[key := value];
    }

    /** `removeItem`: a no-op for a missing key. */
    method RemoveItem(key: string)
      modifies this
      ensures entries == old(entries) - {key}
    {
      entries := entries - {key};
    }
  }
}
