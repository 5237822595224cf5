/**
 * What the two secure-storage configuration providers share: the platform
 * store as a map from key to text, an abstract JSON codec, and the read that
 * treats a missing or empty entry as absent.
 */
module SecureStorage {
  import opened Wrappers

  /** A JSON serializer for values of T. */
  datatype Codec<!T> = Codec(serialize: T -> string, deserialize: string -> T)

  /** Deserializing inverts serializing, and serialized text is never empty. */
  ghost predicate Lawful<T(!new)>(c: Codec<T>)
  {
    forall v :: c.deserialize(c.serialize(v)) == v && c.serialize(v) != ""
  }

  /** Get<T>: a missing or empty entry reads as the default (None); any other is deserialized. */
  function Read<T>(storage: map<string, string>, key: string, c: Codec<T>): (r: Option<T>)
    ensures r.None? <==> key !in storage || storage[key] == ""
    ensures r.Some? ==> r.value == c.deserialize(storage[key])
  {
    if key !in storage || storage[key] == "" then None else Some(c.deserialize(storage[key]))
  }

  /** SecureStorage.SetAsync(key, text), or SecureStorage.Remove(key) for None. */
  function Write(storage: map<string, string>, key: string, text: Option<string>): (r: map<string, string>)
    ensures text.None? ==> r.Keys == storage.Keys - {key}
    ensures text.Some? ==> key in r && r[key] == text.value && r.Keys == storage.Keys + {key}
    ensures forall k :: k in storage && k != key ==> k in r && r[k] == storage[k]
  {
    if text.None? then storage - {key} else storage[key := text.value]
  }

  /** What Set<T>(key, value) hands to the platform store: the serialized value, or None for null. */
  function Serialized<T>(value: Option<T>, c: Codec<T>): (text: Option<string>)
    ensures text.Some? <==> value.Some?
    ensures text.Some? ==> text.value == c.serialize(value.value)
  {
    if value.Some? then Some(c.serialize(value.value)) else None
  }

  /** A value written is read back, provided its text round-trips and is not empty. */
  lemma ReadAfterWrite<T>(storage: map<string, string>, key: string, v: T, c: Codec<T>)
    requires c.deserialize(c.serialize(v)) == v && c.serialize(v) != ""
    ensures Read(Write(storage, key, Some(c.serialize(v))), key, c) == Some(v)
  {
  }

  /** A key written with null reads back as absent. */
  lemma ReadAfterRemove<T>(storage: map<string, string>, key: string, c: Codec<T>)
    ensures Read(Write(storage, key, None), key, c) == None
  {
  }

  /** Writing one key leaves what every other key reads unchanged. */
  lemma ReadOtherKey<T>(storage: map<string, string>, key: string, other: string, text: Option<string>, c: Codec<T>)
    requires other != key
    ensures Read(Write(storage, key, text), other, c) == Read(storage, other, c)
  {
  }
}
