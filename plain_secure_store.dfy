/** The configuration provider over the platform's secure storage, without an index of keys. */
module PlainSecureStore {
  import opened Wrappers
  import opened SecureStorage

  class XamarinEssentialsSecureConfigProvider {
    /** The platform's secure storage. */
    var storage: map<string, string>

    constructor (storage: map<string, string>)
      ensures this.storage == storage
    {
      this.storage := storage;
    }

    /** Get<T>: the default for a missing or empty entry, the deserialized text otherwise. */
    function Get<T>(key: string, c: Codec<T>): (r: Option<T>)
      reads this
      ensures r.None? <==> key !in storage || storage[key] == ""
      ensures r.Some? ==> r.value == c.deserialize(storage[key])
    {
      Read(storage, key, c)
    }

    /** Set<T>: null removes the key; any other value is stored serialized. No other key changes. */
    method Set<T>(key: string, value: Option<T>, c: Codec<T>)
      modifies this
      ensures storage == Write(old(storage), key, Serialized(value, c))
      ensures forall k :: k in old(storage) && k != key ==> k in storage && storage[k] == old(storage)[k]
      ensures value.None? ==> key !in storage
      ensures value.Some? ==> key in storage && storage[key] == c.serialize(value.value)
    {
      if value.None? {
        storage := storage - {key};
      } else {
        storage := storage[key := c.serialize(value.value)];
      }
    }
  }

  /** Set then Get returns the value set; a null Set reads back as absent. */
  method SetThenGet<T>(p: XamarinEssentialsSecureConfigProvider, key: string, value: Option<T>, c: Codec<T>)
    returns (r: Option<T>)
    requires value.Some? ==> c.deserialize(c.serialize(value.value)) == value.value && c.serialize(value.value) != ""
    modifies p
    ensures r == value
  {
    p.Set(key, value, c);
    if value.Some? {
      ReadAfterWrite(old(p.storage), key, value.value, c);
    }
    r := p.Get(key, c);
  }
}
