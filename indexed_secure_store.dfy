/**
 * The configuration provider over the platform's secure storage that also keeps
 * an index of its live keys, stored as a serialized array under its own key,
 * so that keys can be listed by prefix.
 */
module IndexedSecureStore {
  import opened Wrappers
  import opened SecureStorage

  const IndexKey := "SecureConfigProviderIndex"

  ghost predicate NoDuplicates(xs: seq<string>)
  {
    forall i, j :: 0 <= i < j < |xs| ==> xs[i] != xs[j]
  }

  /** `Where(p)`: the entries satisfying p, in their original order. */
  function Keep(xs: seq<string>, p: string -> bool): (r: seq<string>)
    ensures |r| <= |xs|
    ensures forall x :: x in r <==> x in xs && p(x)
  {
    if xs == [] then []
    else (if p(xs[0]) then [xs[0]] else []) + Keep(xs[1..], p)
  }

  /** Filtering distributes over concatenation: the kept entries stay in their relative order. */
  lemma {:induction false} KeepAppend(a: seq<string>, b: seq<string>, p: string -> bool)
    ensures Keep(a + b, p) == Keep(a, p) + Keep(b, p)
  {
    if a == [] {
      assert a + b == b;
    } else {
      assert (a + b)[0] == a[0] && (a + b)[1..] == a[1..] + b;
      KeepAppend(a[1..], b, p);
    }
  }

  /** Filtering a list without duplicates gives a list without duplicates. */
  lemma {:induction false} KeepNoDuplicates(xs: seq<string>, p: string -> bool)
    requires NoDuplicates(xs)
    ensures NoDuplicates(Keep(xs, p))
  {
    if xs != [] {
      var tail := xs[1..];
      assert NoDuplicates(tail) by {
        forall i, j | 0 <= i < j < |tail| ensures tail[i] != tail[j] {
          assert tail[i] == xs[i + 1] && tail[j] == xs[j + 1];
        }
      }
      KeepNoDuplicates(tail, p);
      assert xs[0] !in tail by {
        forall i | 0 <= i < |tail| ensures tail[i] != xs[0] {
          assert tail[i] == xs[i + 1];
        }
      }
      var rest := Keep(tail, p);
      var head: seq<string> := if p(xs[0]) then [xs[0]] else [];
      assert Keep(xs, p) == head + rest;
      forall i, j | 0 <= i < j < |head + rest| ensures (head + rest)[i] != (head + rest)[j] {
        if i < |head| {
          assert (head + rest)[j] == rest[j - |head|];
          assert (head + rest)[j] in rest;
        } else {
          assert (head + rest)[i] == rest[i - |head|] && (head + rest)[j] == rest[j - |head|];
        }
      }
    }
  }

  /** `index.Where(k => k != key)` */
  function Without(index: seq<string>, key: string): (r: seq<string>)
    ensures key !in r
    ensures forall k :: k != key ==> (k in r <==> k in index)
  {
    Keep(index, k => k != key)
  }

  /** `index.Where(k => k.StartsWith(prefix))` */
  function WithPrefix(index: seq<string>, prefix: string): (r: seq<string>)
    ensures forall k :: k in r <==> k in index && prefix <= k
  {
    Keep(index, k => prefix <= k)
  }

  /** Listing a split index lists each part in turn: entries come out in index order. */
  lemma WithPrefixKeepsOrder(a: seq<string>, b: seq<string>, prefix: string)
    ensures WithPrefix(a + b, prefix) == WithPrefix(a, prefix) + WithPrefix(b, prefix)
  {
    KeepAppend(a, b, k => prefix <= k);
  }

  /** GetIndex on a storage: a missing or empty entry is the empty array. */
  function IndexIn(storage: map<string, string>, ic: Codec<seq<string>>): (index: seq<string>)
    ensures IndexKey !in storage || storage[IndexKey] == "" ==> index == []
    ensures IndexKey in storage && storage[IndexKey] != "" ==> index == ic.deserialize(storage[IndexKey])
  {
    Read(storage, IndexKey, ic).GetOr([])
  }

  /**
   * The storage after Set(key, value), given the text the value serializes to
   * (None for null): the key is written or removed first; the index is rewritten
   * only when the key has to leave it or join it.
   */
  function AfterSet(storage: map<string, string>, key: string, text: Option<string>,
                    ic: Codec<seq<string>>): (after: map<string, string>)
    ensures key != IndexKey && text.None? ==> key !in after
    ensures key != IndexKey && text.Some? ==> key in after && after[key] == text.value
    ensures forall k :: k != key && k != IndexKey ==>
              (k in after <==> k in storage) && (k in storage ==> after[k] == storage[k])
    ensures key != IndexKey && text.None? && key in IndexIn(storage, ic) ==>
              IndexKey in after && after[IndexKey] == ic.serialize(Without(IndexIn(storage, ic), key))
    ensures key != IndexKey && text.Some? && key !in IndexIn(storage, ic) ==>
              IndexKey in after && after[IndexKey] == ic.serialize(IndexIn(storage, ic) + [key])
    ensures key != IndexKey && (text.None? <==> key !in IndexIn(storage, ic)) ==>
              (IndexKey in after <==> IndexKey in storage) && (IndexKey in storage ==> after[IndexKey] == storage[IndexKey])
  {
    var index := IndexIn(storage, ic);
    var written := Write(storage, key, text);
    if text.None? then
      if key in index then written[IndexKey := ic.serialize(Without(index, key))] else written
    else
      if key !in index then written[IndexKey := ic.serialize(index + [key])] else written
  }

  /** The index lists every live key (all keys but its own) exactly once. */
  ghost predicate IndexMatches(storage: map<string, string>, ic: Codec<seq<string>>)
  {
    var index := IndexIn(storage, ic);
    && NoDuplicates(index)
    && forall k :: k in index <==> k in storage && k != IndexKey
  }

  /** Any Set on a key other than the index's own keeps the index matching the live keys. */
  lemma SetKeepsIndexMatching(storage: map<string, string>, key: string, text: Option<string>,
                              ic: Codec<seq<string>>)
    requires Lawful(ic)
    requires key != IndexKey
    requires IndexMatches(storage, ic)
    ensures IndexMatches(AfterSet(storage, key, text, ic), ic)
  {
    var index := IndexIn(storage, ic);
    var written := Write(storage, key, text);
    var after := AfterSet(storage, key, text, ic);
    if text.None? {
      if key in index {
        var kept := Without(index, key);
        assert ic.deserialize(ic.serialize(kept)) == kept && ic.serialize(kept) != "";
        assert IndexIn(after, ic) == kept;
        KeepNoDuplicates(index, k => k != key);
      } else {
        assert written == storage;
      }
    } else {
      if key !in index {
        var grown := index + [key];
        assert ic.deserialize(ic.serialize(grown)) == grown && ic.serialize(grown) != "";
        assert IndexIn(after, ic) == grown;
        assert NoDuplicates(grown) by {
          forall i, j | 0 <= i < j < |grown| ensures grown[i] != grown[j] {
            if j == |index| {
              assert grown[i] == index[i];
            }
          }
        }
      } else {
        assert IndexIn(after, ic) == index;
      }
    }
  }

  class MauiEssentialsSecureConfigProvider {
    /** The platform's secure storage, index entry included. */
    var storage: map<string, string>
    /** The JSON codec of the index array. */
    const indexCodec: Codec<seq<string>>

    ghost predicate Valid()
      reads this
    {
      Lawful(indexCodec)
    }

    constructor (storage: map<string, string>, indexCodec: Codec<seq<string>>)
      requires Lawful(indexCodec)
      ensures Valid() && this.storage == storage && this.indexCodec == indexCodec
    {
      this.storage := storage;
      this.indexCodec := indexCodec;
    }

    /** Get<T>: the default for a missing or empty entry, the deserialized text otherwise. */
    function Get<T>(key: string, c: Codec<T>): (r: Option<T>)
      reads this
      ensures r.None? <==> key !in storage || storage[key] == ""
      ensures r.Some? ==> r.value == c.deserialize(storage[key])
    {
      Read(storage, key, c)
    }

    /** GetIndex: a missing or empty index entry reads as the empty array. */
    function GetIndex(): (index: seq<string>)
      reads this
      ensures IndexKey !in storage || storage[IndexKey] == "" ==> index == []
      ensures IndexKey in storage && storage[IndexKey] != "" ==> index == indexCodec.deserialize(storage[IndexKey])
    {
      IndexIn(storage, indexCodec)
    }

    /** SetIndex: store the serialized array under the index key. */
    method SetIndex(index: seq<string>)
      requires Valid()
      modifies this
      ensures Valid()
      ensures storage == old(storage)[IndexKey := indexCodec.serialize(index)]
      ensures GetIndex() == index
    {
      storage := storage[IndexKey := indexCodec.serialize(index)];
    }

    /**
     * Set<T>: null removes the key and drops it from the index; a value is stored
     * serialized and its key appended to the index unless already there.
     */
    method Set<T>(key: string, value: Option<T>, c: Codec<T>)
      requires Valid()
      modifies this
      ensures Valid()
      ensures storage == AfterSet(old(storage), key, Serialized(value, c), indexCodec)
      ensures value.None? ==> key !in storage || key == IndexKey
      ensures forall k :: k in old(storage) && k != key && k != IndexKey ==> k in storage && storage[k] == old(storage)[k]
      ensures value.Some? && key != IndexKey ==> key in storage && storage[key] == c.serialize(value.value)
      ensures key != IndexKey && value.None? && key in old(GetIndex()) ==> GetIndex() == Without(old(GetIndex()), key)
      ensures key != IndexKey && value.Some? && key !in old(GetIndex()) ==> GetIndex() == old(GetIndex()) + [key]
      ensures key != IndexKey && IndexMatches(old(storage), indexCodec) ==> IndexMatches(storage, indexCodec)
    {
      ghost var before := storage;
      var index := GetIndex();
      if value.None? {
        storage := storage - {key};
        if key in index {
          index := Without(index, key);
          SetIndex(index);
        }
      } else {
        storage := storage[key := c.serialize(value.value)];
        if key !in index {
          index := index + [key];
          SetIndex(index);
        }
      }
      if key != IndexKey && IndexMatches(before, indexCodec) {
        SetKeepsIndexMatching(before, key, Serialized(value, c), indexCodec);
      }
    }

    /** List: exactly the index entries that start with the prefix, in index order. */
    function List(prefix: string): (keys: seq<string>)
      reads this
      ensures forall k :: k in keys <==> k in GetIndex() && prefix <= k
      ensures |keys| <= |GetIndex()|
    {
      WithPrefix(GetIndex(), prefix)
    }
  }
}
