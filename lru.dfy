/** The byte-budgeted LRU cache. Not safe for concurrent use: every
    operation, Get included, changes the recency order. */
module Lru {
  import opened LruSpec

  class Cache<T> {
    /** The byte budget; 0 means no budget. */
    const maxBytes: int
    /** Whether an eviction callback is set. */
    const hasOnEvicted: bool
    /** Bytes currently charged. */
    var nbytes: int
    /** The recency list, most recently used first. */
    var ll: seq<Entry<T>>
    /** The key index: each key to the list element holding it. */
    var cache: map<string, Entry<T>>
    /** Every entry handed to the eviction callback, in call order. */
    ghost var evicted: seq<Entry<T>>

    /** The list and the index describe the same entries, one per key, and
        the byte counter is their total size. */
    ghost predicate Valid()
      reads this
    {
      maxBytes >= 0 && Indexed(ll, cache, nbytes)
    }

    constructor New(maxBytes: int, hasOnEvicted: bool)
      requires maxBytes >= 0
      ensures Valid()
      ensures this.maxBytes == maxBytes && this.hasOnEvicted == hasOnEvicted
      ensures ll == [] && cache == map[] && nbytes == 0 && evicted == []
    {
      this.maxBytes := maxBytes;
      this.hasOnEvicted := hasOnEvicted;
      nbytes := 0;
      ll := [];
      cache := map[];
      evicted := [];
    }

    /** Touches `key` with `value`, then evicts from the back while the
        budget is exceeded. */
    method Add(key: string, value: Value<T>)
      requires Valid()
      modifies this
      ensures Valid()
      ensures ll == Trim(Put(old(ll), key, value), maxBytes)
      ensures |ll| <= |Put(old(ll), key, value)|
      ensures hasOnEvicted ==> evicted == old(evicted) + OldestFirst(Put(old(ll), key, value)[|ll|..])
      ensures !hasOnEvicted ==> evicted == old(evicted)
      ensures maxBytes > 0 ==> nbytes <= maxBytes
    {
      Touch(key, value);
      ghost var p := ll;
      ghost var log0 := evicted;
      EvictStart(p, maxBytes, hasOnEvicted, log0);
      while maxBytes != 0 && maxBytes < nbytes
        invariant Valid()
        invariant Evicting(p, ll, maxBytes, hasOnEvicted, log0, evicted)
        decreases |ll|
      {
        EvictStep(p, ll, maxBytes, hasOnEvicted, log0, evicted);
        RemoveOldest();
      }
      EvictDone(p, ll, maxBytes, hasOnEvicted, log0, evicted);
    }

    /** The first half of Add: moves an existing entry for `key` to the
        front with its value replaced, or pushes a new entry at the front,
        and adjusts the byte counter by the size delta. */
    method Touch(key: string, value: Value<T>)
      requires Valid()
      modifies this
      ensures Valid()
      ensures ll == Put(old(ll), key, value)
      ensures cache == old(cache)[key := Entry(key, value)]
      ensures key in old(cache) ==> nbytes == old(nbytes) + value.len - old(cache)[key].value.len
      ensures key !in old(cache) ==> nbytes == old(nbytes) + Utf8Len(key) + value.len
      ensures evicted == old(evicted)
    {
      IndexedPut(ll, cache, nbytes, key, value);
      if key in cache {
        var e := cache[key];
        nbytes := nbytes + value.len - e.value.len;
      } else {
        nbytes := nbytes + Utf8Len(key) + value.len;
      }
      ll := Put(ll, key, value);
      cache := cache[key := Entry(key, value)];
    }

    /** The value under `key`, if present; a hit also moves that entry to
        the front. */
    method Get(key: string) returns (value: Option<Value<T>>)
      requires Valid()
      modifies this
      ensures Valid()
      ensures value == Lookup(old(ll), key)
      ensures value.Some? <==> key in old(cache)
      ensures value.Some? ==> ll == Put(old(ll), key, value.value)
      ensures value.None? ==> ll == old(ll)
      ensures cache == old(cache) && nbytes == old(nbytes) && evicted == old(evicted)
    {
      if key in cache {
        var e := cache[key];
        IndexedLookup(ll, cache, nbytes, key);
        IndexedPut(ll, cache, nbytes, key, e.value);
        ll := Put(ll, key, e.value);
        value := Some(e.value);
        assert cache[key := Entry(key, e.value)] == cache;
      } else {
        IndexedLookup(ll, cache, nbytes, key);
        value := None;
      }
    }

    /** Evicts the least recently used entry, reporting it to the callback
        when one is set; does nothing on an empty cache. */
    method RemoveOldest()
      requires Valid()
      modifies this
      ensures Valid()
      ensures old(ll) == [] ==>
                ll == [] && cache == old(cache) && nbytes == old(nbytes) && evicted == old(evicted)
      ensures old(ll) != [] ==>
                var back := old(ll)[|old(ll)| - 1];
                && ll == old(ll)[..|old(ll)| - 1]
                && cache == old(cache) - {back.key}
                && nbytes == old(nbytes) - Size(back)
                && evicted == old(evicted) + (if hasOnEvicted then [back] else [])
    {
      if |ll| > 0 {
        var back := ll[|ll| - 1];
        IndexedDropLast(ll, cache, nbytes);
        ll := ll[..|ll| - 1];
        cache := cache - {back.key};
        nbytes := nbytes - (Utf8Len(back.key) + back.value.len);
        if hasOnEvicted {
          evicted := evicted + [back];
        }
      }
    }

    /** The number of cached entries: the length of the list and equally
        the size of the key index. */
    method Len() returns (n: int)
      requires Valid()
      ensures n == |ll| && n == |cache|
    {
      KeysCount(ll);
      assert |cache| == |cache.Keys|;
      n := |ll|;
    }
  }
}
