# Byte-budgeted LRU cache

A model of the `lru` package of gee-cache (day 1): a single-threaded
least-recently-used cache that keeps a recency list of key/value entries,
most recently used at the front, and a map from each key to its list
element. Every entry is charged `len(key) + value.Len()` bytes, where
`len(key)` is the length of the key's UTF-8 encoding. A running
counter holds the total. When a budget `maxBytes` is set (non-zero), adding
an entry evicts from the back of the list for as long as the counter
exceeds the budget. Each evicted entry is reported to an optional
`OnEvicted` callback.

The project has three modules:

- `LruSpec` (`lru_spec.dfy`) is the value-level view. The list is a
  `seq<Entry<T>>` with index 0 as the front. `Total` is the byte total of
  a list, with keys charged their UTF-8 length (`Utf8Len`). `Put` touches a key (its entry, new or updated, goes to the
  front and the others keep their order). `Trim` drops entries from the
  back while the budget is exceeded. `OldestFirst` is the order in which
  popped entries leave. `Indexed` ties the list, the key map and the byte
  counter together. The lemmas state what these mean: accounting by size
  delta, distinct keys, lookups after a touch, and eviction keeping the
  longest prefix that fits.
- `Lru` (`lru.dfy`) is the cache itself: class `Cache<T>` with fields
  `nbytes`, `ll` and `cache` that its methods update in place. `Add`
  keeps the source's eviction loop, proved against `Trim`. `Valid()` is
  the invariant every method preserves: the list and the map hold the
  same entries, one per key, and `nbytes` is their total size.
- `LruScenarios` (`scenarios.dfy`) holds small client methods. They derive
  the outcome of concrete call sequences from the contracts of `Cache`, including the "touched entry
  survives eviction" scenario, the oversized-entry case and a key
  whose two-byte UTF-8 character makes it exceed a budget of 1.

Where descriptions of this cache and its code disagree, the model follows
the code. An entry whose own size exceeds a positive budget is not left in
the cache over budget. The eviction loop keeps popping until that entry is
gone too, so the cache ends empty with a counter of 0 (`LruSpec.TouchThenTrim`
and the scenario `LruScenarios.OversizedEntryEmptiesCache`).

## Model

| member | source | states |
|---|---|---|
| Lru.Cache.New | gee-cache/day1-lru/geecache/lru/lru.go:27-34 | a new cache is empty (empty list, empty map, counter 0, nothing evicted), keeps the given budget and callback setting, and satisfies the cache invariant |
| Lru.Cache.Add | gee-cache/day1-lru/geecache/lru/lru.go:37-51 | the invariant is kept; the new list is the touched list trimmed to the budget; with a callback, the entries evicted are exactly the dropped tail, reported oldest first, and without one nothing is reported; with a positive budget the counter ends within it |
| Lru.Cache.Touch | gee-cache/day1-lru/geecache/lru/lru.go:38-47 | the key's entry moves (or is pushed) to the front with the new value; the map points the key at it; the counter changes by the value-size delta on update or by key plus value size on insert; nothing is evicted |
| Lru.Cache.Get | gee-cache/day1-lru/geecache/lru/lru.go:54-61 | a hit exactly when the key is in the map, returning the stored value and moving that entry to the front; a miss returns None and leaves the list; map, counter and eviction log never change |
| Lru.Cache.RemoveOldest | gee-cache/day1-lru/geecache/lru/lru.go:64-75 | on an empty cache nothing changes and no callback runs; otherwise exactly the back entry leaves the list and the map, its size leaves the counter, and it is reported to the callback when one is set |
| Lru.Cache.Len | gee-cache/day1-lru/geecache/lru/lru.go:78-80 | the result is the list length and equally the number of keys in the map |
| LruSpec.Lookup | gee-cache/day1-lru/geecache/lru/lru.go:55-58 | a list lookup finds a value exactly when the key is in the list, and the entry it reports is in the list |
| LruSpec.IndexedLookup | gee-cache/day1-lru/geecache/lru/lru.go:55-58 | under the invariant, looking a key up in the map gives the same answer as looking it up in the list |
| LruSpec.RemoveKey | gee-cache/day1-lru/geecache/lru/lru.go:39 | unlinking a key keeps every entry with another key and no entry with that key, and never lengthens the list |
| LruSpec.RemoveKeyAt | gee-cache/day1-lru/geecache/lru/lru.go:39 | unlinking the entry at position i leaves the entries before and after it in their old order, so moving to the front keeps the relative order of the others |
| LruSpec.RemoveKeyAbsent | gee-cache/day1-lru/geecache/lru/lru.go:44 | pushing a new key leaves the existing entries as they were |
| LruSpec.RemoveKeyKeys | gee-cache/day1-lru/geecache/lru/lru.go:38-39 | unlinking a key keeps keys distinct and removes exactly that key from the key set |
| LruSpec.RemoveKeyLookup | gee-cache/day1-lru/geecache/lru/lru.go:39 | unlinking one key does not change the lookup of any other key |
| LruSpec.PutLookup | gee-cache/day1-lru/geecache/lru/lru.go:38-47 | after a touch the key maps to the new value and every other key maps to what it did before |
| LruSpec.PutKeys | gee-cache/day1-lru/geecache/lru/lru.go:44-45 | a touch keeps keys distinct and adds exactly the touched key to the key set |
| LruSpec.PutLength | gee-cache/day1-lru/geecache/lru/lru.go:38-47 | re-adding a present key keeps the number of entries; adding a new key adds one |
| LruSpec.PutTotal | gee-cache/day1-lru/geecache/lru/lru.go:41-46 | the byte total after a touch is the old total plus the value-size delta for a present key, or plus key and value size for a new key |
| LruSpec.IndexedPut | gee-cache/day1-lru/geecache/lru/lru.go:38-47 | updating list, map and counter as Add's first half does keeps the three consistent |
| LruSpec.TotalRemoveAt | gee-cache/day1-lru/geecache/lru/lru.go:41 | unlinking the entry at any position takes exactly its size off the byte total |
| LruSpec.TotalDropLast | gee-cache/day1-lru/geecache/lru/lru.go:70 | dropping the back entry takes exactly its size off the byte total |
| LruSpec.KeysDropLast | gee-cache/day1-lru/geecache/lru/lru.go:67-69 | dropping the back entry keeps keys distinct and removes exactly its key from the key set |
| LruSpec.IndexedDropLast | gee-cache/day1-lru/geecache/lru/lru.go:65-70 | unlinking the back entry from list and map and subtracting its size keeps the three consistent |
| LruSpec.KeysCount | gee-cache/day1-lru/geecache/lru/lru.go:78-80 | with distinct keys the number of keys equals the number of entries |
| LruSpec.TrimFits | gee-cache/day1-lru/geecache/lru/lru.go:48-50 | eviction keeps a prefix of the list; with a positive budget that prefix fits; and it is the longest prefix that does, since one more entry would exceed the budget |
| LruSpec.TrimOversizedFront | gee-cache/day1-lru/geecache/lru/lru.go:48-50 | a front entry that alone exceeds a positive budget is evicted along with everything else |
| LruSpec.TrimKeepsFittingFront | gee-cache/day1-lru/geecache/lru/lru.go:48-50 | a front entry that fits the budget by itself survives eviction and stays at the front |
| LruSpec.TouchThenTrim | gee-cache/day1-lru/geecache/lru/lru.go:37-51 | after Add, the added key is at the front and looks up to the new value, unless the entry alone exceeds a positive budget, in which case the cache is empty |
| LruSpec.EvictStep | gee-cache/day1-lru/geecache/lru/lru.go:48-50 | while the budget is exceeded the remaining list is non-empty, and one round of the loop (pop the back entry, log it when a callback is set) keeps the loop state: the list stays a prefix of the touched list that trims to the same result, and the log grows by exactly the popped entry |
| LruSpec.EvictDone | gee-cache/day1-lru/geecache/lru/lru.go:48-50 | when the loop stops, the list is the touched list trimmed to the budget and the log has grown by exactly the dropped tail, oldest first, or not at all without a callback |
| LruSpec.OldestFirstAt | gee-cache/day1-lru/geecache/lru/lru.go:48-50 | the j-th entry reported during eviction is the j-th from the back of the list |
| LruSpec.OldestFirstLength | gee-cache/day1-lru/geecache/lru/lru.go:48-50 | the oldest-first report has one element per dropped entry (with OldestFirstAt: each dropped entry is reported exactly once) |
| LruSpec.Utf8LenBounds | gee-cache/day1-lru/geecache/lru/lru.go:46 | a key is charged between one and four bytes per character, and exactly one per character when it is ASCII |

## Left out

- The pointer-linked nodes of Go's `container/list` and `*list.Element` identity: the list is a sequence and the map sends each key to its entry value, so aliasing between the map and the list nodes is not modelled.
- What the `OnEvicted` callback itself does: it is foreign code, so the model records its calls in a ghost log `evicted` and does not model its side effects or panics.
- Lru.Cache.New: takes a boolean for whether a callback is set, and the setting is a constant, although Go's `OnEvicted` field is exported and could be reassigned later.
- Lru.Cache.New: requires `maxBytes >= 0`, because with a negative budget Add's eviction loop never ends (RemoveOldest on an empty list does nothing and the loop guard stays true).
- Keys that are not valid UTF-8: a Go string may hold arbitrary bytes, but a Dafny string is a sequence of Unicode scalar values, so the model's keys are always well-formed text and `len(key)` is their UTF-8 length.
- Dynamic dispatch through the `Value` interface: a value carries a fixed non-negative size `len`, standing for what its `Len()` reports.
- `int64` arithmetic of `maxBytes` and `nbytes`: the model uses unbounded integers, so overflow of the counter is not modelled.
- Concurrency: the cache is not safe for concurrent use and has no locking, so the model is sequential.
- Lru.Cache.Get: returns `Option<Value<T>>`, with `None` standing for Go's `(nil, false)`.
