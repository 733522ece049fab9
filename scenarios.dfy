/** Client-side checks of the cache's contracts on the usage scenarios the
    cache is meant for: string payloads whose size is their length. Each
    method is verified from the contracts of Lru.Cache alone. */
module LruScenarios {
  import opened LruSpec
  import opened Lru

  function Str(s: string): Value<string>
  {
    Value(s, |s|)
  }

  /** The byte total of a two-entry list. */
  lemma TotalPair<T>(a: Entry<T>, b: Entry<T>)
    ensures Total([a, b]) == Size(a) + Size(b)
  {
    assert [a, b][1..] == [b] && [b][1..] == [];
    assert Total([b]) == Size(b) + Total<T>([]);
  }

  const K1: Entry<string> := Entry("k1", Str("v1"))
  const K2: Entry<string> := Entry("k2", Str("v2"))
  const K3: Entry<string> := Entry("k3", Str("v3"))

  /** With budget 10, "k1" and then "k2" (4 bytes each) both fit. */
  lemma AddK1K2()
    ensures Trim(Put([], "k1", Str("v1")), 10) == [K1]
    ensures Trim(Put([K1], "k2", Str("v2")), 10) == [K2, K1]
  {
    assert Put([], "k1", Str("v1")) == [K1];
    TrimDone([K1], 10);
    assert RemoveKey([K1], "k2") == [K1];
    assert Put([K1], "k2", Str("v2")) == [K2, K1];
    assert Size(K1) == 4 && Size(K2) == 4;
    TotalPair(K2, K1);
    TrimDone([K2, K1], 10);
  }

  /** A hit on "k1", at the back, finds "v1" and moves it to the front. */
  lemma GetK1()
    ensures Lookup([K2, K1], "k1") == Some(Str("v1"))
    ensures Put([K2, K1], "k1", Str("v1")) == [K1, K2]
  {
    assert RemoveKey([K1], "k1") == [];
    assert RemoveKey([K2, K1], "k1") == [K2];
  }

  /** "k3" overflows the budget (12 bytes) and only "k2", at the back, goes. */
  lemma AddK3()
    ensures Trim(Put([K1, K2], "k3", Str("v3")), 10) == [K3, K1]
  {
    assert RemoveKey([K2], "k3") == [K2];
    assert RemoveKey([K1, K2], "k3") == [K1, K2];
    var full := [K3, K1, K2];
    assert Put([K1, K2], "k3", Str("v3")) == full;
    assert Size(K1) == 4 && Size(K2) == 4 && Size(K3) == 4;
    assert full[1..] == [K1, K2] && [K1, K2][1..] == [K2];
    TotalPair(K1, K2);
    assert Total(full) == 12;
    assert full[..2] == [K3, K1];
    TotalPair(K3, K1);
    TrimDone([K3, K1], 10);
  }

  /** Budget 10: "k1" and "k2" fit; a hit on "k1" returns its value and
      moves it to the front. */
  method GetMovesToFront() returns (c: Cache<string>)
    ensures fresh(c) && c.Valid() && c.maxBytes == 10
    ensures c.ll == [K1, K2]
  {
    AddK1K2();
    GetK1();
    c := new Cache<string>.New(10, false);
    c.Add("k1", Str("v1"));
    c.Add("k2", Str("v2"));
    var v := c.Get("k1");
    assert v == Some(Str("v1"));
  }

  /** Continuing: "k3" overflows the budget, and the entry evicted is
      "k2", the least recently used, not "k1". */
  method GetProtectsFromEviction()
  {
    var c := GetMovesToFront();
    AddK3();
    c.Add("k3", Str("v3"));
    assert c.ll == [K3, K1];
    var n := c.Len();
    assert n == 2;
  }

  const AB: Entry<string> := Entry("ab", Value("x", 1))
  const CD: Entry<string> := Entry("cd", Value("y", 1))

  /** With budget 5, "ab" fits and "cd" then pushes it out. */
  lemma AddAbCd()
    ensures Trim(Put([], "ab", Value("x", 1)), 5) == [AB]
    ensures Put([AB], "cd", Value("y", 1)) == [CD, AB]
    ensures Trim([CD, AB], 5) == [CD]
    ensures OldestFirst([CD, AB][1..]) == [AB]
  {
    assert Put([], "ab", Value("x", 1)) == [AB];
    TrimDone([AB], 5);
    assert RemoveKey([AB], "cd") == [AB];
    assert Size(AB) == 3 && Size(CD) == 3;
    TotalPair(CD, AB);
    assert [CD, AB][..1] == [CD];
    TrimDone([CD], 5);
    assert [CD, AB][1..] == [AB];
  }

  /** A budget of 5 bytes: adding "cd" after "ab" (3 bytes each) evicts
      "ab" and reports it to the callback exactly once. */
  method EvictsOldestOverBudget()
  {
    AddAbCd();
    var c := new Cache<string>.New(5, true);
    c.Add("ab", Value("x", 1));
    c.Add("cd", Value("y", 1));
    assert c.ll == [CD];
    assert c.evicted == [AB];
    var n := c.Len();
    assert n == 1;
  }

  /** An empty cache: a miss reports nothing, eviction is a no-op and the
      callback is not called. */
  method EmptyCache()
  {
    var c := new Cache<string>.New(10, true);
    var v := c.Get("missing");
    assert v == None;
    c.RemoveOldest();
    var n := c.Len();
    assert n == 0 && c.evicted == [] && c.nbytes == 0;
  }

  /** An entry larger than the whole budget evicts everything, itself
      included, and the callback sees the older entry first. */
  method OversizedEntryEmptiesCache()
  {
    var c := new Cache<string>.New(6, true);
    c.Add("a", Str("bc"));
    c.Add("long", Str("value"));
    assert Total([Entry("long", Str("value"))]) == 9;
    assert c.ll == [];
    var n := c.Len();
    assert n == 0 && c.nbytes == 0;
    assert c.evicted == [Entry("a", Str("bc")), Entry("long", Str("value"))];
  }

  const A2: Entry<string> := Entry("a", Str("xx"))
  const B2: Entry<string> := Entry("b", Str("yy"))
  const A5: Entry<string> := Entry("a", Str("xxxxx"))

  /** With budget 8: "a" and "b" (3 bytes each) fit; re-adding "a" at 6
      bytes brings the total to 9 and pushes "b" out. */
  lemma ReAddA()
    ensures Trim(Put([], "a", Str("xx")), 8) == [A2]
    ensures Trim(Put([A2], "b", Str("yy")), 8) == [B2, A2]
    ensures Put([B2, A2], "a", Str("xxxxx")) == [A5, B2]
    ensures Trim([A5, B2], 8) == [A5] && OldestFirst([A5, B2][1..]) == [B2]
  {
    assert Put([], "a", Str("xx")) == [A2];
    TrimDone([A2], 8);
    assert RemoveKey([A2], "b") == [A2];
    assert Put([A2], "b", Str("yy")) == [B2, A2];
    assert Size(A2) == 3 && Size(B2) == 3 && Size(A5) == 6;
    TotalPair(B2, A2);
    TrimDone([B2, A2], 8);
    assert RemoveKey([A2], "a") == [];
    assert RemoveKey([B2, A2], "a") == [B2];
    TotalPair(A5, B2);
    assert [A5, B2][..1] == [A5];
    TrimDone([A5], 8);
    assert [A5, B2][1..] == [B2];
  }

  /** Re-adding a key with a larger value charges the size difference and
      may evict other entries: "a" grows from 3 to 6 bytes, the total of 9
      exceeds the budget of 8 and "b" is evicted. */
  method ReAddLargerValue()
  {
    ReAddA();
    var c := new Cache<string>.New(8, true);
    c.Add("a", Str("xx"));
    c.Add("b", Str("yy"));
    c.Add("a", Str("xxxxx"));
    assert c.ll == [A5];
    assert c.nbytes == 6 by {
      assert Total([A5]) == 6;
    }
    assert c.evicted == [B2];
  }

  /** Without a budget nothing is ever evicted. */
  method UnboundedNeverEvicts()
  {
    var c := new Cache<string>.New(0, true);
    c.Add("a", Str("a long value"));
    c.Add("b", Str("another long value"));
    var n := c.Len();
    assert n == 2 && c.evicted == [];
  }

  /** Keys are charged their UTF-8 length, not their character count: "é"
      takes two bytes, so with a budget of 1 it is evicted at once even
      though its value reports size 0. */
  method MultiByteKeyCharge()
  {
    var c := new Cache<string>.New(1, true);
    c.Add("\U{e9}", Value("", 0));
    assert Utf8Len("\U{e9}") == 2;
    assert Total([Entry("\U{e9}", Value("", 0))]) == 2;
    assert c.ll == [] && c.nbytes == 0;
    assert c.evicted == [Entry("\U{e9}", Value("", 0))];
  }
}
