/** Iteration over AtomicHashMap, and its last drop. */
module HashMapIter {
  import opened Words
  import opened HashMapObject
  import opened Wrappers

  /** The items of the buckets from number `b` on, in bucket order and then list order. */
  ghost function ItemsFrom<K, V>(chains: seq<seq<Item<K, V>>>, b: nat): seq<Item<K, V>>
    decreases |chains| - b
  {
    if b >= |chains| then [] else chains[b] + ItemsFrom(chains, b + 1)
  }

  /** The buckets are lists that run through `chains`. */
  ghost predicate Lists<K, V>(buckets: seq<Bucket<K, V>>, chains: seq<seq<Item<K, V>>>, items: set<Item<K, V>>)
    reads buckets, items
  {
    && |chains| == |buckets|
    && (forall b, i :: 0 <= b < |chains| && 0 <= i < |chains[b]| ==> chains[b][i] in items)
    && (forall b :: 0 <= b < |chains| ==> Runs(buckets[b].head, chains[b]))
  }

  ghost predicate ChainsOf<K(!new), V>(m: AtomicHashMap<K, V>, chains: seq<seq<Item<K, V>>>)
    reads m.buckets
  {
    |chains| == |m.buckets| && forall b :: 0 <= b < |chains| ==> chains[b] == m.buckets[b].chain
  }

  lemma BucketsAreLists<K(!new), V>(m: AtomicHashMap<K, V>, chains: seq<seq<Item<K, V>>>)
    requires m.Valid() && ChainsOf(m, chains)
    ensures Lists(m.buckets, chains, m.items)
  {
    forall b | 0 <= b < |chains|
      ensures Runs(m.buckets[b].head, chains[b]) && forall i :: 0 <= i < |chains[b]| ==> chains[b][i] in m.items
    {
      assert m.Fine(b) && m.buckets[b].items <= m.items;
    }
  }

  class Iter<K(==, !new), V> {
    const buckets: seq<Bucket<K, V>>
    var bucketIdx: nat
    var current: Item?<K, V>
    /** The lists that are iterated over, and the position of `current` in its list. */
    ghost const chains: seq<seq<Item<K, V>>>
    ghost const items: set<Item<K, V>>
    ghost var at: nat

    /** `current` is null only at the end. */
    ghost predicate Placed()
      reads this
    {
      && bucketIdx <= |chains|
      && if current == null then bucketIdx == |chains|
         else bucketIdx < |chains| && at < |chains[bucketIdx]| && current == chains[bucketIdx][at]
    }

    ghost predicate Valid()
      reads this, buckets, items
    {
      Lists(buckets, chains, items) && Placed()
    }

    /** What is still to be yielded. */
    ghost function Remaining(): seq<Item<K, V>>
      requires Placed()
      reads this
    {
      if current == null then [] else chains[bucketIdx][at..] + ItemsFrom(chains, bucketIdx + 1)
    }

    /** iter() on a map whose lock the caller now holds exclusively. */
    constructor (m: AtomicHashMap<K, V>)
      requires m.Valid()
      ensures Valid() && buckets == m.buckets && Remaining() == ItemsFrom(chains, 0)
      ensures |chains| == |buckets| && forall b :: 0 <= b < |buckets| ==> chains[b] == m.buckets[b].chain
    {
      buckets, items := m.buckets, m.items;
      chains := seq(|m.buckets|, b requires 0 <= b < |m.buckets| reads m.buckets => m.buckets[b].chain);
      bucketIdx, current, at := 0, null, 0;
      new;
      BucketsAreLists(m, chains);
      AdvanceBucket();
    }

    /** Moves to the head of the next bucket that is not empty. */
    method AdvanceBucket()
      requires Lists(buckets, chains, items) && bucketIdx <= |chains| && current == null
      modifies this
      ensures Valid() && Remaining() == ItemsFrom(chains, old(bucketIdx))
    {
      at := 0;
      while bucketIdx < |buckets| && current == null
        invariant bucketIdx <= |chains| && at == 0 && Lists(buckets, chains, items)
        invariant current != null ==> bucketIdx < |chains| && chains[bucketIdx] != [] && current == chains[bucketIdx][0]
        invariant ItemsFrom(chains, bucketIdx) == ItemsFrom(chains, old(bucketIdx))
        decreases |buckets| - bucketIdx, current == null
      {
        current := buckets[bucketIdx].head;
        assert Runs(buckets[bucketIdx].head, chains[bucketIdx]);
        if current == null {
          SkipEmpty(chains, bucketIdx);
          bucketIdx := bucketIdx + 1;
        }
      }
    }

    /** next: the first remaining entry, or None when nothing remains. */
    method Next() returns (r: Option<(K, V)>)
      requires Valid()
      modifies this
      ensures Valid()
      ensures r == None <==> old(Remaining()) == []
      ensures r == None ==> Remaining() == []
      ensures r.Some? ==>
                && r.value == (old(Remaining())[0].key, old(Remaining())[0].value)
                && Remaining() == old(Remaining())[1..]
    {
      if bucketIdx >= |buckets| || current == null {
        return None;
      }
      var item := current;
      ghost var chain, rest := chains[bucketIdx], ItemsFrom(chains, bucketIdx + 1);
      assert Runs(buckets[bucketIdx].head, chain);
      RemainingSplit(chain, rest, at);
      current := item.next;
      at := at + 1;
      if current == null {
        bucketIdx := bucketIdx + 1;
        AdvanceBucket();
      }
      r := Some((item.key, item.value));
    }
  }

  lemma RemainingSplit<K, V>(chain: seq<Item<K, V>>, rest: seq<Item<K, V>>, at: nat)
    requires at < |chain|
    ensures chain[at..] + rest == [chain[at]] + (chain[at + 1..] + rest)
    ensures (chain[at..] + rest)[1..] == chain[at + 1..] + rest
    ensures at + 1 == |chain| ==> chain[at + 1..] + rest == rest
  {
  }

  lemma SkipEmpty<K, V>(chains: seq<seq<Item<K, V>>>, b: nat)
    requires b < |chains| && chains[b] == []
    ensures ItemsFrom(chains, b + 1) == ItemsFrom(chains, b)
  {
  }

  // ---- what an iteration amounts to ----

  /** `chain` lists entries of bucket `b` of a map, no key twice. */
  ghost predicate BucketListed<K, V>(home: K -> nat, contents: map<K, V>, b: nat, chain: seq<Item<K, V>>)
    reads chain
  {
    && DistinctKeys(chain)
    && forall i {:trigger chain[i].key} :: 0 <= i < |chain| ==>
         home(chain[i].key) == b && chain[i].key in contents && contents[chain[i].key] == chain[i].value
  }

  lemma BucketLists<K(!new), V>(m: AtomicHashMap<K, V>, b: nat)
    requires m.Valid() && b < |m.buckets|
    ensures BucketListed(m.home, m.contents, b, m.buckets[b].chain)
  {
    var bucket := m.buckets[b];
    assert m.Fine(b) && bucket.entries == m.split[b];
    forall i | 0 <= i < |bucket.chain|
      ensures m.home(bucket.chain[i].key) == b && bucket.chain[i].key in m.contents
      ensures m.contents[bucket.chain[i].key] == bucket.chain[i].value
    {
      assert bucket.chain[i].key in m.split[b];
    }
  }

  /** Every item from bucket `b` on is an entry of the map and lives in a bucket not before `b`. */
  lemma {:induction false} ItemsAreEntries<K, V>(
      home: K -> nat, contents: map<K, V>, chains: seq<seq<Item<K, V>>>, b: nat, i: nat)
    requires forall a :: 0 <= a < |chains| ==> BucketListed(home, contents, a, chains[a])
    requires i < |ItemsFrom(chains, b)|
    ensures var item := ItemsFrom(chains, b)[i];
            home(item.key) >= b && item.key in contents && contents[item.key] == item.value
    decreases |chains| - b
  {
    if i >= |chains[b]| {
      ItemsAreEntries(home, contents, chains, b + 1, i - |chains[b]|);
    }
  }

  lemma {:induction false} ItemsHaveDistinctKeys<K, V>(
      home: K -> nat, contents: map<K, V>, chains: seq<seq<Item<K, V>>>, b: nat)
    requires forall a :: 0 <= a < |chains| ==> BucketListed(home, contents, a, chains[a])
    ensures DistinctKeys(ItemsFrom(chains, b))
    decreases |chains| - b
  {
    if b < |chains| {
      ItemsHaveDistinctKeys(home, contents, chains, b + 1);
      var first, rest := chains[b], ItemsFrom(chains, b + 1);
      forall i, j | 0 <= i < |first| && 0 <= j < |rest| ensures first[i].key != rest[j].key {
        ItemsAreEntries(home, contents, chains, b + 1, j);
      }
      DistinctJoined(first, rest);
    }
  }

  lemma DistinctJoined<K, V>(first: seq<Item<K, V>>, rest: seq<Item<K, V>>)
    requires DistinctKeys(first) && DistinctKeys(rest)
    requires forall i, j :: 0 <= i < |first| && 0 <= j < |rest| ==> first[i].key != rest[j].key
    ensures DistinctKeys(first + rest)
  {
  }

  /** An item of bucket `b` is among the items from any earlier bucket on. */
  lemma {:induction false} ItemIsReached<K, V>(chains: seq<seq<Item<K, V>>>, from: nat, b: nat, i: nat) returns (k: nat)
    requires from <= b < |chains| && i < |chains[b]|
    ensures k < |ItemsFrom(chains, from)| && ItemsFrom(chains, from)[k] == chains[b][i]
    decreases b - from
  {
    if from == b {
      k := i;
    } else {
      k := ItemIsReached(chains, from + 1, b, i);
      k := k + |chains[from]|;
    }
  }

  lemma EntryIsReached<K(!new), V>(m: AtomicHashMap<K, V>, chains: seq<seq<Item<K, V>>>, key: K) returns (k: nat)
    requires m.Valid() && ChainsOf(m, chains) && key in m.contents
    ensures k < |ItemsFrom(chains, 0)| && ItemsFrom(chains, 0)[k].key == key
  {
    var b := m.home(key);
    var bucket := m.buckets[b];
    assert m.Fine(b) && key in bucket.entries;
    if forall i :: 0 <= i < |bucket.chain| ==> bucket.chain[i].key != key {
      ListDecides(bucket.chain, bucket.entries, key);
    }
    var i :| 0 <= i < |bucket.chain| && bucket.chain[i].key == key;
    k := ItemIsReached(chains, 0, b, i);
  }

  /** What the iterator has to yield is each entry of the map exactly once, and as many entries
      as `len` counts. */
  lemma IterationIsTheMap<K(!new), V>(m: AtomicHashMap<K, V>, chains: seq<seq<Item<K, V>>>)
    requires m.Valid() && ChainsOf(m, chains)
    ensures var all := ItemsFrom(chains, 0);
            && DistinctKeys(all)
            && (forall i :: 0 <= i < |all| ==> all[i].key in m.contents && m.contents[all[i].key] == all[i].value)
            && (forall key :: key in m.contents ==> exists i :: 0 <= i < |all| && all[i].key == key)
            && |all| == |m.contents| && m.len == |all| % WORD
  {
    var all := ItemsFrom(chains, 0);
    forall b | 0 <= b < |chains| ensures BucketListed(m.home, m.contents, b, chains[b]) {
      BucketLists(m, b);
    }
    ItemsHaveDistinctKeys(m.home, m.contents, chains, 0);
    forall i | 0 <= i < |all| ensures all[i].key in m.contents && m.contents[all[i].key] == all[i].value {
      ItemsAreEntries(m.home, m.contents, chains, 0, i);
    }
    KeysCount(all);
    KeysWithin(all, m.contents.Keys);
    forall key | key in m.contents
      ensures key in KeysOf(all) && exists i :: 0 <= i < |all| && all[i].key == key
    {
      var k := EntryIsReached(m, chains, key);
      KeyIsThere(all, k);
    }
    assert KeysOf(all) == m.contents.Keys;
  }

  lemma {:induction false} KeyIsThere<K, V>(chain: seq<Item<K, V>>, k: nat)
    requires k < |chain|
    ensures chain[k].key in KeysOf(chain)
  {
    if k > 0 {
      KeyIsThere(chain[1..], k - 1);
    }
  }

  /** The last drop of the map: every item is freed, in this order, and none twice. */
  method FreeAll<K(==, !new), V>(m: AtomicHashMap<K, V>, ghost chains: seq<seq<Item<K, V>>>)
    returns (freed: seq<Item<K, V>>)
    requires Lists(m.buckets, chains, m.items)
    ensures freed == ItemsFrom(chains, 0)
  {
    freed := [];
    var b := 0;
    while b < |m.buckets|
      invariant b <= |m.buckets| && Lists(m.buckets, chains, m.items)
      invariant freed + ItemsFrom(chains, b) == ItemsFrom(chains, 0)
    {
      var cur := m.buckets[b].head;
      ghost var chain, rest, i := chains[b], ItemsFrom(chains, b + 1), 0;
      assert Runs(m.buckets[b].head, chain);
      ghost var before := freed;
      while cur != null
        invariant 0 <= i <= |chain| && cur == At(chain, i) && freed == before + chain[..i]
        decreases |chain| - i
      {
        freed := freed + [cur];
        cur := cur.next;
        i := i + 1;
      }
      assert freed == before + chain;
      assert before + (chain + rest) == freed + rest;
      b := b + 1;
    }
  }
}
