/** AtomicHashMap as a heap structure. */
module HashMapObject {
  import opened Sequences
  import opened Words
  import opened Wrappers

  // src/collections/atomic_hashmap.rs, one operation at a time: bucket heads, `next` links and
  // values are changed in place. What the locks add when operations overlap is in MapMachine.

  class Item<K, V> {
    const key: K
    var value: V
    var next: Item?<K, V>

    constructor (key: K, value: V)
      ensures this.key == key && this.value == value && this.next == null
    {
      this.key, this.value, this.next := key, value, null;
    }
  }

  /** The item at position `i`, null at the end. */
  function At<K, V>(chain: seq<Item<K, V>>, i: nat): Item?<K, V> {
    if i < |chain| then chain[i] else null
  }

  /** `p` is the head of a list that runs through `chain` and ends. */
  ghost predicate Runs<K, V>(p: Item?<K, V>, chain: seq<Item<K, V>>)
    reads chain
  {
    p == At(chain, 0) && forall i {:trigger chain[i].next} :: 0 <= i < |chain| ==> chain[i].next == At(chain, i + 1)
  }

  ghost predicate DistinctKeys<K, V>(chain: seq<Item<K, V>>) {
    forall i, j :: 0 <= i < j < |chain| ==> chain[i].key != chain[j].key
  }

  lemma RunsPrepended<K, V>(item: Item<K, V>, chain: seq<Item<K, V>>)
    requires Runs(item.next, chain)
    ensures Runs(item, [item] + chain)
  {
    var longer := [item] + chain;
    forall i | 0 <= i < |longer| ensures longer[i].next == At(longer, i + 1) {
      assert i > 0 ==> longer[i] == chain[i - 1];
    }
  }

  ghost function KeysOf<K, V>(chain: seq<Item<K, V>>): set<K> {
    if chain == [] then {} else {chain[0].key} + KeysOf(chain[1..])
  }

  lemma {:induction false} AbsentKey<K, V>(chain: seq<Item<K, V>>, key: K)
    requires forall i :: 0 <= i < |chain| ==> chain[i].key != key
    ensures key !in KeysOf(chain)
  {
    if chain != [] {
      AbsentKey(chain[1..], key);
    }
  }

  lemma {:induction false} KeysCount<K, V>(chain: seq<Item<K, V>>)
    requires DistinctKeys(chain)
    ensures |KeysOf(chain)| == |chain|
  {
    if chain != [] {
      AbsentKey(chain[1..], chain[0].key);
      KeysCount(chain[1..]);
    }
  }

  lemma {:induction false} KeysWithin<K, V>(chain: seq<Item<K, V>>, keys: set<K>)
    requires forall i :: 0 <= i < |chain| ==> chain[i].key in keys
    ensures KeysOf(chain) <= keys
  {
    if chain != [] {
      KeysWithin(chain[1..], keys);
    }
  }

  lemma SubsetOfEqualSize<K>(a: set<K>, b: set<K>)
    requires a <= b && |a| == |b|
    ensures a == b
  {
    assert |b - a| == 0;
  }

  /** A key that no item has is no entry: there are as many entries as items with distinct keys. */
  lemma ListDecides<K, V>(chain: seq<Item<K, V>>, entries: map<K, V>, key: K)
    requires DistinctKeys(chain) && Matches(chain, entries) && |entries| == |chain|
    requires forall i :: 0 <= i < |chain| ==> chain[i].key != key
    ensures key !in entries
  {
    KeysCount(chain);
    KeysWithin(chain, entries.Keys);
    AbsentKey(chain, key);
    SubsetOfEqualSize(KeysOf(chain), entries.Keys);
  }

  /** `after` is `before` with one item, which has the given key, in front. */
  ghost predicate IsPrepended<K, V>(after: seq<Item<K, V>>, before: seq<Item<K, V>>, key: K) {
    |after| > 0 && after[0].key == key && after[1..] == before
  }

  ghost predicate Matches<K, V>(chain: seq<Item<K, V>>, entries: map<K, V>)
    reads chain
  {
    forall i {:trigger chain[i].key} {:trigger chain[i].value} :: 0 <= i < |chain| ==>
      chain[i].key in entries && entries[chain[i].key] == chain[i].value
  }

  lemma EntriesWithout<K, V>(chain: seq<Item<K, V>>, entries: map<K, V>, i: nat)
    requires i < |chain| && DistinctKeys(chain) && Matches(chain, entries)
    ensures Matches(Without(chain, i), entries - {chain[i].key})
    ensures DistinctKeys(Without(chain, i))
    ensures |entries - {chain[i].key}| == |entries| - 1
  {
    assert (entries - {chain[i].key}).Keys == entries.Keys - {chain[i].key};
    assert |entries| == |entries.Keys| && |entries - {chain[i].key}| == |(entries - {chain[i].key}).Keys|;
  }

  function Present<K, V>(item: Item?<K, V>): set<Item<K, V>> {
    if item == null then {} else {item}
  }

  class Bucket<K(==), V> {
    /** Position in the map's table; no operation reads it. */
    ghost const index: nat
    var head: Item?<K, V>
    /** The items in list order, and the entries they stand for. */
    ghost var chain: seq<Item<K, V>>
    ghost var entries: map<K, V>
    ghost var items: set<Item<K, V>>

    ghost predicate Valid()
      reads this, items
    {
      && (forall i :: 0 <= i < |chain| ==> chain[i] in items)
      && Runs(head, chain) && DistinctKeys(chain) && Matches(chain, entries)
      && |entries| == |chain|
    }

    constructor (ghost index: nat)
      ensures this.index == index
      ensures Valid() && chain == [] && entries == map[] && items == {}
    {
      this.index := index;
      head, chain, entries, items := null, [], map[], {};
    }

    /** The walk along the list: the item with this key, if any, and its predecessor. */
    method Find(key: K) returns (prev: Item?<K, V>, cur: Item?<K, V>, ghost i: nat)
      requires Valid()
      ensures i <= |chain| && cur == At(chain, i) && prev == if i == 0 then null else chain[i - 1]
      ensures cur == null <==> key !in entries
      ensures cur != null ==> cur.key == key && cur.value == entries[key]
    {
      prev, cur, i := null, head, 0;
      while cur != null && cur.key != key
        invariant i <= |chain| && cur == At(chain, i)
        invariant prev == if i == 0 then null else chain[i - 1]
        invariant forall j :: 0 <= j < i ==> chain[j].key != key
        decreases |chain| - i
      {
        prev := cur;
        cur := cur.next;
        i := i + 1;
      }
      if cur == null {
        ListDecides(chain, entries, key);
      }
    }

    /** Changes the value of the item at position `i`. */
    method SetValue(item: Item<K, V>, value: V, ghost i: nat)
      requires Valid() && i < |chain| && chain[i] == item
      modifies this`entries, item`value
      ensures Valid() && entries == old(entries)[item.key := value] && item.value == value
      ensures item.key in old(entries)
    {
      item.value := value;
      entries := entries[item.key := value];
      assert entries.Keys == old(entries.Keys);
      assert |entries| == |entries.Keys| == |old(entries.Keys)| == |old(entries)|;
    }

    method Prepend(key: K, value: V) returns (item: Item<K, V>)
      requires Valid() && key !in entries
      modifies this
      ensures Valid() && fresh(item) && item.key == key && item.value == value
      ensures chain == [item] + old(chain) && entries == old(entries)[key := value]
      ensures items == old(items) + {item}
    {
      item := new Item(key, value);
      item.next := head;
      RunsPrepended(item, chain);
      head := item;
      chain := [item] + chain;
      items := items + {item};
      entries := entries[key := value];
    }

    /** Takes the item at position `i` out of the list: the head or the predecessor's link skips it. */
    method Relink(prev: Item?<K, V>, cur: Item<K, V>, ghost i: nat)
      requires Valid() && i < |chain| && cur == chain[i] && prev == if i == 0 then null else chain[i - 1]
      modifies this`head, Present(prev)`next
      ensures Runs(head, Without(chain, i)) && Matches(chain, entries)
    {
      var next := cur.next;
      if prev == null {
        head := next;
      } else {
        prev.next := next;
      }
      ghost var rest := Without(chain, i);
      forall j | 0 <= j < |rest|
        ensures rest[j] == chain[if j < i then j else j + 1] && rest[j].next == At(rest, j + 1)
      {
      }
    }

    method Unlink(prev: Item?<K, V>, cur: Item<K, V>, ghost i: nat)
      requires Valid() && i < |chain| && cur == chain[i] && prev == if i == 0 then null else chain[i - 1]
      modifies this`head, this`chain, this`entries, this`items, items
      ensures Valid() && chain == Without(old(chain), i) && entries == old(entries) - {cur.key}
      ensures items == old(items) - {cur}
    {
      Relink(prev, cur, i);
      EntriesWithout(chain, entries, i);
      Forget(cur, i);
    }

    /** The item at position `i` is no longer one of the bucket's. */
    ghost method Forget(cur: Item<K, V>, i: nat)
      requires forall j :: 0 <= j < |chain| ==> chain[j] in items
      requires i < |chain| && cur == chain[i] && |entries| == |chain| && DistinctKeys(chain)
      requires Runs(head, Without(chain, i)) && DistinctKeys(Without(chain, i))
      requires Matches(Without(chain, i), entries - {cur.key}) && |entries - {cur.key}| == |entries| - 1
      modifies this`chain, this`entries, this`items
      ensures Valid() && chain == Without(old(chain), i) && entries == old(entries) - {cur.key}
      ensures items == old(items) - {cur}
    {
      assert forall j :: 0 <= j < |chain| && j != i ==> chain[j].key != cur.key;
      chain, items, entries := Without(chain, i), items - {cur}, entries - {cur.key};
    }
  }

  /** The entries `split`, bucket by bucket, are those of one map, each key in its home bucket. */
  ghost predicate Splits<K(!new), V>(split: seq<map<K, V>>, home: K -> nat, contents: map<K, V>) {
    && (forall b, key {:trigger key in split[b]} :: 0 <= b < |split| && key in split[b] ==>
          home(key) == b && key in contents && contents[key] == split[b][key])
    && (forall key {:trigger key in contents} :: key in contents ==> home(key) < |split| && key in split[home(key)])
  }

  lemma SplitsUpdated<K(!new), V>(split: seq<map<K, V>>, home: K -> nat, contents: map<K, V>, key: K, value: V)
    requires Splits(split, home, contents) && home(key) < |split|
    ensures Splits(split[home(key) := split[home(key)][key := value]], home, contents[key := value])
  {
    var split' := split[home(key) := split[home(key)][key := value]];
    forall b, k | 0 <= b < |split'| && k in split'[b]
      ensures home(k) == b && k in contents[key := value] && contents[key := value][k] == split'[b][k]
    {
      assert k == key || k in split[b];
    }
    forall k | k in contents[key := value] ensures home(k) < |split'| && k in split'[home(k)] {
      assert k == key || k in contents;
    }
  }

  lemma SplitsRemoved<K(!new), V>(split: seq<map<K, V>>, home: K -> nat, contents: map<K, V>, key: K)
    requires Splits(split, home, contents) && home(key) < |split|
    ensures Splits(split[home(key) := split[home(key)] - {key}], home, contents - {key})
  {
    var split' := split[home(key) := split[home(key)] - {key}];
    forall b, k | 0 <= b < |split'| && k in split'[b]
      ensures home(k) == b && k in contents - {key} && (contents - {key})[k] == split'[b][k]
    {
      assert k in split[b];
    }
    forall k | k in contents - {key} ensures home(k) < |split'| && k in split'[home(k)] {
      assert k in contents;
    }
  }

  lemma SizeUpdated<K, V>(m: map<K, V>, key: K, value: V)
    ensures |m[key := value]| == |m| + if key in m then 0 else 1
  {
    assert m[key := value].Keys == m.Keys + {key};
    assert |m| == |m.Keys| && |m[key := value]| == |m[key := value].Keys|;
  }

  lemma OneFewer<K, V>(m: map<K, V>, key: K)
    requires key in m
    ensures |m - {key}| == |m| - 1
  {
    assert (m - {key}).Keys == m.Keys - {key};
    assert |m| == |m.Keys| && |m - {key}| == |(m - {key}).Keys|;
  }

  method MakeBuckets<K(==), V>(n: nat) returns (made: seq<Bucket<K, V>>)
    ensures |made| == n && fresh(made)
    ensures forall b :: 0 <= b < n ==>
              made[b].index == b && made[b].Valid() && made[b].entries == map[] && made[b].items == {}
  {
    made := [];
    while |made| < n
      invariant |made| <= n && fresh(made)
      invariant forall b :: 0 <= b < |made| ==>
                  made[b].index == b && made[b].Valid() && made[b].entries == map[] && made[b].items == {}
    {
      var bucket := new Bucket(|made|);
      made := made + [bucket];
    }
  }

  class AtomicHashMap<K(==, !new), V> {
    /** find_bucket: the hash of a key, as a usize, modulo the number of buckets. */
    const home: K -> nat
    const buckets: seq<Bucket<K, V>>
    var len: nat
    /** The map this stands for. */
    ghost var contents: map<K, V>
    /** All items ever made; those in use are in the buckets. */
    ghost var items: set<Item<K, V>>

    /** The entries of each bucket. */
    ghost var split: seq<map<K, V>>

    /** Bucket `b` is a well-formed list of items that belong there. */
    ghost predicate Fine(b: nat)
      requires b < |buckets|
      reads buckets[b], buckets[b].items
    {
      && buckets[b].index == b && buckets[b].Valid()
      && forall item :: item in buckets[b].items ==> home(item.key) == b
    }

    /** All buckets are; so they have no item in common. */
    ghost predicate Structure()
      reads this`items, this`split, buckets, items
    {
      && |split| == |buckets|
      && (forall b :: 0 <= b < |buckets| ==> buckets[b].items <= items)
      && (forall b :: 0 <= b < |buckets| ==> Fine(b) && buckets[b].entries == split[b])
    }

    ghost predicate Valid()
      reads this, buckets, items
    {
      && (|buckets| > 0 ==> forall key :: home(key) < |buckets|)
      && Structure()
      && Splits(split, home, contents)
      && len == |contents| % WORD
    }

    constructor WithCapacity(hash: K -> nat, bucketCount: nat)
      ensures Valid() && contents == map[] && |buckets| == bucketCount
      ensures bucketCount > 0 ==> forall key :: home(key) == hash(key) % bucketCount
      ensures fresh(buckets) && items == {}
    {
      home := key => if bucketCount == 0 then 0 else hash(key) % bucketCount;
      len := 0;
      contents, items := map[], {};
      var made := MakeBuckets(bucketCount);
      buckets := made;
      split := seq(bucketCount, _ => map[]);
    }

    /** get: the value the guard gives access to. */
    method Get(key: K) returns (r: Option<V>)
      requires Valid() && |buckets| > 0
      ensures r == if key in contents then Some(contents[key]) else None
    {
      var item, i := GetMut(key);
      r := if item == null then None else Some(item.value);
    }

    /** get_mut: the item whose value the guard exposes. */
    method GetMut(key: K) returns (item: Item?<K, V>, ghost i: nat)
      requires Valid() && |buckets| > 0
      ensures item == null <==> key !in contents
      ensures item != null ==>
                && i < |buckets[home(key)].chain| && buckets[home(key)].chain[i] == item
                && item.key == key && item.value == contents[key]
    {
      var prev, cur, at := buckets[home(key)].Find(key);
      item, i := cur, at;
    }

    /** An assignment through a WatchGuardMut, or insert on a present key. */
    method SetValue(item: Item<K, V>, value: V, ghost i: nat)
      requires Valid() && |buckets| > 0
      requires i < |buckets[home(item.key)].chain| && buckets[home(item.key)].chain[i] == item
      modifies this`contents, this`split, buckets[home(item.key)], item`value
      ensures Valid() && contents == old(contents)[item.key := value] && item.value == value
      ensures buckets[home(item.key)].chain == old(buckets[home(item.key)].chain)
    {
      SplitsUpdated(split, home, contents, item.key, value);
      SizeUpdated(contents, item.key, value);
      StoreValue(home(item.key), item, value, i);
    }

    method StoreValue(b: nat, item: Item<K, V>, value: V, ghost i: nat)
      requires Structure() && b < |buckets| && i < |buckets[b].chain| && buckets[b].chain[i] == item
      modifies this`contents, this`split, buckets[b], item`value
      ensures Structure() && split == old(split)[b := old(split)[b][item.key := value]]
      ensures contents == old(contents)[item.key := value]
      ensures item.value == value && buckets[b].chain == old(buckets[b].chain)
      ensures item.key in old(split)[b]
    {
      StoreIn(b, item, value, i);
      contents, split := contents[item.key := value], split[b := buckets[b].entries];
    }

    /** The other buckets do not notice. */
    method StoreIn(b: nat, item: Item<K, V>, value: V, ghost i: nat)
      requires Structure() && b < |buckets| && i < |buckets[b].chain| && buckets[b].chain[i] == item
      modifies buckets[b], item`value
      ensures forall a :: 0 <= a < |buckets| ==> Fine(a) && (a != b ==> buckets[a].entries == split[a])
      ensures buckets[b].entries == split[b][item.key := value] && item.value == value && item.key in split[b]
      ensures forall a :: 0 <= a < |buckets| ==> buckets[a].items <= items && buckets[a].chain == old(buckets[a].chain)
    {
      assert Fine(b);
      buckets[b].SetValue(item, value, i);
      forall a | 0 <= a < |buckets| && a != b ensures Fine(a) && buckets[a].entries == split[a] {
        assert old(Fine(a)) && buckets[a] != buckets[b];
        assert forall o :: o in buckets[a].items ==> unchanged(o);
      }
    }

    method Insert(key: K, value: V)
      requires Valid() && |buckets| > 0
      modifies this, buckets[home(key)], buckets[home(key)].items
      ensures Valid() && contents == old(contents)[key := value]
      ensures key in old(contents) ==> buckets[home(key)].chain == old(buckets[home(key)].chain)
      ensures key !in old(contents) ==> IsPrepended(buckets[home(key)].chain, old(buckets[home(key)].chain), key)
    {
      var item, i := GetMut(key);
      if item != null {
        SetValue(item, value, i);
      } else {
        InsertNew(key, value);
      }
    }

    method InsertNew(key: K, value: V)
      requires Valid() && |buckets| > 0 && key !in contents
      modifies this, buckets[home(key)]
      ensures Valid() && contents == old(contents)[key := value]
      ensures IsPrepended(buckets[home(key)].chain, old(buckets[home(key)].chain), key)
    {
      SplitsUpdated(split, home, contents, key, value);
      SizeUpdated(contents, key, value);
      IncWraps(|contents|);
      var made := PrependTo(home(key), key, value);
    }

    method PrependTo(b: nat, key: K, value: V) returns (item: Item<K, V>)
      requires Structure() && b < |buckets| && b == home(key) && key !in buckets[b].entries
      modifies this`len, this`contents, this`split, this`items, buckets[b]
      ensures Structure() && split == old(split)[b := old(split)[b][key := value]]
      ensures contents == old(contents)[key := value] && len == Inc(old(len))
      ensures fresh(item) && item.key == key
      ensures buckets[b].chain == [item] + old(buckets[b].chain)
    {
      item := PrependIn(b, key, value);
      len := Inc(len);
      contents, split, items := contents[key := value], split[b := buckets[b].entries], items + {item};
    }

    method PrependIn(b: nat, key: K, value: V) returns (item: Item<K, V>)
      requires Structure() && b < |buckets| && b == home(key) && key !in buckets[b].entries
      modifies buckets[b]
      ensures fresh(item) && item.key == key
      ensures forall a :: 0 <= a < |buckets| ==> Fine(a) && (a != b ==> buckets[a].entries == split[a])
      ensures forall a :: 0 <= a < |buckets| ==> buckets[a].items <= items + {item}
      ensures buckets[b].entries == split[b][key := value]
      ensures buckets[b].chain == [item] + old(buckets[b].chain)
    {
      assert Fine(b);
      item := buckets[b].Prepend(key, value);
      forall a | 0 <= a < |buckets| && a != b
        ensures Fine(a) && buckets[a].entries == split[a] && buckets[a].items <= items
      {
        assert old(Fine(a)) && buckets[a] != buckets[b];
        assert forall o :: o in buckets[a].items ==> unchanged(o);
      }
    }

    /** When the key was there, its item was at position `i` of its bucket. */
    method Remove(key: K) returns (r: Option<V>, ghost i: nat)
      requires Valid() && |buckets| > 0
      modifies this, buckets[home(key)], buckets[home(key)].items
      ensures Valid() && contents == old(contents) - {key}
      ensures r == if key in old(contents) then Some(old(contents)[key]) else None
      ensures key in old(contents) ==>
                i < |old(buckets[home(key)].chain)| && old(buckets[home(key)].chain)[i].key == key
      ensures buckets[home(key)].chain ==
                if key in old(contents) then Without(old(buckets[home(key)].chain), i)
                else old(buckets[home(key)].chain)
    {
      var prev, cur, at := buckets[home(key)].Find(key);
      i := at;
      if cur == null {
        assert contents - {key} == contents;
        return None, i;
      }
      r := Some(cur.value);
      RemoveFound(key, prev, cur, i);
    }

    method RemoveFound(key: K, prev: Item?<K, V>, cur: Item<K, V>, ghost i: nat)
      requires Valid() && |buckets| > 0 && cur.key == key && key in contents
      requires i < |buckets[home(key)].chain| && cur == buckets[home(key)].chain[i]
      requires prev == if i == 0 then null else buckets[home(key)].chain[i - 1]
      modifies this, buckets[home(key)], buckets[home(key)].items
      ensures Valid() && contents == old(contents) - {key}
      ensures buckets[home(key)].chain == Without(old(buckets[home(key)].chain), i)
    {
      SplitsRemoved(split, home, contents, key);
      OneFewer(contents, key);
      DecWraps(|contents|);
      UnlinkFrom(home(key), prev, cur, i);
    }

    method UnlinkFrom(b: nat, prev: Item?<K, V>, cur: Item<K, V>, ghost i: nat)
      requires Structure() && b < |buckets| && i < |buckets[b].chain| && cur == buckets[b].chain[i]
      requires prev == if i == 0 then null else buckets[b].chain[i - 1]
      modifies this`len, this`contents, this`split, buckets[b], buckets[b].items
      ensures Structure() && split == old(split)[b := old(split)[b] - {cur.key}]
      ensures contents == old(contents) - {cur.key} && len == Dec(old(len))
      ensures buckets[b].chain == Without(old(buckets[b].chain), i)
    {
      UnlinkIn(b, prev, cur, i);
      len := Dec(len);
      contents, split := contents - {cur.key}, split[b := buckets[b].entries];
    }

    method UnlinkIn(b: nat, prev: Item?<K, V>, cur: Item<K, V>, ghost i: nat)
      requires Structure() && b < |buckets| && i < |buckets[b].chain| && cur == buckets[b].chain[i]
      requires prev == if i == 0 then null else buckets[b].chain[i - 1]
      modifies buckets[b], buckets[b].items
      ensures forall a :: 0 <= a < |buckets| ==> Fine(a) && (a != b ==> buckets[a].entries == split[a])
      ensures forall a :: 0 <= a < |buckets| ==> buckets[a].items <= items
      ensures buckets[b].entries == split[b] - {cur.key}
      ensures buckets[b].chain == Without(old(buckets[b].chain), i)
    {
      ghost var touched := buckets[b].items;
      assert Fine(b);
      buckets[b].Unlink(prev, cur, i);
      forall a | 0 <= a < |buckets| && a != b
        ensures Fine(a) && buckets[a].entries == split[a] && buckets[a].items <= items
      {
        assert old(Fine(a)) && buckets[a] != buckets[b];
        forall o | o in buckets[a].items ensures unchanged(o) {
          assert home(o.key) == a && o !in touched;
        }
      }
    }
  }
}
