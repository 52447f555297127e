/** Every step of the map keeps the memory part of the invariant: what changes an item is
    under a lock that keeps everybody else who knows the item away. */
module MapMemory {
  import opened Sequences
  import opened MapMachine
  import opened MapInvariant
  import opened MapLocks
  import opened Wrappers

  /** A client has moved; no item, list or hand has changed. */
  lemma PcMove<K(!new)>(home: K -> nat, s: State<K>, s': State<K>, c: nat, pc: Pc<K>)
    requires Memory(home, s) && c < |s.pcs| && s'.pcs == s.pcs[c := pc]
    requires s'.heads == s.heads && s'.heap == s.heap && s'.chains == s.chains && s'.keys == s.keys
    requires s'.held == s.held && !s'.crashed && |s'.flags| == |s.flags| && |s'.refs| == |s.refs|
    requires Hand(pc) == Hand(s.pcs[c]) && Dead(pc) == Dead(s.pcs[c])
    requires Knows(home, s, c, pc)
    ensures Memory(home, s')
  {
    forall b: nat ensures BucketOk(s', b) { assert BucketOk(s, b); }
    forall b: nat, i: nat ensures LinkOk(home, s', b, i) { assert LinkOk(home, s, b, i); }
    forall p: nat ensures ItemOk(home, s', p) { assert ItemOk(home, s, p); }
    forall d: nat ensures ClientOk(home, s', d) {
      assert ClientOk(home, s, d);
      if d < |s.pcs| { SameKnowledge(home, s, s', d, s'.pcs[d]); }
    }
  }

  lemma SameKnowledge<K(!new)>(home: K -> nat, s: State<K>, s': State<K>, d: nat, pc: Pc<K>)
    requires s'.heads == s.heads && s'.heap == s.heap && s'.chains == s.chains && s'.keys == s.keys
    requires s'.held == s.held && Knows(home, s, d, pc)
    ensures Knows(home, s', d, pc)
  {
    assert WalkOk(home, s', pc);
  }

  /** An item found under a key is the linked item with that key. */
  lemma HoldsLinked<K(!new)>(home: K -> nat, s: State<K>, k: K, p: nat, i: nat)
    requires Memory(home, s) && Holds(home, s, k, p, i)
    ensures p in s.heap && p != NULL && p !in s.held && s.heap[p].key == k
  {
    assert LinkOk(home, s, home(k), i);
  }

  /** Linked items at different positions of a bucket are different. */
  lemma Apart<K(!new)>(home: K -> nat, s: State<K>, b: nat, i: nat, j: nat)
    requires Memory(home, s) && b < |s.chains| && i < |s.chains[b]| && j < |s.chains[b]| && i != j
    ensures s.chains[b][i] != s.chains[b][j]
  {
    assert LinkOk(home, s, b, i) && LinkOk(home, s, b, j) && BucketOk(s, b);
  }

  /** Client `c` works on its bucket, on item `q` if there is one; what the others know stays true. */
  ghost predicate OnlyBucket<K>(home: K -> nat, s: State<K>, s': State<K>, b: nat, q: nat) {
    && |s'.heads| == |s.heads| && |s'.chains| == |s.chains| && |s'.keys| == |s.keys|
    && (forall a :: 0 <= a < |s.heads| && a != b ==> s'.heads[a] == s.heads[a])
    && (forall a :: 0 <= a < |s.chains| && a != b ==> s'.chains[a] == s.chains[a])
    && (forall a :: 0 <= a < |s.keys| && a != b ==> s'.keys[a] == s.keys[a])
    && (forall p :: p in s.heap ==>
        && p in s'.heap && s'.heap[p].key == s.heap[p].key
        && (home(s.heap[p].key) != b ==> s'.heap[p] == s.heap[p])
        && (p != q ==> s'.heap[p].value == s.heap[p].value))
    && (q in s.heap ==> home(s.heap[q].key) == b)
  }

  lemma OthersWalk<K(!new)>(home: K -> nat, s: State<K>, s': State<K>, b: nat, q: nat, d: nat)
    requires Memory(home, s) && OnlyBucket(home, s, s', b, q) && d < |s.pcs|
    requires InBucket(s.pcs[d]) ==> Bucket(home, s.pcs[d]) != b
    ensures WalkOk(home, s', s.pcs[d])
  {
    assert ClientOk(home, s, d) && WalkOk(home, s, s.pcs[d]);
    match s.pcs[d] {
      case InsDrop(k, p, i) => { HoldsLinked(home, s, k, p, i); }
      case InsUnref(k, p, i) => { HoldsLinked(home, s, k, p, i); }
      case InsWrite(k, p, i) => { HoldsLinked(home, s, k, p, i); }
      case InsLink(k, p) => { assert HandOk(s, d, s.pcs[d]); }
      case _ =>
    }
  }

  lemma OthersKeep<K(!new)>(home: K -> nat, s: State<K>, s': State<K>, c: nat, q: nat, d: nat)
    requires Memory(home, s) && Locks(home, s) && c < |s.pcs| && d < |s.pcs| && c != d
    requires InBucket(s.pcs[c]) && MapMode(s.pcs[c]) == Shared && Bucket(home, s.pcs[c]) < |s.flags|
    requires OnlyBucket(home, s, s', Bucket(home, s.pcs[c]), q)
    requires forall p :: p in s.held && s.held[p] == d ==> p in s'.held && s'.held[p] == d
    requires q != NULL ==> q !in s.held && Guarded(s.pcs[d]) != Some(q)
    ensures Knows(home, s', d, s.pcs[d])
  {
    if InBucket(s.pcs[d]) && Bucket(home, s.pcs[d]) == Bucket(home, s.pcs[c]) {
      OneInBucket(home, s, c, d);
    }
    OthersWalk(home, s, s', Bucket(home, s.pcs[c]), q, d);
    assert ClientOk(home, s, d);
    NoIterator(home, s, c, d);
  }

  /** A guard on a linked item is a guard on its bucket. */
  lemma GuardInBucket<K(!new)>(home: K -> nat, s: State<K>, d: nat, p: nat)
    requires Memory(home, s) && d < |s.pcs| && Guarded(s.pcs[d]) == Some(p) && p in s.heap
    ensures Bucket(home, s.pcs[d]) == home(s.heap[p].key) && p != NULL
  {
    assert ClientOk(home, s, d) && GuardOk(s, s.pcs[d]);
  }

  lemma DropStep<K(!new)>(home: K -> nat, s: State<K>, c: nat, k: K, p: nat, i: nat)
    requires Memory(home, s) && Locks(home, s) && c < |s.pcs| && s.pcs[c] == InsDrop(k, p, i)
    requires home(k) < |s.flags|
    ensures Memory(home, DropValue(s, c, p, InsUnref(k, p, i)))
  {
    assert ClientOk(home, s, c);
    HoldsLinked(home, s, k, p, i);
    var s' := DropValue(s, c, p, InsUnref(k, p, i));
    forall b: nat ensures BucketOk(s', b) { assert BucketOk(s, b); }
    forall b: nat, j: nat ensures LinkOk(home, s', b, j) { assert LinkOk(home, s, b, j); }
    forall r: nat ensures ItemOk(home, s', r) { assert ItemOk(home, s, r); }
    forall d: nat ensures ClientOk(home, s', d) {
      if d < |s.pcs| && d != c {
        if Guarded(s.pcs[d]) == Some(p) {
          GuardInBucket(home, s, d, p);
          NoGuard(home, s, c, d);
        }
        OthersKeep(home, s, s', c, p, d);
      }
    }
  }

  lemma WriteStep<K(!new)>(home: K -> nat, s: State<K>, c: nat, k: K, p: nat, i: nat)
    requires Memory(home, s) && Locks(home, s) && c < |s.pcs| && s.pcs[c] == InsWrite(k, p, i)
    requires home(k) < |s.flags|
    ensures Memory(home, WriteValue(s, c, p, GiveFlag(k, After.Leave)))
  {
    assert ClientOk(home, s, c);
    HoldsLinked(home, s, k, p, i);
    var s' := WriteValue(s, c, p, GiveFlag(k, After.Leave));
    forall b: nat ensures BucketOk(s', b) { assert BucketOk(s, b); }
    forall b: nat, j: nat ensures LinkOk(home, s', b, j) { assert LinkOk(home, s, b, j); }
    forall r: nat ensures ItemOk(home, s', r) { assert ItemOk(home, s, r); }
    forall d: nat ensures ClientOk(home, s', d) {
      if d < |s.pcs| && d != c {
        if Guarded(s.pcs[d]) == Some(p) {
          GuardInBucket(home, s, d, p);
          assert WriteOk(home, s, c, d);
        }
        OthersKeep(home, s, s', c, p, d);
      }
    }
  }

  /** Nobody relies on what the bytes of a value say. */
  lemma DataStep<K(!new)>(home: K -> nat, s: State<K>, s': State<K>, p: nat, v: nat)
    requires Memory(home, s) && p in s.heap && s' == s.(heap := s.heap[p := s.heap[p].(data := v)])
    ensures Memory(home, s')
  {
    forall b: nat ensures BucketOk(s', b) { assert BucketOk(s, b); }
    forall b: nat, i: nat ensures LinkOk(home, s', b, i) { assert LinkOk(home, s, b, i); }
    forall q: nat ensures ItemOk(home, s', q) { assert ItemOk(home, s, q); }
    forall d: nat ensures ClientOk(home, s', d) {
      assert ClientOk(home, s, d);
      if d < |s.pcs| {
        assert WalkOk(home, s', s.pcs[d]) by { assert WalkOk(home, s, s.pcs[d]); }
      }
    }
  }

  lemma AllocStep<K(!new)>(home: K -> nat, s: State<K>, c: nat, k: K, head: nat, at: nat)
    requires Memory(home, s) && Locks(home, s) && c < |s.pcs| && s.pcs[c] == InsAlloc(k, head)
    requires home(k) < |s.flags|
    ensures Memory(home, Alloc(s, c, k, head, at))
  {
    if at != NULL && at !in s.heap {
      var s' := Alloc(s, c, k, head, at);
      assert ClientOk(home, s, c);
      forall b: nat ensures BucketOk(s', b) { assert BucketOk(s, b); }
      forall b: nat, j: nat ensures LinkOk(home, s', b, j) { assert LinkOk(home, s, b, j); }
      forall r: nat ensures ItemOk(home, s', r) { assert ItemOk(home, s, r); }
      forall d: nat ensures ClientOk(home, s', d) {
        if d < |s.pcs| && d != c {
          AllocOthers(home, s, s', at, c, d);
        }
      }
    }
  }

  /** A new block is nothing that anybody knows. */
  lemma AllocOthers<K(!new)>(home: K -> nat, s: State<K>, s': State<K>, at: nat, c: nat, d: nat)
    requires Memory(home, s) && d < |s.pcs| && at !in s.heap
    requires at in s'.heap && s'.heap == s.heap[at := s'.heap[at]] && s'.held == s.held[at := c]
    requires s'.heads == s.heads && s'.chains == s.chains && s'.keys == s.keys
    ensures Knows(home, s', d, s.pcs[d])
  {
    assert ClientOk(home, s, d);
    assert WalkOk(home, s', s.pcs[d]) by {
      assert WalkOk(home, s, s.pcs[d]);
    }
  }

  lemma LinkLists<K(!new)>(home: K -> nat, s: State<K>, c: nat, k: K, p: nat)
    requires Memory(home, s) && c < |s.pcs| && s.pcs[c] == InsLink(k, p) && home(k) < |s.flags|
    ensures var s' := Link(s, c, home(k), k, p);
            && (forall b: nat :: BucketOk(s', b))
            && (forall b: nat, i: nat :: LinkOk(home, s', b, i))
  {
    var s' := Link(s, c, home(k), k, p);
    assert ClientOk(home, s, c) && HandOk(s, c, s.pcs[c]);
    forall b: nat ensures BucketOk(s', b) { assert BucketOk(s, b); }
    forall b: nat, i: nat ensures LinkOk(home, s', b, i) {
      assert BucketOk(s, b);
      assert LinkOk(home, s, b, i);
      if i > 0 { assert LinkOk(home, s, b, i - 1); }
    }
  }

  lemma LinkStep<K(!new)>(home: K -> nat, s: State<K>, c: nat, k: K, p: nat)
    requires Memory(home, s) && Locks(home, s) && c < |s.pcs| && s.pcs[c] == InsLink(k, p) && home(k) < |s.flags|
    ensures Memory(home, Link(s, c, home(k), k, p))
  {
    var s' := Link(s, c, home(k), k, p);
    assert ClientOk(home, s, c) && HandOk(s, c, s.pcs[c]);
    LinkLists(home, s, c, k, p);
    forall r: nat ensures ItemOk(home, s', r) { assert ItemOk(home, s, r); }
    forall d: nat ensures ClientOk(home, s', d) {
      if d < |s.pcs| && d != c {
        OthersKeep(home, s, s', c, NULL, d);
      }
    }
  }

  lemma WithoutDistinct<T(!new)>(items: seq<T>, i: nat)
    requires i < |items| && Distinct(items)
    ensures Distinct(Without(items, i))
  {
  }

  lemma UnlinkBuckets<K(!new)>(home: K -> nat, s: State<K>, c: nat, k: K, prev: nat, p: nat, next: nat, i: nat)
    requires Memory(home, s) && c < |s.pcs| && s.pcs[c] == RemStore(k, prev, p, next, i) && home(k) < |s.flags|
    ensures !Unlink(s, c, home(k), k, prev, p, next, i).crashed
    ensures (prev == NULL) == (i == 0)
    ensures forall b: nat :: BucketOk(Unlink(s, c, home(k), k, prev, p, next, i), b)
  {
    assert ClientOk(home, s, c);
    assert WalkOk(home, s, s.pcs[c]);
    if i > 0 { assert LinkOk(home, s, home(k), i - 1); }
    var s' := Unlink(s, c, home(k), k, prev, p, next, i);
    assert BucketOk(s, home(k));
    WithoutDistinct(s.keys[home(k)], i);
    forall b: nat ensures BucketOk(s', b) {
      assert BucketOk(s, b);
      if b == home(k) && |s.chains[b]| > 1 { WithoutAt(s.chains[b], i, 0); }
    }
  }

  lemma UnlinkLinks<K(!new)>(home: K -> nat, s: State<K>, c: nat, k: K, prev: nat, p: nat, next: nat, i: nat,
                             b: nat, j: nat)
    requires Memory(home, s) && c < |s.pcs| && s.pcs[c] == RemStore(k, prev, p, next, i) && home(k) < |s.flags|
    requires (prev == NULL) == (i == 0)
    requires !Unlink(s, c, home(k), k, prev, p, next, i).crashed
    ensures LinkOk(home, Unlink(s, c, home(k), k, prev, p, next, i), b, j)
  {
    var s' := Unlink(s, c, home(k), k, prev, p, next, i);
    assert ClientOk(home, s, c);
    assert WalkOk(home, s, s.pcs[c]);
    HoldsLinked(home, s, k, p, i);
    if b < |s.chains| {
      assert BucketOk(s, b);
      if b == home(k) {
        if j < |s.chains[b]| - 1 {
          WithoutAt(s.chains[b], i, j);
          WithoutAt(s.keys[b], i, j);
          if j + 1 < |s.chains[b]| - 1 { WithoutAt(s.chains[b], i, j + 1); }
          var m := if j < i then j else j + 1;
          assert LinkOk(home, s, b, m);
          Apart(home, s, b, m, i);
          if i > 0 && m != i - 1 { Apart(home, s, b, m, i - 1); }
        }
      } else {
        assert LinkOk(home, s, b, j);
        if i > 0 { assert LinkOk(home, s, home(k), i - 1); }
      }
    }
  }

  /** What the unlinking step does to the items: nothing but the link of the predecessor. */
  ghost predicate Unlinked<K>(s: State<K>, s': State<K>, c: nat, b: nat, p: nat, i: nat)
    requires b < |s.chains| && i < |s.chains[b]| && c < |s.pcs|
  {
    && s'.chains == s.chains[b := Without(s.chains[b], i)] && s'.held == s.held[p := c]
    && |s'.pcs| == |s.pcs| && s'.pcs == s.pcs[c := s'.pcs[c]]
    && s'.heap.Keys == s.heap.Keys
    && forall q :: q in s.heap ==> s'.heap[q].key == s.heap[q].key && s'.heap[q].value == s.heap[q].value
  }

  lemma RelinkKeepsItems<K>(s: State<K>, b: nat, prev: nat, next: nat)
    requires b < |s.heads| && (prev == NULL || prev in s.heap)
    ensures var s' := Relink(s, b, prev, next);
            && s'.heap.Keys == s.heap.Keys
            && forall q :: q in s.heap ==> s'.heap[q].key == s.heap[q].key && s'.heap[q].value == s.heap[q].value
  {
  }

  lemma UnlinkKeepsItems<K>(s: State<K>, c: nat, b: nat, k: K, prev: nat, p: nat, next: nat, i: nat)
    requires c < |s.pcs| && !s.crashed && !Unlink(s, c, b, k, prev, p, next, i).crashed
    ensures b < |s.chains| && i < |s.chains[b]|
    ensures Unlinked(s, Unlink(s, c, b, k, prev, p, next, i), c, b, p, i)
    ensures Unlink(s, c, b, k, prev, p, next, i).pcs[c] == SubLen(k, p)
  {
    RelinkKeepsItems(s, b, prev, next);
  }

  lemma UnlinkedItems<K(!new)>(home: K -> nat, s: State<K>, s': State<K>, c: nat, k: K, p: nat, i: nat, r: nat)
    requires Memory(home, s) && c < |s.pcs| && Hand(s.pcs[c]).None? && Dead(s.pcs[c]).None? && Holds(home, s, k, p, i)
    requires Unlinked(s, s', c, home(k), p, i) && Hand(s'.pcs[c]) == Some(p)
    ensures ItemOk(home, s', r)
  {
    assert ItemOk(home, s, r);
    if r in s.heap && r != p && r !in s.held && home(s.heap[r].key) == home(k) {
      WithoutKeeps(s.chains[home(k)], i, r);
    }
  }

  lemma UnlinkItems<K(!new)>(home: K -> nat, s: State<K>, c: nat, k: K, prev: nat, p: nat, next: nat, i: nat, r: nat)
    requires Memory(home, s) && c < |s.pcs| && s.pcs[c] == RemStore(k, prev, p, next, i) && home(k) < |s.flags|
    requires !Unlink(s, c, home(k), k, prev, p, next, i).crashed
    ensures ItemOk(home, Unlink(s, c, home(k), k, prev, p, next, i), r)
  {
    assert ClientOk(home, s, c);
    assert WalkOk(home, s, s.pcs[c]);
    UnlinkKeepsItems(s, c, home(k), k, prev, p, next, i);
    UnlinkedItems(home, s, Unlink(s, c, home(k), k, prev, p, next, i), c, k, p, i, r);
  }

  lemma UnlinkStep<K(!new)>(home: K -> nat, s: State<K>, c: nat, k: K, prev: nat, p: nat, next: nat, i: nat)
    requires Memory(home, s) && Locks(home, s) && c < |s.pcs| && s.pcs[c] == RemStore(k, prev, p, next, i)
    requires home(k) < |s.flags|
    ensures Memory(home, Unlink(s, c, home(k), k, prev, p, next, i))
  {
    var s' := Unlink(s, c, home(k), k, prev, p, next, i);
    UnlinkBuckets(home, s, c, k, prev, p, next, i);
    forall b: nat, j: nat ensures LinkOk(home, s', b, j) { UnlinkLinks(home, s, c, k, prev, p, next, i, b, j); }
    forall r: nat ensures ItemOk(home, s', r) { UnlinkItems(home, s, c, k, prev, p, next, i, r); }
    UnlinkClients(home, s, c, k, prev, p, next, i);
  }

  lemma UnlinkClients<K(!new)>(home: K -> nat, s: State<K>, c: nat, k: K, prev: nat, p: nat, next: nat, i: nat)
    requires Memory(home, s) && Locks(home, s) && c < |s.pcs| && s.pcs[c] == RemStore(k, prev, p, next, i)
    requires home(k) < |s.flags|
    requires !Unlink(s, c, home(k), k, prev, p, next, i).crashed
    ensures forall d: nat :: ClientOk(home, Unlink(s, c, home(k), k, prev, p, next, i), d)
  {
    var s' := Unlink(s, c, home(k), k, prev, p, next, i);
    assert ClientOk(home, s, c);
    HoldsLinked(home, s, k, p, i);
    if i > 0 { assert LinkOk(home, s, home(k), i - 1); }
    StillPresent(home, s, c, k, prev, p, next, i);
    forall d: nat ensures ClientOk(home, s', d) {
      if d < |s.pcs| && d != c {
        OthersKeep(home, s, s', c, NULL, d);
      }
    }
  }

  /** The holder of the bucket flag finds every linked value there, except while it replaces one. */
  lemma StillPresent<K(!new)>(home: K -> nat, s: State<K>, c: nat, k: K, prev: nat, p: nat, next: nat, i: nat)
    requires Memory(home, s) && Locks(home, s) && c < |s.pcs| && s.pcs[c] == RemStore(k, prev, p, next, i)
    requires home(k) < |s.flags|
    ensures p in s.heap && s.heap[p].value.Present?
  {
    assert ClientOk(home, s, c);
    HoldsLinked(home, s, k, p, i);
    PresentForHolder(home, s, c, k, p, i);
  }

  lemma PresentForHolder<K(!new)>(home: K -> nat, s: State<K>, c: nat, k: K, p: nat, i: nat)
    requires Memory(home, s) && Locks(home, s) && c < |s.pcs| && home(k) < |s.flags|
    requires InBucket(s.pcs[c]) && Bucket(home, s.pcs[c]) == home(k) && Dead(s.pcs[c]).None?
    requires Holds(home, s, k, p, i)
    ensures p in s.heap && s.heap[p].value.Present?
  {
    HoldsLinked(home, s, k, p, i);
    assert ItemOk(home, s, p);
    if s.heap[p].value.Dropped? {
      var d := s.heap[p].value.who;
      assert ClientOk(home, s, d) && WalkOk(home, s, s.pcs[d]);
      HoldsLinked(home, s, s.pcs[d].k, p, s.pcs[d].i);
      OneInBucket(home, s, c, d);
    }
  }

  lemma FreeStep<K(!new)>(home: K -> nat, s: State<K>, c: nat, k: K, p: nat)
    requires Memory(home, s) && Locks(home, s) && c < |s.pcs| && s.pcs[c] == FreeItem(k, p)
    requires home(k) < |s.flags|
    ensures Memory(home, FreeNow(s, c, k, p))
  {
    var s' := FreeNow(s, c, k, p);
    assert ClientOk(home, s, c) && HandOk(s, c, s.pcs[c]);
    forall b: nat ensures BucketOk(s', b) { assert BucketOk(s, b); }
    forall b: nat, j: nat ensures LinkOk(home, s', b, j) { assert LinkOk(home, s, b, j); }
    forall r: nat ensures ItemOk(home, s', r) { assert ItemOk(home, s, r); }
    forall d: nat ensures ClientOk(home, s', d) {
      if d < |s.pcs| && d != c {
        if Guarded(s.pcs[d]) == Some(p) {
          GuardInBucket(home, s, d, p);
          NoGuard(home, s, c, d);
        }
        FreeOthers(home, s, s', c, d, p);
      }
    }
  }

  /** Nobody but its holder and the holders of guards knows an unlinked item. */
  lemma FreeOthers<K(!new)>(home: K -> nat, s: State<K>, s': State<K>, c: nat, d: nat, p: nat)
    requires Memory(home, s) && d < |s.pcs| && p in s.held && s.held[p] == c && c != d
    requires s'.heap == s.heap - {p} && s'.held == s.held - {p}
    requires s'.heads == s.heads && s'.chains == s.chains && s'.keys == s.keys
    requires Guarded(s.pcs[d]) != Some(p)
    ensures Knows(home, s', d, s.pcs[d])
  {
    assert ClientOk(home, s, d);
    FreeOthersWalk(home, s, s', c, d, p);
  }

  lemma FreeOthersWalk<K(!new)>(home: K -> nat, s: State<K>, s': State<K>, c: nat, d: nat, p: nat)
    requires Memory(home, s) && d < |s.pcs| && p in s.held && s.held[p] == c && c != d
    requires s'.heap == s.heap - {p}
    requires s'.heads == s.heads && s'.chains == s.chains && s'.keys == s.keys
    ensures WalkOk(home, s', s.pcs[d])
  {
    assert ClientOk(home, s, d) && WalkOk(home, s, s.pcs[d]);
    match s.pcs[d] {
      case InsDrop(k, q, i) => { HoldsLinked(home, s, k, q, i); }
      case InsUnref(k, q, i) => { HoldsLinked(home, s, k, q, i); }
      case InsWrite(k, q, i) => { HoldsLinked(home, s, k, q, i); }
      case InsLink(k, q) => { assert HandOk(s, d, s.pcs[d]); }
      case _ =>
    }
  }
}
