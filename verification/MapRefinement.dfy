/** AtomicHashMap is a mathematical map in every run. */
module MapRefinement {
  import opened Sequences
  import opened MapFrames
  import opened MapMachine
  import opened MapInvariant
  import opened MapLocks
  import opened MapMemory
  import opened MapSafety

  // Any number of clients; the map changes at three kinds of steps: where a new item is linked, an
  // item unlinked, a value written.

  datatype MapEvent<K> = Quiet | Put(k: K, v: nat) | Delete(k: K)

  ghost function Replayed<K>(m: map<K, nat>, e: MapEvent<K>): map<K, nat> {
    match e
    case Quiet => m
    case Put(k, v) => m[k := v]
    case Delete(k) => m - {k}
  }

  /** What a step does to the map. A write through a guard counts only while the item is linked: the
      guard of an item that has been removed meanwhile writes to nobody's entry. */
  ghost function EventOf<K(!new)>(home: K -> nat, s: State<K>, a: Act<K>): MapEvent<K> {
    if a.c >= |s.pcs| then Quiet
    else match s.pcs[a.c]
      case InsLink(k, p) => if p in s.heap then Put(k, s.heap[p].data) else Quiet
      case InsWrite(k, _, _) => Put(k, Arg(s, a.c))
      case RemStore(k, _, _, _, _) => Delete(k)
      case GuardMut(k, p) => if !a.drop && p !in s.held then Put(k, a.v) else Quiet
      case _ => Quiet
  }

  ghost function Events<K(!new)>(home: K -> nat, s: State<K>, sched: seq<Act<K>>): seq<MapEvent<K>>
    decreases sched
  {
    if sched == [] then [] else [EventOf(home, s, sched[0])] + Events(home, Step(home, s, sched[0]), sched[1..])
  }

  ghost function ReplayAll<K>(m: map<K, nat>, events: seq<MapEvent<K>>): map<K, nat>
    decreases events
  {
    if events == [] then m else ReplayAll(Replayed(m, events[0]), events[1..])
  }

  /** The state stands for `m`: the linked items are its entries. */
  ghost predicate EntryAt<K>(s: State<K>, m: map<K, nat>, b: nat, i: nat) {
    b < |s.chains| && b < |s.keys| && i < |s.chains[b]| && i < |s.keys[b]| && s.chains[b][i] in s.heap ==>
      s.keys[b][i] in m && m[s.keys[b][i]] == s.heap[s.chains[b][i]].data
  }

  ghost predicate Stands<K(!new)>(home: K -> nat, s: State<K>, m: map<K, nat>) {
    && (forall k :: k in m ==> home(k) < |s.keys| && k in s.keys[home(k)])
    && (forall b: nat, i: nat :: EntryAt(s, m, b, i))
  }

  lemma Unchanged<K(!new)>(home: K -> nat, s: State<K>, s': State<K>, m: map<K, nat>)
    requires Stands(home, s, m) && s'.chains == s.chains && s'.keys == s.keys
    requires forall p :: p in s.heap && p in s'.heap && p !in s.held ==> s'.heap[p].data == s.heap[p].data
    requires forall b: nat, i: nat :: LinkOk(home, s, b, i)
    ensures Stands(home, s', m)
  {
    forall b: nat, i: nat ensures EntryAt(s', m, b, i) {
      assert EntryAt(s, m, b, i) && LinkOk(home, s, b, i);
    }
  }

  lemma LinkPuts<K(!new)>(home: K -> nat, s: State<K>, c: nat, k: K, p: nat, m: map<K, nat>)
    requires Inv(home, s) && Stands(home, s, m) && c < |s.pcs| && s.pcs[c] == InsLink(k, p) && home(k) < |s.flags|
    ensures p in s.heap && Stands(home, Link(s, c, home(k), k, p), m[k := s.heap[p].data])
  {
    assert ClientOk(home, s, c) && WalkOk(home, s, s.pcs[c]) && HandOk(s, c, s.pcs[c]);
    var s', m' := Link(s, c, home(k), k, p), m[k := s.heap[p].data];
    forall b: nat, i: nat ensures EntryAt(s', m', b, i) {
      assert BucketOk(s, b) && EntryAt(s, m, b, i) && LinkOk(home, s, b, i);
      if b == home(k) && i > 0 { assert EntryAt(s, m, b, i - 1) && LinkOk(home, s, b, i - 1); }
    }
    forall q | q in m' ensures home(q) < |s'.keys| && q in s'.keys[home(q)] {
      if q == k { assert s'.keys[home(k)][0] == k; } else { assert q in s.keys[home(q)]; }
    }
  }

  /** What the unlinking step leaves of the entries: the lists without one position, all bytes. */
  ghost predicate WithoutEntry<K>(s: State<K>, s': State<K>, b: nat, i: nat)
    requires b < |s.chains| && b < |s.keys| && i < |s.chains[b]| && i < |s.keys[b]|
  {
    && s'.chains == s.chains[b := Without(s.chains[b], i)] && s'.keys == s.keys[b := Without(s.keys[b], i)]
    && forall p :: p in s.heap ==> p in s'.heap && s'.heap[p].data == s.heap[p].data
  }

  lemma UnlinkShape<K(!new)>(home: K -> nat, s: State<K>, c: nat, k: K, prev: nat, p: nat, next: nat, i: nat)
    requires Inv(home, s) && c < |s.pcs| && s.pcs[c] == RemStore(k, prev, p, next, i) && home(k) < |s.flags|
    ensures Holds(home, s, k, p, i)
    ensures WithoutEntry(s, Unlink(s, c, home(k), k, prev, p, next, i), home(k), i)
  {
    UnlinkBuckets(home, s, c, k, prev, p, next, i);
    assert ClientOk(home, s, c) && WalkOk(home, s, s.pcs[c]);
  }

  lemma UnlinkDeletes<K(!new)>(home: K -> nat, s: State<K>, s': State<K>, k: K, p: nat, i: nat, m: map<K, nat>)
    requires Inv(home, s) && Stands(home, s, m) && Holds(home, s, k, p, i)
    requires WithoutEntry(s, s', home(k), i)
    ensures Stands(home, s', m - {k})
  {
    forall b: nat, j: nat ensures EntryAt(s', m - {k}, b, j) {
      UnlinkedEntry(home, s, s', k, p, i, m, b, j);
    }
    assert BucketOk(s, home(k));
    forall q | q in m - {k} ensures home(q) < |s'.keys| && q in s'.keys[home(q)] {
      assert q in s.keys[home(q)];
      if home(q) == home(k) { WithoutKeeps(s.keys[home(k)], i, q); }
    }
  }

  lemma UnlinkSimulates<K(!new)>(home: K -> nat, s: State<K>, c: nat, k: K, prev: nat, p: nat, next: nat, i: nat,
                                 m: map<K, nat>)
    requires Inv(home, s) && Stands(home, s, m) && c < |s.pcs| && s.pcs[c] == RemStore(k, prev, p, next, i)
    requires home(k) < |s.flags|
    ensures Stands(home, Unlink(s, c, home(k), k, prev, p, next, i), m - {k})
  {
    UnlinkShape(home, s, c, k, prev, p, next, i);
    UnlinkDeletes(home, s, Unlink(s, c, home(k), k, prev, p, next, i), k, p, i, m);
  }

  lemma UnlinkedEntry<K(!new)>(home: K -> nat, s: State<K>, s': State<K>, k: K, p: nat, i: nat, m: map<K, nat>,
                               b: nat, j: nat)
    requires Inv(home, s) && Stands(home, s, m) && Holds(home, s, k, p, i)
    requires WithoutEntry(s, s', home(k), i)
    ensures EntryAt(s', m - {k}, b, j)
  {
    assert BucketOk(s, b);
    if b < |s.chains| && b == home(k) {
      if j < |s.chains[b]| - 1 {
        WithoutAt(s.chains[b], i, j);
        WithoutAt(s.keys[b], i, j);
        var n := if j < i then j else j + 1;
        KeptEntry(home, s, k, i, m, n);
        assert LinkOk(home, s, b, n);
      }
    } else {
      assert EntryAt(s, m, b, j) && LinkOk(home, s, b, j);
    }
  }

  lemma KeptEntry<K(!new)>(home: K -> nat, s: State<K>, k: K, i: nat, m: map<K, nat>, n: nat)
    requires Inv(home, s) && Stands(home, s, m)
    requires home(k) < |s.chains| && i < |s.chains[home(k)]| && n < |s.chains[home(k)]| && n != i
    requires i < |s.keys[home(k)]| && s.keys[home(k)][i] == k
    ensures n < |s.keys[home(k)]| && s.keys[home(k)][n] != k && EntryAt(s, m - {k}, home(k), n)
  {
    assert BucketOk(s, home(k)) && EntryAt(s, m, home(k), n);
  }

  /** New bytes in a linked item. */
  lemma DataPuts<K(!new)>(home: K -> nat, s: State<K>, s': State<K>, k: K, p: nat, v: nat, m: map<K, nat>)
    requires Inv(home, s) && Stands(home, s, m) && p in s.heap && p !in s.held && s.heap[p].key == k
    requires s'.chains == s.chains && s'.keys == s.keys && s'.heap.Keys == s.heap.Keys
    requires forall q :: q in s.heap ==> s'.heap[q].data == if q == p then v else s.heap[q].data
    ensures Stands(home, s', m[k := v])
  {
    assert ItemOk(home, s, p);
    var b0 := home(k);
    var i0: nat :| i0 < |s.chains[b0]| && s.chains[b0][i0] == p;
    assert LinkOk(home, s, b0, i0) && BucketOk(s, b0);
    var m' := m[k := v];
    forall b: nat, i: nat ensures EntryAt(s', m', b, i) {
      assert EntryAt(s, m, b, i) && LinkOk(home, s, b, i);
    }
  }

  lemma WritePuts<K(!new)>(home: K -> nat, s: State<K>, c: nat, k: K, p: nat, i: nat, m: map<K, nat>)
    requires Inv(home, s) && Stands(home, s, m) && c < |s.pcs| && s.pcs[c] == InsWrite(k, p, i)
    ensures Stands(home, WriteValue(s, c, p, GiveFlag(k, After.Leave)), m[k := Arg(s, c)])
  {
    assert ClientOk(home, s, c) && WalkOk(home, s, s.pcs[c]);
    HoldsLinked(home, s, k, p, i);
    DataPuts(home, s, WriteValue(s, c, p, GiveFlag(k, After.Leave)), k, p, Arg(s, c), m);
  }

  lemma WriteThroughPuts<K(!new)>(home: K -> nat, s: State<K>, c: nat, k: K, p: nat, v: nat, m: map<K, nat>)
    requires Inv(home, s) && Stands(home, s, m) && c < |s.pcs| && s.pcs[c] == GuardMut(k, p)
    ensures Stands(home, WriteThrough(s, p, v), if p in s.held then m else m[k := v])
  {
    assert ClientOk(home, s, c) && GuardOk(s, s.pcs[c]);
    if p in s.held {
      Unchanged(home, s, WriteThrough(s, p, v), m);
    } else {
      DataPuts(home, s, WriteThrough(s, p, v), k, p, v, m);
    }
  }

  /** The steps that change no entry. */
  predicate Still<K>(pc: Pc<K>, a: Act<K>) {
    !pc.InsLink? && !pc.InsWrite? && !pc.RemStore? && !(pc.GuardMut? && !a.drop)
  }

  /** A call carries the value it was given when it began. */
  ghost predicate KeepsArgs<K>(s: State<K>, s': State<K>, a: Act<K>)
    requires a.c < |s.pcs|
  {
    s'.args == if s.pcs[a.c].Idle? then s.args[a.c := a.v] else s.args
  }

  /** They leave the lists, and the bytes of every block that was allocated and still is. */
  ghost predicate SameEntries<K>(s: State<K>, s': State<K>) {
    && s'.chains == s.chains && s'.keys == s.keys
    && forall p :: p in s.heap && p in s'.heap ==> s'.heap[p].data == s.heap[p].data
  }

  /** All of this, and no other client moves. */
  ghost predicate IsStill<K>(s: State<K>, s': State<K>, a: Act<K>)
    requires a.c < |s.pcs|
  {
    SameEntries(s, s') && OneMoves(s, s', a.c) && KeepsArgs(s, s', a)
  }

  lemma StillInsert<K>(home: K -> nat, s: State<K>, a: Act<K>)
    requires a.c < |s.pcs| && InInsert(s.pcs[a.c]) && Still(s.pcs[a.c], a)
    ensures IsStill(s, InsertStep(home, s, a.c, a.at), a)
  {
    InsertFrame(home, s, a.c, a.at);
  }

  lemma StillRemove<K>(home: K -> nat, s: State<K>, a: Act<K>)
    requires a.c < |s.pcs| && InRemove(s.pcs[a.c]) && Still(s.pcs[a.c], a)
    ensures IsStill(s, RemoveStep(home, s, a.c), a)
  {
    RemoveFrame(home, s, a.c);
  }

  lemma StillOutside<K>(home: K -> nat, s: State<K>, a: Act<K>)
    requires a.c < |s.pcs| && OutsideMap(s.pcs[a.c]) && Still(s.pcs[a.c], a)
    ensures IsStill(s, OutsideStep(home, s, a.c, a.call, a.drop, a.v), a)
  {
    OutsideFrame(home, s, a.c, a.call, a.drop, a.v);
  }

  lemma StillStep<K(!new)>(home: K -> nat, s: State<K>, a: Act<K>)
    requires a.c < |s.pcs| && Still(s.pcs[a.c], a)
    ensures IsStill(s, Step(home, s, a), a)
  {
    if InInsert(s.pcs[a.c]) {
      StillInsert(home, s, a);
    } else if InRemove(s.pcs[a.c]) {
      StillRemove(home, s, a);
    } else if InIter(s.pcs[a.c]) {
      IterFrame(s, a.c, a.drop);
    } else if OutsideMap(s.pcs[a.c]) {
      StillOutside(home, s, a);
    } else {
      LookupFrame(home, s, a.c);
    }
  }

  lemma StillSimulates<K(!new)>(home: K -> nat, s: State<K>, a: Act<K>, m: map<K, nat>)
    requires Inv(home, s) && Stands(home, s, m) && a.c < |s.pcs| && Still(s.pcs[a.c], a)
    ensures Stands(home, Step(home, s, a), m)
  {
    StillStep(home, s, a);
    Unchanged(home, s, Step(home, s, a), m);
  }

  ghost predicate Simulates<K(!new)>(home: K -> nat, s: State<K>, a: Act<K>, m: map<K, nat>) {
    Stands(home, Step(home, s, a), Replayed(m, EventOf(home, s, a)))
  }

  lemma LinkSimulates<K(!new)>(home: K -> nat, s: State<K>, a: Act<K>, m: map<K, nat>, k: K, p: nat)
    requires Inv(home, s) && Homes(home, |s.heads|) && Stands(home, s, m)
    requires a.c < |s.pcs| && s.pcs[a.c] == InsLink(k, p)
    ensures Simulates(home, s, a, m)
  {
    LinkPuts(home, s, a.c, k, p, m);
    assert Step(home, s, a) == Link(s, a.c, home(k), k, p);
  }

  lemma WriteSimulates<K(!new)>(home: K -> nat, s: State<K>, a: Act<K>, m: map<K, nat>, k: K, p: nat, i: nat)
    requires Inv(home, s) && Stands(home, s, m)
    requires a.c < |s.pcs| && s.pcs[a.c] == InsWrite(k, p, i)
    ensures Simulates(home, s, a, m)
  {
    WritePuts(home, s, a.c, k, p, i, m);
    assert Step(home, s, a) == WriteValue(s, a.c, p, GiveFlag(k, After.Leave));
  }

  lemma WriteThroughSimulates<K(!new)>(home: K -> nat, s: State<K>, a: Act<K>, m: map<K, nat>, k: K, p: nat)
    requires Inv(home, s) && Stands(home, s, m)
    requires a.c < |s.pcs| && s.pcs[a.c] == GuardMut(k, p) && !a.drop
    ensures Simulates(home, s, a, m)
  {
    WriteThroughPuts(home, s, a.c, k, p, a.v, m);
    assert Step(home, s, a) == WriteThrough(s, p, a.v);
  }

  lemma StoreUnlinks<K>(home: K -> nat, s: State<K>, a: Act<K>)
    requires a.c < |s.pcs| && s.pcs[a.c].RemStore?
    ensures var pc := s.pcs[a.c];
            Step(home, s, a) == Unlink(s, a.c, home(pc.k), pc.k, pc.prev, pc.p, pc.next, pc.i)
  {
  }

  lemma DeleteSimulates<K(!new)>(home: K -> nat, s: State<K>, a: Act<K>, m: map<K, nat>, k: K)
    requires Inv(home, s) && Homes(home, |s.heads|) && Stands(home, s, m)
    requires a.c < |s.pcs| && s.pcs[a.c].RemStore? && s.pcs[a.c].k == k
    ensures Simulates(home, s, a, m)
  {
    var pc := s.pcs[a.c];
    UnlinkSimulates(home, s, a.c, k, pc.prev, pc.p, pc.next, pc.i, m);
    StoreUnlinks(home, s, a);
    assert EventOf(home, s, a) == Delete(k);
  }

  lemma StillIsQuiet<K(!new)>(home: K -> nat, s: State<K>, a: Act<K>, m: map<K, nat>)
    requires Inv(home, s) && Stands(home, s, m)
    requires a.c < |s.pcs| ==> Still(s.pcs[a.c], a)
    ensures Simulates(home, s, a, m)
  {
    if a.c < |s.pcs| {
      StillSimulates(home, s, a, m);
    }
  }

  lemma StepSimulates<K(!new)>(home: K -> nat, s: State<K>, a: Act<K>, m: map<K, nat>)
    requires Inv(home, s) && Homes(home, |s.heads|) && Stands(home, s, m)
    ensures Simulates(home, s, a, m)
  {
    if a.c >= |s.pcs| || Still(s.pcs[a.c], a) {
      StillIsQuiet(home, s, a, m);
    } else {
      match s.pcs[a.c] {
        case InsLink(k, p) => LinkSimulates(home, s, a, m, k, p);
        case InsWrite(k, p, i) => WriteSimulates(home, s, a, m, k, p, i);
        case GuardMut(k, p) => WriteThroughSimulates(home, s, a, m, k, p);
        case RemStore(k, _, _, _, _) => DeleteSimulates(home, s, a, m, k);
      }
    }
  }

  lemma {:induction false} RunSimulates<K(!new)>(home: K -> nat, s: State<K>, sched: seq<Act<K>>, m: map<K, nat>)
    requires Inv(home, s) && Homes(home, |s.heads|) && Stands(home, s, m)
    ensures Inv(home, Exec(home, s, sched))
    ensures Stands(home, Exec(home, s, sched), ReplayAll(m, Events(home, s, sched)))
    decreases sched
  {
    if sched != [] {
      StepSimulates(home, s, sched[0], m);
      StepKeepsInv(home, s, sched[0]);
      RunSimulates(home, Step(home, s, sched[0]), sched[1..], Replayed(m, EventOf(home, s, sched[0])));
      assert Events(home, s, sched)[1..] == Events(home, Step(home, s, sched[0]), sched[1..]);
    }
  }

  /** The map that a run has built up, from its events alone. */
  ghost function Built<K(!new)>(home: K -> nat, buckets: nat, clients: nat, sched: seq<Act<K>>): map<K, nat> {
    ReplayAll(map[], Events(home, Init<K>(buckets, clients), sched))
  }

  /** Every run is a run of a mathematical map: read at the steps that link, write and unlink. */
  lemma {:induction false} AtomicHashMapIsAMap<K(!new)>(home: K -> nat, buckets: nat, clients: nat, sched: seq<Act<K>>)
    requires Homes(home, buckets)
    ensures Inv(home, Run(home, buckets, clients, sched))
    ensures Stands(home, Run(home, buckets, clients, sched), Built(home, buckets, clients, sched))
  {
    InitIsSafe(home, buckets, clients);
    RunSimulates(home, Init<K>(buckets, clients), sched, map[]);
  }

  // ---- what the operations answer ----

  lemma LinkedIsEntry<K(!new)>(home: K -> nat, s: State<K>, m: map<K, nat>, p: nat)
    requires Inv(home, s) && Stands(home, s, m) && p in s.heap && p !in s.held
    ensures s.heap[p].key in m && m[s.heap[p].key] == s.heap[p].data
  {
    assert ItemOk(home, s, p);
    var b := home(s.heap[p].key);
    var i: nat :| i < |s.chains[b]| && s.chains[b][i] == p;
    assert LinkOk(home, s, b, i) && EntryAt(s, m, b, i) && BucketOk(s, b);
  }

  /** The step at which a lookup decides answers from the map of that moment: no entry, or the item
      that has the entry's value. */
  lemma LookupAnswersFromTheMap<K(!new)>(home: K -> nat, buckets: nat, clients: nat, sched: seq<Act<K>>, a: Act<K>)
    requires Homes(home, buckets)
    requires var s := Run(home, buckets, clients, sched); a.c < |s.pcs| && s.pcs[a.c].Walk?
    ensures var s, m := Run(home, buckets, clients, sched), Built(home, buckets, clients, sched);
            var pc := s.pcs[a.c];
            var pc' := Step(home, s, a).pcs[a.c];
            && (pc' == NotFound(pc.op, pc.k, pc.head) ==> pc.k !in m)
            && (pc' == Found(pc.op, pc.k, pc.prev, pc.cur, pc.i) ==>
                pc.cur in s.heap && pc.k in m && m[pc.k] == s.heap[pc.cur].data)
  {
    AtomicHashMapIsAMap(home, buckets, clients, sched);
    LookupIsExact(home, buckets, clients, sched, a);
    var s := Run(home, buckets, clients, sched);
    var pc := s.pcs[a.c];
    if Step(home, s, a).pcs[a.c] == Found(pc.op, pc.k, pc.prev, pc.cur, pc.i) {
      HoldsLinked(home, s, pc.k, pc.cur, pc.i);
      LinkedIsEntry(home, s, Built(home, buckets, clients, sched), pc.cur);
    }
  }

  /** A remove unlinks the item that has the entry of its key. */
  lemma RemoveTakesTheEntry<K(!new)>(home: K -> nat, buckets: nat, clients: nat, sched: seq<Act<K>>, c: nat)
    requires Homes(home, buckets)
    requires var s := Run(home, buckets, clients, sched); c < |s.pcs| && s.pcs[c].RemStore?
    ensures var s, m := Run(home, buckets, clients, sched), Built(home, buckets, clients, sched);
            var pc := s.pcs[c];
            pc.p in s.heap && pc.k in m && m[pc.k] == s.heap[pc.p].data
  {
    AtomicHashMapIsAMap(home, buckets, clients, sched);
    var s := Run(home, buckets, clients, sched);
    assert ClientOk(home, s, c);
    HoldsLinked(home, s, s.pcs[c].k, s.pcs[c].p, s.pcs[c].i);
    LinkedIsEntry(home, s, Built(home, buckets, clients, sched), s.pcs[c].p);
  }

  /** An iterator reads entries of the map. */
  lemma IteratorReadsEntries<K(!new)>(home: K -> nat, buckets: nat, clients: nat, sched: seq<Act<K>>, c: nat)
    requires Homes(home, buckets)
    requires var s := Run(home, buckets, clients, sched); c < |s.pcs| && s.pcs[c].IterRead?
    ensures var s, m := Run(home, buckets, clients, sched), Built(home, buckets, clients, sched);
            var cur := s.pcs[c].cur;
            cur in s.heap && s.heap[cur].key in m && m[s.heap[cur].key] == s.heap[cur].data
  {
    AtomicHashMapIsAMap(home, buckets, clients, sched);
    var s := Run(home, buckets, clients, sched);
    assert ClientOk(home, s, c) && IterOk(s, s.pcs[c]) && LinkOk(home, s, s.pcs[c].b, s.pcs[c].i);
    LinkedIsEntry(home, s, Built(home, buckets, clients, sched), s.pcs[c].cur);
  }

  // ---- values under guards ----

  /** A step that writes the value of item `q`. */
  predicate WritesTo<K>(pc: Pc<K>, a: Act<K>, q: nat) {
    (pc.InsWrite? && pc.p == q) || (pc.GuardMut? && !a.drop && pc.p == q)
  }

  /** One client has moved, and what the value of `q` says is the same for as long as `q` lives. */
  ghost predicate Spares<K>(s: State<K>, s': State<K>, a: Act<K>, q: nat)
    requires a.c < |s.pcs|
  {
    && OneMoves(s, s', a.c) && KeepsArgs(s, s', a)
    && (q in s.heap && q in s'.heap ==> s'.heap[q].data == s.heap[q].data)
  }

  lemma StepKeepsData<K(!new)>(home: K -> nat, s: State<K>, a: Act<K>, q: nat)
    requires Inv(home, s) && Homes(home, |s.heads|) && a.c < |s.pcs| && !WritesTo(s.pcs[a.c], a, q)
    ensures Spares(s, Step(home, s, a), a, q)
  {
    if Still(s.pcs[a.c], a) {
      StillStep(home, s, a);
    } else {
      match s.pcs[a.c] {
        case InsLink(k, p) =>
          assert Step(home, s, a) == Link(s, a.c, home(k), k, p);
        case InsWrite(k, p, _) =>
          assert Step(home, s, a) == WriteValue(s, a.c, p, GiveFlag(k, After.Leave));
        case GuardMut(_, p) =>
          assert Step(home, s, a) == WriteThrough(s, p, a.v);
        case RemStore(_, _, _, _, _) =>
          UnlinkSpares(home, s, a, q);
      }
    }
  }

  lemma UnlinkSpares<K(!new)>(home: K -> nat, s: State<K>, a: Act<K>, q: nat)
    requires Inv(home, s) && Homes(home, |s.heads|) && a.c < |s.pcs| && s.pcs[a.c].RemStore?
    ensures Spares(s, Step(home, s, a), a, q)
  {
    var pc := s.pcs[a.c];
    UnlinkShape(home, s, a.c, pc.k, pc.prev, pc.p, pc.next, pc.i);
    StoreUnlinks(home, s, a);
  }

  /** While a client has a guard on an item, shared or mutable, no step of another client changes
      what the value says, or that it is there. */
  lemma GuardedValueIsStable<K(!new)>(home: K -> nat, s: State<K>, d: nat, a: Act<K>)
    requires Inv(home, s) && Homes(home, |s.heads|)
    requires d < |s.pcs| && a.c != d && Guarded(s.pcs[d]).Some?
    ensures var p := Guarded(s.pcs[d]).value;
            var s' := Step(home, s, a);
            && p in s.heap && p in s'.heap && s'.heap[p].data == s.heap[p].data && s'.heap[p].value.Present?
            && d < |s'.pcs| && s'.pcs[d] == s.pcs[d]
  {
    var p := Guarded(s.pcs[d]).value;
    assert ClientOk(home, s, d) && GuardOk(s, s.pcs[d]);
    StepKeepsInv(home, s, a);
    if a.c < |s.pcs| {
      WriterIsElsewhere(home, s, d, a);
      StepKeepsData(home, s, a, p);
      assert ClientOk(home, Step(home, s, a), d) && GuardOk(Step(home, s, a), s.pcs[d]);
    }
  }

  /** So for as long as a guard lives it sees one value, or its own writes. */
  lemma {:induction false} GuardedValueStays<K(!new)>(home: K -> nat, s: State<K>, d: nat, acts: seq<Act<K>>)
    requires Inv(home, s) && Homes(home, |s.heads|)
    requires d < |s.pcs| && Guarded(s.pcs[d]).Some? && forall a :: a in acts ==> a.c != d
    ensures var p := Guarded(s.pcs[d]).value;
            var s' := Exec(home, s, acts);
            && p in s.heap && p in s'.heap && s'.heap[p].data == s.heap[p].data && s'.heap[p].value.Present?
            && d < |s'.pcs| && s'.pcs[d] == s.pcs[d]
    decreases acts
  {
    assert ClientOk(home, s, d) && GuardOk(s, s.pcs[d]);
    if acts != [] {
      assert acts[0].c != d;
      GuardedValueIsStable(home, s, d, acts[0]);
      StepKeepsInv(home, s, acts[0]);
      GuardedValueStays(home, Step(home, s, acts[0]), d, acts[1..]);
    }
  }

  /** What another client writes is not the guarded item. */
  lemma WriterIsElsewhere<K(!new)>(home: K -> nat, s: State<K>, d: nat, a: Act<K>)
    requires Inv(home, s) && Homes(home, |s.heads|) && a.c < |s.pcs|
    requires d < |s.pcs| && a.c != d && Guarded(s.pcs[d]).Some?
    ensures !WritesTo(s.pcs[a.c], a, Guarded(s.pcs[d]).value)
  {
    var pc := s.pcs[a.c];
    if pc.InsWrite? {
      InsertWritesElsewhere(home, s, d, a.c, pc.k, pc.p, pc.i);
    } else if pc.GuardMut? {
      GuardWritesElsewhere(home, s, d, a.c, pc.k, pc.p);
    }
  }

  lemma InsertWritesElsewhere<K(!new)>(home: K -> nat, s: State<K>, d: nat, c: nat, k: K, p: nat, i: nat)
    requires Inv(home, s) && c < |s.pcs| && s.pcs[c] == InsWrite(k, p, i)
    requires d < |s.pcs| && Guarded(s.pcs[d]).Some?
    ensures Guarded(s.pcs[d]).value != p
  {
    assert ClientOk(home, s, d) && GuardOk(s, s.pcs[d]) && ClientOk(home, s, c);
    HoldsLinked(home, s, k, p, i);
    assert WriteOk(home, s, c, d);
  }

  lemma GuardWritesElsewhere<K(!new)>(home: K -> nat, s: State<K>, d: nat, c: nat, k: K, p: nat)
    requires Inv(home, s) && Homes(home, |s.heads|) && c < |s.pcs| && s.pcs[c] == GuardMut(k, p)
    requires d < |s.pcs| && d != c && Guarded(s.pcs[d]).Some?
    ensures Guarded(s.pcs[d]).value != p
  {
    assert ClientOk(home, s, d) && GuardOk(s, s.pcs[d]) && ClientOk(home, s, c) && GuardOk(s, s.pcs[c]);
    if Bucket(home, s.pcs[c]) == Bucket(home, s.pcs[d]) { NoGuard(home, s, c, d); }
  }
}
