/** The map in every run of its clients. */
module MapSafety {
  import opened Words
  import opened Tally
  import opened MapFrames
  import opened MapMachine
  import opened MapInvariant
  import opened MapLocks
  import opened MapMemory
  import opened MapSteps
  import opened Wrappers

  lemma InsertKeepsInv<K(!new)>(home: K -> nat, s: State<K>, c: nat, at: nat)
    requires Inv(home, s) && Homes(home, |s.heads|) && c < |s.pcs| && InInsert(s.pcs[c])
    ensures Inv(home, InsertStep(home, s, c, at))
  {
    match s.pcs[c] {
      case InsRef(k, p, i) => InsRefStep(home, s, c, k, p, i);
      case InsDrop(k, p, i) => InsDropStep(home, s, c, k, p, i);
      case InsUnref(k, p, i) => InsUnrefStep(home, s, c, k, p, i);
      case InsWrite(k, p, i) => InsWriteStep(home, s, c, k, p, i);
      case InsAlloc(k, head) => InsAllocStep(home, s, c, k, head, at);
      case InsLink(k, p) => InsLinkStep(home, s, c, k, p);
      case AddLen(k) => AddLenStep(home, s, c, k);
    }
  }

  lemma RemoveKeepsInv<K(!new)>(home: K -> nat, s: State<K>, c: nat)
    requires Inv(home, s) && Homes(home, |s.heads|) && c < |s.pcs| && InRemove(s.pcs[c])
    ensures Inv(home, RemoveStep(home, s, c))
  {
    match s.pcs[c] {
      case RemNext(k, prev, p, i) => RemNextStep(home, s, c, k, prev, p, i);
      case RemStore(k, prev, p, next, i) => RemStoreStep(home, s, c, k, prev, p, next, i);
      case SubLen(k, p) => SubLenStep(home, s, c, k, p);
      case FreeLock(k, p) => FreeLockStep(home, s, c, k, p);
      case FreeItem(k, p) => FreeItemStep(home, s, c, k, p);
      case FreeUnlock(k, v) => FreeUnlockStep(home, s, c, k, v);
    }
  }

  lemma IterKeepsInv<K(!new)>(home: K -> nat, s: State<K>, c: nat, drop: bool)
    requires Inv(home, s) && c < |s.pcs| && InIter(s.pcs[c])
    ensures Inv(home, IterStep(s, c, drop))
  {
    match s.pcs[c] {
      case IterLock => IterLockStep(home, s, c);
      case IterAdvance(b, out) => AdvanceStep(home, s, c, b, out);
      case IterReady(b, cur, i, out) =>
        if drop {
          IterDropStep(home, s, c);
        } else if b < |s.heads| && cur != NULL {
          WaitStep(home, s, c, b, cur, i, out);
        }
      case IterWait(b, cur, i, out) =>
        if b < |s.refs| && s.refs[b].Free? { ReadStep(home, s, c, b, cur, i, out); }
      case IterRead(b, cur, i, out) => YieldStep(home, s, c, b, cur, i, out);
    }
  }

  lemma OutsideKeepsInv<K(!new)>(home: K -> nat, s: State<K>, c: nat, call: Call<K>, drop: bool, v: nat)
    requires Inv(home, s) && Homes(home, |s.heads|) && c < |s.pcs| && OutsideMap(s.pcs[c])
    ensures Inv(home, OutsideStep(home, s, c, call, drop, v))
  {
    match s.pcs[c] {
      case Idle => CallStep(home, s, c, call, v);
      case MapLock(op, k) => EnterStep(home, s, c, op, k);
      case GuardRef(k, p) => GuardDropStep(home, s, c, k, p);
      case GuardMut(k, p) =>
        if drop {
          GuardDropStep(home, s, c, k, p);
        } else {
          WriteThroughStep(home, s, c, k, p, v);
        }
    }
  }

  lemma LookupKeepsInv<K(!new)>(home: K -> nat, s: State<K>, c: nat)
    requires Inv(home, s) && Homes(home, |s.heads|) && c < |s.pcs|
    requires !InInsert(s.pcs[c]) && !InRemove(s.pcs[c]) && !InIter(s.pcs[c]) && !OutsideMap(s.pcs[c])
    ensures Inv(home, LookupStep(home, s, c))
  {
    match s.pcs[c] {
      case TakeFlag(op, k) => if s.flags[home(k)].None? { TakeFlagStep(home, s, c, op, k); }
      case LoadHead(op, k) => LoadHeadStep(home, s, c, op, k);
      case Walk(op, k, head, prev, cur, i) => WalkStep(home, s, c, op, k, head, prev, cur, i);
      case GuardLock(k, p, i, exclusive) => GuardLockStep(home, s, c, k, p, i, exclusive);
      case GiveFlag(k, after) => GiveFlagStep(home, s, c, k, after);
      case MapUnlock(k, after) => LeaveStep(home, s, c, k, after);
    }
  }

  lemma StepKeepsInv<K(!new)>(home: K -> nat, s: State<K>, a: Act<K>)
    requires Inv(home, s) && Homes(home, |s.heads|)
    ensures Inv(home, Step(home, s, a))
  {
    if a.c < |s.pcs| {
      if InInsert(s.pcs[a.c]) {
        InsertKeepsInv(home, s, a.c, a.at);
      } else if InRemove(s.pcs[a.c]) {
        RemoveKeepsInv(home, s, a.c);
      } else if InIter(s.pcs[a.c]) {
        IterKeepsInv(home, s, a.c, a.drop);
      } else if OutsideMap(s.pcs[a.c]) {
        OutsideKeepsInv(home, s, a.c, a.call, a.drop, a.v);
      } else {
        LookupKeepsInv(home, s, a.c);
      }
    }
  }

  lemma {:induction false} RunKeepsInv<K(!new)>(home: K -> nat, s: State<K>, sched: seq<Act<K>>)
    requires Inv(home, s) && Homes(home, |s.heads|)
    ensures Inv(home, Exec(home, s, sched)) && |Exec(home, s, sched).heads| == |s.heads|
    decreases sched
  {
    if sched != [] {
      StepKeepsInv(home, s, sched[0]);
      RunKeepsInv(home, Step(home, s, sched[0]), sched[1..]);
    }
  }

  /** The state a map with `buckets` buckets and `clients` clients has reached. */
  function Run<K(==)>(home: K -> nat, buckets: nat, clients: nat, sched: seq<Act<K>>): State<K> {
    Exec(home, Init(buckets, clients), sched)
  }

  lemma RunIsSafe<K(!new)>(home: K -> nat, buckets: nat, clients: nat, sched: seq<Act<K>>)
    requires Homes(home, buckets)
    ensures Inv(home, Run(home, buckets, clients, sched))
    ensures |Run(home, buckets, clients, sched).heads| == buckets
  {
    InitIsSafe(home, buckets, clients);
    RunKeepsInv(home, Init<K>(buckets, clients), sched);
  }

  // ---- what follows ----

  /** No client ever reads, drops, overwrites or frees an item that is not allocated, drops a
      value twice, overwrites one it has not dropped, or unlocks what it does not hold. */
  lemma NothingGoesWrong<K(!new)>(home: K -> nat, buckets: nat, clients: nat, sched: seq<Act<K>>)
    requires Homes(home, buckets)
    ensures !Run(home, buckets, clients, sched).crashed
  {
    RunIsSafe(home, buckets, clients, sched);
  }

  /** A client is about to drop, overwrite or free an item of its bucket. */
  predicate Destroys<K>(pc: Pc<K>) {
    pc.InsDrop? || pc.InsUnref? || pc.InsWrite? || pc.FreeItem?
  }

  /** No guard on any item of a bucket lives while an item of it is freed or its value is
      dropped or written, although an insert writes after it has given up the guard lock and a
      remove frees after it has given up the bucket flag. */
  lemma DestroyedUnguarded<K(!new)>(home: K -> nat, buckets: nat, clients: nat, sched: seq<Act<K>>, c: nat, d: nat)
    requires Homes(home, buckets)
    requires var s := Run(home, buckets, clients, sched);
             c < |s.pcs| && d < |s.pcs| && Destroys(s.pcs[c]) && Guarded(s.pcs[d]).Some?
    ensures var s := Run(home, buckets, clients, sched);
            Bucket(home, s.pcs[c]) != Bucket(home, s.pcs[d])
  {
    RunIsSafe(home, buckets, clients, sched);
    var s := Run(home, buckets, clients, sched);
    assert WriteOk(home, s, c, d);
    if !s.pcs[c].InsWrite? && Bucket(home, s.pcs[c]) == Bucket(home, s.pcs[d]) {
      NoGuard(home, s, c, d);
    }
  }

  /** From the moment its lock is taken to the moment it is dropped, a guard is on an allocated
      item with its key and its value. */
  lemma GuardsAreValid<K(!new)>(home: K -> nat, buckets: nat, clients: nat, sched: seq<Act<K>>, d: nat)
    requires Homes(home, buckets)
    requires var s := Run(home, buckets, clients, sched); d < |s.pcs| && Guarded(s.pcs[d]).Some?
    ensures var s := Run(home, buckets, clients, sched);
            var p := Guarded(s.pcs[d]).value;
            p in s.heap && s.heap[p].key == s.pcs[d].k && s.heap[p].value.Present?
  {
    RunIsSafe(home, buckets, clients, sched);
    var s := Run(home, buckets, clients, sched);
    assert ClientOk(home, s, d) && GuardOk(s, s.pcs[d]);
  }

  /** A WatchGuardMut is the only guard on its bucket. */
  lemma MutGuardsAreAlone<K(!new)>(home: K -> nat, buckets: nat, clients: nat, sched: seq<Act<K>>, c: nat, d: nat)
    requires Homes(home, buckets)
    requires var s := Run(home, buckets, clients, sched);
             c < |s.pcs| && d < |s.pcs| && c != d && s.pcs[c].GuardMut? && Guarded(s.pcs[d]).Some?
    ensures var s := Run(home, buckets, clients, sched);
            Bucket(home, s.pcs[c]) != Bucket(home, s.pcs[d])
  {
    RunIsSafe(home, buckets, clients, sched);
    var s := Run(home, buckets, clients, sched);
    if Bucket(home, s.pcs[c]) == Bucket(home, s.pcs[d]) {
      NoGuard(home, s, c, d);
    }
  }

  /** Every allocated item is linked in the bucket of its key or in the hand of one client, and
      not both: nothing leaks. */
  lemma NothingIsLost<K(!new)>(home: K -> nat, buckets: nat, clients: nat, sched: seq<Act<K>>, p: nat)
    requires Homes(home, buckets)
    requires p in Run(home, buckets, clients, sched).heap
    ensures var s := Run(home, buckets, clients, sched);
            var b := home(s.heap[p].key);
            && b < |s.chains| && (p in s.chains[b] <==> !exists c: nat :: c < |s.pcs| && Hand(s.pcs[c]) == Some(p))
            && forall c: nat, d: nat ::
                 c < |s.pcs| && d < |s.pcs| && Hand(s.pcs[c]) == Some(p) && Hand(s.pcs[d]) == Some(p) ==> c == d
  {
    RunIsSafe(home, buckets, clients, sched);
    var s := Run(home, buckets, clients, sched);
    var b := home(s.heap[p].key);
    assert ItemOk(home, s, p);
    if p in s.held {
      assert Hand(s.pcs[s.held[p]]) == Some(p);
    }
    if p in s.chains[b] {
      var i: nat :| i < |s.chains[b]| && s.chains[b][i] == p;
      assert LinkOk(home, s, b, i);
    }
    forall c: nat | c < |s.pcs| && Hand(s.pcs[c]) == Some(p) ensures p in s.held && s.held[p] == c {
      assert ClientOk(home, s, c) && HandOk(s, c, s.pcs[c]);
    }
  }

  /** Whatever is going on, the lists are lists: each starts at its head, follows the links, ends,
      and holds every key at most once and in its own bucket. */
  lemma ListsAreWellFormed<K(!new)>(home: K -> nat, buckets: nat, clients: nat, sched: seq<Act<K>>,
                                    b: nat, i: nat, j: nat)
    requires Homes(home, buckets) && b < buckets
    ensures var s := Run(home, buckets, clients, sched);
            && b < |s.chains| == |s.heads| && s.heads[b] == At(s.chains[b], 0)
            && (i < |s.chains[b]| ==>
                var p := s.chains[b][i];
                p in s.heap && s.heap[p].next == At(s.chains[b], i + 1) && home(s.heap[p].key) == b)
            && (i < j < |s.chains[b]| ==>
                && s.chains[b][i] in s.heap && s.chains[b][j] in s.heap
                && s.heap[s.chains[b][i]].key != s.heap[s.chains[b][j]].key)
  {
    RunIsSafe(home, buckets, clients, sched);
    var s := Run(home, buckets, clients, sched);
    assert BucketOk(s, b) && LinkOk(home, s, b, i) && LinkOk(home, s, b, j);
  }

  lemma WalkDecides<K(!new)>(home: K -> nat, s: State<K>, c: nat, pc: Pc<K>)
    requires Inv(home, s) && c < |s.pcs| && s.pcs[c] == pc && pc.Walk?
    ensures var pc' := WalkOn(s, c, pc.op, pc.k, pc.head, pc.prev, pc.cur, pc.i).pcs[c];
            && (pc' == NotFound(pc.op, pc.k, pc.head) ==> Absent(home, s, pc.k))
            && (pc' == Found(pc.op, pc.k, pc.prev, pc.cur, pc.i) ==> Holds(home, s, pc.k, pc.cur, pc.i))
            && (pc'.Walk? || pc' == NotFound(pc.op, pc.k, pc.head) || pc' == Found(pc.op, pc.k, pc.prev, pc.cur, pc.i))
  {
    assert ClientOk(home, s, c) && WalkOk(home, s, pc);
    WalkFacts(home, s, c, pc.op, pc.k, pc.head, pc.prev, pc.cur, pc.i);
  }

  /** What a lookup decides is true of the list at that moment, whatever the others do: it finds
      the linked item of its key, or there is none. */
  lemma LookupIsExact<K(!new)>(home: K -> nat, buckets: nat, clients: nat, sched: seq<Act<K>>, a: Act<K>)
    requires Homes(home, buckets)
    requires var s := Run(home, buckets, clients, sched); a.c < |s.pcs| && s.pcs[a.c].Walk?
    ensures var s := Run(home, buckets, clients, sched);
            var pc := s.pcs[a.c];
            var pc' := Step(home, s, a).pcs[a.c];
            && (pc' == NotFound(pc.op, pc.k, pc.head) ==> Absent(home, s, pc.k))
            && (pc' == Found(pc.op, pc.k, pc.prev, pc.cur, pc.i) ==> Holds(home, s, pc.k, pc.cur, pc.i))
            && (pc'.Walk? || pc' == NotFound(pc.op, pc.k, pc.head) || pc' == Found(pc.op, pc.k, pc.prev, pc.cur, pc.i))
  {
    RunIsSafe(home, buckets, clients, sched);
    var s := Run(home, buckets, clients, sched);
    WalkDecides(home, s, a.c, s.pcs[a.c]);
  }

  // ---- the counter ----

  /** `len` is the number of linked items, minus those linked and not yet counted, plus those
      unlinked and not yet subtracted, modulo the word size. */
  lemma LenIsAccounted<K(!new)>(home: K -> nat, buckets: nat, clients: nat, sched: seq<Act<K>>)
    requires Homes(home, buckets)
    ensures var s := Run(home, buckets, clients, sched);
            s.len == (Sum(Length, s.chains) - Sum<Pc<K>>(Uncounted, s.pcs) + Sum<Pc<K>>(Undiscounted, s.pcs)) % WORD
  {
    RunIsSafe(home, buckets, clients, sched);
  }

  /** `len` is that number itself if and only if the number fits in a word, so not when more links
      are uncounted than there are items linked or not yet subtracted: then `len` has wrapped. */
  lemma LenIsExactIff<K(!new)>(home: K -> nat, buckets: nat, clients: nat, sched: seq<Act<K>>)
    requires Homes(home, buckets)
    ensures var s := Run(home, buckets, clients, sched);
            var present := Sum(Length, s.chains) + Sum<Pc<K>>(Undiscounted, s.pcs);
            var pending := Sum<Pc<K>>(Uncounted, s.pcs);
            && (s.len == present - pending <==> pending <= present < pending + WORD)
            && (Balance(s) < 0 <==> pending > present)
            && (pending > present && clients <= WORD ==> s.len == WORD - (pending - present))
  {
    RunIsSafe(home, buckets, clients, sched);
    var s := Run(home, buckets, clients, sched);
    SumBounded<Pc<K>>(Uncounted, s.pcs);
    ClientsStay(home, Init<K>(buckets, clients), sched);
  }

  lemma {:induction false} ClientsStay<K>(home: K -> nat, s: State<K>, sched: seq<Act<K>>)
    ensures |Exec(home, s, sched).pcs| == |s.pcs|
    decreases sched
  {
    if sched != [] {
      ClientsStay(home, Step(home, s, sched[0]), sched[1..]);
    }
  }

  /** With no operation in flight `len` is the number of linked items. */
  lemma LenAtRest<K(!new)>(home: K -> nat, s: State<K>)
    requires Inv(home, s)
    requires forall c: nat :: c < |s.pcs| ==> MapMode(s.pcs[c]) != Shared
    ensures s.len == Sum(Length, s.chains) % WORD
  {
    forall c | 0 <= c < |s.pcs| ensures Uncounted(s.pcs[c]) == 0 == Undiscounted(s.pcs[c]) {
      assert MapMode(s.pcs[c]) != Shared;
    }
    SumOfZeros<Pc<K>>(Uncounted, s.pcs);
    SumOfZeros<Pc<K>>(Undiscounted, s.pcs);
  }

  // ---- iteration ----

  /** All but what the bytes of values say. */
  ghost predicate SameList<K>(s: State<K>, s': State<K>) {
    && s'.chains == s.chains && s'.keys == s.keys && s'.heads == s.heads && s'.len == s.len
    && forall p :: (p in s'.heap <==> p in s.heap)
                   && (p in s.heap ==> (s'.heap[p].key, s'.heap[p].next, s'.heap[p].value)
                                       == (s.heap[p].key, s.heap[p].next, s.heap[p].value))
  }

  /** All that a client can do which is not inside the map-wide lock. */
  lemma OutsiderStep<K(!new)>(home: K -> nat, s: State<K>, a: Act<K>)
    requires a.c < |s.pcs| && MapMode(s.pcs[a.c]) == Nowhere
    ensures var s' := Step(home, s, a);
            && OneMoves(s, s', a.c)
            && if s.pcs[a.c].GuardMut? && !a.drop then s' == WriteThrough(s, s.pcs[a.c].p, a.v)
               else OnlyLocks(s.(args := s'.args), s')
  {
    if OutsideMap(s.pcs[a.c]) {
      OutsideFrame(home, s, a.c, a.call, a.drop, a.v);
    } else {
      IterFrame(s, a.c, a.drop);
    }
  }

  /** While a client has an iterator no step of another client changes a list, a link, the counter,
      or a value of the bucket whose entry is being read; values elsewhere change only through
      mutable guards that are older than the iterator. */
  lemma IteratorFreezesTheMap<K(!new)>(home: K -> nat, s: State<K>, c: nat, a: Act<K>)
    requires Inv(home, s) && Homes(home, |s.heads|)
    requires c < |s.pcs| && MapMode(s.pcs[c]) == Excl && a.c != c
    ensures var s' := Step(home, s, a);
            && SameList(s, s') && c < |s'.pcs| && s'.pcs[c] == s.pcs[c]
            && (s'.heap != s.heap ==> a.c < |s.pcs| && s.pcs[a.c].GuardMut?)
            && (s.pcs[c].IterRead? ==>
                forall p :: p in s.heap && home(s.heap[p].key) == s.pcs[c].b ==> s'.heap[p] == s.heap[p])
  {
    if a.c < |s.pcs| {
      NoOperation(home, s, c, a.c);
      OutsiderStep(home, s, a);
      if s.pcs[a.c].GuardMut? && s.pcs[c].IterRead? {
        assert ClientOk(home, s, a.c) && GuardOk(s, s.pcs[a.c]);
        assert IterFree(s, c) && RefOk(home, s, s.pcs[c].b, a.c);
      }
    }
  }

  /** While an iterator reads an entry there is no guard on its bucket, exclusive or shared, the
      entry is linked and its value is there. */
  lemma IteratorReadsUnguarded<K(!new)>(home: K -> nat, buckets: nat, clients: nat, sched: seq<Act<K>>, c: nat, d: nat)
    requires Homes(home, buckets)
    requires var s := Run(home, buckets, clients, sched); c < |s.pcs| && d < |s.pcs| && s.pcs[c].IterRead?
    ensures var s := Run(home, buckets, clients, sched);
            && (Guarded(s.pcs[d]).Some? ==> Bucket(home, s.pcs[d]) != s.pcs[c].b)
            && s.pcs[c].cur in s.heap && s.heap[s.pcs[c].cur].value.Present?
  {
    RunIsSafe(home, buckets, clients, sched);
    var s := Run(home, buckets, clients, sched);
    var pc := s.pcs[c];
    assert IterFree(s, c) && ClientOk(home, s, c) && IterOk(s, pc);
    assert LinkOk(home, s, pc.b, pc.i) && ItemOk(home, s, pc.cur);
    if s.heap[pc.cur].value.Dropped? {
      NoOperation(home, s, c, s.heap[pc.cur].value.who);
      assert false;
    }
    if Guarded(s.pcs[d]).Some? && Bucket(home, s.pcs[d]) == pc.b {
      assert RefOk(home, s, pc.b, d);
      GuardedHolds(home, s.pcs[d]);
    }
  }

  lemma {:induction false} ListedLength(chains: seq<seq<nat>>, n: nat)
    requires n <= |chains|
    ensures |Listed(chains, n)| == Sum(Length, chains[..n])
  {
    if n > 0 {
      ListedLength(chains, n - 1);
      SumAppend(chains[..n - 1], chains[n - 1]);
      assert chains[..n] == chains[..n - 1] + [chains[n - 1]];
    }
  }

  lemma {:induction false} SumAppend(chains: seq<seq<nat>>, chain: seq<nat>)
    ensures Sum(Length, chains + [chain]) == Sum(Length, chains) + |chain|
  {
    if chains == [] {
      assert (chains + [chain])[1..] == [];
    } else {
      assert (chains + [chain])[1..] == chains[1..] + [chain];
      SumAppend(chains[1..], chain);
    }
  }

  /** Everything in the first `n` buckets is listed at some place. */
  lemma {:induction false} ListedAll(chains: seq<seq<nat>>, n: nat, b: nat, p: nat)
    requires b < n <= |chains| && p in chains[b]
    ensures p in Listed(chains, n)
  {
    if b < n - 1 {
      ListedAll(chains, n - 1, b, p);
    }
  }

  /** What is listed comes from one of the first `n` buckets. */
  lemma {:induction false} ListedFrom(chains: seq<seq<nat>>, n: nat, p: nat) returns (b: nat)
    requires n <= |chains| && p in Listed(chains, n)
    ensures b < n && p in chains[b]
  {
    if p in chains[n - 1] {
      b := n - 1;
    } else {
      b := ListedFrom(chains, n - 1, p);
    }
  }

  /** No item is listed twice. */
  lemma {:induction false} ListedOnce<K(!new)>(home: K -> nat, s: State<K>, n: nat)
    requires Memory(home, s) && n <= |s.chains|
    ensures forall i, j :: 0 <= i < j < |Listed(s.chains, n)| ==> Listed(s.chains, n)[i] != Listed(s.chains, n)[j]
  {
    if n > 0 {
      ListedOnce(home, s, n - 1);
      var front := Listed(s.chains, n - 1);
      var all := Listed(s.chains, n);
      forall i, j | 0 <= i < j < |all| ensures all[i] != all[j] {
        if i >= |front| {
          Apart(home, s, n - 1, i - |front|, j - |front|);
        } else if j >= |front| {
          NotListedBefore(home, s, n, front[i], j - |front|);
        }
      }
    }
  }

  lemma NotListedBefore<K(!new)>(home: K -> nat, s: State<K>, n: nat, p: nat, j: nat)
    requires Memory(home, s) && 0 < n <= |s.chains| && p in Listed(s.chains, n - 1) && j < |s.chains[n - 1]|
    ensures s.chains[n - 1][j] != p
  {
    var b := ListedFrom(s.chains, n - 1, p);
    var i: nat :| i < |s.chains[b]| && s.chains[b][i] == p;
    assert LinkOk(home, s, b, i) && LinkOk(home, s, n - 1, j);
  }

  /** When an iterator has no more entries it has yielded every linked item exactly once, bucket
      by bucket in list order, and as many as `len` says. */
  lemma IterationIsExact<K(!new)>(home: K -> nat, buckets: nat, clients: nat, sched: seq<Act<K>>, c: nat)
    requires Homes(home, buckets)
    requires var s := Run(home, buckets, clients, sched);
             c < |s.pcs| && s.pcs[c].IterReady? && s.pcs[c].cur == NULL
    ensures var s := Run(home, buckets, clients, sched);
            var out := s.pcs[c].out;
            && out == Listed(s.chains, |s.chains|)
            && (forall b, p :: 0 <= b < |s.chains| && p in s.chains[b] ==> p in out)
            && (forall p :: p in out ==> p in s.heap)
            && (forall i, j :: 0 <= i < j < |out| ==> out[i] != out[j])
            && s.len == |out| % WORD
  {
    RunIsSafe(home, buckets, clients, sched);
    var s := Run(home, buckets, clients, sched);
    IteratorIsDone(home, s, c);
    var n := |s.chains|;
    forall b, p | 0 <= b < n && p in s.chains[b] ensures p in Listed(s.chains, n) {
      ListedAll(s.chains, n, b, p);
    }
    forall p | p in Listed(s.chains, n) ensures p in s.heap {
      var b := ListedFrom(s.chains, n, p);
      var i: nat :| i < |s.chains[b]| && s.chains[b][i] == p;
      assert LinkOk(home, s, b, i);
    }
    ListedOnce(home, s, n);
  }

  lemma IteratorIsDone<K(!new)>(home: K -> nat, s: State<K>, c: nat)
    requires Inv(home, s) && c < |s.pcs| && s.pcs[c].IterReady? && s.pcs[c].cur == NULL
    ensures s.pcs[c].out == Listed(s.chains, |s.chains|)
    ensures s.len == |s.pcs[c].out| % WORD
  {
    var pc := s.pcs[c];
    assert ClientOk(home, s, c) && IterOk(s, pc);
    assert LinkOk(home, s, pc.b, pc.i);
    forall d: nat | d < |s.pcs| ensures MapMode(s.pcs[d]) != Shared {
      if d != c { NoOperation(home, s, c, d); }
    }
    LenAtRest(home, s);
    ListedLength(s.chains, |s.chains|);
    assert s.chains[..|s.chains|] == s.chains;
  }
}
