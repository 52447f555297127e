/** What guards of removed items show and what remove returns. */
module MapRemoval {
  import opened MapFrames
  import opened MapMachine
  import opened MapInvariant
  import opened MapLocks
  import opened MapMemory
  import opened MapPaths
  import opened MapSafety
  import opened MapRefinement
  import opened RwLock
  import opened Wrappers

  // ---- items in a client's hand ----

  /** A client at `pc` has a guard on `p` in that mode, returned or about to be. */
  predicate GuardedIn<K>(pc: Pc<K>, p: nat, m: Mode) {
    Guarded(pc) == Some(p) && RefMode(pc) == m
  }

  ghost predicate NoGuardOn<K>(s: State<K>, p: nat, m: Mode) {
    forall d: nat :: d < |s.pcs| ==> !GuardedIn(s.pcs[d], p, m)
  }

  /** A guard comes from the item its lookup has found. */
  lemma GuardComesFrom<K>(pc: Pc<K>, pc': Pc<K>, p: nat, m: Mode)
    requires Follows(pc, pc') && GuardedIn(pc', p, m)
    ensures GuardedIn(pc, p, m) || (pc.GuardLock? && pc.p == p)
  {
    match pc'
    case GiveFlag(_, _) =>
    case MapUnlock(_, _) =>
    case GuardRef(_, _) =>
    case GuardMut(_, _) =>
  }

  /** Nobody gets a new guard on an item that is not linked. */
  lemma HandStaysUnguarded<K(!new)>(home: K -> nat, s: State<K>, a: Act<K>, p: nat, m: Mode)
    requires Inv(home, s) && Homes(home, |s.heads|) && p in s.held && NoGuardOn(s, p, m)
    ensures NoGuardOn(Step(home, s, a), p, m)
  {
    if a.c < |s.pcs| {
      var s' := Step(home, s, a);
      StepMovesOne(home, s, a);
      StepFollows(home, s, a);
      forall d: nat | d < |s'.pcs| ensures !GuardedIn(s'.pcs[d], p, m) {
        assert !GuardedIn(s.pcs[d], p, m);
        if d == a.c && GuardedIn(s'.pcs[d], p, m) {
          GuardComesFrom(s.pcs[d], s'.pcs[d], p, m);
          assert ClientOk(home, s, d);
          HoldsLinked(home, s, s.pcs[d].k, p, s.pcs[d].i);
        }
      }
    }
  }

  lemma StepMovesOne<K(!new)>(home: K -> nat, s: State<K>, a: Act<K>)
    requires Inv(home, s) && Homes(home, |s.heads|) && a.c < |s.pcs|
    ensures OneMoves(s, Step(home, s, a), a.c) && KeepsArgs(s, Step(home, s, a), a)
  {
    assert ClientOk(home, s, a.c) && GuardOk(s, s.pcs[a.c]);
    StepKeepsData(home, s, a, NULL);
  }

  /** Client `c` has `p` in its hand and nobody can write to it. */
  ghost predicate Private<K>(s: State<K>, c: nat, p: nat) {
    c < |s.pcs| && Hand(s.pcs[c]) == Some(p) && p in s.heap && NoGuardOn(s, p, Excl)
  }

  lemma PrivateKeepsData<K(!new)>(home: K -> nat, s: State<K>, a: Act<K>, c: nat, p: nat)
    requires Inv(home, s) && Homes(home, |s.heads|) && Private(s, c, p) && a.c < |s.pcs|
    ensures p in s.held && !WritesTo(s.pcs[a.c], a, p) && NoGuardOn(Step(home, s, a), p, Excl)
    ensures Spares(s, Step(home, s, a), a, p)
  {
    assert ClientOk(home, s, c) && HandOk(s, c, s.pcs[c]) && ClientOk(home, s, a.c);
    assert !GuardedIn(s.pcs[a.c], p, Excl);
    if s.pcs[a.c].InsWrite? {
      HoldsLinked(home, s, s.pcs[a.c].k, s.pcs[a.c].p, s.pcs[a.c].i);
    }
    StepKeepsData(home, s, a, p);
    HandStaysUnguarded(home, s, a, p, Excl);
  }

  /** What the others do leaves it so. */
  lemma PrivateStays<K(!new)>(home: K -> nat, s: State<K>, a: Act<K>, c: nat, p: nat)
    requires Inv(home, s) && Homes(home, |s.heads|) && Private(s, c, p) && a.c != c
    ensures var s' := Step(home, s, a);
            && Inv(home, s') && Private(s', c, p) && s'.pcs[c] == s.pcs[c] && s'.heap[p].data == s.heap[p].data
            && Arg(s', c) == Arg(s, c)
  {
    StepKeepsInv(home, s, a);
    if a.c < |s.pcs| {
      PrivateKeepsData(home, s, a, c, p);
      assert ClientOk(home, Step(home, s, a), c) && HandOk(Step(home, s, a), c, s.pcs[c]);
    }
  }

  // ---- a new item is private until it is linked ----

  /** It has the value of its call, and nobody has a guard on it. */
  ghost predicate FreshOk<K>(s: State<K>, c: nat) {
    c < |s.pcs| && s.pcs[c].InsLink? ==>
      var p := s.pcs[c].p;
      p in s.heap && s.heap[p].data == Arg(s, c) && NoGuardOn(s, p, Shared) && NoGuardOn(s, p, Excl)
  }

  ghost predicate Fresh<K>(s: State<K>) {
    forall c: nat :: FreshOk(s, c)
  }

  lemma AllocIsFresh<K(!new)>(home: K -> nat, s: State<K>, a: Act<K>)
    requires Inv(home, s) && Homes(home, |s.heads|) && a.c < |s.pcs| && s.pcs[a.c].InsAlloc?
    ensures FreshOk(Step(home, s, a), a.c)
  {
    var s' := Step(home, s, a);
    assert s' == Alloc(s, a.c, s.pcs[a.c].k, s.pcs[a.c].head, a.at);
    if s'.pcs[a.c].InsLink? {
      forall d: nat, m: Mode | d < |s'.pcs| ensures !GuardedIn(s'.pcs[d], a.at, m) {
        assert ClientOk(home, s, d) && GuardOk(s, s.pcs[d]);
      }
    }
  }

  lemma StepStaysFresh<K(!new)>(home: K -> nat, s: State<K>, a: Act<K>)
    requires Inv(home, s) && Homes(home, |s.heads|) && Fresh(s)
    ensures Fresh(Step(home, s, a))
  {
    forall c: nat ensures FreshOk(Step(home, s, a), c) {
      assert FreshOk(s, c);
      if a.c < |s.pcs| && c < |s.pcs| {
        StepMovesOne(home, s, a);
        if c != a.c && s.pcs[c].InsLink? {
          var p := s.pcs[c].p;
          PrivateStays(home, s, a, c, p);
          assert ClientOk(home, s, c) && HandOk(s, c, s.pcs[c]);
          HandStaysUnguarded(home, s, a, p, Shared);
        } else if c == a.c && s.pcs[c].InsLink? {
          assert Step(home, s, a) == Link(s, c, home(s.pcs[c].k), s.pcs[c].k, s.pcs[c].p);
        } else if c == a.c && s.pcs[c].InsAlloc? {
          AllocIsFresh(home, s, a);
        } else if c == a.c {
          StepFollows(home, s, a);
        }
      }
    }
  }

  lemma {:induction false} RunStaysFresh<K(!new)>(home: K -> nat, s: State<K>, sched: seq<Act<K>>)
    requires Inv(home, s) && Homes(home, |s.heads|) && Fresh(s)
    ensures Fresh(Exec(home, s, sched))
    decreases sched
  {
    if sched != [] {
      StepKeepsInv(home, s, sched[0]);
      StepStaysFresh(home, s, sched[0]);
      RunStaysFresh(home, Step(home, s, sched[0]), sched[1..]);
    }
  }

  lemma RunIsFresh<K(!new)>(home: K -> nat, buckets: nat, clients: nat, sched: seq<Act<K>>)
    requires Homes(home, buckets)
    ensures Fresh(Run(home, buckets, clients, sched))
  {
    InitIsSafe(home, buckets, clients);
    RunStaysFresh(home, Init<K>(buckets, clients), sched);
  }

  // ---- what a guard shows ----

  /** A remove that has unlinked `p` and not freed it. */
  predicate Removing<K>(pc: Pc<K>, p: nat) {
    Hand(pc) == Some(p) && !pc.InsLink?
  }

  ghost predicate BeingRemoved<K>(s: State<K>, p: nat) {
    exists c: nat :: c < |s.pcs| && Removing(s.pcs[c], p)
  }

  lemma HeldIffRemoved<K(!new)>(home: K -> nat, s: State<K>, d: nat, p: nat)
    requires Inv(home, s) && Fresh(s) && d < |s.pcs| && Guarded(s.pcs[d]) == Some(p)
    ensures p in s.heap && (p in s.held <==> BeingRemoved(s, p))
  {
    assert ClientOk(home, s, d) && GuardOk(s, s.pcs[d]) && ItemOk(home, s, p);
    if p in s.held {
      var c := s.held[p];
      assert FreshOk(s, c);
      assert GuardedIn(s.pcs[d], p, RefMode(s.pcs[d]));
      assert Removing(s.pcs[c], p);
    }
    if BeingRemoved(s, p) {
      var c: nat :| c < |s.pcs| && Removing(s.pcs[c], p);
      assert ClientOk(home, s, c) && HandOk(s, c, s.pcs[c]);
    }
  }

  lemma LinkedIffKept<K(!new)>(home: K -> nat, s: State<K>, p: nat)
    requires Inv(home, s) && p in s.heap
    ensures home(s.heap[p].key) < |s.chains| ==> (p in s.chains[home(s.heap[p].key)] <==> p !in s.held)
  {
    var b := home(s.heap[p].key);
    assert ItemOk(home, s, p);
    if b < |s.chains| && p in s.chains[b] {
      var i: nat :| i < |s.chains[b]| && s.chains[b][i] == p;
      assert LinkOk(home, s, b, i);
    }
  }

  /** A guard is on the linked item of its key, and shows the last value the map was given for it,
      if and only if no client is removing its item. */
  lemma GuardExposesTheEntryIff<K(!new)>(home: K -> nat, buckets: nat, clients: nat, sched: seq<Act<K>>, d: nat)
    requires Homes(home, buckets)
    requires var s := Run(home, buckets, clients, sched); d < |s.pcs| && Guarded(s.pcs[d]).Some?
    ensures var s, m := Run(home, buckets, clients, sched), Built(home, buckets, clients, sched);
            var k, p := s.pcs[d].k, Guarded(s.pcs[d]).value;
            && p in s.heap && home(k) < |s.chains|
            && (p in s.chains[home(k)] <==> !BeingRemoved(s, p))
            && (p in s.chains[home(k)] ==> k in m && m[k] == s.heap[p].data)
  {
    RunIsSafe(home, buckets, clients, sched);
    AtomicHashMapIsAMap(home, buckets, clients, sched);
    RunIsFresh(home, buckets, clients, sched);
    var s := Run(home, buckets, clients, sched);
    var p := Guarded(s.pcs[d]).value;
    assert ClientOk(home, s, d) && GuardOk(s, s.pcs[d]);
    HeldIffRemoved(home, s, d, p);
    LinkedIffKept(home, s, p);
    if p !in s.held { LinkedIsEntry(home, s, Built(home, buckets, clients, sched), p); }
  }

  // ---- what remove returns ----

  /** The value that the remove of client `c` reads during `sched` and will return. */
  function Reads<K(==)>(home: K -> nat, s: State<K>, sched: seq<Act<K>>, c: nat): Option<nat>
    decreases sched
  {
    if c < |s.pcs| && s.pcs[c].FreeUnlock? then Some(s.pcs[c].v)
    else if sched == [] then None
    else Reads(home, Step(home, s, sched[0]), sched[1..], c)
  }

  /** Whatever happens next, the remove of `c` returns `v` if it returns at all. */
  ghost predicate MustReturn<K(!new)>(home: K -> nat, s: State<K>, c: nat, v: nat) {
    forall after: seq<Act<K>> :: Reads(home, s, after, c).None? || Reads(home, s, after, c) == Some(v)
  }

  lemma RemoverMoves<K(!new)>(home: K -> nat, s: State<K>, a: Act<K>, p: nat)
    requires Inv(home, s) && Homes(home, |s.heads|) && Private(s, a.c, p) && Removing(s.pcs[a.c], p)
    ensures var s' := Step(home, s, a);
            && Inv(home, s')
            && if s'.pcs[a.c].FreeUnlock? then s'.pcs[a.c].v == s.heap[p].data
               else Private(s', a.c, p) && Removing(s'.pcs[a.c], p) && s'.heap[p].data == s.heap[p].data
  {
    StepKeepsInv(home, s, a);
    StepFollows(home, s, a);
    PrivateKeepsData(home, s, a, a.c, p);
    var s' := Step(home, s, a);
    if s.pcs[a.c].FreeItem? {
      assert s' == FreeNow(s, a.c, s.pcs[a.c].k, p);
      assert ClientOk(home, s, a.c) && HandOk(s, a.c, s.pcs[a.c]);
    } else {
      assert Hand(s'.pcs[a.c]) == Some(p);
      assert ClientOk(home, s', a.c) && HandOk(s', a.c, s'.pcs[a.c]);
    }
  }

  lemma {:induction false} UnguardedIsReturned<K(!new)>(home: K -> nat, s: State<K>, after: seq<Act<K>>, c: nat, p: nat)
    requires Inv(home, s) && Homes(home, |s.heads|) && Private(s, c, p) && Removing(s.pcs[c], p)
    ensures Reads(home, s, after, c).None? || Reads(home, s, after, c) == Some(s.heap[p].data)
    decreases after
  {
    if after != [] {
      var s' := Step(home, s, after[0]);
      if after[0].c == c {
        RemoverMoves(home, s, after[0], p);
      } else {
        PrivateStays(home, s, after[0], c, p);
      }
      if !s'.pcs[c].FreeUnlock? {
        UnguardedIsReturned(home, s', after[1..], c, p);
      }
    }
  }

  // ---- a remove that returns what a guard has written meanwhile ----

  /** The next operation of a client inside its call. */
  function Go<K>(c: nat): Act<K> {
    Act(c, Iterate, 0, true, 0)
  }

  function Write<K>(d: nat, v: nat): Act<K> {
    Act(d, Iterate, 0, false, v)
  }

  lemma ReadsLater<K(!new)>(home: K -> nat, s: State<K>, a: Act<K>, after: seq<Act<K>>, c: nat)
    requires c < |s.pcs| && !s.pcs[c].FreeUnlock?
    ensures Reads(home, s, [a] + after, c) == Reads(home, Step(home, s, a), after, c)
  {
    assert ([a] + after)[1..] == after;
  }

  lemma ReadsNow<K(!new)>(home: K -> nat, s: State<K>, c: nat, k: K, p: nat) returns (after: seq<Act<K>>)
    requires Inv(home, s) && c < |s.pcs| && s.pcs[c] == FreeItem(k, p)
    ensures p in s.heap && Reads(home, s, after, c) == Some(s.heap[p].data)
  {
    assert ClientOk(home, s, c) && HandOk(s, c, s.pcs[c]);
    assert Step(home, s, Go(c)) == FreeNow(s, c, k, p);
    after := [Go(c)] + [];
    ReadsLater(home, s, Go(c), [], c);
  }

  lemma ReadsOnceLocked<K(!new)>(home: K -> nat, s: State<K>, c: nat, k: K, p: nat) returns (after: seq<Act<K>>)
    requires Inv(home, s) && Homes(home, |s.heads|) && c < |s.pcs| && s.pcs[c] == FreeLock(k, p)
    requires home(k) < |s.refs| && s.refs[home(k)].Free?
    ensures p in s.heap && Reads(home, s, after, c) == Some(s.heap[p].data)
  {
    var s' := Step(home, s, Go(c));
    assert s' == AcquireRef(s, home(k), Event.Lock(c), FreeItem(k, p));
    StepKeepsInv(home, s, Go(c));
    var rest := ReadsNow(home, s', c, k, p);
    after := [Go(c)] + rest;
    ReadsLater(home, s, Go(c), rest, c);
  }

  lemma ReadsOnceGiven<K(!new)>(home: K -> nat, s: State<K>, c: nat, k: K, p: nat) returns (after: seq<Act<K>>)
    requires Inv(home, s) && Homes(home, |s.heads|) && c < |s.pcs| && s.pcs[c] == GiveFlag(k, After.Free(p))
    requires home(k) < |s.refs| && s.refs[home(k)].Free?
    ensures p in s.heap && Reads(home, s, after, c) == Some(s.heap[p].data)
  {
    var s' := Step(home, s, Go(c));
    assert s' == Goto(s.(flags := s.flags[home(k) := None]), c, FreeLock(k, p));
    StepKeepsInv(home, s, Go(c));
    var rest := ReadsOnceLocked(home, s', c, k, p);
    after := [Go(c)] + rest;
    ReadsLater(home, s, Go(c), rest, c);
  }

  lemma ReadsOnceCounted<K(!new)>(home: K -> nat, s: State<K>, c: nat, k: K, p: nat) returns (after: seq<Act<K>>)
    requires Inv(home, s) && Homes(home, |s.heads|) && c < |s.pcs| && s.pcs[c] == SubLen(k, p)
    requires home(k) < |s.refs| && s.refs[home(k)].Free?
    ensures p in s.heap && Reads(home, s, after, c) == Some(s.heap[p].data)
  {
    var s' := Step(home, s, Go(c));
    assert s'.refs == s.refs && s'.heap == s.heap && s'.pcs == s.pcs[c := GiveFlag(k, After.Free(p))];
    StepKeepsInv(home, s, Go(c));
    var rest := ReadsOnceGiven(home, s', c, k, p);
    after := [Go(c)] + rest;
    ReadsLater(home, s, Go(c), rest, c);
  }

  lemma ReadsOnceDropped<K(!new)>(home: K -> nat, s: State<K>, c: nat, d: nat, k: K, p: nat)
      returns (after: seq<Act<K>>)
    requires Inv(home, s) && Homes(home, |s.heads|) && c < |s.pcs| && s.pcs[c] == SubLen(k, p)
    requires d < |s.pcs| && s.pcs[d] == GuardMut(k, p)
    ensures p in s.heap && Reads(home, s, after, c) == Some(s.heap[p].data)
  {
    var s' := Step(home, s, Go(d));
    assert RefOk(home, s, home(k), d);
    assert s' == Goto(s.(refs := s.refs[home(k) := Lock.Free]), d, Idle);
    StepKeepsInv(home, s, Go(d));
    var rest := ReadsOnceCounted(home, s', c, k, p);
    after := [Go(d)] + rest;
    ReadsLater(home, s, Go(d), rest, c);
  }

  lemma ReadsWhatIsWritten<K(!new)>(home: K -> nat, s: State<K>, c: nat, d: nat, k: K, p: nat, v: nat)
      returns (after: seq<Act<K>>)
    requires Inv(home, s) && Homes(home, |s.heads|) && c < |s.pcs| && s.pcs[c] == SubLen(k, p)
    requires d < |s.pcs| && s.pcs[d] == GuardMut(k, p)
    ensures Reads(home, s, after, c) == Some(v)
  {
    var s' := Step(home, s, Write(d, v));
    assert ClientOk(home, s, d) && GuardOk(s, s.pcs[d]);
    assert s' == WriteThrough(s, p, v);
    StepKeepsInv(home, s, Write(d, v));
    var rest := ReadsOnceDropped(home, s', c, d, k, p);
    after := [Write(d, v)] + rest;
    ReadsLater(home, s, Write(d, v), rest, c);
  }

  lemma ReadsWhatWillBeWritten<K(!new)>(home: K -> nat, s: State<K>, c: nat, d: nat, k: K, p: nat, v: nat)
      returns (after: seq<Act<K>>)
    requires Inv(home, s) && Homes(home, |s.heads|) && c < |s.pcs| && s.pcs[c] == SubLen(k, p)
    requires d < |s.pcs| && s.pcs[d] == MapUnlock(k, KeepMut(p))
    ensures Reads(home, s, after, c) == Some(v)
  {
    var s' := Step(home, s, Go(d));
    assert MapOk(s, d);
    assert s' == Release(s, Event.Leave(d), GuardMut(k, p));
    StepKeepsInv(home, s, Go(d));
    var rest := ReadsWhatIsWritten(home, s', c, d, k, p, v);
    after := [Go(d)] + rest;
    ReadsLater(home, s, Go(d), rest, c);
  }

  /** A mutable guard on the item at the unlinking decides what the remove returns. */
  lemma GuardDecides<K(!new)>(home: K -> nat, s: State<K>, c: nat, d: nat, k: K, p: nat, v: nat)
      returns (after: seq<Act<K>>)
    requires Inv(home, s) && Homes(home, |s.heads|) && c < |s.pcs| && s.pcs[c] == SubLen(k, p)
    requires d < |s.pcs| && GuardedIn(s.pcs[d], p, Excl)
    ensures Reads(home, s, after, c) == Some(v)
  {
    assert ClientOk(home, s, c) && HandOk(s, c, s.pcs[c]) && ClientOk(home, s, d) && GuardOk(s, s.pcs[d]);
    if s.pcs[d].GuardMut? {
      after := ReadsWhatIsWritten(home, s, c, d, k, p, v);
    } else {
      if s.pcs[d].GiveFlag? { OneInBucket(home, s, c, d); }
      after := ReadsWhatWillBeWritten(home, s, c, d, k, p, v);
    }
  }

  lemma Unlinks<K(!new)>(home: K -> nat, s: State<K>, a: Act<K>)
    requires Inv(home, s) && Homes(home, |s.heads|) && a.c < |s.pcs| && s.pcs[a.c].RemStore?
    ensures var s', pc := Step(home, s, a), s.pcs[a.c];
            && Inv(home, s') && s'.pcs == s.pcs[a.c := SubLen(pc.k, pc.p)]
            && pc.p in s.heap && pc.p in s'.heap && s'.heap[pc.p].data == s.heap[pc.p].data
  {
    var pc := s.pcs[a.c];
    UnlinkSpares(home, s, a, pc.p);
    UnlinkShape(home, s, a.c, pc.k, pc.prev, pc.p, pc.next, pc.i);
    HoldsLinked(home, s, pc.k, pc.p, pc.i);
    StepKeepsInv(home, s, a);
    StoreUnlinks(home, s, a);
  }

  lemma ReturnsItIff<K(!new)>(home: K -> nat, s: State<K>, a: Act<K>)
    requires Inv(home, s) && Homes(home, |s.heads|) && a.c < |s.pcs| && s.pcs[a.c].RemStore?
    ensures var p := s.pcs[a.c].p;
            && p in s.heap
            && (MustReturn(home, Step(home, s, a), a.c, s.heap[p].data) <==> NoGuardOn(s, p, Excl))
  {
    Unlinks(home, s, a);
    var s', p := Step(home, s, a), s.pcs[a.c].p;
    if NoGuardOn(s, p, Excl) {
      forall d: nat | d < |s'.pcs| ensures !GuardedIn(s'.pcs[d], p, Excl) {
        assert !GuardedIn(s.pcs[d], p, Excl);
      }
      forall after: seq<Act<K>>
        ensures Reads(home, s', after, a.c).None? || Reads(home, s', after, a.c) == Some(s.heap[p].data)
      {
        UnguardedIsReturned(home, s', after, a.c, p);
      }
    } else {
      var d: nat :| d < |s.pcs| && GuardedIn(s.pcs[d], p, Excl);
      var after := GuardDecides(home, s', a.c, d, s.pcs[a.c].k, p, s.heap[p].data + 1);
    }
  }

  /** In all continuations a remove returns the entry it has deleted if and only if no client has a
      mutable guard on the item at the step that unlinks it. */
  lemma RemoveReturnsTheEntryIff<K(!new)>(home: K -> nat, buckets: nat, clients: nat, sched: seq<Act<K>>, a: Act<K>)
    requires Homes(home, buckets)
    requires var s := Run(home, buckets, clients, sched); a.c < |s.pcs| && s.pcs[a.c].RemStore?
    ensures var s, m := Run(home, buckets, clients, sched), Built(home, buckets, clients, sched);
            var k, p := s.pcs[a.c].k, s.pcs[a.c].p;
            k in m && (MustReturn(home, Step(home, s, a), a.c, m[k]) <==> NoGuardOn(s, p, Excl))
  {
    RunIsSafe(home, buckets, clients, sched);
    RemoveTakesTheEntry(home, buckets, clients, sched, a.c);
    ReturnsItIff(home, Run(home, buckets, clients, sched), a);
  }
}
