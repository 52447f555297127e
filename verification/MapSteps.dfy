/** Every step of the map keeps the whole invariant: the moves that touch nothing shared, then
    the map-wide lock, the bucket flags, the guard locks, and the items with their counter. */
module MapSteps {
  import opened Sequences
  import opened Words
  import opened Tally
  import opened RwLock
  import opened MapMachine
  import opened MapInvariant
  import opened MapLocks
  import opened MapMemory
  import opened Wrappers

  // ---- the counter ----

  lemma Moved<K>(pcs: seq<Pc<K>>, c: nat, pc: Pc<K>)
    requires c < |pcs|
    ensures Sum<Pc<K>>(Uncounted, pcs[c := pc]) + Uncounted(pcs[c]) == Sum<Pc<K>>(Uncounted, pcs) + Uncounted(pc)
    ensures Sum<Pc<K>>(Undiscounted, pcs[c := pc]) + Undiscounted(pcs[c])
            == Sum<Pc<K>>(Undiscounted, pcs) + Undiscounted(pc)
  {
    SumUpdate<Pc<K>>(Uncounted, pcs, c, pc);
    SumUpdate<Pc<K>>(Undiscounted, pcs, c, pc);
  }

  lemma SameCount<K>(s: State<K>, s': State<K>, c: nat, pc: Pc<K>)
    requires Counted(s) && c < |s.pcs| && s'.pcs == s.pcs[c := pc] && s'.chains == s.chains && s'.len == s.len
    requires Uncounted(pc) == Uncounted(s.pcs[c]) && Undiscounted(pc) == Undiscounted(s.pcs[c])
    ensures Counted(s')
  {
    Moved(s.pcs, c, pc);
  }

  // ---- moves that touch nothing shared ----

  lemma LocalStep<K(!new)>(home: K -> nat, s: State<K>, c: nat, pc: Pc<K>)
    requires Inv(home, s) && c < |s.pcs|
    requires MapMode(pc) == MapMode(s.pcs[c]) && RefMode(pc) == RefMode(s.pcs[c]) && InBucket(pc) == InBucket(s.pcs[c])
    requires (RefMode(pc) == Nowhere && !InBucket(pc)) || Bucket(home, pc) == Bucket(home, s.pcs[c])
    requires Guarded(pc) == Guarded(s.pcs[c]) && Hand(pc) == Hand(s.pcs[c]) && Dead(pc) == Dead(s.pcs[c])
    requires Uncounted(pc) == Uncounted(s.pcs[c]) && Undiscounted(pc) == Undiscounted(s.pcs[c])
    requires pc.InsWrite? ==> s.pcs[c].InsWrite?
    requires pc.IterRead? ==> pc.b < |s.refs| && s.refs[pc.b].Free?
    requires Knows(home, s, c, pc)
    ensures Inv(home, Goto(s, c, pc))
  {
    var s' := Goto(s, c, pc);
    LocalLocks(home, s, s', c, pc);
    PcMove(home, s, s', c, pc);
    SameCount(s, s', c, pc);
  }

  lemma CallStep<K(!new)>(home: K -> nat, s: State<K>, c: nat, call: Call<K>, v: nat)
    requires Inv(home, s) && c < |s.pcs| && s.pcs[c].Idle?
    ensures Inv(home, Goto(s.(args := s.args[c := v]), c, if call.Do? then MapLock(call.op, call.k) else IterLock))
  {
    var pc := if call.Do? then MapLock(call.op, call.k) else IterLock;
    var s' := Goto(s.(args := s.args[c := v]), c, pc);
    LocalLocks(home, s, s', c, pc);
    PcMove(home, s, s', c, pc);
    SameCount(s, s', c, pc);
  }

  lemma LoadHeadStep<K(!new)>(home: K -> nat, s: State<K>, c: nat, op: Op, k: K)
    requires Inv(home, s) && c < |s.pcs| && s.pcs[c] == LoadHead(op, k) && home(k) < |s.heads|
    ensures Inv(home, Goto(s, c, Walk(op, k, s.heads[home(k)], NULL, s.heads[home(k)], 0)))
  {
    assert BucketOk(s, home(k));
    LocalStep(home, s, c, Walk(op, k, s.heads[home(k)], NULL, s.heads[home(k)], 0));
  }

  /** What the walk has found out when it stops, and that it can go on when it does not. */
  lemma WalkFacts<K(!new)>(home: K -> nat, s: State<K>, c: nat, op: Op, k: K, head: nat, prev: nat, cur: nat, i: nat)
    requires Inv(home, s) && c < |s.pcs| && s.pcs[c] == Walk(op, k, head, prev, cur, i)
    ensures home(k) < |s.chains| == |s.keys| && |s.keys[home(k)]| == |s.chains[home(k)]|
    ensures cur == NULL <==> i == |s.chains[home(k)]|
    ensures cur == NULL ==> Absent(home, s, k)
    ensures cur != NULL ==> cur in s.heap && i < |s.chains[home(k)]| && s.heap[cur].key == s.keys[home(k)][i]
    ensures cur != NULL ==> s.heap[cur].next == At(s.chains[home(k)], i + 1)
  {
    var b := home(k);
    assert ClientOk(home, s, c) && WalkOk(home, s, s.pcs[c]);
    assert LinkOk(home, s, b, i) && BucketOk(s, b);
    if i == |s.keys[b]| {
      assert s.keys[b][..i] == s.keys[b];
    }
  }

  lemma WalkStep<K(!new)>(home: K -> nat, s: State<K>, c: nat, op: Op, k: K, head: nat, prev: nat, cur: nat, i: nat)
    requires Inv(home, s) && c < |s.pcs| && s.pcs[c] == Walk(op, k, head, prev, cur, i)
    ensures Inv(home, WalkOn(s, c, op, k, head, prev, cur, i))
  {
    var b := home(k);
    assert ClientOk(home, s, c) && WalkOk(home, s, s.pcs[c]);
    WalkFacts(home, s, c, op, k, head, prev, cur, i);
    if cur == NULL {
      LocalStep(home, s, c, NotFound(op, k, head));
    } else if s.heap[cur].key == k {
      LocalStep(home, s, c, Found(op, k, prev, cur, i));
    } else {
      assert s.keys[b][..i + 1] == s.keys[b][..i] + [s.keys[b][i]];
      LocalStep(home, s, c, Walk(op, k, head, cur, s.heap[cur].next, i + 1));
    }
  }

  lemma RemNextStep<K(!new)>(home: K -> nat, s: State<K>, c: nat, k: K, prev: nat, p: nat, i: nat)
    requires Inv(home, s) && c < |s.pcs| && s.pcs[c] == RemNext(k, prev, p, i)
    ensures p in s.heap && Inv(home, Goto(s, c, RemStore(k, prev, p, s.heap[p].next, i)))
  {
    assert ClientOk(home, s, c);
    HoldsLinked(home, s, k, p, i);
    assert LinkOk(home, s, home(k), i);
    LocalStep(home, s, c, RemStore(k, prev, p, s.heap[p].next, i));
  }

  lemma SkipStep<K(!new)>(home: K -> nat, s: State<K>, c: nat, b: nat, out: seq<nat>)
    requires Inv(home, s) && c < |s.pcs| && s.pcs[c] == IterAdvance(b, out) && b < |s.heads| && s.heads[b] == NULL
    ensures Inv(home, Goto(s, c, IterAdvance(b + 1, out)))
  {
    assert ClientOk(home, s, c) && IterOk(s, s.pcs[c]);
    assert BucketOk(s, b) && LinkOk(home, s, b, 0);
    assert Listed(s.chains, b + 1) == Listed(s.chains, b) + [];
    LocalStep(home, s, c, IterAdvance(b + 1, out));
  }

  lemma AdvanceStep<K(!new)>(home: K -> nat, s: State<K>, c: nat, b: nat, out: seq<nat>)
    requires Inv(home, s) && c < |s.pcs| && s.pcs[c] == IterAdvance(b, out)
    ensures Inv(home, Advance(s, c, b, out))
  {
    assert ClientOk(home, s, c) && IterOk(s, s.pcs[c]);
    if b < |s.heads| && s.heads[b] == NULL {
      SkipStep(home, s, c, b, out);
    } else {
      assert BucketOk(s, b);
      var cur := if b < |s.heads| then s.heads[b] else NULL;
      assert b < |s.heads| ==> s.chains[b][..0] == [];
      LocalStep(home, s, c, IterReady(b, cur, 0, out));
    }
  }

  /** The last entry of a bucket has been read. */
  lemma LastYieldStep<K(!new)>(home: K -> nat, s: State<K>, c: nat, b: nat, cur: nat, i: nat, out: seq<nat>)
    requires Inv(home, s) && c < |s.pcs| && s.pcs[c] == IterRead(b, cur, i, out)
    requires b < |s.chains| && i + 1 == |s.chains[b]|
    ensures Inv(home, Goto(s, c, IterAdvance(b + 1, out + [cur])))
  {
    assert ClientOk(home, s, c) && IterOk(s, s.pcs[c]);
    assert s.chains[b] == s.chains[b][..i] + [cur];
    assert out + [cur] == Listed(s.chains, b + 1);
    LocalStep(home, s, c, IterAdvance(b + 1, out + [cur]));
  }

  lemma YieldStep<K(!new)>(home: K -> nat, s: State<K>, c: nat, b: nat, cur: nat, i: nat, out: seq<nat>)
    requires Inv(home, s) && c < |s.pcs| && s.pcs[c] == IterRead(b, cur, i, out)
    ensures Inv(home, Yield(s, c, b, cur, i, out))
  {
    assert ClientOk(home, s, c) && IterOk(s, s.pcs[c]);
    assert LinkOk(home, s, b, i);
    if i + 1 < |s.chains[b]| {
      assert LinkOk(home, s, b, i + 1);
      assert out + [cur] == Listed(s.chains, b) + s.chains[b][..i + 1];
      LocalStep(home, s, c, IterReady(b, s.heap[cur].next, i + 1, out + [cur]));
    } else {
      LastYieldStep(home, s, c, b, cur, i, out);
    }
  }

  lemma WaitStep<K(!new)>(home: K -> nat, s: State<K>, c: nat, b: nat, cur: nat, i: nat, out: seq<nat>)
    requires Inv(home, s) && c < |s.pcs|
    requires s.pcs[c] == IterReady(b, cur, i, out) && b < |s.heads|
    ensures Inv(home, Goto(s, c, IterWait(b, cur, i, out)))
  {
    assert ClientOk(home, s, c) && IterOk(s, s.pcs[c]);
    LocalStep(home, s, c, IterWait(b, cur, i, out));
  }

  lemma ReadStep<K(!new)>(home: K -> nat, s: State<K>, c: nat, b: nat, cur: nat, i: nat, out: seq<nat>)
    requires Inv(home, s) && c < |s.pcs|
    requires s.pcs[c] == IterWait(b, cur, i, out) && b < |s.refs| && s.refs[b].Free?
    ensures Inv(home, Goto(s, c, IterRead(b, cur, i, out)))
  {
    assert ClientOk(home, s, c) && IterOk(s, s.pcs[c]);
    LocalStep(home, s, c, IterRead(b, cur, i, out));
  }

  // ---- the map-wide lock ----

  lemma MapLockStep<K(!new)>(home: K -> nat, s: State<K>, e: Event, pc: Pc<K>)
    requires Inv(home, s) && !e.Silent? && e.who < |s.pcs| && Apply(s.mapLock, e).Some?
    requires MapMode(pc) == ModeAfter(e) && RefMode(pc) == RefMode(s.pcs[e.who])
    requires !InBucket(pc) && !InBucket(s.pcs[e.who])
    requires RefMode(pc) == Nowhere || Bucket(home, pc) == Bucket(home, s.pcs[e.who])
    requires Guarded(pc) == Guarded(s.pcs[e.who]) && Hand(pc) == Hand(s.pcs[e.who]) && Dead(pc) == Dead(s.pcs[e.who])
    requires Uncounted(pc) == Uncounted(s.pcs[e.who]) && Undiscounted(pc) == Undiscounted(s.pcs[e.who])
    requires !pc.IterRead? && Knows(home, s, e.who, pc)
    ensures Inv(home, Goto(s.(mapLock := Apply(s.mapLock, e).value), e.who, pc))
  {
    var s' := Goto(s.(mapLock := Apply(s.mapLock, e).value), e.who, pc);
    MapLockMoves(home, s, s', e, pc);
    PcMove(home, s, s', e.who, pc);
    SameCount(s, s', e.who, pc);
  }

  lemma EnterStep<K(!new)>(home: K -> nat, s: State<K>, c: nat, op: Op, k: K)
    requires Inv(home, s) && c < |s.pcs| && s.pcs[c] == MapLock(op, k)
    ensures Inv(home, Acquire(s, Join(c), TakeFlag(op, k)))
  {
    if Apply(s.mapLock, Join(c)).Some? {
      MapLockStep(home, s, Join(c), TakeFlag(op, k));
    }
  }

  lemma LeaveStep<K(!new)>(home: K -> nat, s: State<K>, c: nat, k: K, after: After)
    requires Inv(home, s) && c < |s.pcs| && s.pcs[c] == MapUnlock(k, after)
    ensures Inv(home, Release(s, Event.Leave(c), AfterMap(k, after)))
  {
    assert MapOk(s, c) && ClientOk(home, s, c);
    MapLockStep(home, s, Event.Leave(c), AfterMap(k, after));
  }

  lemma IterLockStep<K(!new)>(home: K -> nat, s: State<K>, c: nat)
    requires Inv(home, s) && c < |s.pcs| && s.pcs[c] == IterLock
    ensures Inv(home, Acquire(s, Event.Lock(c), IterAdvance(0, [])))
  {
    if Apply(s.mapLock, Event.Lock(c)).Some? {
      MapLockStep(home, s, Event.Lock(c), IterAdvance(0, []));
    }
  }

  lemma IterDropStep<K(!new)>(home: K -> nat, s: State<K>, c: nat)
    requires Inv(home, s) && c < |s.pcs| && s.pcs[c].IterReady?
    ensures Inv(home, Release(s, Event.Unlock(c), Idle))
  {
    assert MapOk(s, c);
    MapLockStep(home, s, Event.Unlock(c), Idle);
  }

  // ---- bucket flags ----

  lemma FlagStep<K(!new)>(home: K -> nat, s: State<K>, c: nat, pc: Pc<K>)
    requires Inv(home, s) && c < |s.pcs|
    requires MapMode(pc) == MapMode(s.pcs[c]) && RefMode(pc) == RefMode(s.pcs[c]) && InBucket(pc) != InBucket(s.pcs[c])
    requires Bucket(home, pc) == Bucket(home, s.pcs[c]) < |s.flags|
    requires InBucket(pc) ==> s.flags[Bucket(home, pc)] == None
    requires Guarded(pc) == Guarded(s.pcs[c]) && Hand(pc) == Hand(s.pcs[c]) && Dead(pc) == Dead(s.pcs[c])
    requires Uncounted(pc) == Uncounted(s.pcs[c]) && Undiscounted(pc) == Undiscounted(s.pcs[c])
    requires !pc.InsWrite? && !pc.IterRead? && Knows(home, s, c, pc)
    ensures Inv(home, Goto(s.(flags := s.flags[Bucket(home, pc) := if InBucket(pc) then Some(c) else None]), c, pc))
  {
    var s' := Goto(s.(flags := s.flags[Bucket(home, pc) := if InBucket(pc) then Some(c) else None]), c, pc);
    FlagMoves(home, s, s', c, pc);
    PcMove(home, s, s', c, pc);
    SameCount(s, s', c, pc);
  }

  lemma TakeFlagStep<K(!new)>(home: K -> nat, s: State<K>, c: nat, op: Op, k: K)
    requires Inv(home, s) && c < |s.pcs| && s.pcs[c] == TakeFlag(op, k)
    requires home(k) < |s.flags| && s.flags[home(k)].None?
    ensures Inv(home, Goto(s.(flags := s.flags[home(k) := Some(c)]), c, LoadHead(op, k)))
  {
    FlagStep(home, s, c, LoadHead(op, k));
  }

  lemma GiveFlagStep<K(!new)>(home: K -> nat, s: State<K>, c: nat, k: K, after: After)
    requires Inv(home, s) && c < |s.pcs| && s.pcs[c] == GiveFlag(k, after) && home(k) < |s.flags|
    ensures Inv(home, Goto(s.(flags := s.flags[home(k) := None]), c, AfterFlag(k, after)))
  {
    assert ClientOk(home, s, c);
    FlagStep(home, s, c, AfterFlag(k, after));
  }

  // ---- guard locks ----

  lemma TakeRefStep<K(!new)>(home: K -> nat, s: State<K>, b: nat, e: Event, pc: Pc<K>)
    requires Inv(home, s) && (e.Lock? || e.Join?) && e.who < |s.pcs| && b < |s.refs|
    requires RefMode(pc) == ModeAfter(e) && MapMode(pc) == MapMode(s.pcs[e.who]) == Shared
    requires InBucket(pc) == InBucket(s.pcs[e.who])
    requires Bucket(home, s.pcs[e.who]) == Bucket(home, pc) == b
    requires !pc.InsWrite? && !s.pcs[e.who].InsWrite? && (Guarded(pc).None? || InBucket(pc))
    requires Hand(pc) == Hand(s.pcs[e.who]) && Dead(pc) == Dead(s.pcs[e.who])
    requires Uncounted(pc) == Uncounted(s.pcs[e.who]) && Undiscounted(pc) == Undiscounted(s.pcs[e.who])
    requires Knows(home, s, e.who, pc)
    ensures Inv(home, AcquireRef(s, b, e, pc))
  {
    var s' := AcquireRef(s, b, e, pc);
    if Apply(s.refs[b], e).Some? {
      RefLockTaken(home, s, s', b, e, pc);
      PcMove(home, s, s', e.who, pc);
      SameCount(s, s', e.who, pc);
    }
  }

  lemma GiveRefStep<K(!new)>(home: K -> nat, s: State<K>, b: nat, e: Event, pc: Pc<K>)
    requires Inv(home, s) && (e.Unlock? || e.Leave?) && e.who < |s.pcs| && b < |s.refs|
    requires RefMode(pc) == Nowhere && RefMode(s.pcs[e.who]) == if e.Unlock? then Excl else Shared
    requires MapMode(pc) == MapMode(s.pcs[e.who]) && InBucket(pc) == InBucket(s.pcs[e.who])
    requires Bucket(home, s.pcs[e.who]) == b && (InBucket(pc) ==> Bucket(home, pc) == b)
    requires pc.InsWrite? ==> Bucket(home, pc) == b && e.Unlock?
    requires Hand(pc) == Hand(s.pcs[e.who]) && Dead(pc) == Dead(s.pcs[e.who])
    requires Uncounted(pc) == Uncounted(s.pcs[e.who]) && Undiscounted(pc) == Undiscounted(s.pcs[e.who])
    requires !pc.IterRead? && Knows(home, s, e.who, pc)
    ensures Inv(home, ReleaseRef(s, b, e, pc))
  {
    var s' := ReleaseRef(s, b, e, pc);
    assert RefOk(home, s, b, e.who);
    RefLockGiven(home, s, s', b, e, pc);
    PcMove(home, s, s', e.who, pc);
    SameCount(s, s', e.who, pc);
  }

  lemma InsRefStep<K(!new)>(home: K -> nat, s: State<K>, c: nat, k: K, p: nat, i: nat)
    requires Inv(home, s) && c < |s.pcs| && s.pcs[c] == InsRef(k, p, i) && home(k) < |s.refs|
    ensures Inv(home, AcquireRef(s, home(k), Event.Lock(c), InsDrop(k, p, i)))
  {
    assert ClientOk(home, s, c);
    PresentForHolder(home, s, c, k, p, i);
    TakeRefStep(home, s, home(k), Event.Lock(c), InsDrop(k, p, i));
  }

  lemma InsUnrefStep<K(!new)>(home: K -> nat, s: State<K>, c: nat, k: K, p: nat, i: nat)
    requires Inv(home, s) && c < |s.pcs| && s.pcs[c] == InsUnref(k, p, i) && home(k) < |s.refs|
    ensures Inv(home, ReleaseRef(s, home(k), Event.Unlock(c), InsWrite(k, p, i)))
  {
    assert ClientOk(home, s, c) && WalkOk(home, s, s.pcs[c]);
    GiveRefStep(home, s, home(k), Event.Unlock(c), InsWrite(k, p, i));
  }

  lemma GuardLockStep<K(!new)>(home: K -> nat, s: State<K>, c: nat, k: K, p: nat, i: nat, exclusive: bool)
    requires Inv(home, s) && c < |s.pcs| && s.pcs[c] == GuardLock(k, p, i, exclusive) && home(k) < |s.refs|
    ensures Inv(home, if exclusive then AcquireRef(s, home(k), Event.Lock(c), GiveFlag(k, KeepMut(p)))
                      else AcquireRef(s, home(k), Join(c), GiveFlag(k, KeepRef(p))))
  {
    assert ClientOk(home, s, c);
    PresentForHolder(home, s, c, k, p, i);
    HoldsLinked(home, s, k, p, i);
    if exclusive {
      TakeRefStep(home, s, home(k), Event.Lock(c), GiveFlag(k, KeepMut(p)));
    } else {
      TakeRefStep(home, s, home(k), Join(c), GiveFlag(k, KeepRef(p)));
    }
  }

  lemma FreeLockStep<K(!new)>(home: K -> nat, s: State<K>, c: nat, k: K, p: nat)
    requires Inv(home, s) && c < |s.pcs| && s.pcs[c] == FreeLock(k, p) && home(k) < |s.refs|
    ensures Inv(home, AcquireRef(s, home(k), Event.Lock(c), FreeItem(k, p)))
  {
    assert ClientOk(home, s, c);
    TakeRefStep(home, s, home(k), Event.Lock(c), FreeItem(k, p));
  }

  lemma FreeUnlockStep<K(!new)>(home: K -> nat, s: State<K>, c: nat, k: K, v: nat)
    requires Inv(home, s) && c < |s.pcs| && s.pcs[c] == FreeUnlock(k, v) && home(k) < |s.refs|
    ensures Inv(home, ReleaseRef(s, home(k), Event.Unlock(c), MapUnlock(k, Return(v))))
  {
    GiveRefStep(home, s, home(k), Event.Unlock(c), MapUnlock(k, Return(v)));
  }

  lemma GuardDropStep<K(!new)>(home: K -> nat, s: State<K>, c: nat, k: K, p: nat)
    requires Inv(home, s) && c < |s.pcs| && home(k) < |s.refs|
    ensures s.pcs[c] == GuardRef(k, p) ==> Inv(home, ReleaseRef(s, home(k), Event.Leave(c), Idle))
    ensures s.pcs[c] == GuardMut(k, p) ==> Inv(home, ReleaseRef(s, home(k), Event.Unlock(c), Idle))
  {
    if s.pcs[c] == GuardRef(k, p) {
      GiveRefStep(home, s, home(k), Event.Leave(c), Idle);
    }
    if s.pcs[c] == GuardMut(k, p) {
      GiveRefStep(home, s, home(k), Event.Unlock(c), Idle);
    }
  }

  // ---- items and the counter ----

  lemma WriteThroughStep<K(!new)>(home: K -> nat, s: State<K>, c: nat, k: K, p: nat, v: nat)
    requires Inv(home, s) && c < |s.pcs| && s.pcs[c] == GuardMut(k, p)
    ensures Inv(home, WriteThrough(s, p, v))
  {
    assert ClientOk(home, s, c) && GuardOk(s, s.pcs[c]);
    var s' := WriteThrough(s, p, v);
    LocalLocks(home, s, s', c, s.pcs[c]);
    DataStep(home, s, s', p, v);
  }

  lemma InsDropStep<K(!new)>(home: K -> nat, s: State<K>, c: nat, k: K, p: nat, i: nat)
    requires Inv(home, s) && c < |s.pcs| && s.pcs[c] == InsDrop(k, p, i) && home(k) < |s.flags|
    ensures Inv(home, DropValue(s, c, p, InsUnref(k, p, i)))
  {
    assert ClientOk(home, s, c) && WalkOk(home, s, s.pcs[c]);
    var s' := DropValue(s, c, p, InsUnref(k, p, i));
    LocalLocks(home, s, s', c, InsUnref(k, p, i));
    DropStep(home, s, c, k, p, i);
    SameCount(s, s', c, InsUnref(k, p, i));
  }

  lemma InsWriteStep<K(!new)>(home: K -> nat, s: State<K>, c: nat, k: K, p: nat, i: nat)
    requires Inv(home, s) && c < |s.pcs| && s.pcs[c] == InsWrite(k, p, i) && home(k) < |s.flags|
    ensures Inv(home, WriteValue(s, c, p, GiveFlag(k, After.Leave)))
  {
    assert ClientOk(home, s, c) && WalkOk(home, s, s.pcs[c]);
    var s' := WriteValue(s, c, p, GiveFlag(k, After.Leave));
    LocalLocks(home, s, s', c, GiveFlag(k, After.Leave));
    WriteStep(home, s, c, k, p, i);
    SameCount(s, s', c, GiveFlag(k, After.Leave));
  }

  lemma InsAllocStep<K(!new)>(home: K -> nat, s: State<K>, c: nat, k: K, head: nat, at: nat)
    requires Inv(home, s) && c < |s.pcs| && s.pcs[c] == InsAlloc(k, head) && home(k) < |s.flags|
    ensures Inv(home, Alloc(s, c, k, head, at))
  {
    var s' := Alloc(s, c, k, head, at);
    if at != NULL && at !in s.heap {
      LocalLocks(home, s, s', c, InsLink(k, at));
      AllocStep(home, s, c, k, head, at);
      SameCount(s, s', c, InsLink(k, at));
    }
  }

  lemma InsLinkStep<K(!new)>(home: K -> nat, s: State<K>, c: nat, k: K, p: nat)
    requires Inv(home, s) && c < |s.pcs| && s.pcs[c] == InsLink(k, p) && home(k) < |s.flags|
    ensures Inv(home, Link(s, c, home(k), k, p))
  {
    var s' := Link(s, c, home(k), k, p);
    LocalLocks(home, s, s', c, GiveFlag(k, Count));
    LinkStep(home, s, c, k, p);
    Moved(s.pcs, c, GiveFlag(k, Count));
    SumUpdate(Length, s.chains, home(k), [p] + s.chains[home(k)]);
  }

  lemma RemStoreStep<K(!new)>(home: K -> nat, s: State<K>, c: nat, k: K, prev: nat, p: nat, next: nat, i: nat)
    requires Inv(home, s) && c < |s.pcs| && s.pcs[c] == RemStore(k, prev, p, next, i) && home(k) < |s.flags|
    ensures Inv(home, Unlink(s, c, home(k), k, prev, p, next, i))
  {
    var s' := Unlink(s, c, home(k), k, prev, p, next, i);
    UnlinkBuckets(home, s, c, k, prev, p, next, i);
    LocalLocks(home, s, s', c, SubLen(k, p));
    UnlinkStep(home, s, c, k, prev, p, next, i);
    Moved(s.pcs, c, SubLen(k, p));
    SumUpdate(Length, s.chains, home(k), Without(s.chains[home(k)], i));
  }

  lemma SubLenStep<K(!new)>(home: K -> nat, s: State<K>, c: nat, k: K, p: nat)
    requires Inv(home, s) && c < |s.pcs| && s.pcs[c] == SubLen(k, p)
    ensures Inv(home, Goto(s.(len := Dec(s.len)), c, GiveFlag(k, After.Free(p))))
  {
    var s' := Goto(s.(len := Dec(s.len)), c, GiveFlag(k, After.Free(p)));
    assert ClientOk(home, s, c);
    LocalLocks(home, s, s', c, GiveFlag(k, After.Free(p)));
    PcMove(home, s, s', c, GiveFlag(k, After.Free(p)));
    Moved(s.pcs, c, GiveFlag(k, After.Free(p)));
    DecWraps(Balance(s));
  }

  lemma AddLenStep<K(!new)>(home: K -> nat, s: State<K>, c: nat, k: K)
    requires Inv(home, s) && c < |s.pcs| && s.pcs[c] == AddLen(k)
    ensures Inv(home, Goto(s.(len := Inc(s.len)), c, MapUnlock(k, After.Leave)))
  {
    var s' := Goto(s.(len := Inc(s.len)), c, MapUnlock(k, After.Leave));
    LocalLocks(home, s, s', c, MapUnlock(k, After.Leave));
    PcMove(home, s, s', c, MapUnlock(k, After.Leave));
    Moved(s.pcs, c, MapUnlock(k, After.Leave));
    IncWraps(Balance(s));
  }

  lemma FreeItemStep<K(!new)>(home: K -> nat, s: State<K>, c: nat, k: K, p: nat)
    requires Inv(home, s) && c < |s.pcs| && s.pcs[c] == FreeItem(k, p) && home(k) < |s.flags|
    ensures Inv(home, FreeNow(s, c, k, p))
  {
    assert ClientOk(home, s, c) && HandOk(s, c, s.pcs[c]);
    var s' := FreeNow(s, c, k, p);
    LocalLocks(home, s, s', c, FreeUnlock(k, s.heap[p].data));
    FreeStep(home, s, c, k, p);
    SameCount(s, s', c, FreeUnlock(k, s.heap[p].data));
  }
}
