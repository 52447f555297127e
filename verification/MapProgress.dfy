/** Calls on the map that nobody disturbs. */
module MapProgress {
  import opened MapCalls
  import opened MapInvariant
  import opened MapMachine
  import opened MapMemory
  import opened MapSafety
  import opened MapSteps
  import opened RwLock
  import opened Words
  import opened Wrappers

  // ---- insert, get, get_mut, remove ----

  /** In the middle of one of the four operations. */
  predicate InCall<K>(pc: Pc<K>) {
    !HasReturned(pc) && !InIter(pc)
  }

  function LockFor(m: Mode, c: nat): Lock {
    match m
    case Nowhere => Lock.Free
    case Shared => Group({c})
    case Excl => Exclusive(c)
  }

  /** Of the three locks that a call needs nobody but client `c` has any. */
  ghost predicate Alone<K>(home: K -> nat, s: State<K>, c: nat, k: K, pc: Pc<K>) {
    && c < |s.pcs| && s.pcs[c] == pc && home(k) < |s.flags| && home(k) < |s.refs|
    && s.mapLock == LockFor(MapMode(pc), c)
    && s.flags[home(k)] == (if InBucket(pc) then Some(c) else None)
    && s.refs[home(k)] == LockFor(RefMode(pc), c)
  }

  /** How many phases of a call are left. */
  function Phase<K>(pc: Pc<K>): nat {
    match pc
    case MapLock(_, _) => 40
    case TakeFlag(_, _) => 39
    case LoadHead(_, _) => 38
    case Walk(_, _, _, _, _, _) => 37
    case InsRef(_, _, _) => 20
    case InsDrop(_, _, _) => 19
    case InsUnref(_, _, _) => 18
    case InsWrite(_, _, _) => 17
    case InsAlloc(_, _) => 20
    case InsLink(_, _) => 19
    case GuardLock(_, _, _, _) => 20
    case RemNext(_, _, _, _) => 20
    case RemStore(_, _, _, _, _) => 19
    case SubLen(_, _) => 18
    case GiveFlag(_, _) => 15
    case AddLen(_) => 14
    case FreeLock(_, _) => 14
    case FreeItem(_, _) => 13
    case FreeUnlock(_, _) => 12
    case MapUnlock(_, _) => 10
    case _ => 0
  }

  /** How many items of the list a walk has before it. */
  function ItemsLeft<K>(home: K -> nat, s: State<K>, pc: Pc<K>): nat {
    if pc.Walk? && home(pc.k) < |s.chains| && pc.i <= |s.chains[home(pc.k)]| then |s.chains[home(pc.k)]| - pc.i else 0
  }

  /** The call has moved on, and is still alone. */
  ghost predicate MovesOn<K>(home: K -> nat, s: State<K>, s': State<K>, c: nat, k: K)
    requires c < |s.pcs|
  {
    && c < |s'.pcs|
    && var pc, pc' := s.pcs[c], s'.pcs[c];
       && (Phase(pc') < Phase(pc) || (Phase(pc') == Phase(pc) && ItemsLeft(home, s', pc') < ItemsLeft(home, s, pc)))
       && (Phase(pc') >= 20 ==> s'.heap == s.heap)
       && (HasReturned(pc') || (InCall(pc') && pc'.k == k && Alone(home, s', c, k, pc')))
  }

  /** The next operation of client `c`; the allocator would return `at`. */
  function Next<K>(c: nat, at: nat): Act<K> {
    Act(c, Iterate, at, true, 0)
  }

  lemma WalkMovesOn<K(!new)>(home: K -> nat, s: State<K>, c: nat, pc: Pc<K>)
    requires Inv(home, s) && pc.Walk? && Alone(home, s, c, pc.k, pc)
    ensures MovesOn(home, s, WalkOn(s, c, pc.op, pc.k, pc.head, pc.prev, pc.cur, pc.i), c, pc.k)
  {
    assert ClientOk(home, s, c) && WalkOk(home, s, pc);
    WalkFacts(home, s, c, pc.op, pc.k, pc.head, pc.prev, pc.cur, pc.i);
  }

  /** Taking or giving back the guard lock. */
  lemma RefMovesOn<K>(home: K -> nat, s: State<K>, c: nat, k: K, pc: Pc<K>, pc': Pc<K>, e: Event)
    requires Alone(home, s, c, k, pc) && !e.Silent? && e.who == c
    requires MapMode(pc') == MapMode(pc) && InBucket(pc') == InBucket(pc) && Phase(pc') < Phase(pc)
    requires InCall(pc') && pc'.k == k
    requires match e
             case Lock(_) => RefMode(pc) == Nowhere && RefMode(pc') == Excl
             case Join(_) => RefMode(pc) == Nowhere && RefMode(pc') == Shared
             case Unlock(_) => RefMode(pc) == Excl && RefMode(pc') == Nowhere
             case _ => false
    ensures (e.Lock? || e.Join?) ==> MovesOn(home, s, AcquireRef(s, home(k), e, pc'), c, k)
    ensures e.Unlock? ==> MovesOn(home, s, ReleaseRef(s, home(k), e, pc'), c, k)
  {
    var l := Apply(s.refs[home(k)], e).value;
    assert l == LockFor(RefMode(pc'), c);
  }

  /** Any other step inside: neither lock changes, and the flag only with the position. */
  lemma InsideMovesOn<K>(home: K -> nat, s: State<K>, s': State<K>, c: nat, k: K, pc: Pc<K>, pc': Pc<K>)
    requires Alone(home, s, c, k, pc) && s'.pcs == s.pcs[c := pc'] && s'.mapLock == s.mapLock && s'.refs == s.refs
    requires home(k) < |s'.flags| && s'.flags[home(k)] == (if InBucket(pc') then Some(c) else None)
    requires MapMode(pc') == MapMode(pc) && RefMode(pc') == RefMode(pc) && Phase(pc') < Phase(pc)
    requires InCall(pc') && pc'.k == k && (Phase(pc') >= 20 ==> s'.heap == s.heap)
    ensures MovesOn(home, s, s', c, k)
  {
  }

  lemma LeaveMovesOn<K>(home: K -> nat, s: State<K>, c: nat, k: K, after: After)
    requires Alone(home, s, c, k, MapUnlock(k, after))
    ensures MovesOn(home, s, Release(s, Event.Leave(c), AfterMap(k, after)), c, k)
  {
    assert Apply(s.mapLock, Event.Leave(c)) == Some(Lock.Free);
  }

  lemma FlagMovesOn<K(!new)>(home: K -> nat, s: State<K>, c: nat, k: K, op: Op)
    requires Alone(home, s, c, k, TakeFlag(op, k))
    ensures MovesOn(home, s, Goto(s.(flags := s.flags[home(k) := Some(c)]), c, LoadHead(op, k)), c, k)
  {
    var s' := Goto(s.(flags := s.flags[home(k) := Some(c)]), c, LoadHead(op, k));
    InsideMovesOn(home, s, s', c, k, s.pcs[c], LoadHead(op, k));
  }

  lemma LoadMovesOn<K(!new)>(home: K -> nat, s: State<K>, c: nat, k: K, op: Op, h: nat)
    requires Alone(home, s, c, k, LoadHead(op, k))
    ensures MovesOn(home, s, Goto(s, c, Walk(op, k, h, NULL, h, 0)), c, k)
  {
    InsideMovesOn(home, s, Goto(s, c, Walk(op, k, h, NULL, h, 0)), c, k, s.pcs[c], Walk(op, k, h, NULL, h, 0));
  }

  lemma GiveMovesOn<K(!new)>(home: K -> nat, s: State<K>, c: nat, k: K, after: After)
    requires Alone(home, s, c, k, GiveFlag(k, after))
    ensures MovesOn(home, s, Goto(s.(flags := s.flags[home(k) := None]), c, AfterFlag(k, after)), c, k)
  {
    var s' := Goto(s.(flags := s.flags[home(k) := None]), c, AfterFlag(k, after));
    InsideMovesOn(home, s, s', c, k, s.pcs[c], AfterFlag(k, after));
  }

  lemma LookupMovesOn<K(!new)>(home: K -> nat, s: State<K>, c: nat, k: K)
    requires Inv(home, s) && Homes(home, |s.heads|) && c < |s.pcs| && InCall(s.pcs[c]) && s.pcs[c].k == k
    requires Alone(home, s, c, k, s.pcs[c])
    requires !InInsert(s.pcs[c]) && !InRemove(s.pcs[c]) && !OutsideMap(s.pcs[c])
    ensures MovesOn(home, s, LookupStep(home, s, c), c, k)
  {
    var pc, s' := s.pcs[c], LookupStep(home, s, c);
    match pc {
      case TakeFlag(op, _) => FlagMovesOn(home, s, c, k, op);
      case LoadHead(op, _) => LoadMovesOn(home, s, c, k, op, s.heads[home(k)]);
      case Walk(op, _, head, prev, cur, i) =>
        WalkMovesOn(home, s, c, pc);
        assert s' == WalkOn(s, c, op, k, head, prev, cur, i);
      case GuardLock(_, p, _, exclusive) => GuardMovesOn(home, s, c, k, p, exclusive, pc);
      case GiveFlag(_, after) => GiveMovesOn(home, s, c, k, after);
      case MapUnlock(_, after) => LeaveMovesOn(home, s, c, k, after);
    }
  }

  lemma GuardMovesOn<K(!new)>(home: K -> nat, s: State<K>, c: nat, k: K, p: nat, exclusive: bool, pc: Pc<K>)
    requires Alone(home, s, c, k, pc)
    requires pc.GuardLock? && pc.k == k && pc.p == p && pc.exclusive == exclusive
    ensures MovesOn(home, s, LookupStep(home, s, c), c, k)
  {
    if exclusive {
      RefMovesOn(home, s, c, k, pc, GiveFlag(k, KeepMut(p)), Event.Lock(c));
    } else {
      RefMovesOn(home, s, c, k, pc, GiveFlag(k, KeepRef(p)), Join(c));
    }
  }

  lemma RefTakenMovesOn<K(!new)>(home: K -> nat, s: State<K>, c: nat, k: K, p: nat, i: nat)
    requires Alone(home, s, c, k, InsRef(k, p, i))
    ensures MovesOn(home, s, AcquireRef(s, home(k), Event.Lock(c), InsDrop(k, p, i)), c, k)
  {
    RefMovesOn(home, s, c, k, s.pcs[c], InsDrop(k, p, i), Event.Lock(c));
  }

  lemma RefGivenMovesOn<K(!new)>(home: K -> nat, s: State<K>, c: nat, k: K, p: nat, i: nat)
    requires Alone(home, s, c, k, InsUnref(k, p, i))
    ensures MovesOn(home, s, ReleaseRef(s, home(k), Event.Unlock(c), InsWrite(k, p, i)), c, k)
  {
    RefMovesOn(home, s, c, k, s.pcs[c], InsWrite(k, p, i), Event.Unlock(c));
  }

  lemma CountMovesOn<K(!new)>(home: K -> nat, s: State<K>, c: nat, k: K, n: nat)
    requires Alone(home, s, c, k, AddLen(k))
    ensures MovesOn(home, s, Goto(s.(len := n), c, MapUnlock(k, After.Leave)), c, k)
  {
    InsideMovesOn(home, s, Goto(s.(len := n), c, MapUnlock(k, After.Leave)), c, k, s.pcs[c], MapUnlock(k, After.Leave));
  }

  lemma DropMovesOn<K(!new)>(home: K -> nat, s: State<K>, c: nat, k: K, p: nat, i: nat)
    requires Alone(home, s, c, k, InsDrop(k, p, i)) && p in s.heap && s.heap[p].value.Present?
    ensures MovesOn(home, s, DropValue(s, c, p, InsUnref(k, p, i)), c, k)
  {
    InsideMovesOn(home, s, DropValue(s, c, p, InsUnref(k, p, i)), c, k, s.pcs[c], InsUnref(k, p, i));
  }

  lemma WriteMovesOn<K(!new)>(home: K -> nat, s: State<K>, c: nat, k: K, p: nat, i: nat)
    requires Alone(home, s, c, k, InsWrite(k, p, i)) && p in s.heap && s.heap[p].value.Dropped?
    ensures MovesOn(home, s, WriteValue(s, c, p, GiveFlag(k, After.Leave)), c, k)
  {
    InsideMovesOn(home, s, WriteValue(s, c, p, GiveFlag(k, After.Leave)), c, k, s.pcs[c], GiveFlag(k, After.Leave));
  }

  lemma AllocMovesOn<K(!new)>(home: K -> nat, s: State<K>, c: nat, k: K, head: nat, at: nat)
    requires Alone(home, s, c, k, InsAlloc(k, head)) && at != NULL && at !in s.heap
    ensures MovesOn(home, s, Alloc(s, c, k, head, at), c, k)
  {
    InsideMovesOn(home, s, Alloc(s, c, k, head, at), c, k, s.pcs[c], InsLink(k, at));
  }

  lemma LinkMovesOn<K(!new)>(home: K -> nat, s: State<K>, c: nat, k: K, p: nat)
    requires Alone(home, s, c, k, InsLink(k, p)) && home(k) < |s.heads| == |s.chains| == |s.keys|
    ensures MovesOn(home, s, Link(s, c, home(k), k, p), c, k)
  {
    InsideMovesOn(home, s, Link(s, c, home(k), k, p), c, k, s.pcs[c], GiveFlag(k, Count));
  }

  lemma InsertMovesOn<K(!new)>(home: K -> nat, s: State<K>, c: nat, k: K, at: nat)
    requires Inv(home, s) && Homes(home, |s.heads|) && c < |s.pcs| && InInsert(s.pcs[c]) && s.pcs[c].k == k
    requires Alone(home, s, c, k, s.pcs[c]) && (s.pcs[c].InsAlloc? ==> at != NULL && at !in s.heap)
    ensures MovesOn(home, s, InsertStep(home, s, c, at), c, k)
  {
    assert ClientOk(home, s, c) && WalkOk(home, s, s.pcs[c]);
    var pc := s.pcs[c];
    match pc {
      case InsRef(_, p, i) => RefTakenMovesOn(home, s, c, k, p, i);
      case InsDrop(_, p, i) => DropMovesOn(home, s, c, k, p, i);
      case InsUnref(_, p, i) => RefGivenMovesOn(home, s, c, k, p, i);
      case InsWrite(_, p, i) => WriteMovesOn(home, s, c, k, p, i);
      case InsAlloc(_, head) => AllocMovesOn(home, s, c, k, head, at);
      case InsLink(_, p) => LinkMovesOn(home, s, c, k, p);
      case AddLen(_) => CountMovesOn(home, s, c, k, Inc(s.len));
    }
  }

  lemma StoreMovesOn<K(!new)>(home: K -> nat, s: State<K>, c: nat, k: K, pc: Pc<K>)
    requires Inv(home, s) && Homes(home, |s.heads|) && Alone(home, s, c, k, pc) && pc.RemStore? && pc.k == k
    ensures MovesOn(home, s, Unlink(s, c, home(k), k, pc.prev, pc.p, pc.next, pc.i), c, k)
  {
    UnlinkBuckets(home, s, c, k, pc.prev, pc.p, pc.next, pc.i);
    InsideMovesOn(home, s, Unlink(s, c, home(k), k, pc.prev, pc.p, pc.next, pc.i), c, k, pc, SubLen(k, pc.p));
  }

  lemma NextMovesOn<K(!new)>(home: K -> nat, s: State<K>, c: nat, k: K, prev: nat, p: nat, i: nat)
    requires Alone(home, s, c, k, RemNext(k, prev, p, i)) && p in s.heap
    ensures MovesOn(home, s, Goto(s, c, RemStore(k, prev, p, s.heap[p].next, i)), c, k)
  {
    var pc' := RemStore(k, prev, p, s.heap[p].next, i);
    InsideMovesOn(home, s, Goto(s, c, pc'), c, k, s.pcs[c], pc');
  }

  lemma DiscountMovesOn<K(!new)>(home: K -> nat, s: State<K>, c: nat, k: K, p: nat, n: nat)
    requires Alone(home, s, c, k, SubLen(k, p))
    ensures MovesOn(home, s, Goto(s.(len := n), c, GiveFlag(k, After.Free(p))), c, k)
  {
    var pc' := GiveFlag(k, After.Free(p));
    InsideMovesOn(home, s, Goto(s.(len := n), c, pc'), c, k, s.pcs[c], pc');
  }

  lemma FreeLockMovesOn<K(!new)>(home: K -> nat, s: State<K>, c: nat, k: K, p: nat)
    requires Alone(home, s, c, k, FreeLock(k, p))
    ensures MovesOn(home, s, AcquireRef(s, home(k), Event.Lock(c), FreeItem(k, p)), c, k)
  {
    RefMovesOn(home, s, c, k, s.pcs[c], FreeItem(k, p), Event.Lock(c));
  }

  lemma FreeUnlockMovesOn<K(!new)>(home: K -> nat, s: State<K>, c: nat, k: K, v: nat)
    requires Alone(home, s, c, k, FreeUnlock(k, v))
    ensures MovesOn(home, s, ReleaseRef(s, home(k), Event.Unlock(c), MapUnlock(k, Return(v))), c, k)
  {
    RefMovesOn(home, s, c, k, s.pcs[c], MapUnlock(k, Return(v)), Event.Unlock(c));
  }

  lemma FreeMovesOn<K(!new)>(home: K -> nat, s: State<K>, c: nat, k: K, p: nat)
    requires Alone(home, s, c, k, FreeItem(k, p)) && p in s.heap && s.heap[p].value.Present?
    ensures MovesOn(home, s, FreeNow(s, c, k, p), c, k)
  {
    InsideMovesOn(home, s, FreeNow(s, c, k, p), c, k, s.pcs[c], FreeUnlock(k, s.heap[p].data));
  }

  lemma RemoveMovesOn<K(!new)>(home: K -> nat, s: State<K>, c: nat, k: K)
    requires Inv(home, s) && Homes(home, |s.heads|) && c < |s.pcs| && InRemove(s.pcs[c]) && s.pcs[c].k == k
    requires Alone(home, s, c, k, s.pcs[c])
    ensures MovesOn(home, s, RemoveStep(home, s, c), c, k)
  {
    assert ClientOk(home, s, c) && HandOk(s, c, s.pcs[c]);
    var pc := s.pcs[c];
    match pc {
      case RemNext(_, prev, p, i) =>
        HoldsLinked(home, s, k, p, i);
        NextMovesOn(home, s, c, k, prev, p, i);
      case RemStore(_, _, _, _, _) => StoreMovesOn(home, s, c, k, pc);
      case SubLen(_, p) => DiscountMovesOn(home, s, c, k, p, Dec(s.len));
      case FreeLock(_, p) => FreeLockMovesOn(home, s, c, k, p);
      case FreeItem(_, p) => FreeMovesOn(home, s, c, k, p);
      case FreeUnlock(_, v) => FreeUnlockMovesOn(home, s, c, k, v);
    }
  }

  lemma CallMovesOn<K(!new)>(home: K -> nat, s: State<K>, c: nat, k: K, at: nat)
    requires Inv(home, s) && Homes(home, |s.heads|) && c < |s.pcs| && InCall(s.pcs[c]) && s.pcs[c].k == k
    requires Alone(home, s, c, k, s.pcs[c]) && (Phase(s.pcs[c]) >= 20 ==> at != NULL && at !in s.heap)
    ensures MovesOn(home, s, Step(home, s, Next(c, at)), c, k)
  {
    if InInsert(s.pcs[c]) {
      InsertMovesOn(home, s, c, k, at);
    } else if InRemove(s.pcs[c]) {
      RemoveMovesOn(home, s, c, k);
    } else if s.pcs[c].MapLock? {
      assert Step(home, s, Next(c, at)) == Acquire(s, Join(c), TakeFlag(s.pcs[c].op, k));
    } else {
      LookupMovesOn(home, s, c, k);
    }
  }

  lemma {:induction false} ReturnsAlone<K(!new)>(home: K -> nat, s: State<K>, c: nat, k: K, at: nat)
      returns (sched: seq<Act<K>>)
    requires Inv(home, s) && Homes(home, |s.heads|) && c < |s.pcs| && InCall(s.pcs[c]) && s.pcs[c].k == k
    requires Alone(home, s, c, k, s.pcs[c]) && (Phase(s.pcs[c]) >= 20 ==> at != NULL && at !in s.heap)
    ensures forall a :: a in sched ==> a.c == c
    ensures var s' := Exec(home, s, sched); Busy(home, s, sched, c) && c < |s'.pcs| && HasReturned(s'.pcs[c])
    decreases Phase(s.pcs[c]), ItemsLeft(home, s, s.pcs[c])
  {
    var s' := Step(home, s, Next(c, at));
    CallMovesOn(home, s, c, k, at);
    StepKeepsInv(home, s, Next(c, at));
    var rest: seq<Act<K>> := [];
    if !HasReturned(s'.pcs[c]) {
      rest := ReturnsAlone(home, s', c, k, at);
    }
    sched := [Next(c, at)] + rest;
    assert sched[1..] == rest;
  }

  /** An insert, get, get_mut or remove that is called while the map lock, and the flag and the guard
      lock of its bucket, are free, and then runs alone, returns. */
  lemma UndisturbedCallReturns<K(!new)>(home: K -> nat, buckets: nat, clients: nat, before: seq<Act<K>>, a: Act<K>)
      returns (sched: seq<Act<K>>)
    requires Homes(home, buckets) && a.call.Do?
    requires var s := Run(home, buckets, clients, before);
             && a.c < |s.pcs| && s.pcs[a.c].Idle? && a.at != NULL && a.at !in s.heap
             && s.mapLock.Free? && home(a.call.k) < |s.flags| && home(a.call.k) < |s.refs|
             && s.flags[home(a.call.k)].None? && s.refs[home(a.call.k)].Free?
    ensures forall x :: x in sched ==> x.c == a.c
    ensures var s := Step(home, Run(home, buckets, clients, before), a);
            var s' := Exec(home, s, sched);
            Busy(home, s, sched, a.c) && a.c < |s'.pcs| && HasReturned(s'.pcs[a.c])
  {
    CallStarts(home, buckets, clients, before, a);
    sched := ReturnsAlone(home, Step(home, Run(home, buckets, clients, before), a), a.c, a.call.k, a.at);
  }

  /** A guard can be dropped at any time, and gives its lock back. */
  lemma GuardIsDropped<K(!new)>(home: K -> nat, s: State<K>, c: nat)
    requires Inv(home, s) && Homes(home, |s.heads|) && c < |s.pcs| && (s.pcs[c].GuardRef? || s.pcs[c].GuardMut?)
    ensures var s', b := Step(home, s, Next(c, 0)), home(s.pcs[c].k);
            && c < |s'.pcs| && s'.pcs[c].Idle? && b < |s.refs| == |s'.refs|
            && Holders(s'.refs[b]) == Holders(s.refs[b]) - {c}
  {
    var pc, b := s.pcs[c], home(s.pcs[c].k);
    assert RefOk(home, s, b, c);
    if pc.GuardRef? {
      assert Step(home, s, Next(c, 0)) == ReleaseRef(s, b, Event.Leave(c), Idle);
    } else {
      assert Step(home, s, Next(c, 0)) == ReleaseRef(s, b, Event.Unlock(c), Idle);
    }
  }

  // ---- iteration ----

  predicate IsFinished<K>(pc: Pc<K>) {
    pc.IterReady? && pc.cur == NULL
  }

  /** No guard on any item, and the map lock is free or the iterator's. */
  ghost predicate IterAlone<K>(s: State<K>, c: nat) {
    && c < |s.pcs| && InIter(s.pcs[c]) && s.mapLock == LockFor(MapMode(s.pcs[c]), c)
    && forall b :: 0 <= b < |s.refs| ==> s.refs[b].Free?
  }

  function BucketsLeft<K>(s: State<K>, pc: Pc<K>): nat {
    match pc
    case IterLock => |s.heads| + 1
    case IterAdvance(b, _) => if b <= |s.heads| then |s.heads| - b else 0
    case IterReady(b, _, _, _) => if b <= |s.heads| then |s.heads| - b else 0
    case IterWait(b, _, _, _) => if b <= |s.heads| then |s.heads| - b else 0
    case IterRead(b, _, _, _) => if b <= |s.heads| then |s.heads| - b else 0
    case _ => 0
  }

  /** Three operations for every item of the bucket that is still to come. */
  function StepsLeft<K>(s: State<K>, pc: Pc<K>): nat {
    match pc
    case IterAdvance(b, _) => if b < |s.chains| then 3 * |s.chains[b]| + 1 else 1
    case IterReady(b, _, i, _) => if b < |s.chains| && i <= |s.chains[b]| then 3 * (|s.chains[b]| - i) else 0
    case IterWait(b, _, i, _) => if b < |s.chains| && i < |s.chains[b]| then 3 * (|s.chains[b]| - i) - 1 else 0
    case IterRead(b, _, i, _) => if b < |s.chains| && i < |s.chains[b]| then 3 * (|s.chains[b]| - i) - 2 else 0
    case _ => 0
  }

  ghost predicate IterMovesOn<K>(s: State<K>, s': State<K>, c: nat)
    requires c < |s.pcs|
  {
    && IterAlone(s', c)
    && var pc, pc' := s.pcs[c], s'.pcs[c];
       || BucketsLeft(s', pc') < BucketsLeft(s, pc)
       || (BucketsLeft(s', pc') == BucketsLeft(s, pc) && StepsLeft(s', pc') < StepsLeft(s, pc))
  }

  lemma IterGoes<K>(s: State<K>, c: nat, pc': Pc<K>)
    requires IterAlone(s, c) && InIter(pc') && MapMode(pc') == MapMode(s.pcs[c])
    requires || BucketsLeft(s, pc') < BucketsLeft(s, s.pcs[c])
             || (BucketsLeft(s, pc') == BucketsLeft(s, s.pcs[c]) && StepsLeft(s, pc') < StepsLeft(s, s.pcs[c]))
    ensures IterMovesOn(s, Goto(s, c, pc'), c)
  {
    var s' := Goto(s, c, pc');
    assert BucketsLeft(s', pc') == BucketsLeft(s, pc') && StepsLeft(s', pc') == StepsLeft(s, pc');
  }

  lemma AdvanceMovesOn<K(!new)>(home: K -> nat, s: State<K>, c: nat, b: nat, out: seq<nat>)
    requires Inv(home, s) && IterAlone(s, c) && s.pcs[c] == IterAdvance(b, out)
    ensures IterMovesOn(s, Advance(s, c, b, out), c)
  {
    assert ClientOk(home, s, c) && IterOk(s, s.pcs[c]) && BucketOk(s, b) && LinkOk(home, s, b, 0);
    if b >= |s.heads| {
      IterGoes(s, c, IterReady(b, NULL, 0, out));
    } else if s.heads[b] == NULL {
      IterGoes(s, c, IterAdvance(b + 1, out));
    } else {
      IterGoes(s, c, IterReady(b, s.heads[b], 0, out));
    }
  }

  lemma YieldMovesOn<K(!new)>(home: K -> nat, s: State<K>, c: nat, b: nat, cur: nat, i: nat, out: seq<nat>)
    requires Inv(home, s) && IterAlone(s, c) && s.pcs[c] == IterRead(b, cur, i, out)
    ensures IterMovesOn(s, Yield(s, c, b, cur, i, out), c)
  {
    assert ClientOk(home, s, c) && IterOk(s, s.pcs[c]) && LinkOk(home, s, b, i) && LinkOk(home, s, b, i + 1);
    if s.heap[cur].next == NULL {
      IterGoes(s, c, IterAdvance(b + 1, out + [cur]));
    } else {
      IterGoes(s, c, IterReady(b, s.heap[cur].next, i + 1, out + [cur]));
    }
  }

  lemma WaitMovesOn<K(!new)>(home: K -> nat, s: State<K>, c: nat)
    requires Inv(home, s) && IterAlone(s, c) && !IsFinished(s.pcs[c]) && (s.pcs[c].IterReady? || s.pcs[c].IterWait?)
    ensures IterMovesOn(s, IterStep(s, c, false), c)
  {
    assert ClientOk(home, s, c) && IterOk(s, s.pcs[c]);
    var pc := s.pcs[c];
    if pc.IterReady? {
      IterGoes(s, c, IterWait(pc.b, pc.cur, pc.i, pc.out));
    } else {
      IterGoes(s, c, IterRead(pc.b, pc.cur, pc.i, pc.out));
    }
  }

  lemma StartMovesOn<K>(s: State<K>, c: nat)
    requires IterAlone(s, c) && s.pcs[c].IterLock?
    ensures IterMovesOn(s, Acquire(s, Event.Lock(c), IterAdvance(0, [])), c)
  {
  }

  lemma IteratorMovesOn<K(!new)>(home: K -> nat, s: State<K>, c: nat)
    requires Inv(home, s) && IterAlone(s, c) && !IsFinished(s.pcs[c])
    ensures IterMovesOn(s, IterStep(s, c, false), c)
  {
    match s.pcs[c] {
      case IterLock => StartMovesOn(s, c);
      case IterAdvance(b, out) => AdvanceMovesOn(home, s, c, b, out);
      case IterReady(_, _, _, _) => WaitMovesOn(home, s, c);
      case IterWait(_, _, _, _) => WaitMovesOn(home, s, c);
      case IterRead(b, cur, i, out) => YieldMovesOn(home, s, c, b, cur, i, out);
    }
  }

  lemma {:induction false} IteratorEnds<K(!new)>(home: K -> nat, s: State<K>, c: nat) returns (sched: seq<Act<K>>)
    requires Inv(home, s) && Homes(home, |s.heads|) && IterAlone(s, c)
    ensures forall a :: a in sched ==> a.c == c
    ensures c < |Exec(home, s, sched).pcs| && IsFinished(Exec(home, s, sched).pcs[c])
    decreases BucketsLeft(s, s.pcs[c]), StepsLeft(s, s.pcs[c])
  {
    if IsFinished(s.pcs[c]) {
      sched := [];
    } else {
      var a := Act(c, Iterate, 0, false, 0);
      assert Step(home, s, a) == IterStep(s, c, false);
      IteratorMovesOn(home, s, c);
      StepKeepsInv(home, s, a);
      var rest := IteratorEnds(home, Step(home, s, a), c);
      sched := [a] + rest;
      assert sched[1..] == rest;
    }
  }

  /** An iterator that is made while the map lock is free and no guard is out, and then runs alone,
      comes to its end. */
  lemma UndisturbedIteratorEnds<K(!new)>(home: K -> nat, buckets: nat, clients: nat, before: seq<Act<K>>, a: Act<K>)
      returns (sched: seq<Act<K>>)
    requires Homes(home, buckets) && a.call.Iterate?
    requires var s := Run(home, buckets, clients, before);
             && a.c < |s.pcs| && s.pcs[a.c].Idle? && s.mapLock.Free?
             && forall b :: 0 <= b < |s.refs| ==> s.refs[b].Free?
    ensures forall x :: x in sched ==> x.c == a.c
    ensures var s' := Exec(home, Step(home, Run(home, buckets, clients, before), a), sched);
            a.c < |s'.pcs| && IsFinished(s'.pcs[a.c])
  {
    RunIsSafe(home, buckets, clients, before);
    var s := Run(home, buckets, clients, before);
    StepKeepsInv(home, s, a);
    sched := IteratorEnds(home, Step(home, s, a), a.c);
  }
}
