/** What each group of steps of the map leaves alone: locks and positions are all that most steps
    change, and the position of nobody but the client that moves; the theorems about runs use
    these frames in place of the definitions of the steps. */
module MapFrames {
  import opened RwLock
  import opened MapMachine

  /** Nothing but locks and positions. */
  ghost predicate OnlyLocks<K>(s: State<K>, s': State<K>) {
    s' == s.(mapLock := s'.mapLock, flags := s'.flags, refs := s'.refs, pcs := s'.pcs, crashed := s'.crashed)
  }

  ghost predicate OneMoves<K>(s: State<K>, s': State<K>, c: nat)
    requires c < |s.pcs|
  {
    |s'.pcs| == |s.pcs| && s'.pcs == s.pcs[c := s'.pcs[c]]
  }

  lemma AcquireFrame<K>(s: State<K>, e: Event, pc: Pc<K>)
    requires (e.Lock? || e.Join?) && e.who < |s.pcs|
    ensures var s' := Acquire(s, e, pc); OnlyLocks(s, s') && OneMoves(s, s', e.who)
  {
    if Apply(s.mapLock, e).Some? {
      assert Acquire(s, e, pc) == Goto(s.(mapLock := Apply(s.mapLock, e).value), e.who, pc);
    } else {
      assert Acquire(s, e, pc) == s;
    }
  }

  lemma ReleaseFrame<K>(s: State<K>, e: Event, pc: Pc<K>)
    requires (e.Unlock? || e.Leave?) && e.who < |s.pcs|
    ensures var s' := Release(s, e, pc); OnlyLocks(s, s') && OneMoves(s, s', e.who)
  {
    if Apply(s.mapLock, e).Some? {
      assert Release(s, e, pc) == Goto(s.(mapLock := Apply(s.mapLock, e).value), e.who, pc);
    } else {
      assert Release(s, e, pc) == Crash(s);
    }
  }

  lemma AcquireRefFrame<K>(s: State<K>, b: nat, e: Event, pc: Pc<K>)
    requires (e.Lock? || e.Join?) && e.who < |s.pcs|
    ensures var s' := AcquireRef(s, b, e, pc); OnlyLocks(s, s') && OneMoves(s, s', e.who)
  {
    if b >= |s.refs| {
      assert AcquireRef(s, b, e, pc) == Crash(s);
    } else if Apply(s.refs[b], e).Some? {
      assert AcquireRef(s, b, e, pc) == Goto(s.(refs := s.refs[b := Apply(s.refs[b], e).value]), e.who, pc);
    } else {
      assert AcquireRef(s, b, e, pc) == s;
    }
  }

  lemma ReleaseRefFrame<K>(s: State<K>, b: nat, e: Event, pc: Pc<K>)
    requires (e.Unlock? || e.Leave?) && e.who < |s.pcs|
    ensures var s' := ReleaseRef(s, b, e, pc); OnlyLocks(s, s') && OneMoves(s, s', e.who)
  {
    if b < |s.refs| && Apply(s.refs[b], e).Some? {
      assert ReleaseRef(s, b, e, pc) == Goto(s.(refs := s.refs[b := Apply(s.refs[b], e).value]), e.who, pc);
    } else {
      assert ReleaseRef(s, b, e, pc) == Crash(s);
    }
  }

  lemma OutsideFrame<K>(home: K -> nat, s: State<K>, c: nat, call: Call<K>, drop: bool, v: nat)
    requires c < |s.pcs| && OutsideMap(s.pcs[c])
    ensures var s' := OutsideStep(home, s, c, call, drop, v);
            && OneMoves(s, s', c)
            && s'.args == (if s.pcs[c].Idle? then s.args[c := v] else s.args)
            && if s.pcs[c].GuardMut? && !drop then s' == WriteThrough(s, s.pcs[c].p, v)
               else OnlyLocks(s.(args := s'.args), s')
  {
    match s.pcs[c] {
      case Idle =>
      case MapLock(op, k) => AcquireFrame(s, Join(c), TakeFlag(op, k));
      case GuardRef(k, p) => ReleaseRefFrame(s, home(k), Event.Leave(c), Idle);
      case GuardMut(k, p) => ReleaseRefFrame(s, home(k), Event.Unlock(c), Idle);
    }
  }

  lemma WalkFrame<K>(s: State<K>, c: nat, op: Op, k: K, head: nat, prev: nat, cur: nat, i: nat)
    requires c < |s.pcs|
    ensures var s' := WalkOn(s, c, op, k, head, prev, cur, i); OnlyLocks(s, s') && OneMoves(s, s', c)
  {
  }

  lemma LookupFrame<K>(home: K -> nat, s: State<K>, c: nat)
    requires c < |s.pcs|
    requires !InInsert(s.pcs[c]) && !InRemove(s.pcs[c]) && !InIter(s.pcs[c]) && !OutsideMap(s.pcs[c])
    ensures var s' := LookupStep(home, s, c); OnlyLocks(s, s') && OneMoves(s, s', c)
  {
    match s.pcs[c] {
      case TakeFlag(_, _) =>
      case LoadHead(_, _) =>
      case Walk(op, k, head, prev, cur, i) =>
        WalkFrame(s, c, op, k, head, prev, cur, i);
        assert LookupStep(home, s, c) == WalkOn(s, c, op, k, head, prev, cur, i);
      case GuardLock(k, p, _, exclusive) =>
        if exclusive {
          AcquireRefFrame(s, home(k), Event.Lock(c), GiveFlag(k, KeepMut(p)));
        } else {
          AcquireRefFrame(s, home(k), Join(c), GiveFlag(k, KeepRef(p)));
        }
      case GiveFlag(_, _) =>
      case MapUnlock(k, after) => ReleaseFrame(s, Event.Leave(c), AfterMap(k, after));
    }
  }

  lemma IterFrame<K>(s: State<K>, c: nat, drop: bool)
    requires c < |s.pcs| && InIter(s.pcs[c])
    ensures var s' := IterStep(s, c, drop); OnlyLocks(s, s') && OneMoves(s, s', c)
  {
    match s.pcs[c] {
      case IterLock => AcquireFrame(s, Event.Lock(c), IterAdvance(0, []));
      case IterAdvance(_, _) =>
      case IterReady(_, _, _, _) => ReleaseFrame(s, Event.Unlock(c), Idle);
      case IterWait(_, _, _, _) =>
      case IterRead(_, _, _, _) =>
    }
  }

  /** The steps of insert that neither link nor write. */
  lemma InsertFrame<K>(home: K -> nat, s: State<K>, c: nat, at: nat)
    requires c < |s.pcs| && InInsert(s.pcs[c]) && !s.pcs[c].InsLink? && !s.pcs[c].InsWrite?
    ensures var s' := InsertStep(home, s, c, at);
            && OneMoves(s, s', c)
            && (s.pcs[c].InsRef? || s.pcs[c].InsUnref? ==> OnlyLocks(s, s'))
            && (s.pcs[c].InsDrop? ==> s' == DropValue(s, c, s.pcs[c].p, InsUnref(s.pcs[c].k, s.pcs[c].p, s.pcs[c].i)))
            && (s.pcs[c].InsAlloc? ==> s' == Alloc(s, c, s.pcs[c].k, s.pcs[c].head, at))
            && (s.pcs[c].AddLen? ==> OnlyLocks(s, s'.(len := s.len)))
  {
    match s.pcs[c] {
      case InsRef(k, p, i) => AcquireRefFrame(s, home(k), Event.Lock(c), InsDrop(k, p, i));
      case InsUnref(k, p, i) => ReleaseRefFrame(s, home(k), Event.Unlock(c), InsWrite(k, p, i));
      case InsDrop(_, _, _) =>
      case InsAlloc(_, _) =>
      case AddLen(_) =>
    }
  }

  /** The steps of remove that do not unlink. */
  lemma RemoveFrame<K>(home: K -> nat, s: State<K>, c: nat)
    requires c < |s.pcs| && InRemove(s.pcs[c]) && !s.pcs[c].RemStore?
    ensures var s' := RemoveStep(home, s, c);
            && OneMoves(s, s', c)
            && (!s.pcs[c].FreeItem? ==> OnlyLocks(s, s'.(len := s.len)))
            && (s.pcs[c].FreeItem? ==> s' == FreeNow(s, c, s.pcs[c].k, s.pcs[c].p))
  {
    match s.pcs[c] {
      case RemNext(_, _, _, _) =>
      case SubLen(_, _) =>
      case FreeLock(k, p) => AcquireRefFrame(s, home(k), Event.Lock(c), FreeItem(k, p));
      case FreeItem(_, _) =>
      case FreeUnlock(k, v) => ReleaseRefFrame(s, home(k), Event.Unlock(c), MapUnlock(k, Return(v)));
    }
  }
}
