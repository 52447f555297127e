/** Every step of the map keeps the lock part of the invariant: an operation on one of the three
    kinds of lock changes what its caller holds and nothing for anybody else. */
module MapLocks {
  import opened RwLock
  import opened MapMachine
  import opened MapInvariant
  import opened Wrappers

  /** For everybody but `c` the two lock values mean the same. */
  ghost predicate SameForOthers(l: Lock, l': Lock, c: nat) {
    forall d: nat, m: Mode :: d != c ==> (Granted(l, d, m) <==> Granted(l', d, m))
  }

  function ModeAfter(e: Event): Mode {
    match e
    case Lock(_) => Excl
    case Join(_) => Shared
    case _ => Nowhere
  }

  /** What an operation of the reference lock does to its caller and to nobody else. */
  lemma ApplyGrants(l: Lock, e: Event)
    requires !e.Silent? && Apply(l, e).Some?
    ensures SameForOthers(l, Apply(l, e).value, e.who)
    ensures Granted(Apply(l, e).value, e.who, ModeAfter(e))
  {
  }

  lemma GuardedHolds<K>(home: K -> nat, pc: Pc<K>)
    ensures Guarded(pc).Some? ==> RefMode(pc) != Nowhere && ModeAt(home, pc, Bucket(home, pc)) == RefMode(pc)
  {
  }

  /** Client `c` has moved and nothing else of what locks depend on. */
  lemma LocalLocks<K>(home: K -> nat, s: State<K>, s': State<K>, c: nat, pc: Pc<K>)
    requires Locks(home, s) && c < |s.pcs|
    requires s'.pcs == s.pcs[c := pc] && s'.mapLock == s.mapLock && s'.refs == s.refs && s'.flags == s.flags
    requires MapMode(pc) == MapMode(s.pcs[c]) && RefMode(pc) == RefMode(s.pcs[c]) && InBucket(pc) == InBucket(s.pcs[c])
    requires (RefMode(pc) == Nowhere && !InBucket(pc)) || Bucket(home, pc) == Bucket(home, s.pcs[c])
    requires Guarded(pc) == Guarded(s.pcs[c])
    requires IterFree(s', c)
    requires pc.InsWrite? ==> s.pcs[c].InsWrite?
    ensures Locks(home, s')
  {
    forall d: nat ensures MapOk(s', d) { assert MapOk(s, d); }
    forall b: nat, d: nat ensures RefOk(home, s', b, d) { assert RefOk(home, s, b, d); }
    forall b: nat, d: nat ensures FlagOk(home, s', b, d) { assert FlagOk(home, s, b, d); }
    GuardedHolds(home, pc);
    forall d: nat, e: nat ensures WriteOk(home, s', d, e) { assert WriteOk(home, s, d, e); }
    forall d: nat ensures IterFree(s', d) { assert IterFree(s, d); }
  }

  /** An operation on the map-wide lock. */
  lemma MapLockMoves<K>(home: K -> nat, s: State<K>, s': State<K>, e: Event, pc: Pc<K>)
    requires Locks(home, s) && !e.Silent? && e.who < |s.pcs| && Apply(s.mapLock, e).Some?
    requires s'.pcs == s.pcs[e.who := pc] && s'.mapLock == Apply(s.mapLock, e).value
    requires s'.refs == s.refs && s'.flags == s.flags
    requires MapMode(pc) == ModeAfter(e)
    requires RefMode(pc) == RefMode(s.pcs[e.who]) && !InBucket(pc) && !InBucket(s.pcs[e.who])
    requires RefMode(pc) == Nowhere || Bucket(home, pc) == Bucket(home, s.pcs[e.who])
    requires Guarded(pc) == Guarded(s.pcs[e.who])
    requires !pc.IterRead?
    ensures Locks(home, s')
  {
    var c := e.who;
    ApplyGrants(s.mapLock, e);
    forall d: nat ensures MapOk(s', d) { assert MapOk(s, d); }
    forall b: nat, d: nat ensures RefOk(home, s', b, d) { assert RefOk(home, s, b, d); }
    forall b: nat, d: nat ensures FlagOk(home, s', b, d) { assert FlagOk(home, s, b, d); }
    GuardedHolds(home, pc);
    forall d: nat, f: nat ensures WriteOk(home, s', d, f) { assert WriteOk(home, s, d, f); }
    forall d: nat ensures IterFree(s', d) { assert IterFree(s, d); }
  }

  /** An operation on the guard lock of bucket `b`: the grants. */
  lemma RefLockGrants<K>(home: K -> nat, s: State<K>, s': State<K>, b: nat, e: Event, pc: Pc<K>)
    requires Locks(home, s) && !e.Silent? && e.who < |s.pcs| && b < |s.refs| && Apply(s.refs[b], e).Some?
    requires s'.pcs == s.pcs[e.who := pc] && s'.refs == s.refs[b := Apply(s.refs[b], e).value]
    requires RefMode(pc) == ModeAfter(e)
    requires Bucket(home, s.pcs[e.who]) == b && (RefMode(pc) == Nowhere || Bucket(home, pc) == b)
    ensures forall a: nat, d: nat :: RefOk(home, s', a, d)
  {
    ApplyGrants(s.refs[b], e);
    forall a: nat, d: nat ensures RefOk(home, s', a, d) {
      assert RefOk(home, s, a, d);
      assert a != b && d == e.who ==> ModeAt(home, pc, a) == Nowhere == ModeAt(home, s.pcs[d], a);
    }
  }

  /** A client in the middle of an operation keeps iterators out. */
  lemma NoIterator<K>(home: K -> nat, s: State<K>, c: nat, d: nat)
    requires Locks(home, s) && c < |s.pcs| && d < |s.pcs| && MapMode(s.pcs[c]) == Shared
    ensures MapMode(s.pcs[d]) != Excl
  {
    assert MapOk(s, c) && MapOk(s, d);
  }

  /** An iterator keeps operations out. */
  lemma NoOperation<K>(home: K -> nat, s: State<K>, c: nat, d: nat)
    requires Locks(home, s) && c < |s.pcs| && d < |s.pcs| && MapMode(s.pcs[c]) == Excl && c != d
    ensures MapMode(s.pcs[d]) == Nowhere
  {
    assert MapOk(s, c) && MapOk(s, d);
  }

  /** A bucket flag has one holder. */
  lemma OneInBucket<K>(home: K -> nat, s: State<K>, c: nat, d: nat)
    requires Locks(home, s) && c < |s.pcs| && d < |s.pcs| && InBucket(s.pcs[c]) && InBucket(s.pcs[d])
    requires Bucket(home, s.pcs[c]) == Bucket(home, s.pcs[d]) < |s.flags|
    ensures c == d
  {
    var b := Bucket(home, s.pcs[c]);
    assert FlagOk(home, s, b, c) && FlagOk(home, s, b, d);
  }

  /** A client with the guard lock of a bucket in exclusive mode keeps guards out. */
  lemma NoGuard<K>(home: K -> nat, s: State<K>, c: nat, d: nat)
    requires Locks(home, s) && c < |s.pcs| && d < |s.pcs| && RefMode(s.pcs[c]) == Excl && c != d
    requires Bucket(home, s.pcs[c]) == Bucket(home, s.pcs[d]) < |s.refs|
    ensures RefMode(s.pcs[d]) == Nowhere && Guarded(s.pcs[d]).None?
  {
    var b := Bucket(home, s.pcs[c]);
    assert RefOk(home, s, b, c) && RefOk(home, s, b, d);
    GuardedHolds(home, s.pcs[d]);
  }

  /** Taking a guard lock: only inside an operation. */
  lemma RefLockTaken<K>(home: K -> nat, s: State<K>, s': State<K>, b: nat, e: Event, pc: Pc<K>)
    requires Locks(home, s) && (e.Lock? || e.Join?) && e.who < |s.pcs| && b < |s.refs| && Apply(s.refs[b], e).Some?
    requires |s.flags| == |s.refs|
    requires s'.pcs == s.pcs[e.who := pc] && s'.refs == s.refs[b := Apply(s.refs[b], e).value]
    requires s'.mapLock == s.mapLock && s'.flags == s.flags
    requires RefMode(pc) == ModeAfter(e) && MapMode(pc) == MapMode(s.pcs[e.who]) == Shared
    requires InBucket(pc) == InBucket(s.pcs[e.who])
    requires Bucket(home, s.pcs[e.who]) == Bucket(home, pc) == b
    requires !pc.InsWrite? && !s.pcs[e.who].InsWrite?
    requires Guarded(pc).None? || InBucket(pc)
    ensures Locks(home, s')
  {
    var c := e.who;
    RefLockGrants(home, s, s', b, e, pc);
    forall d: nat ensures MapOk(s', d) { assert MapOk(s, d); }
    forall a: nat, d: nat ensures FlagOk(home, s', a, d) { assert FlagOk(home, s, a, d); }
    forall d: nat, f: nat ensures WriteOk(home, s', d, f) {
      assert WriteOk(home, s, d, f);
      if f == c && d < |s.pcs| && d != c && s.pcs[d].InsWrite? && Guarded(pc).Some? && Bucket(home, s.pcs[d]) == b {
        OneInBucket(home, s, c, d);
      }
    }
    forall d: nat ensures IterFree(s', d) {
      if d < |s.pcs| { NoIterator(home, s, c, d); }
    }
  }

  /** Giving a guard lock back, at any time. */
  lemma RefLockGiven<K>(home: K -> nat, s: State<K>, s': State<K>, b: nat, e: Event, pc: Pc<K>)
    requires Locks(home, s) && (e.Unlock? || e.Leave?) && e.who < |s.pcs| && b < |s.refs| && Apply(s.refs[b], e).Some?
    requires s'.pcs == s.pcs[e.who := pc] && s'.refs == s.refs[b := Apply(s.refs[b], e).value]
    requires s'.mapLock == s.mapLock && s'.flags == s.flags
    requires RefMode(pc) == Nowhere && RefMode(s.pcs[e.who]) != Nowhere
    requires MapMode(pc) == MapMode(s.pcs[e.who])
    requires InBucket(pc) == InBucket(s.pcs[e.who])
    requires Bucket(home, s.pcs[e.who]) == b && (InBucket(pc) ==> Bucket(home, pc) == b)
    requires pc.InsWrite? ==> Bucket(home, pc) == b && RefMode(s.pcs[e.who]) == Excl
    requires !pc.IterRead?
    ensures Locks(home, s')
  {
    var c := e.who;
    RefLockGrants(home, s, s', b, e, pc);
    forall d: nat ensures MapOk(s', d) { assert MapOk(s, d); }
    forall a: nat, d: nat ensures FlagOk(home, s', a, d) { assert FlagOk(home, s, a, d); }
    GuardedHolds(home, pc);
    forall d: nat, f: nat ensures WriteOk(home, s', d, f) {
      assert WriteOk(home, s, d, f);
      if d == c && pc.InsWrite? && f < |s.pcs| && f != c && Bucket(home, s.pcs[f]) == b {
        NoGuard(home, s, c, f);
      }
    }
    assert RefOk(home, s, b, c);
    forall d: nat ensures IterFree(s', d) { assert IterFree(s, d); }
  }

  /** Taking or giving back a bucket flag. */
  lemma FlagMoves<K>(home: K -> nat, s: State<K>, s': State<K>, c: nat, pc: Pc<K>)
    requires Locks(home, s) && c < |s.pcs|
    requires s'.pcs == s.pcs[c := pc] && s'.mapLock == s.mapLock && s'.refs == s.refs
    requires MapMode(pc) == MapMode(s.pcs[c]) && RefMode(pc) == RefMode(s.pcs[c]) && InBucket(pc) != InBucket(s.pcs[c])
    requires Bucket(home, pc) == Bucket(home, s.pcs[c]) < |s.flags|
    requires Guarded(pc) == Guarded(s.pcs[c]) && !pc.InsWrite? && !pc.IterRead?
    requires InBucket(pc) ==> s.flags[Bucket(home, pc)] == None
    requires s'.flags == s.flags[Bucket(home, pc) := if InBucket(pc) then Some(c) else None]
    ensures Locks(home, s')
  {
    forall d: nat ensures MapOk(s', d) { assert MapOk(s, d); }
    forall b: nat, d: nat ensures RefOk(home, s', b, d) { assert RefOk(home, s, b, d); }
    var b0 := Bucket(home, pc);
    assert FlagOk(home, s, b0, c);
    forall b: nat, d: nat ensures FlagOk(home, s', b, d) { assert FlagOk(home, s, b, d); }
    forall d: nat, e: nat ensures WriteOk(home, s', d, e) { assert WriteOk(home, s, d, e); }
    forall d: nat ensures IterFree(s', d) { assert IterFree(s, d); }
  }
}
