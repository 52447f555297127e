/** Every step of AtomicVec keeps the invariant: what a move of one client does to the lock, to
    the shape of the list, to the places of the values and to the count, and then the steps
    that move no value. */
module VecSteps {
  import opened Words
  import opened Tally
  import opened VecMachine
  import opened VecInvariant

  // ---- the lock and the list ----

  /** The lock holder is alone inside. */
  lemma OnlyInside<V>(s: State<V>, c: nat, d: nat)
    requires LockOk(s) && c < |s.pcs| && d < |s.pcs| && c != d && Inside(s.pcs[c]) == 1
    ensures !s.available && Inside(s.pcs[d]) == 0
  {
    SumCovers(Inside, s.pcs, c);
    SumCoversPair(Inside, s.pcs, if c < d then c else d, if c < d then d else c);
  }

  lemma HolderStays<V>(s: State<V>, s': State<V>, c: nat, pc: Pc<V>)
    requires Shaped(s) && c < |s.pcs| && s'.pcs == s.pcs[c := pc]
    requires Inside(s.pcs[c]) == 1 && Inside(pc) == 1 && s'.available == s.available
    requires Shape(ListOf(s'), pc)
    ensures Shaped(s')
  {
    SumUpdate(Inside, s.pcs, c, pc);
    SumCovers(Inside, s.pcs, c);
    forall d: nat ensures ShapeOk(s', d) {
      if d < |s.pcs| && d != c {
        OnlyInside(s, c, d);
      }
    }
  }

  /** A client outside moves; the list changes at most in ways no shape depends on. */
  lemma OutsiderMoves<V>(s: State<V>, s': State<V>, c: nat, pc: Pc<V>)
    requires Shaped(s) && c < |s.pcs| && s'.pcs == s.pcs[c := pc]
    requires Inside(s.pcs[c]) == 0 && Inside(pc) == 0 && s'.available == s.available
    requires s'.head == s.head && s'.tail == s.tail && s'.chain == s.chain
    requires forall p :: p in s.chain && p in s.heap ==> p in s'.heap && s'.heap[p] == s.heap[p]
    ensures Shaped(s')
  {
    SumUpdate(Inside, s.pcs, c, pc);
    if s.available {
      SameLinks(ListOf(s), ListOf(s'), NULL);
    }
    forall d: nat ensures ShapeOk(s', d) {
      assert ShapeOk(s, d);
      if d < |s.pcs| && d != c && Inside(s.pcs[d]) == 1 {
        SameShape(ListOf(s), ListOf(s'), s.pcs[d]);
      }
    }
  }

  lemma SameLinks<V>(l: List<V>, l': List<V>, end: nat)
    requires Links(l, end) && l'.chain == l.chain
    requires forall p :: p in l.chain && p in l.heap ==> p in l'.heap && l'.heap[p] == l.heap[p]
    ensures Links(l', end)
  {
    forall i | 0 <= i < |l'.chain| ensures LinkAt(l', i, end) {
      assert LinkAt(l, i, end);
    }
  }

  lemma SameShape<V>(l: List<V>, l': List<V>, pc: Pc<V>)
    requires Shape(l, pc) && l'.chain == l.chain && l'.head == l.head && l'.tail == l.tail
    requires forall p :: p in l.chain && p in l.heap ==> p in l'.heap && l'.heap[p] == l.heap[p]
    ensures Shape(l', pc)
  {
    var end := if pc.StoreTail? then pc.p else NULL;
    if l.chain != [] {
      SameLinks(l, l', end);
      assert LinkAt(l, 0, end);
    }
  }

  lemma Acquire<V>(s: State<V>, s': State<V>, c: nat, pc: Pc<V>)
    requires Shaped(s) && c < |s.pcs| && s'.pcs == s.pcs[c := pc]
    requires Inside(s.pcs[c]) == 0 && Inside(pc) == 1 && s.available && !s'.available
    requires ListOf(s') == ListOf(s) && Shape(ListOf(s'), pc)
    ensures Shaped(s')
  {
    SumUpdate(Inside, s.pcs, c, pc);
    forall d: nat ensures ShapeOk(s', d) {
      if d < |s.pcs| {
        SumCovers(Inside, s.pcs, d);
      }
    }
  }

  lemma GiveBack<V>(s: State<V>, s': State<V>, c: nat, pc: Pc<V>)
    requires Shaped(s) && c < |s.pcs| && s'.pcs == s.pcs[c := pc]
    requires Inside(s.pcs[c]) == 1 && Inside(pc) == 0 && s'.available
    requires ListOf(s') == ListOf(s) && AtRest(ListOf(s))
    ensures Shaped(s')
  {
    SumUpdate(Inside, s.pcs, c, pc);
    SumCovers(Inside, s.pcs, c);
    forall d: nat ensures ShapeOk(s', d) {
      if d < |s.pcs| && d != c {
        OnlyInside(s, c, d);
      }
    }
  }

  // ---- steps that move no value ----

  /** A step that moves no value from place to place. */
  ghost predicate NoValueMoves<V>(s: State<V>, s': State<V>, c: nat, pc: Pc<V>)
    requires c < |s.pcs|
  {
    && s'.pcs == s.pcs[c := pc] && Hand(pc) == Hand(s.pcs[c]) && Carries(pc) == Carries(s.pcs[c])
    && Takes(pc) == Takes(s.pcs[c])
    && (pc.FreeBlock? ==> pc.h in s.heap && pc.v == s.heap[pc.h].val)
    && !pc.SubLen?
    && s'.slot == s.slot && s'.crashed == s.crashed
    && (s'.pushed, s'.fate, s'.order, s'.chain, s'.took) == (s.pushed, s.fate, s.order, s.chain, s.took)
    && s'.delivered == s.delivered
    && s'.heap.Keys == s.heap.Keys
    && (forall p :: p in s.heap ==>
          && s'.heap[p].val == s.heap[p].val && s'.heap[p].ticket == s.heap[p].ticket
          && (s'.heap[p].next == s.heap[p].next || p in s.chain))
  }

  /** Linked blocks carry linked values. */
  lemma ChainIsLinked<V>(s: State<V>, p: nat)
    requires Places(s) && p in s.chain
    ensures p in s.heap && s.heap[p].ticket < |s.fate| && s.fate[s.heap[p].ticket].Linked?
  {
    var i :| 0 <= i < |s.chain| && s.chain[i] == p;
    assert RankOk(s, |s.took| + i);
  }

  lemma PlacesStay<V>(s: State<V>, s': State<V>, c: nat, pc: Pc<V>)
    requires Places(s) && c < |s.pcs| && NoValueMoves(s, s', c, pc)
    ensures Places(s')
  {
    assert forall p :: p in s'.heap <==> p in s.heap;
    forall p: nat ensures BlockOk(s', p) { assert BlockOk(s, p); }
    forall t: nat ensures FateOk(s', t) { assert FateOk(s, t); }
    forall r: nat ensures RankOk(s', r) { assert RankOk(s, r); }
    forall d: nat ensures ClientOk(s', d) {
      assert ClientOk(s, d) && ClientOk(s, c);
      if d < |s.pcs| && Hand(s.pcs[d]) in s.chain {
        ChainIsLinked(s, Hand(s.pcs[d]));
      }
    }
    if s.slot in s.chain {
      ChainIsLinked(s, s.slot);
    }
  }

  /** The count is unaffected when nothing is linked, unlinked or counted. */
  lemma CountStays<V>(s: State<V>, s': State<V>, c: nat, pc: Pc<V>)
    requires Counted(s) && c < |s.pcs| && s'.pcs == s.pcs[c := pc]
    requires s'.chain == s.chain && s'.len == s.len
    requires Uncounted(pc) == Uncounted(s.pcs[c]) && Undiscounted(pc) == Undiscounted(s.pcs[c])
    ensures Counted(s')
  {
    SumUpdate(Uncounted, s.pcs, c, pc);
    SumUpdate(Undiscounted, s.pcs, c, pc);
  }

  /** update_tail reads the tail, which is null only on an empty list. */
  lemma LoadTailStep<V>(s: State<V>, a: Act<V>)
    requires Inv(s) && a.c < |s.pcs| && s.pcs[a.c].LoadTail?
    ensures Inv(Step(s, a))
  {
    var c, s' := a.c, Step(s, a);
    assert ShapeOk(s, c);
    if s.chain != [] {
      assert LinkAt(ListOf(s), |s.chain| - 1, NULL);
    }
    assert ListOf(s') == ListOf(s);
    PlacesStay(s, s', c, s'.pcs[c]);
    HolderStays(s, s', c, s'.pcs[c]);
    CountStays(s, s', c, s'.pcs[c]);
  }

  /** pop loads the head and its successor. */
  lemma PopLoads<V>(s: State<V>, a: Act<V>)
    requires Inv(s) && a.c < |s.pcs| && (s.pcs[a.c].LoadHead? || s.pcs[a.c].LoadNext?)
    ensures Inv(Step(s, a))
  {
    var c, s' := a.c, Step(s, a);
    assert ShapeOk(s, c);
    if s.chain != [] {
      assert LinkAt(ListOf(s), 0, NULL);
    }
    assert ListOf(s') == ListOf(s);
    PlacesStay(s, s', c, s'.pcs[c]);
    HolderStays(s, s', c, s'.pcs[c]);
    CountStays(s, s', c, s'.pcs[c]);
  }

  /** The tail still points to the unlinked block exactly when that was the only one. */
  lemma CheckTailStep<V>(s: State<V>, a: Act<V>)
    requires Inv(s) && a.c < |s.pcs| && s.pcs[a.c].CheckTail?
    ensures Inv(Step(s, a))
  {
    var c, s' := a.c, Step(s, a);
    assert ShapeOk(s, c);
    HeadIsTakenOnce(s, c);
    assert ListOf(s') == ListOf(s);
    PlacesStay(s, s', c, s'.pcs[c]);
    HolderStays(s, s', c, s'.pcs[c]);
    CountStays(s, s', c, s'.pcs[c]);
  }

  /** A block that has been unlinked is not in the list any more. */
  lemma HeadIsTakenOnce<V>(s: State<V>, c: nat)
    requires Places(s) && c < |s.pcs| && Takes(s.pcs[c]).Block?
    ensures Takes(s.pcs[c]).h !in s.chain
  {
    var h := Takes(s.pcs[c]).h;
    assert ClientOk(s, c);
    assert RankOk(s, Takes(s.pcs[c]).rank);
    forall i | 0 <= i < |s.chain| ensures s.chain[i] != h {
      assert RankOk(s, |s.took| + i);
    }
  }

  /** The old last block is pointed at the new one. */
  lemma SetNextLinks<V>(s: State<V>, c: nat, p: nat, t: nat, from: From)
    requires Inv(s) && c < |s.pcs| && s.pcs[c] == StoreNext(p, t, from)
    ensures t in s.heap && t in s.chain && s.head == First(s.chain) && s.tail == Last(s.chain)
    ensures Links(ListOf(SetNext(s, c, p, t, from)), p)
  {
    var s', last := SetNext(s, c, p, t, from), |s.chain| - 1;
    assert ShapeOk(s, c) && LinkAt(ListOf(s), last, NULL);
    forall i | 0 <= i < |s.chain| ensures LinkAt(ListOf(s'), i, p) {
      assert LinkAt(ListOf(s), i, NULL);
      if i < last { ChainIsInjective(s, i, last); }
    }
  }

  lemma StoreNextStep<V>(s: State<V>, c: nat, p: nat, t: nat, from: From)
    requires Inv(s) && c < |s.pcs| && s.pcs[c] == StoreNext(p, t, from)
    ensures Inv(SetNext(s, c, p, t, from))
  {
    var s', pc := SetNext(s, c, p, t, from), StoreTail(p, from);
    SetNextLinks(s, c, p, t, from);
    PlacesStay(s, s', c, pc);
    HolderStays(s, s', c, pc);
    CountStays(s, s', c, pc);
  }

  lemma ChainIsInjective<V>(s: State<V>, i: nat, j: nat)
    requires Places(s) && i < j < |s.chain|
    ensures s.chain[i] != s.chain[j]
  {
    assert RankOk(s, |s.took| + i) && RankOk(s, |s.took| + j);
  }

  lemma CasHeadStep<V>(s: State<V>, a: Act<V>)
    requires Inv(s) && a.c < |s.pcs| && s.pcs[a.c].CasHead?
    ensures Inv(Step(s, a))
  {
    var c, s' := a.c, Step(s, a);
    assert ShapeOk(s, c) && LinkAt(ListOf(s), 0, NULL);
    SameLinks(ListOf(s), ListOf(s'), NULL);
    PlacesStay(s, s', c, s'.pcs[c]);
    HolderStays(s, s', c, s'.pcs[c]);
    CountStays(s, s', c, s'.pcs[c]);
  }

  lemma CasTailStep<V>(s: State<V>, a: Act<V>)
    requires Inv(s) && a.c < |s.pcs| && s.pcs[a.c].CasTail?
    ensures Inv(Step(s, a))
  {
    var c, s' := a.c, Step(s, a);
    assert ShapeOk(s, c);
    PlacesStay(s, s', c, s'.pcs[c]);
    HolderStays(s, s', c, s'.pcs[c]);
    CountStays(s, s', c, s'.pcs[c]);
  }

  lemma AddLenStep<V>(s: State<V>, a: Act<V>)
    requires Inv(s) && a.c < |s.pcs| && s.pcs[a.c].AddLen?
    ensures Inv(Step(s, a))
  {
    var c, s' := a.c, Step(s, a);
    assert ShapeOk(s, c);
    PlacesStay(s, s', c, s'.pcs[c]);
    HolderStays(s, s', c, s'.pcs[c]);
    SumUpdate(Uncounted, s.pcs, c, s'.pcs[c]);
    SumUpdate(Undiscounted, s.pcs, c, s'.pcs[c]);
    IncWraps(Count(s));
  }

  lemma ReopenStep<V>(s: State<V>, a: Act<V>)
    requires Inv(s) && a.c < |s.pcs| && s.pcs[a.c].Reopen?
    ensures Inv(Step(s, a))
  {
    var c, s' := a.c, Step(s, a);
    assert ShapeOk(s, c);
    PlacesStay(s, s', c, s'.pcs[c]);
    GiveBack(s, s', c, s'.pcs[c]);
    CountStays(s, s', c, s'.pcs[c]);
  }

  lemma AcquireStep<V>(s: State<V>, a: Act<V>)
    requires Inv(s) && a.c < |s.pcs| && (s.pcs[a.c].PushLock? || s.pcs[a.c].PopLock?)
    ensures Inv(Step(s, a))
  {
    if s.available {
      var c, s' := a.c, Step(s, a);
      PlacesStay(s, s', c, s'.pcs[c]);
      Acquire(s, s', c, s'.pcs[c]);
      CountStays(s, s', c, s'.pcs[c]);
    }
  }

  /** Steps outside the lock that move no value. */
  lemma OutsideStep<V>(s: State<V>, a: Act<V>)
    requires Inv(s) && a.c < |s.pcs|
    requires var pc := s.pcs[a.c]; pc.PushBusy? || pc.ReadValue? || (pc.Idle? && a.call.Pop?)
    ensures Inv(Step(s, a))
  {
    var c, s' := a.c, Step(s, a);
    assert ClientOk(s, c);
    PlacesStay(s, s', c, s'.pcs[c]);
    OutsiderMoves(s, s', c, s'.pcs[c]);
    CountStays(s, s', c, s'.pcs[c]);
  }
}
