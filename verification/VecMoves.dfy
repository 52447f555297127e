/** Every step of AtomicVec keeps the invariant: the steps that move a value from one place to
    the next, from the pusher's hand through the slot and the list to the popper and the result. */
module VecMoves {
  import opened Words
  import opened Tally
  import opened VecMachine
  import opened VecInvariant
  import opened VecSteps

  // ---- a new value ----

  lemma BeginPushPlaces<V>(s: State<V>, c: nat, v: V, at: nat)
    requires Inv(s) && c < |s.pcs| && s.pcs[c].Idle? && at != NULL && at !in s.heap
    ensures Places(BeginPush(s, c, v, at))
  {
    var s' := BeginPush(s, c, v, at);
    var t0 := |s.pushed|;
    assert ClientOk(s, c);
    forall p: nat ensures BlockOk(s', p) { assert BlockOk(s, p); }
    forall t: nat ensures FateOk(s', t) { assert FateOk(s, t); }
    forall r: nat ensures RankOk(s', r) { assert RankOk(s, r); }
    forall d: nat ensures ClientOk(s', d) { assert ClientOk(s, d); }
  }

  lemma BeginPushStep<V>(s: State<V>, a: Act<V>)
    requires Inv(s) && a.c < |s.pcs| && s.pcs[a.c].Idle? && a.call.Push?
    ensures Inv(Step(s, a))
  {
    var c, s' := a.c, Step(s, a);
    if a.call.at != NULL && a.call.at !in s.heap {
      BeginPushPlaces(s, c, a.call.v, a.call.at);
      OutsiderMoves(s, s', c, s'.pcs[c]);
      CountStays(s, s', c, s'.pcs[c]);
    }
  }

  // ---- hand to slot, slot to hand ----

  lemma StashPlaces<V>(s: State<V>, c: nat, p0: nat)
    requires Inv(s) && c < |s.pcs| && s.pcs[c] == PushStash(p0) && s.slot == NULL
    ensures Places(Stash(s, c, p0)) && p0 in s.heap && s.heap[p0].ticket < |s.fate|
  {
    var s' := Stash(s, c, p0);
    assert ClientOk(s, c);
    forall p: nat ensures BlockOk(s', p) { assert BlockOk(s, p); }
    forall t: nat ensures FateOk(s', t) { assert FateOk(s, t); }
    forall r: nat ensures RankOk(s', r) { assert RankOk(s, r); }
    forall d: nat ensures ClientOk(s', d) { assert ClientOk(s, d); }
  }

  lemma StashStep<V>(s: State<V>, a: Act<V>)
    requires Inv(s) && a.c < |s.pcs| && s.pcs[a.c].PushStash?
    ensures Inv(Step(s, a))
  {
    var c, s' := a.c, Step(s, a);
    if s.slot == NULL {
      StashPlaces(s, c, s.pcs[c].p);
    } else {
      PlacesStay(s, s', c, s'.pcs[c]);
    }
    OutsiderMoves(s, s', c, s'.pcs[c]);
    CountStays(s, s', c, s'.pcs[c]);
  }

  lemma TakeSlotValues<V>(s: State<V>, c: nat, k: Cont)
    requires Inv(s) && c < |s.pcs| && s.pcs[c] == Swap(k) && s.slot != NULL
    ensures var s' := TakeSlot(s, c, k);
            && (forall p: nat :: BlockOk(s', p)) && (forall t: nat :: FateOk(s', t))
  {
    var s' := TakeSlot(s, c, k);
    assert ClientOk(s, c);
    forall p: nat ensures BlockOk(s', p) { assert BlockOk(s, p); }
    forall t: nat ensures FateOk(s', t) { assert FateOk(s, t); }
  }

  lemma TakeSlotPlaces<V>(s: State<V>, c: nat, k: Cont)
    requires Inv(s) && c < |s.pcs| && s.pcs[c] == Swap(k) && s.slot != NULL
    ensures Places(TakeSlot(s, c, k)) && !TakeSlot(s, c, k).crashed
  {
    var s' := TakeSlot(s, c, k);
    assert ClientOk(s, c);
    TakeSlotValues(s, c, k);
    forall r: nat ensures RankOk(s', r) { assert RankOk(s, r); }
    forall d: nat ensures ClientOk(s', d) { assert ClientOk(s, d); }
  }

  lemma SwapStep<V>(s: State<V>, a: Act<V>)
    requires Inv(s) && a.c < |s.pcs| && s.pcs[a.c].Swap?
    ensures Inv(Step(s, a))
  {
    var c, s' := a.c, Step(s, a);
    assert ShapeOk(s, c);
    if s.slot == NULL {
      PlacesStay(s, s', c, s'.pcs[c]);
    } else {
      TakeSlotPlaces(s, c, s.pcs[c].k);
    }
    assert ListOf(s') == ListOf(s);
    HolderStays(s, s', c, s'.pcs[c]);
    CountStays(s, s', c, s'.pcs[c]);
  }

  // ---- hand to list ----

  lemma SetTailRanks<V>(s: State<V>, c: nat, p0: nat, from: From, r: nat)
    requires Inv(s) && c < |s.pcs| && s.pcs[c] == StoreTail(p0, from)
    ensures RankOk(SetTail(s, c, p0, from), r)
  {
    var s' := SetTail(s, c, p0, from);
    assert ClientOk(s, c) && RankOk(s, r);
  }

  lemma SetTailClients<V>(s: State<V>, c: nat, p0: nat, from: From, d: nat)
    requires Inv(s) && c < |s.pcs| && s.pcs[c] == StoreTail(p0, from)
    ensures ClientOk(SetTail(s, c, p0, from), d)
  {
    assert ClientOk(s, c) && ClientOk(s, d);
  }

  lemma SetTailPlaces<V>(s: State<V>, c: nat, p0: nat, from: From)
    requires Inv(s) && c < |s.pcs| && s.pcs[c] == StoreTail(p0, from)
    ensures Places(SetTail(s, c, p0, from)) && p0 in s.heap && s.heap[p0].ticket < |s.fate|
  {
    var s' := SetTail(s, c, p0, from);
    assert ClientOk(s, c);
    forall p: nat ensures BlockOk(s', p) { assert BlockOk(s, p); }
    forall t: nat ensures FateOk(s', t) { assert FateOk(s, t); }
    forall r: nat ensures RankOk(s', r) { SetTailRanks(s, c, p0, from, r); }
    forall d: nat ensures ClientOk(s', d) { SetTailClients(s, c, p0, from, d); }
  }

  lemma SetTailStep<V>(s: State<V>, a: Act<V>)
    requires Inv(s) && a.c < |s.pcs| && s.pcs[a.c].StoreTail?
    ensures Inv(Step(s, a))
  {
    var c, s' := a.c, Step(s, a);
    var p0 := s.pcs[c].p;
    assert ShapeOk(s, c) && ClientOk(s, c);
    SetTailPlaces(s, c, p0, s.pcs[c].from);
    forall i | 0 <= i < |s'.chain| ensures LinkAt(ListOf(s'), i, NULL) {
      assert i < |s.chain| ==> LinkAt(ListOf(s), i, p0);
    }
    HolderStays(s, s', c, s'.pcs[c]);
    SumUpdate(Uncounted, s.pcs, c, s'.pcs[c]);
    SumUpdate(Undiscounted, s.pcs, c, s'.pcs[c]);
  }

  // ---- list to popper ----

  lemma SetHeadPlaces<V>(s: State<V>, c: nat, h: nat, n: nat)
    requires Inv(s) && c < |s.pcs| && s.pcs[c] == StoreHead(h, n) && s.chain != [] && h == s.chain[0]
    ensures Places(SetHead(s, c, h, n))
  {
    var s' := SetHead(s, c, h, n);
    var r0 := |s.took|;
    assert ClientOk(s, c) && RankOk(s, r0);
    assert s'.chain == s.chain[1..];
    forall p: nat ensures BlockOk(s', p) { assert BlockOk(s, p); }
    forall t: nat ensures FateOk(s', t) { assert FateOk(s, t); }
    forall r: nat ensures RankOk(s', r) { assert RankOk(s, r); }
    forall d: nat ensures ClientOk(s', d) { assert ClientOk(s, d); }
  }

  lemma SetHeadStep<V>(s: State<V>, a: Act<V>)
    requires Inv(s) && a.c < |s.pcs| && s.pcs[a.c].StoreHead?
    ensures Inv(Step(s, a))
  {
    var c, s' := a.c, Step(s, a);
    assert ShapeOk(s, c) && LinkAt(ListOf(s), 0, NULL);
    SetHeadPlaces(s, c, s.pcs[c].h, s.pcs[c].n);
    forall i | 0 <= i < |s'.chain| ensures LinkAt(ListOf(s'), i, NULL) {
      assert LinkAt(ListOf(s), i + 1, NULL);
    }
    HolderStays(s, s', c, s'.pcs[c]);
    SumUpdate(Uncounted, s.pcs, c, s'.pcs[c]);
    SumUpdate(Undiscounted, s.pcs, c, s'.pcs[c]);
  }

  // ---- the end of a block, the end of a pop ----

  /** Only the freeing client holds the block it frees. */
  lemma FreeClients<V>(s: State<V>, c: nat, h: nat, r: nat, v: V, d: nat)
    requires Inv(s) && c < |s.pcs| && s.pcs[c] == FreeBlock(h, r, v)
    ensures ClientOk(Free(s, c, h, r, v), d)
  {
    assert ClientOk(s, c) && ClientOk(s, d) && RankOk(s, r) && BlockOk(s, h);
    if d < |s.pcs| && d != c && Takes(s.pcs[d]).Block? {
      assert RankOk(s, Takes(s.pcs[d]).rank);
    }
  }

  /** Its value is delivered or about to be; every other value keeps its place. */
  lemma FreeValues<V>(s: State<V>, c: nat, h: nat, r0: nat, v: V)
    requires Inv(s) && c < |s.pcs| && s.pcs[c] == FreeBlock(h, r0, v)
    ensures var s' := Free(s, c, h, r0, v);
            && (forall p: nat :: BlockOk(s', p)) && (forall t: nat :: FateOk(s', t))
  {
    var s' := Free(s, c, h, r0, v);
    assert ClientOk(s, c) && RankOk(s, r0) && BlockOk(s, h);
    forall p: nat ensures BlockOk(s', p) { assert BlockOk(s, p); }
    forall t: nat ensures FateOk(s', t) { assert FateOk(s, t); }
  }

  lemma FreePlaces<V>(s: State<V>, c: nat, h: nat, r0: nat, v: V)
    requires Inv(s) && c < |s.pcs| && s.pcs[c] == FreeBlock(h, r0, v)
    ensures Places(Free(s, c, h, r0, v)) && h in s.heap
  {
    var s' := Free(s, c, h, r0, v);
    assert ClientOk(s, c) && RankOk(s, r0);
    FreeValues(s, c, h, r0, v);
    forall r: nat ensures RankOk(s', r) { assert RankOk(s, r); }
    forall d: nat ensures ClientOk(s', d) { FreeClients(s, c, h, r0, v, d); }
  }

  lemma FreeBlockStep<V>(s: State<V>, a: Act<V>)
    requires Inv(s) && a.c < |s.pcs| && s.pcs[a.c].FreeBlock?
    ensures Inv(Step(s, a))
  {
    var c, s' := a.c, Step(s, a);
    var pc := s.pcs[c];
    FreePlaces(s, c, pc.h, pc.rank, pc.v);
    HeadIsTakenOnce(s, c);
    OutsiderMoves(s, s', c, s'.pcs[c]);
    CountStays(s, s', c, s'.pcs[c]);
  }

  /** No block moves. */
  lemma DeliverValues<V>(s: State<V>, c: nat, r0: nat, v: V)
    requires Inv(s) && c < |s.pcs| && s.pcs[c] == SubLen(r0, v)
    ensures var s' := Deliver(s, c, r0, v);
            && (forall p: nat :: BlockOk(s', p)) && (forall t: nat :: FateOk(s', t))
  {
    var s' := Deliver(s, c, r0, v);
    forall p: nat ensures BlockOk(s', p) { assert BlockOk(s, p); }
    forall t: nat ensures FateOk(s', t) { assert FateOk(s, t); }
  }

  lemma DeliverPlaces<V>(s: State<V>, c: nat, r0: nat, v: V)
    requires Inv(s) && c < |s.pcs| && s.pcs[c] == SubLen(r0, v)
    ensures Places(Deliver(s, c, r0, v))
  {
    var s' := Deliver(s, c, r0, v);
    assert ClientOk(s, c);
    DeliverValues(s, c, r0, v);
    forall r: nat ensures RankOk(s', r) { assert RankOk(s, r); }
    forall d: nat ensures ClientOk(s', d) { assert ClientOk(s, d); }
  }

  lemma SubLenStep<V>(s: State<V>, a: Act<V>)
    requires Inv(s) && a.c < |s.pcs| && s.pcs[a.c].SubLen?
    ensures Inv(Step(s, a))
  {
    var c, s' := a.c, Step(s, a);
    DeliverPlaces(s, c, s.pcs[c].rank, s.pcs[c].v);
    OutsiderMoves(s, s', c, s'.pcs[c]);
    SumUpdate(Uncounted, s.pcs, c, s'.pcs[c]);
    SumUpdate(Undiscounted, s.pcs, c, s'.pcs[c]);
    UncountedIsLinked(s);
    SumCovers(Undiscounted, s.pcs, c);
    DecWraps(Count(s));
  }

  /** At most one value is linked and not counted, and it is in the list. */
  lemma UncountedIsLinked<V>(s: State<V>)
    requires Inv(s)
    ensures Sum<Pc<V>>(Uncounted, s.pcs) <= |s.chain|
  {
    SumDominated<Pc<V>>(Uncounted, Inside, s.pcs);
    if Sum<Pc<V>>(Uncounted, s.pcs) > 0 {
      var c := SumWitness<Pc<V>>(Uncounted, s.pcs);
      assert ShapeOk(s, c);
    }
  }
}
