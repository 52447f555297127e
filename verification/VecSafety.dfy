/** What holds in every run of AtomicVec. */
module VecSafety {
  import opened Words
  import opened Tally
  import opened VecMachine
  import opened VecInvariant
  import opened VecSteps
  import opened VecMoves

  // For any number of clients and any allocator.

  lemma {:induction false} InitIsSafe<V>(clients: nat)
    ensures Inv(Init<V>(clients))
  {
    var s := Init<V>(clients);
    SumOfZeros<Pc<V>>(Inside, s.pcs);
    SumOfZeros<Pc<V>>(Uncounted, s.pcs);
    SumOfZeros<Pc<V>>(Undiscounted, s.pcs);
  }

  lemma StepKeepsInv<V>(s: State<V>, a: Act<V>)
    requires Inv(s)
    ensures Inv(Step(s, a))
  {
    if a.c < |s.pcs| {
      match s.pcs[a.c]
      case Idle => if a.call.Push? { BeginPushStep(s, a); } else { OutsideStep(s, a); }
      case PushBusy(_) => OutsideStep(s, a);
      case PushStash(_) => StashStep(s, a);
      case PushLock(_) => AcquireStep(s, a);
      case LoadTail(_, _) => LoadTailStep(s, a);
      case StoreNext(p, t, from) => StoreNextStep(s, a.c, p, t, from);
      case StoreTail(_, _) => SetTailStep(s, a);
      case CasHead(_, _) => CasHeadStep(s, a);
      case AddLen(_) => AddLenStep(s, a);
      case Swap(_) => SwapStep(s, a);
      case Reopen(_) => ReopenStep(s, a);
      case PopLock => AcquireStep(s, a);
      case LoadHead => PopLoads(s, a);
      case LoadNext(_) => PopLoads(s, a);
      case StoreHead(_, _) => SetHeadStep(s, a);
      case CheckTail(_, _) => CheckTailStep(s, a);
      case CasTail(_, _) => CasTailStep(s, a);
      case ReadValue(_, _) => OutsideStep(s, a);
      case FreeBlock(_, _, _) => FreeBlockStep(s, a);
      case SubLen(_, _) => SubLenStep(s, a);
    }
  }

  lemma {:induction false} RunKeepsInv<V>(s: State<V>, sched: seq<Act<V>>)
    requires Inv(s)
    ensures Inv(Exec(s, sched))
    decreases sched
  {
    if sched != [] {
      StepKeepsInv(s, sched[0]);
      RunKeepsInv(Step(s, sched[0]), sched[1..]);
    }
  }

  // ---- values ----

  /** Value number `t` is in the one place its fate names. */
  ghost predicate InItsPlace<V>(s: State<V>, t: nat)
    requires t < |s.pushed| && t < |s.fate|
  {
    var v := s.pushed[t];
    match s.fate[t]
    case Held(c, p) => c < |s.pcs| && Hand(s.pcs[c]) == p && p in s.heap && s.heap[p].val == v
    case Stashed(p) => s.slot == p && p in s.heap && s.heap[p].val == v
    case Linked(r) =>
      && r < |s.order| && s.order[r] == t
      && if r >= |s.took| then
           var i := r - |s.took|;
           i < |s.chain| && s.chain[i] in s.heap && s.heap[s.chain[i]].val == v
         else if r in s.delivered then s.delivered[r] == v
         else s.took[r] < |s.pcs| && match Takes(s.pcs[s.took[r]])
              case Nothing => false
              case Block(h, r') => r' == r && h in s.heap && s.heap[h].val == v
              case Value(r') => r' == r && s.pcs[s.took[r]] == SubLen(r, v)
  }

  /** Block `p` belongs to a value whose fate is `f`. */
  ghost predicate BelongsTo<V>(s: State<V>, p: nat, f: Fate) {
    p in s.heap && s.heap[p].ticket < |s.fate| && s.fate[s.heap[p].ticket] == f
  }

  /** Every value pushed is in exactly one of: a pusher's or releaser's hand, t_tail, the list,
      a popper's hand, the results. The fate is a function of the push, so there is no second
      place; and every hand, slot, link and result has a push behind it, so there is no other. */
  lemma {:induction false} EveryValueInExactlyOnePlace<V>(clients: nat, sched: seq<Act<V>>)
    ensures var s := Exec(Init<V>(clients), sched);
            && |s.fate| == |s.pushed|
            && (forall t :: 0 <= t < |s.pushed| ==> InItsPlace(s, t))
            && (forall c :: 0 <= c < |s.pcs| && Carries(s.pcs[c]) ==>
                  BelongsTo(s, Hand(s.pcs[c]), Held(c, Hand(s.pcs[c]))))
            && (s.slot != NULL ==> BelongsTo(s, s.slot, Stashed(s.slot)))
            && (forall i :: 0 <= i < |s.chain| ==> BelongsTo(s, s.chain[i], Linked(|s.took| + i)))
            && (forall c :: 0 <= c < |s.pcs| && Takes(s.pcs[c]).Block? ==>
                  BelongsTo(s, Takes(s.pcs[c]).h, Linked(Takes(s.pcs[c]).rank)) && Takes(s.pcs[c]).rank < |s.took|)
            && (forall r :: r in s.delivered ==>
                  r < |s.took| && r < |s.order| && s.order[r] < |s.fate| && s.fate[s.order[r]] == Linked(r))
  {
    InitIsSafe<V>(clients);
    RunKeepsInv(Init<V>(clients), sched);
    var s := Exec(Init<V>(clients), sched);
    forall t | 0 <= t < |s.pushed| ensures InItsPlace(s, t) { PlaceOf(s, t); }
    forall c | 0 <= c < |s.pcs| && Carries(s.pcs[c])
      ensures BelongsTo(s, Hand(s.pcs[c]), Held(c, Hand(s.pcs[c])))
    {
      assert ClientOk(s, c);
    }
    forall c | 0 <= c < |s.pcs| && Takes(s.pcs[c]).Block?
      ensures BelongsTo(s, Takes(s.pcs[c]).h, Linked(Takes(s.pcs[c]).rank)) && Takes(s.pcs[c]).rank < |s.took|
    {
      BlockTaken(s, c);
    }
    forall i | 0 <= i < |s.chain| ensures BelongsTo(s, s.chain[i], Linked(|s.took| + i)) {
      assert RankOk(s, |s.took| + i);
    }
    forall r | r in s.delivered
      ensures r < |s.order| && s.order[r] < |s.fate| && s.fate[s.order[r]] == Linked(r)
    {
      assert RankOk(s, r);
    }
  }

  lemma BlockTaken<V>(s: State<V>, c: nat)
    requires Inv(s) && c < |s.pcs| && Takes(s.pcs[c]).Block?
    ensures BelongsTo(s, Takes(s.pcs[c]).h, Linked(Takes(s.pcs[c]).rank)) && Takes(s.pcs[c]).rank < |s.took|
  {
    assert ClientOk(s, c) && RankOk(s, Takes(s.pcs[c]).rank);
  }

  lemma PlaceOf<V>(s: State<V>, t: nat)
    requires Inv(s) && t < |s.pushed|
    ensures InItsPlace(s, t)
  {
    assert FateOk(s, t);
    match s.fate[t]
    case Held(_, p) => assert BlockOk(s, p);
    case Stashed(p) => assert BlockOk(s, p);
    case Linked(r) =>
      assert RankOk(s, r);
      if r >= |s.took| {
        assert BlockOk(s, s.chain[r - |s.took|]);
      } else if r !in s.delivered {
        TakenPlace(s, r);
      }
  }

  lemma TakenPlace<V>(s: State<V>, r: nat)
    requires Inv(s) && r < |s.took| && r < |s.order| && r !in s.delivered
    ensures s.order[r] < |s.pushed| && InItsPlace(s, s.order[r])
  {
    assert RankOk(s, r) && ClientOk(s, s.took[r]);
    var pc := s.pcs[s.took[r]];
    if Takes(pc).Block? {
      assert BlockOk(s, Takes(pc).h);
    }
  }

  function Values<V>(s: State<V>, tickets: seq<nat>): seq<V>
    requires forall i :: 0 <= i < |tickets| ==> tickets[i] < |s.pushed|
  {
    seq(|tickets|, i requires 0 <= i < |tickets| => s.pushed[tickets[i]])
  }

  /** The values in the list, read from the blocks. */
  function ListValues<V>(s: State<V>): seq<V>
    requires forall i :: 0 <= i < |s.chain| ==> s.chain[i] in s.heap
  {
    seq(|s.chain|, i requires 0 <= i < |s.chain| => s.heap[s.chain[i]].val)
  }

  /** The queue law: the values linked so far are the values popped so far followed by the
      values in the list, and a pop returns the value whose rank it took. */
  lemma {:induction false} LinkedIsPoppedThenList<V>(clients: nat, sched: seq<Act<V>>)
    ensures var s := Exec(Init<V>(clients), sched);
            && |s.took| <= |s.order|
            && (forall i :: 0 <= i < |s.order| ==> s.order[i] < |s.pushed|)
            && (forall i, j :: 0 <= i < j < |s.order| ==> s.order[i] != s.order[j])
            && (forall i :: 0 <= i < |s.chain| ==> s.chain[i] in s.heap)
            && Values(s, s.order) == Values(s, s.order[..|s.took|]) + ListValues(s)
            && (forall r :: r in s.delivered ==> r < |s.took| && s.delivered[r] == s.pushed[s.order[r]])
  {
    InitIsSafe<V>(clients);
    RunKeepsInv(Init<V>(clients), sched);
    var s := Exec(Init<V>(clients), sched);
    forall i | 0 <= i < |s.order| ensures s.order[i] < |s.pushed| && s.fate[s.order[i]] == Linked(i) {
      assert RankOk(s, i);
    }
    forall i | 0 <= i < |s.chain|
      ensures s.chain[i] in s.heap && s.heap[s.chain[i]].val == s.pushed[s.order[|s.took| + i]]
    {
      assert RankOk(s, |s.took| + i) && BlockOk(s, s.chain[i]);
    }
  }

  /** Ranks are never given out again: what is linked stays in its place of the order. */
  lemma {:induction false} OrderOnlyGrows<V>(s: State<V>, sched: seq<Act<V>>)
    ensures s.order <= Exec(s, sched).order
    ensures s.took <= Exec(s, sched).took
    ensures s.pushed <= Exec(s, sched).pushed
    decreases sched
  {
    if sched != [] {
      StepGrowsOrder(s, sched[0]);
      OrderOnlyGrows(Step(s, sched[0]), sched[1..]);
    }
  }

  lemma StepGrowsOrder<V>(s: State<V>, a: Act<V>)
    ensures s.order <= Step(s, a).order && s.took <= Step(s, a).took && s.pushed <= Step(s, a).pushed
  {
    if a.c < |s.pcs| && !s.pcs[a.c].Idle? {
      if InLink(s.pcs[a.c]) {
        LinkGrowsOrder(s, a.c);
      } else if InPush(s.pcs[a.c]) || InRelease(s.pcs[a.c]) {
        SlotStepsKeepOrder(s, a.c);
      } else {
        PopGrowsOrder(s, a.c);
      }
    }
  }

  lemma LinkGrowsOrder<V>(s: State<V>, c: nat)
    requires c < |s.pcs| && InLink(s.pcs[c])
    ensures var s' := LinkStep(s, c); s.order <= s'.order && s'.took == s.took && s'.pushed == s.pushed
  {
    match s.pcs[c]
    case LoadTail(_, _) => case StoreNext(_, _, _) => case StoreTail(_, _) => case CasHead(_, _) => case AddLen(_) =>
  }

  lemma SlotStepsKeepOrder<V>(s: State<V>, c: nat)
    requires c < |s.pcs| && (InPush(s.pcs[c]) || InRelease(s.pcs[c]))
    ensures var s' := if InPush(s.pcs[c]) then PushStep(s, c) else ReleaseStep(s, c);
            s'.order == s.order && s'.took == s.took && s'.pushed == s.pushed
  {
  }

  lemma PopGrowsOrder<V>(s: State<V>, c: nat)
    requires c < |s.pcs| && !s.pcs[c].Idle?
    requires !InPush(s.pcs[c]) && !InLink(s.pcs[c]) && !InRelease(s.pcs[c])
    ensures var s' := PopStep(s, c); s'.order == s.order && s.took <= s'.took && s'.pushed == s.pushed
  {
    match s.pcs[c]
    case PopLock => case LoadHead => case LoadNext(_) => case StoreHead(_, _) =>
    case CheckTail(_, _) => case CasTail(_, _) =>
    case ReadValue(_, _) => case FreeBlock(_, _, _) => case SubLen(_, _) =>
  }

  // ---- memory ----

  ghost predicate Dangles<V>(s: State<V>, p: nat) {
    p != NULL && p !in s.heap
  }

  /** The pointers in a client's hands that a later step follows or stores: its own block, the old
      tail it is about to link, the head it is about to unlink with its successor, and the block
      it has unlinked. */
  ghost predicate LocalsAreAllocated<V>(s: State<V>, pc: Pc<V>) {
    && !Dangles(s, Hand(pc))
    && (Takes(pc).Block? ==> Takes(pc).h in s.heap)
    && (match pc
        case StoreNext(_, t, _) => t in s.heap
        case LoadNext(h) => h in s.heap
        case StoreHead(h, n) => h in s.heap && !Dangles(s, n)
        case _ => true)
  }

  /** No step of any run touches or frees memory that is not allocated, and no shared pointer, no
      link of a linked or waiting block and no local pointer that will be followed refers to a
      freed block, whoever has the flag. */
  lemma {:induction false} MemoryIsSafe<V>(clients: nat, sched: seq<Act<V>>)
    ensures var s := Exec(Init<V>(clients), sched);
            && !s.crashed
            && !Dangles(s, s.head) && !Dangles(s, s.tail) && !Dangles(s, s.slot)
            && (forall i :: 0 <= i < |s.chain| ==> s.chain[i] in s.heap && !Dangles(s, s.heap[s.chain[i]].next))
            && (s.slot in s.heap ==> s.heap[s.slot].next == NULL)
            && (forall c :: 0 <= c < |s.pcs| ==> LocalsAreAllocated(s, s.pcs[c]))
  {
    InitIsSafe<V>(clients);
    RunKeepsInv(Init<V>(clients), sched);
    var s := Exec(Init<V>(clients), sched);
    EndsAreAllocated(s);
    forall c: nat | c < |s.pcs| ensures LocalsAreAllocated(s, s.pcs[c]) {
      LocalsFollow(s, c);
    }
    forall i: nat | i < |s.chain| ensures s.chain[i] in s.heap && !Dangles(s, s.heap[s.chain[i]].next) {
      LinksFollow(s, i);
    }
  }

  lemma LocalsFollow<V>(s: State<V>, c: nat)
    requires Inv(s) && c < |s.pcs|
    ensures LocalsAreAllocated(s, s.pcs[c])
  {
    assert ClientOk(s, c) && ShapeOk(s, c);
    EndsAreAllocated(s);
    if s.chain != [] && (s.pcs[c].LoadNext? || s.pcs[c].StoreHead?) {
      assert LinkAt(ListOf(s), 0, NULL);
      LinksFollow(s, 0);
    }
  }

  /** The link of a linked block is null, or the next linked block, or, in the middle of an
      update_tail, the block that is about to be linked. */
  lemma LinksFollow<V>(s: State<V>, i: nat)
    requires Inv(s) && i < |s.chain|
    ensures s.chain[i] in s.heap && !Dangles(s, s.heap[s.chain[i]].next)
  {
    assert RankOk(s, |s.took| + i);
    if i + 1 < |s.chain| {
      assert RankOk(s, |s.took| + i + 1);
    }
    if s.available {
      assert LinkAt(ListOf(s), i, NULL);
    } else {
      var c := SumWitness<Pc<V>>(Inside, s.pcs);
      assert ShapeOk(s, c) && ClientOk(s, c);
      var end := if s.pcs[c].StoreTail? then s.pcs[c].p else NULL;
      assert LinkAt(ListOf(s), i, end);
    }
  }

  lemma EndsAreAllocated<V>(s: State<V>)
    requires Inv(s)
    ensures !Dangles(s, s.head) && !Dangles(s, s.tail)
  {
    if s.chain != [] {
      assert RankOk(s, |s.took|) && RankOk(s, |s.order| - 1);
    }
    if !s.available {
      var c := SumWitness<Pc<V>>(Inside, s.pcs);
      assert ShapeOk(s, c) && ClientOk(s, c);
    }
  }

  /** The block reached after `n` links. */
  function Follow<V>(heap: map<nat, Node<V>>, p: nat, n: nat): nat
    decreases n
  {
    if n == 0 then p else if p in heap then Follow(heap, heap[p].next, n - 1) else NULL
  }

  /** Whenever the spin flag is free, walking from `head` visits the linked blocks in link
      order, once each, and ends at null; `tail` is the last of them, and both ends are null together. */
  lemma {:induction false} ListIsWellFormedWhenUnlocked<V>(clients: nat, sched: seq<Act<V>>)
    ensures var s := Exec(Init<V>(clients), sched);
            s.available ==>
              && (forall i :: 0 <= i < |s.chain| ==> Follow(s.heap, s.head, i) == s.chain[i])
              && Follow(s.heap, s.head, |s.chain|) == NULL
              && (forall i, j :: 0 <= i < j < |s.chain| ==> s.chain[i] != s.chain[j])
              && s.tail == Last(s.chain)
              && (s.head == NULL <==> s.tail == NULL) && (s.head == NULL <==> s.chain == [])
  {
    InitIsSafe<V>(clients);
    RunKeepsInv(Init<V>(clients), sched);
    var s := Exec(Init<V>(clients), sched);
    if s.available {
      forall i | 0 <= i <= |s.chain|
        ensures Follow(s.heap, s.head, i) == if i < |s.chain| then s.chain[i] else NULL
      {
        if s.chain != [] { WalkFrom(ListOf(s), 0, i); }
      }
      forall i, j | 0 <= i < j < |s.chain| ensures s.chain[i] != s.chain[j] {
        ChainIsInjective(s, i, j);
      }
      forall i | 0 <= i < |s.chain| ensures s.chain[i] in s.heap {
        assert LinkAt(ListOf(s), i, NULL);
      }
    }
  }

  lemma {:induction false} WalkFrom<V>(l: List<V>, start: nat, n: nat)
    requires Links(l, NULL) && start < |l.chain| && start + n <= |l.chain|
    ensures Follow(l.heap, l.chain[start], n) == if start + n < |l.chain| then l.chain[start + n] else NULL
    decreases n
  {
    if n > 0 {
      assert LinkAt(l, start, NULL);
      if start + 1 < |l.chain| {
        WalkFrom(l, start + 1, n - 1);
      }
    }
  }

  // ---- the counter ----

  /** `len` is the length of the list, minus values linked and not yet counted, plus values
      unlinked and not yet subtracted; so the late subtraction never takes it below zero. */
  lemma {:induction false} LengthIsExact<V>(clients: nat, sched: seq<Act<V>>)
    ensures var s := Exec(Init<V>(clients), sched);
            && Count(s) >= 0 && s.len == Count(s) % WORD
            && forall c :: 0 <= c < |s.pcs| && s.pcs[c].SubLen? ==> Count(s) >= 1
  {
    InitIsSafe<V>(clients);
    RunKeepsInv(Init<V>(clients), sched);
    var s := Exec(Init<V>(clients), sched);
    forall c | 0 <= c < |s.pcs| && s.pcs[c].SubLen? ensures Count(s) >= 1 {
      UncountedIsLinked(s);
      SumCovers<Pc<V>>(Undiscounted, s.pcs, c);
    }
  }

  /** With no operation in flight: the flag is free, at most one value is outside the list,
      list plus slot is pushes minus successful pops, and `len` is the length of the list. */
  lemma {:induction false} QuiescentAccounting<V>(clients: nat, sched: seq<Act<V>>)
    ensures var s := Exec(Init<V>(clients), sched);
            (forall c :: 0 <= c < |s.pcs| ==> s.pcs[c].Idle?) ==>
              && s.available
              && |s.chain| + (if s.slot == NULL then 0 else 1) == |s.pushed| - |s.delivered|
              && s.len == |s.chain| % WORD
  {
    InitIsSafe<V>(clients);
    RunKeepsInv(Init<V>(clients), sched);
    var s := Exec(Init<V>(clients), sched);
    if forall c :: 0 <= c < |s.pcs| ==> s.pcs[c].Idle? {
      SumOfZeros<Pc<V>>(Inside, s.pcs);
      SumOfZeros<Pc<V>>(Uncounted, s.pcs);
      SumOfZeros<Pc<V>>(Undiscounted, s.pcs);
      AllDelivered(s);
      AllLinkedOrStashed(s);
    }
  }

  lemma AllDelivered<V>(s: State<V>)
    requires Inv(s) && forall c :: 0 <= c < |s.pcs| ==> s.pcs[c].Idle?
    ensures |s.delivered| == |s.took|
  {
    forall r: nat ensures r in s.delivered <==> r < |s.took| {
      assert RankOk(s, r);
    }
    assert s.delivered.Keys == UpTo(|s.took|);
  }

  lemma AllLinkedOrStashed<V>(s: State<V>)
    requires Inv(s) && forall c :: 0 <= c < |s.pcs| ==> s.pcs[c].Idle?
    ensures |s.pushed| == |s.order| + if s.slot == NULL then 0 else 1
  {
    var stashed := if s.slot == NULL then {} else {s.heap[s.slot].ticket};
    forall r | 0 <= r < |s.order|
      ensures s.order[r] < |s.fate| && s.fate[s.order[r]] == Linked(r)
    {
      assert RankOk(s, r);
    }
    forall t: nat ensures t < |s.pushed| <==> t in s.order || t in stashed {
      LinkedOrStashed(s, t);
    }
    SplitCount(|s.pushed|, s.order, stashed);
  }

  lemma LinkedOrStashed<V>(s: State<V>, t: nat)
    requires Inv(s) && forall c :: 0 <= c < |s.pcs| ==> s.pcs[c].Idle?
    ensures t < |s.pushed| <==> t in s.order || (s.slot != NULL && t == s.heap[s.slot].ticket)
  {
    assert FateOk(s, t);
    if t < |s.pushed| && !s.fate[t].Linked? {
      assert BlockOk(s, s.fate[t].p);
    }
    if t in s.order {
      var r :| 0 <= r < |s.order| && s.order[r] == t;
      assert RankOk(s, r);
    }
  }
}
