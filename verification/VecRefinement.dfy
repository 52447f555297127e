/** AtomicVec is a queue with one waiting value. */
module VecRefinement {
  import opened Wrappers
  import opened StashQueue
  import opened VecMachine
  import opened VecInvariant
  import opened VecSafety

  // Every step, whoever takes it and whatever is in between, is a step of that queue or none.

  ghost predicate Readable<V>(s: State<V>) {
    && (forall i :: 0 <= i < |s.chain| ==> s.chain[i] in s.heap)
    && (s.slot != NULL ==> s.slot in s.heap)
  }

  /** The queue a state stands for, read from the linked blocks and the slot. */
  ghost function Abs<V>(s: State<V>): Queue<V>
    requires Readable(s)
  {
    Queue(ListValues(s), if s.slot == NULL then None else Some(s.heap[s.slot].val))
  }

  /** What a step does to the queue, read off the block that the moving client handles. */
  ghost function EventOf<V>(s: State<V>, a: Act<V>): Event<V> {
    if a.c >= |s.pcs| then Silent
    else match s.pcs[a.c]
      case PushStash(p) => if s.slot == NULL && p in s.heap then Event.Stash(s.heap[p].val) else Silent
      case StoreTail(p, _) => if p in s.heap then Append(s.heap[p].val) else Silent
      case StoreHead(h, _) => if h in s.heap then Take(s.heap[h].val) else Silent
      case Swap(_) => if s.slot in s.heap then Unstash(s.heap[s.slot].val) else Silent
      case _ => Silent
  }

  ghost function Events<V>(s: State<V>, sched: seq<Act<V>>): seq<Event<V>>
    decreases sched
  {
    if sched == [] then [] else [EventOf(s, sched[0])] + Events(Step(s, sched[0]), sched[1..])
  }

  lemma InvIsReadable<V>(s: State<V>)
    requires Inv(s)
    ensures Readable(s)
  {
    forall i | 0 <= i < |s.chain| ensures s.chain[i] in s.heap {
      assert RankOk(s, |s.took| + i);
    }
  }

  /** Values are fixed: the list is the same if the linked blocks are. */
  lemma SameQueue<V>(s: State<V>, s': State<V>)
    requires Readable(s) && s'.chain == s.chain && s'.slot == s.slot
    requires forall p :: p in s.chain || p == s.slot != NULL ==>
               p in s.heap && p in s'.heap && s'.heap[p].val == s.heap[p].val
    ensures Readable(s') && Abs(s') == Abs(s)
  {
    assert ListValues(s') == ListValues(s);
  }

  lemma StoreTailAppends<V>(s: State<V>, c: nat, p: nat, from: From)
    requires Inv(s) && c < |s.pcs| && s.pcs[c] == StoreTail(p, from)
    ensures Readable(s) && p in s.heap && Readable(SetTail(s, c, p, from))
    ensures Apply(Abs(s), Append(s.heap[p].val)) == Some(Abs(SetTail(s, c, p, from)))
  {
    InvIsReadable(s);
    assert ClientOk(s, c);
    var s' := SetTail(s, c, p, from);
    assert ListValues(s') == ListValues(s) + [s.heap[p].val];
  }

  lemma StoreHeadTakes<V>(s: State<V>, c: nat, h: nat, n: nat)
    requires Inv(s) && c < |s.pcs| && s.pcs[c] == StoreHead(h, n)
    ensures Readable(s) && h in s.heap && Readable(SetHead(s, c, h, n))
    ensures Apply(Abs(s), Take(s.heap[h].val)) == Some(Abs(SetHead(s, c, h, n)))
  {
    InvIsReadable(s);
    assert ShapeOk(s, c);
    var s' := SetHead(s, c, h, n);
    assert ListValues(s') == ListValues(s)[1..];
  }

  lemma StashEnters<V>(s: State<V>, c: nat, p: nat)
    requires Inv(s) && c < |s.pcs| && s.pcs[c] == PushStash(p)
    ensures Readable(s) && p in s.heap && Readable(VecMachine.Stash(s, c, p))
    ensures Apply(Abs(s), if s.slot == NULL then Event.Stash(s.heap[p].val) else Silent)
            == Some(Abs(VecMachine.Stash(s, c, p)))
  {
    InvIsReadable(s);
    assert ClientOk(s, c);
    var s' := VecMachine.Stash(s, c, p);
    assert ListValues(s') == ListValues(s);
  }

  lemma SwapTakesOut<V>(s: State<V>, c: nat, k: Cont)
    requires Inv(s) && c < |s.pcs| && s.pcs[c] == Swap(k)
    ensures Readable(s) && Readable(TakeSlot(s, c, k))
    ensures Apply(Abs(s), if s.slot in s.heap then Unstash(s.heap[s.slot].val) else Silent)
            == Some(Abs(TakeSlot(s, c, k)))
  {
    InvIsReadable(s);
    var s' := TakeSlot(s, c, k);
    assert BlockOk(s, s.slot) && SlotOk(s);
    assert ListValues(s') == ListValues(s);
  }

  /** A block that is freed is neither linked nor in the slot. */
  lemma FreedIsApart<V>(s: State<V>, c: nat, h: nat, r: nat, v: V)
    requires Inv(s) && c < |s.pcs| && s.pcs[c] == FreeBlock(h, r, v)
    ensures h !in s.chain && h != s.slot
  {
    assert ClientOk(s, c) && RankOk(s, r) && SlotOk(s);
    forall i | 0 <= i < |s.chain| ensures s.chain[i] != h {
      assert RankOk(s, |s.took| + i);
    }
  }

  /** The steps that change neither the list nor the slot. */
  predicate Still<V>(pc: Pc<V>) {
    !pc.PushStash? && !pc.StoreTail? && !pc.StoreHead? && !pc.Swap?
  }

  lemma StillSteps<V>(s: State<V>, a: Act<V>)
    requires Inv(s) && a.c < |s.pcs| && Still(s.pcs[a.c])
    ensures Step(s, a).chain == s.chain && Step(s, a).slot == s.slot
    ensures forall p :: p in s.heap && p !in Step(s, a).heap ==> s.pcs[a.c].FreeBlock? && p == s.pcs[a.c].h
    ensures forall p :: p in s.heap && p in Step(s, a).heap ==> Step(s, a).heap[p].val == s.heap[p].val
  {
    if !s.pcs[a.c].Idle? {
      if InLink(s.pcs[a.c]) {
        LinkKeepsValues(s, a.c);
      } else if !InPush(s.pcs[a.c]) && !InRelease(s.pcs[a.c]) {
        PopFreesItsBlock(s, a.c);
      }
    }
  }

  lemma LinkKeepsValues<V>(s: State<V>, c: nat)
    requires c < |s.pcs| && InLink(s.pcs[c]) && Still(s.pcs[c])
    ensures LinkStep(s, c).chain == s.chain && LinkStep(s, c).slot == s.slot
    ensures forall p :: p in s.heap ==> p in LinkStep(s, c).heap && LinkStep(s, c).heap[p].val == s.heap[p].val
  {
    match s.pcs[c]
    case LoadTail(_, _) => case StoreNext(_, _, _) => case CasHead(_, _) => case AddLen(_) =>
  }

  lemma PopFreesItsBlock<V>(s: State<V>, c: nat)
    requires c < |s.pcs| && !s.pcs[c].Idle? && Still(s.pcs[c])
    requires !InPush(s.pcs[c]) && !InLink(s.pcs[c]) && !InRelease(s.pcs[c])
    ensures PopStep(s, c).chain == s.chain && PopStep(s, c).slot == s.slot
    ensures PopStep(s, c).heap == if s.pcs[c].FreeBlock? then s.heap - {s.pcs[c].h} else s.heap
  {
    match s.pcs[c]
    case PopLock => case LoadHead => case LoadNext(_) => case CheckTail(_, _) => case CasTail(_, _) =>
    case ReadValue(_, _) => case FreeBlock(_, _, _) => case SubLen(_, _) =>
  }

  lemma StillSimulates<V>(s: State<V>, a: Act<V>)
    requires Inv(s) && a.c < |s.pcs| && Still(s.pcs[a.c])
    ensures Readable(s) && Readable(Step(s, a)) && Abs(Step(s, a)) == Abs(s)
  {
    InvIsReadable(s);
    StillSteps(s, a);
    if s.pcs[a.c].FreeBlock? {
      FreedIsApart(s, a.c, s.pcs[a.c].h, s.pcs[a.c].rank, s.pcs[a.c].v);
    }
    SameQueue(s, Step(s, a));
  }

  lemma StepSimulates<V>(s: State<V>, a: Act<V>)
    requires Inv(s)
    ensures Readable(s) && Readable(Step(s, a))
    ensures Apply(Abs(s), EventOf(s, a)) == Some(Abs(Step(s, a)))
  {
    InvIsReadable(s);
    if a.c < |s.pcs| {
      var pc := s.pcs[a.c];
      if Still(pc) {
        StillSimulates(s, a);
      } else if pc.PushStash? {
        StashEnters(s, a.c, pc.p);
      } else if pc.StoreTail? {
        StoreTailAppends(s, a.c, pc.p, pc.from);
      } else if pc.StoreHead? {
        StoreHeadTakes(s, a.c, pc.h, pc.n);
      } else {
        SwapTakesOut(s, a.c, pc.k);
      }
    }
  }

  /** Every run is a run of the queue. */
  lemma {:induction false} RunSimulates<V>(s: State<V>, sched: seq<Act<V>>)
    requires Inv(s)
    ensures Readable(s) && Readable(Exec(s, sched))
    ensures Replay(Abs(s), Events(s, sched)) == Some(Abs(Exec(s, sched)))
    decreases sched
  {
    InvIsReadable(s);
    if sched != [] {
      StepSimulates(s, sched[0]);
      StepKeepsInv(s, sched[0]);
      RunSimulates(Step(s, sched[0]), sched[1..]);
      assert Events(s, sched)[1..] == Events(Step(s, sched[0]), sched[1..]);
    }
  }

  lemma AtomicVecIsAQueueWithAStash<V>(clients: nat, sched: seq<Act<V>>)
    ensures Readable(Exec(Init<V>(clients), sched))
    ensures Replay(Queue([], None), Events(Init<V>(clients), sched))
            == Some(Abs(Exec(Init<V>(clients), sched)))
  {
    InitIsSafe<V>(clients);
    RunSimulates(Init<V>(clients), sched);
    assert Abs(Init<V>(clients)) == Queue([], None);
  }

  /** A pop returns the value that its own step took from the front of the queue. */
  lemma PopReturnsWhatItTook<V>(s: State<V>, a: Act<V>, sched: seq<Act<V>>)
    requires Inv(s) && a.c < |s.pcs| && s.pcs[a.c].StoreHead?
    requires var s' := Exec(Step(s, a), sched);
             && a.c < |s'.pcs| && s'.pcs[a.c].SubLen? && s'.pcs[a.c].rank == |s.took|
    ensures EventOf(s, a) == Take(Exec(Step(s, a), sched).pcs[a.c].v)
  {
    var pc := s.pcs[a.c];
    var s1 := Step(s, a);
    StepKeepsInv(s, a);
    RunKeepsInv(s1, sched);
    var s' := Exec(s1, sched);
    OrderOnlyGrows(s, [a] + sched);
    assert Exec(s, [a] + sched) == s' by { assert ([a] + sched)[1..] == sched; }
    assert ShapeOk(s, a.c) && ClientOk(s', a.c);
    assert RankOk(s, |s.took|) && BlockOk(s, pc.h);
  }

  /** A pop heads for None if and only if the line is empty at its load of `head`, whatever waits in
      the slot. */
  lemma PopFailsIffLineEmpty<V>(s: State<V>, a: Act<V>)
    requires Inv(s) && a.c < |s.pcs| && s.pcs[a.c].LoadHead?
    ensures Readable(s)
    ensures Step(s, a).pcs[a.c] == Swap(Empty) <==> Abs(s).line == []
    ensures Step(s, a).pcs[a.c] != Swap(Empty) ==> Step(s, a).pcs[a.c] == LoadNext(s.chain[0])
  {
    InvIsReadable(s);
    assert ShapeOk(s, a.c);
    if s.chain != [] {
      assert LinkAt(ListOf(s), 0, NULL);
    }
  }
}
