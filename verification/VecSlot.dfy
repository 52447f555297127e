/** When the slot is emptied, and when a push is safe in it. */
module VecSlot {
  import opened Tally
  import opened VecInvariant
  import opened VecMachine
  import opened VecOrder
  import opened VecSafety

  /** A client that has the spin flag and has not swapped the slot yet. */
  predicate BeforeSwap<V>(pc: Pc<V>) {
    || pc.LoadHead? || pc.LoadNext? || pc.StoreHead? || pc.CheckTail? || pc.CasTail? || pc.Swap?
    || (InLink(pc) && pc.from.FromPush?)
  }

  /** One that has. */
  predicate AfterSwap<V>(pc: Pc<V>) {
    pc.Reopen? || (InLink(pc) && pc.from.FromRelease?)
  }

  ghost predicate SwapToCome<V>(s: State<V>) {
    exists d: nat :: d < |s.pcs| && BeforeSwap(s.pcs[d])
  }

  lemma SwapperHasTheFlag<V>(s: State<V>)
    requires Inv(s) && SwapToCome(s)
    ensures !s.available
  {
    var d: nat :| d < |s.pcs| && BeforeSwap(s.pcs[d]);
    SumCovers<Pc<V>>(Inside, s.pcs, d);
  }

  lemma PushGoesOn<V>(s: State<V>, c: nat)
    requires c < |s.pcs| && InLink(s.pcs[c]) && s.pcs[c].from.FromPush?
    ensures c < |LinkStep(s, c).pcs| && BeforeSwap(LinkStep(s, c).pcs[c])
  {
    match s.pcs[c]
    case LoadTail(_, _) =>
    case StoreNext(p, t, from) => assert LinkStep(s, c) == SetNext(s, c, p, t, from);
    case StoreTail(p, from) => assert LinkStep(s, c) == SetTail(s, c, p, from);
    case CasHead(_, _) =>
    case AddLen(_) =>
  }

  lemma SwapperGoesOn<V>(s: State<V>, a: Act<V>)
    requires a.c < |s.pcs| && BeforeSwap(s.pcs[a.c]) && !s.pcs[a.c].Swap?
    ensures a.c < |Step(s, a).pcs| && BeforeSwap(Step(s, a).pcs[a.c])
  {
    if InLink(s.pcs[a.c]) {
      PushGoesOn(s, a.c);
    } else {
      match s.pcs[a.c]
      case LoadHead =>
      case LoadNext(_) =>
      case StoreHead(h, n) => assert Step(s, a) == SetHead(s, a.c, h, n);
      case CheckTail(_, _) =>
      case CasTail(_, _) =>
    }
  }

  lemma SwapTakesTheSlot<V>(s: State<V>, c: nat, k: Cont, t: nat)
    requires Inv(s) && c < |s.pcs| && s.pcs[c] == Swap(k) && t < |s.fate| && StageOf(s, t) == Waiting
    ensures var s' := TakeSlot(s, c, k); t < |s'.fate| && StageOf(s', t) == Within
  {
    SlotHoldsOne(s, t);
    assert SlotOk(s) && FateOk(s, t);
  }

  /** Whoever takes the flag has the swap before it. */
  lemma TakerWillSwap<V>(s: State<V>, a: Act<V>)
    requires s.available && !Step(s, a).available
    ensures a.c < |Step(s, a).pcs| && BeforeSwap(Step(s, a).pcs[a.c])
  {
    if !s.pcs[a.c].Idle? && !InPush(s.pcs[a.c]) && !InRelease(s.pcs[a.c]) {
      if InLink(s.pcs[a.c]) {
        LinkKeepsFlag(s, a.c);
      } else {
        PopTakesFlag(s, a.c);
      }
    }
  }

  lemma LinkKeepsFlag<V>(s: State<V>, c: nat)
    requires c < |s.pcs| && InLink(s.pcs[c])
    ensures LinkStep(s, c).available == s.available
  {
    match s.pcs[c]
    case LoadTail(_, _) => case StoreNext(_, _, _) => case StoreTail(_, _) => case CasHead(_, _) => case AddLen(_) =>
  }

  lemma PopTakesFlag<V>(s: State<V>, c: nat)
    requires c < |s.pcs| && !s.pcs[c].Idle?
    requires !InPush(s.pcs[c]) && !InLink(s.pcs[c]) && !InRelease(s.pcs[c])
    ensures PopStep(s, c).available == s.available || s.pcs[c].PopLock?
  {
    match s.pcs[c]
    case PopLock => case LoadHead => case LoadNext(_) => case StoreHead(_, _) => case CheckTail(_, _) =>
    case CasTail(_, _) => case ReadValue(_, _) => case FreeBlock(_, _, _) => case SubLen(_, _) =>
  }

  // ---- the slot is emptied ----

  /** Value `t` is linked, or the client that has the flag links it before it gives the flag back. */
  ghost predicate Covered<V>(s: State<V>, t: nat)
    requires t < |s.fate|
  {
    StageOf(s, t) == Within || StageOf(s, t).Done? || (StageOf(s, t) == Waiting && SwapToCome(s))
  }

  lemma CoveredStays<V>(s: State<V>, a: Act<V>, t: nat)
    requires Inv(s) && t < |s.fate| && Covered(s, t)
    ensures Inv(Step(s, a)) && t < |Step(s, a).fate| && Covered(Step(s, a), t)
  {
    StepKeepsInv(s, a);
    StageStep(s, a, t);
    if a.c < |s.pcs| && StageOf(s, t) == Waiting {
      var d: nat :| d < |s.pcs| && BeforeSwap(s.pcs[d]);
      OneClientMoves(s, a);
      if d != a.c {
        assert BeforeSwap(Step(s, a).pcs[d]);
      } else if s.pcs[d].Swap? {
        SwapTakesTheSlot(s, d, s.pcs[d].k, t);
      } else {
        SwapperGoesOn(s, a);
      }
    }
  }

  lemma {:induction false} CoveredIsLinked<V>(s: State<V>, sched: seq<Act<V>>, t: nat)
    requires Inv(s) && t < |s.fate| && Covered(s, t)
    ensures var s' := Exec(s, sched);
            Inv(s') && t < |s'.fate| && Covered(s', t) && (s'.available ==> s'.fate[t].Linked?)
    decreases sched
  {
    if sched == [] {
      if s.available {
        if StageOf(s, t) == Within { WithinHoldsTheFlag(s, t); }
        if SwapToCome(s) { SwapperHasTheFlag(s); }
      }
    } else {
      CoveredStays(s, sched[0], t);
      CoveredIsLinked(Step(s, sched[0]), sched[1..], t);
    }
  }

  /** Somebody has the spin flag at some time during `sched`. */
  predicate FlagIsTaken<V>(s: State<V>, sched: seq<Act<V>>)
    decreases sched
  {
    !s.available || (sched != [] && FlagIsTaken(Step(s, sched[0]), sched[1..]))
  }

  lemma {:induction false} TakenSlotIsLinked<V>(s: State<V>, sched: seq<Act<V>>, t: nat)
    requires Inv(s) && s.available && t < |s.fate| && StageOf(s, t) == Waiting
    requires FlagIsTaken(s, sched) && Exec(s, sched).available
    ensures var s' := Exec(s, sched); t < |s'.fate| && s'.fate[t].Linked?
    decreases sched
  {
    var s1 := Step(s, sched[0]);
    StepKeepsInv(s, sched[0]);
    StageStep(s, sched[0], t);
    if !s1.available {
      TakerWillSwap(s, sched[0]);
      assert SwapToCome(s1);
    }
    if Covered(s1, t) {
      CoveredIsLinked(s1, sched[1..], t);
    } else {
      TakenSlotIsLinked(s1, sched[1..], t);
    }
  }

  /** In every run: a value that waits in the slot while the spin flag is free has been linked when
      the flag is free again after anybody, a pop that returns None included, has had it. */
  lemma NextReleaseEmptiesTheSlot<V>(clients: nat, before: seq<Act<V>>, sched: seq<Act<V>>, t: nat)
    requires var s := Exec(Init<V>(clients), before);
             && s.available && t < |s.fate| && s.fate[t].Stashed?
             && FlagIsTaken(s, sched) && Exec(s, sched).available
    ensures var s' := Exec(Exec(Init<V>(clients), before), sched); t < |s'.fate| && s'.fate[t].Linked?
  {
    InitIsSafe<V>(clients);
    RunKeepsInv(Init<V>(clients), before);
    TakenSlotIsLinked(Exec(Init<V>(clients), before), sched, t);
  }

  // ---- a push that is safe from being overtaken ----

  lemma {:induction false} CoveredIsSafe<V>(s: State<V>, after: seq<Act<V>>, t1: nat, t2: nat)
    requires Inv(s) && t1 < |s.fate| && Covered(s, t1)
    ensures !Overtakes(s, after, t1, t2)
    decreases after
  {
    if after != [] {
      if TakesFlagOver(s, after[0], t1, t2) {
        SlotHoldsOne(s, t1);
        SwapperHasTheFlag(s);
      }
      CoveredStays(s, after[0], t1);
      CoveredIsSafe(Step(s, after[0]), after[1..], t1, t2);
    }
  }

  /** Value `t1` waits in the slot, and push `t2` by client `c` has just begun. */
  ghost predicate AtRisk<V>(s: State<V>, t1: nat, t2: nat, c: nat, p: nat) {
    && Inv(s) && t1 < |s.fate| && StageOf(s, t1) == Waiting
    && t2 < |s.fate| && s.fate[t2] == Held(c, p) && c < |s.pcs| && s.pcs[c] == PushBusy(p)
  }

  lemma OvertakesNow<V>(s: State<V>, t1: nat, t2: nat, c: nat, p: nat) returns (after: seq<Act<V>>)
    requires AtRisk(s, t1, t2, c, p) && s.available
    ensures Overtakes(s, after, t1, t2)
  {
    var a := Act(c, Pop);
    SlotHoldsOne(s, t1);
    HolderCarries(s, t2);
    var s1 := Step(s, a);
    assert s1 == Goto(s, c, PushLock(p));
    assert TakesFlagOver(s1, a, t1, t2);
    after := [a, a];
    assert after[1..] == [a] && Overtakes(s1, [a], t1, t2);
  }

  function Left<V>(pc: Pc<V>): nat {
    match pc
    case LoadTail(_, _) => 5
    case StoreNext(_, _, _) => 4
    case StoreTail(_, _) => 3
    case CasHead(_, _) => 2
    case AddLen(_) => 1
    case _ => 0
  }

  lemma LinkGoesOn<V>(s: State<V>, c: nat)
    requires c < |s.pcs| && InLink(s.pcs[c]) && s.pcs[c].from.FromRelease?
    ensures var s' := LinkStep(s, c);
            c < |s'.pcs| && (s'.crashed || (AfterSwap(s'.pcs[c]) && Left(s'.pcs[c]) < Left(s.pcs[c])))
  {
    match s.pcs[c]
    case LoadTail(_, _) =>
    case StoreNext(p, t, from) => assert LinkStep(s, c) == SetNext(s, c, p, t, from);
    case StoreTail(p, from) => assert LinkStep(s, c) == SetTail(s, c, p, from);
    case CasHead(_, _) =>
    case AddLen(_) =>
  }

  lemma ReleaserGoesOn<V>(s: State<V>, a: Act<V>)
    requires Inv(s) && a.c < |s.pcs| && AfterSwap(s.pcs[a.c]) && !s.pcs[a.c].Reopen?
    ensures var s' := Step(s, a);
            a.c < |s'.pcs| && AfterSwap(s'.pcs[a.c]) && Left(s'.pcs[a.c]) < Left(s.pcs[a.c])
  {
    StepKeepsInv(s, a);
    LinkGoesOn(s, a.c);
  }

  lemma RiskStays<V>(s: State<V>, a: Act<V>, t1: nat, t2: nat, c: nat, p: nat)
    requires AtRisk(s, t1, t2, c, p) && a.c < |s.pcs| && AfterSwap(s.pcs[a.c])
    ensures AtRisk(Step(s, a), t1, t2, c, p)
  {
    StepKeepsInv(s, a);
    StageStep(s, a, t1);
    StageStep(s, a, t2);
    OneClientMoves(s, a);
    HolderCarries(s, t2);
  }

  /** The client that has the flag finishes, and the second push takes it. */
  lemma {:induction false} OvertakesLater<V>(s: State<V>, t1: nat, t2: nat, c: nat, p: nat, d: nat)
      returns (after: seq<Act<V>>)
    requires AtRisk(s, t1, t2, c, p) && d < |s.pcs| && AfterSwap(s.pcs[d])
    ensures Overtakes(s, after, t1, t2)
    decreases if d < |s.pcs| then Left(s.pcs[d]) else 0
  {
    var a := Act(d, Pop);
    var s1 := Step(s, a);
    RiskStays(s, a, t1, t2, c, p);
    var rest: seq<Act<V>>;
    if s.pcs[d].Reopen? {
      rest := OvertakesNow(s1, t1, t2, c, p);
    } else {
      ReleaserGoesOn(s, a);
      rest := OvertakesLater(s1, t1, t2, c, p, d);
    }
    after := [a] + rest;
    assert after[1..] == rest;
  }

  lemma FlagHasHolder<V>(s: State<V>) returns (d: nat)
    requires Inv(s) && !s.available
    ensures d < |s.pcs| && (BeforeSwap(s.pcs[d]) || AfterSwap(s.pcs[d]))
  {
    d := SumWitness<Pc<V>>(Inside, s.pcs);
  }

  /** The value of the first push is in the slot, and no client is still to swap it out. */
  ghost predicate Exposed<V>(s: State<V>, t: nat) {
    s.slot in s.heap && s.heap[s.slot].ticket == t && !SwapToCome(s)
  }

  lemma ExposedIsOvertaken<V>(s: State<V>, t1: nat, t2: nat, c: nat, p: nat) returns (after: seq<Act<V>>)
    requires AtRisk(s, t1, t2, c, p) && !SwapToCome(s)
    ensures Overtakes(s, after, t1, t2)
  {
    if s.available {
      after := OvertakesNow(s, t1, t2, c, p);
    } else {
      var d := FlagHasHolder(s);
      after := OvertakesLater(s, t1, t2, c, p, d);
    }
  }

  /** No continuation links the second value first. */
  ghost predicate KeepsItsTurn<V(!new)>(s: State<V>, t1: nat, t2: nat) {
    forall after: seq<Act<V>> :: !Overtakes(s, after, t1, t2)
  }

  /** Of two pushes in sequence the first keeps its turn in all continuations if and only if, when
      the second starts, its value is not in the slot or the client with the flag has still to swap
      it out. */
  lemma OrderIsSafeIff<V(!new)>(clients: nat, before: seq<Act<V>>, a1: Act<V>, between: seq<Act<V>>, a2: Act<V>)
    requires InSequence(clients, before, a1, between, a2)
    ensures var s0 := Exec(Init<V>(clients), before);
            var s1 := Exec(Step(s0, a1), between);
            var s2 := Step(s1, a2);
            KeepsItsTurn(s2, |s0.pushed|, |s1.pushed|) <==> !Exposed(s2, |s0.pushed|)
  {
    StartOfSecond(clients, before, a1, between, a2);
    var s0 := Exec(Init<V>(clients), before);
    var s1 := Exec(Step(s0, a1), between);
    var s2, t1, t2 := Step(s1, a2), |s0.pushed|, |s1.pushed|;
    PushStarts(s1, a2);
    SlotHoldsOne(s2, t1);
    if Exposed(s2, t1) {
      var after := ExposedIsOvertaken(s2, t1, t2, a2.c, a2.call.at);
    } else {
      forall after: seq<Act<V>> ensures !Overtakes(s2, after, t1, t2) {
        CoveredIsSafe(s2, after, t1, t2);
      }
    }
  }
}
