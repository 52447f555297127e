/** What holds in every run of the counts. */
module CountSafety {
  import opened Words
  import opened Tally
  import opened CountMachine
  import opened CountInvariant
  import opened CountSteps

  // For Arw and AnyRef alike; they differ in `limit`.

  lemma StepKeepsInv(limit: nat, s: State, a: Act)
    requires Inv(s) && 0 < limit <= MAX_REFCOUNT + 1
    ensures Inv(Step(limit, s, a))
  {
    if a.c < |s.pcs| && !s.aborted {
      var c := a.c;
      match s.pcs[c]
      case Idle => BeginStep(limit, s, c, a.call);
      case AbortStrong(_) => AbortStep(limit, s, a);
      case AbortWeak(_) => AbortStep(limit, s, a);
      case DropLock => assert PcOk(s, c); LocalMove(s, c, DropPayload);
      case DropPayload => DropPayloadStep(limit, s, a);
      case GiveUpImplicit => GiveUpStep(limit, s, a);
      case DownLoad(_) => DowngradeSteps(limit, s, a);
      case DownCheck(_, _) => DowngradeSteps(limit, s, a);
      case UpLoad(_) => UpgradeSteps(limit, s, a);
      case UpCheck(_, _) => UpgradeSteps(limit, s, a);
      case UniqueCas(_) => UniqueCasStep(limit, s, a);
      case UniqueLoad(h) =>
        assert PcOk(s, c);
        LocalMove(s, c, UniqueStore(h, s.strong == 1));
      case UniqueStore(_, _) => UniqueStoreStep(limit, s, a);
      case Dealloc => DeallocStep(limit, s, a);
    }
  }

  lemma BeginStep(limit: nat, s: State, c: nat, call: Call)
    requires Inv(s) && c < |s.pcs| && s.pcs[c].Idle? && 0 < limit <= MAX_REFCOUNT + 1
    ensures Inv(Begin(limit, s, c, call))
  {
    match call
    case Clone(h) => CloneStep(limit, s, c, h);
    case Drop(h) => DropStep(limit, s, c, h);
    case Downgrade(h) => if h in s.strongHandles { LocalMove(s, c, DownLoad(h)); }
    case IsUnique(h) => if h in s.strongHandles { LocalMove(s, c, UniqueCas(h)); }
    case Upgrade(w) => if w in s.weakHandles { LocalMove(s, c, UpLoad(w)); }
    case WeakClone(w) => WeakCloneStep(limit, s, c, w);
    case WeakDrop(w) => WeakDropStep(limit, s, c, w);
  }

  lemma AbortStep(limit: nat, s: State, a: Act)
    requires Inv(s) && a.c < |s.pcs| && !s.aborted && (s.pcs[a.c].AbortStrong? || s.pcs[a.c].AbortWeak?)
    ensures Inv(Step(limit, s, a))
  {
    forall d: nat ensures PcOk(Step(limit, s, a), d) { assert PcOk(s, d); }
  }

  lemma {:induction false} RunKeepsInv(limit: nat, s: State, sched: seq<Act>)
    requires Inv(s) && 0 < limit <= MAX_REFCOUNT + 1
    ensures Inv(Exec(limit, s, sched))
    decreases sched
  {
    if sched != [] {
      StepKeepsInv(limit, s, sched[0]);
      RunKeepsInv(limit, Step(limit, s, sched[0]), sched[1..]);
    }
  }

  // ---- the counters ----

  /** `strong` is the number of strong handles and `weak`, when it is not the sentinel, the
      number of weak references; beyond them each counter only carries calls about to abort.
      Neither word ever wraps, and `weak` never reaches the sentinel by counting. */
  lemma {:induction false} CountersAreExact(limit: nat, clients: nat, sched: seq<Act>)
    requires clients < MAX_REFCOUNT && 0 < limit <= MAX_REFCOUNT + 1
    ensures var s := Exec(limit, Init(clients), sched);
            && s.strong == |s.strongHandles| + Sum(OverStrong, s.pcs)
            && s.strong <= MAX_REFCOUNT + 1 + Sum(OverStrong, s.pcs) < USIZE_MAX
            && (if s.weak == USIZE_MAX then s.weakHandles == {} && s.implicit && Sum(Sealing, s.pcs) == 1
                else
                  && s.weak == WeakRefs(s) + Sum(OverWeak, s.pcs) && Sum(Sealing, s.pcs) == 0
                  && s.weak <= MAX_REFCOUNT + 1 + Sum(OverWeak, s.pcs) < USIZE_MAX)
  {
    InitIsSafe(clients);
    RunKeepsInv(limit, Init(clients), sched);
    var s := Exec(limit, Init(clients), sched);
    CountersAreBounded(s);
    SumBounded(OverStrong, s.pcs);
    SumBounded(OverWeak, s.pcs);
    ExecKeepsClients(limit, Init(clients), sched);
  }

  lemma StepKeepsClients(limit: nat, s: State, a: Act)
    ensures |Step(limit, s, a).pcs| == |s.pcs|
  {
  }

  lemma {:induction false} ExecKeepsClients(limit: nat, s: State, sched: seq<Act>)
    ensures |Exec(limit, s, sched).pcs| == |s.pcs|
    decreases sched
  {
    if sched != [] {
      StepKeepsClients(limit, s, sched[0]);
      ExecKeepsClients(limit, Step(limit, s, sched[0]), sched[1..]);
    }
  }

  /** What weak_count reports through a strong handle. */
  function WeakCount(s: State): int {
    if s.weak == USIZE_MAX then 0 else s.weak - 1
  }

  /** It is the number of weak handles, also while is_unique hides the counter. */
  lemma {:induction false} WeakCountIsExact(s: State)
    requires Inv(s) && s.strongHandles != {}
    ensures WeakCount(s) == |s.weakHandles| + Sum(OverWeak, s.pcs)
  {
    CountersAreBounded(s);
    assert s.implicit;
  }

  // ---- the payload and the block ----

  /** The client is inside an operation on the shared block. */
  predicate InProgress(pc: Pc) {
    !pc.Idle?
  }

  /** The payload is destroyed at most once and not while a strong handle exists; the block
      is freed at most once, after the payload, and not while any handle exists or any
      operation on it is in progress other than the deallocation itself; and once no handle
      exists and no operation is in progress, both have happened. */
  lemma {:induction false} DestroyedOnceInOrder(limit: nat, clients: nat, sched: seq<Act>)
    requires clients < MAX_REFCOUNT && 0 < limit <= MAX_REFCOUNT + 1
    ensures var s := Exec(limit, Init(clients), sched);
            && s.payloadDrops <= 1 && s.frees <= 1
            && (s.strongHandles != {} ==> s.payloadDrops == 0)
            && (s.frees == 1 ==> s.payloadDrops == 1)
            && (s.strongHandles != {} || s.weakHandles != {} ==> s.frees == 0)
            && (forall c :: 0 <= c < |s.pcs| && InProgress(s.pcs[c]) ==> s.frees == 0)
            && ((forall c :: 0 <= c < |s.pcs| ==> !InProgress(s.pcs[c]))
                && s.strongHandles == {} && s.weakHandles == {} ==>
                  s.payloadDrops == 1 && s.frees == 1)
  {
    InitIsSafe(clients);
    RunKeepsInv(limit, Init(clients), sched);
    var s := Exec(limit, Init(clients), sched);
    PayloadDropsAtMostOnce(s);
    forall c | 0 <= c < |s.pcs| && InProgress(s.pcs[c]) ensures s.frees == 0 {
      InProgressMeansAllocated(s, c);
    }
    if forall c :: 0 <= c < |s.pcs| ==> !InProgress(s.pcs[c]) {
      SumOfZeros(Tearing, s.pcs);
      SumOfZeros(Freeing, s.pcs);
    }
  }

  lemma PayloadDropsAtMostOnce(s: State)
    requires Inv(s)
    ensures s.payloadDrops <= 1 && (s.frees == 1 ==> s.payloadDrops == 1)
  {
    if Sum(Tearing, s.pcs) > 0 {
      var c := SumWitness(Tearing, s.pcs);
      assert PcOk(s, c);
    }
  }

  lemma InProgressMeansAllocated(s: State, c: nat)
    requires Inv(s) && c < |s.pcs| && InProgress(s.pcs[c])
    ensures s.frees == 0
  {
    assert PcOk(s, c);
    Present(s, c);
    var pc := s.pcs[c];
    if pc.AbortStrong? || pc.DownLoad? || pc.DownCheck? || pc.UniqueCas? || pc.UniqueLoad? || pc.UniqueStore? {
      assert PinsStrong(pc, pc.h);
    }
    if pc.AbortWeak? || pc.UpLoad? || pc.UpCheck? {
      assert PinsWeak(pc, pc.w);
    }
  }

  /** Once the last strong handle is gone no upgrade, and nothing else, brings one back. */
  lemma {:induction false} NeverRevived(limit: nat, s: State, sched: seq<Act>)
    requires Inv(s) && 0 < limit <= MAX_REFCOUNT + 1 && s.strongHandles == {}
    ensures Exec(limit, s, sched).strongHandles == {}
    decreases sched
  {
    if sched != [] {
      var a := sched[0];
      OverLimitHasHandle(s);
      if a.c < |s.pcs| {
        assert PcOk(s, a.c);
      }
      StepKeepsInv(limit, s, a);
      NeverRevived(limit, Step(limit, s, a), sched[1..]);
    }
  }

  /** Whenever upgrade decides on a value it has just read, at first or after an exchange that
      failed, it gives up exactly when no strong handle exists at that moment (or panics, above
      the limit). */
  lemma UpgradeFailsIffDead(limit: nat, s: State, a: Act)
    requires Inv(s) && !s.aborted && a.c < |s.pcs| && s.strong <= MAX_REFCOUNT
    requires s.pcs[a.c].UpLoad? || (s.pcs[a.c].UpCheck? && (a.spurious || s.strong != s.pcs[a.c].n))
    ensures Step(limit, s, a).pcs[a.c].Idle? <==> s.strongHandles == {}
    ensures Step(limit, s, a).strongHandles == s.strongHandles
  {
    OverLimitHasHandle(s);
  }

  // ---- is_unique ----

  /** The answer is_unique computes is exact at the moment of its load of `strong`: true if and
      only if there is one strong handle, no weak one, and no clone on its way to abort. */
  lemma UniqueAnswerIsExact(limit: nat, s: State, a: Act)
    requires Inv(s) && !s.aborted && a.c < |s.pcs| && s.pcs[a.c].UniqueLoad?
    ensures Step(limit, s, a).pcs[a.c]
            == UniqueStore(s.pcs[a.c].h,
                           |s.strongHandles| == 1 && s.weakHandles == {} && Sum(OverStrong, s.pcs) == 0)
  {
    Present(s, a.c);
    OverLimitHasHandle(s);
  }

  /** is_unique gets as far as that load if and only if no weak handle exists and no other
      is_unique is in progress; otherwise it answers false at once. */
  lemma UniqueSealsIff(limit: nat, s: State, a: Act)
    requires Inv(s) && !s.aborted && a.c < |s.pcs| && s.pcs[a.c].UniqueCas?
    ensures Step(limit, s, a).pcs[a.c].UniqueLoad? <==> s.weakHandles == {} && Sum(Sealing, s.pcs) == 0
    ensures !Step(limit, s, a).pcs[a.c].UniqueLoad? ==> Step(limit, s, a).answers == s.answers + [false]
  {
    assert PcOk(s, a.c) && PinsStrong(s.pcs[a.c], s.pcs[a.c].h);
    OverLimitHasHandle(s);
  }

  lemma OthersStay(limit: nat, s: State, a: Act, c: nat)
    requires c < |s.pcs| && a.c != c
    ensures |Step(limit, s, a).pcs| == |s.pcs| && Step(limit, s, a).pcs[c] == s.pcs[c]
  {
    if a.c < |s.pcs| && !s.aborted {
      match s.pcs[a.c]
      case Idle => case AbortStrong(_) => case AbortWeak(_) =>
      case DropLock => case DropPayload => case GiveUpImplicit => case Dealloc =>
      case DownLoad(_) => case DownCheck(_, _) => case UpLoad(_) => case UpCheck(_, _) =>
      case UniqueCas(_) => case UniqueLoad(_) => case UniqueStore(_, _) =>
    }
  }

  lemma SealedWord(s: State, c: nat)
    requires Inv(s) && c < |s.pcs| && Sealing(s.pcs[c]) == 1
    ensures s.weak == USIZE_MAX && s.weakHandles == {} && WeakRefs(s) == 1
  {
    Present(s, c);
  }

  /** While is_unique holds the sentinel, whatever the others do, no weak handle appears and
      nobody touches `weak`, so its store of 1 restores the true number of weak references. */
  lemma {:induction false} SealHolds(limit: nat, s: State, sched: seq<Act>, c: nat)
    requires Inv(s) && 0 < limit <= MAX_REFCOUNT + 1 && c < |s.pcs| && Sealing(s.pcs[c]) == 1
    requires forall a :: a in sched ==> a.c != c
    ensures var s' := Exec(limit, s, sched);
            && c < |s'.pcs| && s'.pcs[c] == s.pcs[c]
            && s'.weak == USIZE_MAX && s'.weakHandles == {} && WeakRefs(s') == 1
    decreases sched
  {
    SealedWord(s, c);
    if sched != [] {
      assert sched[0].c != c;
      OthersStay(limit, s, sched[0], c);
      StepKeepsInv(limit, s, sched[0]);
      SealHolds(limit, Step(limit, s, sched[0]), sched[1..], c);
    }
  }

  // ---- the two instances ----

  /** Both limits the sources use are covered. */
  lemma {:induction false} ArwAndAnyRef(clients: nat, sched: seq<Act>)
    requires clients < MAX_REFCOUNT
    ensures Inv(Exec(ARW_LIMIT, Init(clients), sched))
    ensures Inv(Exec(ANYREF_LIMIT, Init(clients), sched))
  {
    InitIsSafe(clients);
    RunKeepsInv(ARW_LIMIT, Init(clients), sched);
    RunKeepsInv(ANYREF_LIMIT, Init(clients), sched);
  }
}
