/** Safety of the Mutex in every run. */
module MutexSafety {
  import opened Words
  import opened Tally
  import opened MutexMachine

  /** Counted at the fetch_add of lock_group and not yet uncounted by unlock_group. */
  function Counted(pc: Pc): nat {
    match pc
    case GrSpin(_) => 1
    case GrCasDirty => 1
    case GrRecheck => 1
    case GrCasUnlocked => 1
    case GrHeld => 1
    case GrSub => 1
    case _ => 0
  }

  /** Member of the open group, whether lock_group has returned or is still at its re-check. */
  predicate Joined(pc: Pc) {
    pc == GrRecheck || HoldsGroup(pc)
  }

  /** What a client's position says about the two shared words. */
  predicate Fits(pc: Pc, flag: Flag, locked: nat) {
    && pc != Panicked
    && (pc == ExHeld ==> flag == LOCKED)
    && (Joined(pc) ==> flag == LOCKED_GROUP)
    && (pc == GrStoreDirty ==> flag == LOCKED_GROUP && locked == 0)
  }

  /** Positions that two clients can never have at once. */
  predicate Clash(p: Pc, q: Pc) {
    (p == ExHeld && q == ExHeld) || (p == GrStoreDirty && q == GrStoreDirty)
  }

  ghost predicate Inv(s: State) {
    && |s.pcs| < WORD
    && s.locked == Sum(Counted, s.pcs)
    && (forall i :: 0 <= i < |s.pcs| ==> Fits(s.pcs[i], s.flag, s.locked))
    && (forall i, j :: 0 <= i < |s.pcs| && 0 <= j < |s.pcs| && i != j ==> !Clash(s.pcs[i], s.pcs[j]))
  }

  lemma {:induction false} InitIsSafe(clients: nat)
    requires clients < WORD
    ensures Inv(Init(clients))
  {
    SumOfZeros(Counted, Init(clients).pcs);
  }

  /** While a counted client exists the counter is positive, so no window is open. */
  lemma CountedClosesWindow(s: State, c: nat)
    requires Inv(s) && c < |s.pcs| && Counted(s.pcs[c]) == 1
    ensures s.locked > 0 && !WindowOpen(s)
  {
    SumCovers(Counted, s.pcs, c);
  }

  /** A step moves one client. */
  lemma OneClientMoves(s: State, a: Act)
    requires a.c < |s.pcs|
    ensures |Step(s, a).pcs| == |s.pcs| && Step(s, a).pcs == s.pcs[a.c := Step(s, a).pcs[a.c]]
  {
  }

  /** What a step does to the counter, and to the share of its client in it. */
  lemma CounterMoves(s: State, a: Act)
    requires a.c < |s.pcs| && Fits(s.pcs[a.c], s.flag, s.locked)
    ensures |Step(s, a).pcs| == |s.pcs|
    ensures var pc, pc' := s.pcs[a.c], Step(s, a).pcs[a.c];
            if pc == GrAdd then Step(s, a).locked == Inc(s.locked) && Counted(pc) == 0 && Counted(pc') == 1
            else if pc == GrSub then Step(s, a).locked == Dec(s.locked) && Counted(pc) == 1 && Counted(pc') == 0
            else Step(s, a).locked == s.locked && Counted(pc') == Counted(pc)
  {
  }

  /** The counter stays exact: the increment never overflows and the decrement never underflows. */
  lemma StepKeepsCount(s: State, a: Act)
    requires Inv(s)
    ensures Step(s, a).locked == Sum(Counted, Step(s, a).pcs)
  {
    if a.c < |s.pcs| {
      OneClientMoves(s, a);
      CounterMoves(s, a);
      CountFollows(s, Step(s, a), a.c);
    }
  }

  lemma CountFollows(s: State, s': State, c: nat)
    requires Inv(s) && c < |s.pcs| == |s'.pcs| && s'.pcs == s.pcs[c := s'.pcs[c]]
    requires var d := Counted(s'.pcs[c]) - Counted(s.pcs[c]);
             s'.locked == if d == 1 then Inc(s.locked) else if d == -1 then Dec(s.locked) else s.locked
    ensures s'.locked == Sum(Counted, s'.pcs)
  {
    SumUpdate(Counted, s.pcs, c, s'.pcs[c]);
    SumBounded(Counted, s.pcs);
    SumBounded(Counted, s'.pcs);
    SumCovers(Counted, s.pcs, c);
  }

  /** A client that does not move keeps its view of the shared words. */
  lemma OtherStillFits(s: State, a: Act, i: nat)
    requires Inv(s) && a.c < |s.pcs| && i < |s.pcs| && i != a.c
    requires !(Arrives(s, a) && WindowOpen(s))
    ensures Fits(s.pcs[i], Step(s, a).flag, Step(s, a).locked)
  {
    var pc, other := s.pcs[a.c], s.pcs[i];
    assert Fits(pc, s.flag, s.locked) && Fits(other, s.flag, s.locked) && !Clash(pc, other);
    if Counted(pc) == 1 {
      CountedClosesWindow(s, a.c);
    }
    if Counted(other) == 1 {
      CountedClosesWindow(s, i);
    }
  }

  lemma MoverFits(s: State, a: Act)
    requires Inv(s) && a.c < |s.pcs|
    ensures Fits(Step(s, a).pcs[a.c], Step(s, a).flag, Step(s, a).locked)
  {
    assert Fits(s.pcs[a.c], s.flag, s.locked);
  }

  lemma MoverDoesNotClash(s: State, a: Act, i: nat)
    requires Inv(s) && a.c < |s.pcs| && i < |s.pcs| && i != a.c
    ensures !Clash(Step(s, a).pcs[a.c], s.pcs[i])
  {
    assert Fits(s.pcs[a.c], s.flag, s.locked) && Fits(s.pcs[i], s.flag, s.locked);
    if s.pcs[a.c] == GrSub {
      CountedClosesWindow(s, a.c);
    }
  }

  lemma Reassembled(s: State, s': State, c: nat)
    requires Inv(s) && c < |s.pcs| == |s'.pcs| && s'.pcs == s.pcs[c := s'.pcs[c]]
    requires s'.locked == Sum(Counted, s'.pcs)
    requires Fits(s'.pcs[c], s'.flag, s'.locked)
    requires forall i | 0 <= i < |s.pcs| && i != c ::
               Fits(s.pcs[i], s'.flag, s'.locked) && !Clash(s'.pcs[c], s.pcs[i])
    ensures Inv(s')
  {
  }

  lemma StepKeepsInv(s: State, a: Act)
    requires Inv(s)
    requires !(Arrives(s, a) && WindowOpen(s))
    ensures Inv(Step(s, a))
  {
    if a.c < |s.pcs| {
      OneClientMoves(s, a);
      StepKeepsCount(s, a);
      MoverFits(s, a);
      forall i | 0 <= i < |s.pcs| && i != a.c
        ensures Fits(s.pcs[i], Step(s, a).flag, Step(s, a).locked) && !Clash(Step(s, a).pcs[a.c], s.pcs[i])
      {
        OtherStillFits(s, a, i);
        MoverDoesNotClash(s, a, i);
      }
      Reassembled(s, Step(s, a), a.c);
    }
  }

  lemma {:induction false} RunKeepsInv(s: State, sched: seq<Act>)
    requires Inv(s) && NoArrivalInWindow(s, sched)
    ensures Inv(Exec(s, sched))
    decreases sched
  {
    if sched != [] {
      StepKeepsInv(s, sched[0]);
      RunKeepsInv(Step(s, sched[0]), sched[1..]);
    }
  }

  lemma InvExcludes(s: State)
    requires Inv(s)
    ensures MutuallyExclusive(s)
    ensures Panicked !in s.pcs
  {
    forall i, j | 0 <= i < |s.pcs| && 0 <= j < |s.pcs| && i != j && s.pcs[i] == ExHeld
      ensures s.pcs[j] != ExHeld && !HoldsGroup(s.pcs[j])
    {
      assert Fits(s.pcs[i], s.flag, s.locked) && Fits(s.pcs[j], s.flag, s.locked);
      assert !Clash(s.pcs[i], s.pcs[j]);
    }
  }

  /** Mutual exclusion for every schedule of every number of clients, and the
      panics of both unlock operations are unreachable. */
  lemma {:induction false} MutualExclusion(clients: nat, sched: seq<Act>)
    requires clients < WORD && NoArrivalInWindow(Init(clients), sched)
    ensures MutuallyExclusive(Exec(Init(clients), sched))
    ensures Panicked !in Exec(Init(clients), sched).pcs
  {
    InitIsSafe(clients);
    RunKeepsInv(Init(clients), sched);
    InvExcludes(Exec(Init(clients), sched));
  }

  /** `locked` is the number of clients that have counted themselves and not yet
      unlocked, as an exact number: the word never wraps in either direction. */
  lemma {:induction false} CounterIsExact(clients: nat, sched: seq<Act>)
    requires clients < WORD && NoArrivalInWindow(Init(clients), sched)
    ensures var s := Exec(Init(clients), sched);
            && s.locked == Sum(Counted, s.pcs)
            && s.locked <= clients
            && forall c :: 0 <= c < |s.pcs| && s.pcs[c] == GrSub ==> s.locked > 0
  {
    InitIsSafe(clients);
    RunKeepsInv(Init(clients), sched);
    var s := Exec(Init(clients), sched);
    SumBounded(Counted, s.pcs);
    ExecKeepsClients(Init(clients), sched);
    forall c | 0 <= c < |s.pcs| && s.pcs[c] == GrSub
      ensures s.locked > 0
    {
      CountedClosesWindow(s, c);
    }
  }

  lemma {:induction false} ExecKeepsClients(s: State, sched: seq<Act>)
    ensures |Exec(s, sched).pcs| == |s.pcs|
    decreases sched
  {
    if sched != [] {
      ExecKeepsClients(Step(s, sched[0]), sched[1..]);
    }
  }

  /** Once a counted client has read LOCKED_GROUP it is in: while it does not move,
      nobody can close the group, so its re-check succeeds whenever it comes. */
  lemma {:induction false} JoinedHoldsTheGroupOpen(s: State, sched: seq<Act>, c: nat)
    requires Inv(s) && NoArrivalInWindow(s, sched)
    requires c < |s.pcs| && Joined(s.pcs[c])
    requires forall a :: a in sched ==> a.c != c
    ensures Exec(s, sched).flag == LOCKED_GROUP
    ensures c < |Exec(s, sched).pcs| && Exec(s, sched).pcs[c] == s.pcs[c]
    decreases sched
  {
    assert Fits(s.pcs[c], s.flag, s.locked);
    if sched != [] {
      assert sched[0].c != c;
      StepKeepsInv(s, sched[0]);
      JoinedHoldsTheGroupOpen(Step(s, sched[0]), sched[1..], c);
    }
  }

  /** A state word that reads UNLOCKED or DIRTY means that nobody holds the lock at
      that moment; this is what the map iterator's is_locked_exclusive waits for. */
  lemma FreeWordMeansNoHolder(s: State, i: nat)
    requires Inv(s) && i < |s.pcs| && (s.flag == UNLOCKED || s.flag == DIRTY)
    ensures s.pcs[i] != ExHeld && !Joined(s.pcs[i])
  {
    assert Fits(s.pcs[i], s.flag, s.locked);
  }

  // ---- the window, seen from outside ----

  /** An open group that nobody is counted in is one whose last member has not stored DIRTY yet. */
  ghost predicate EmptyGroupIsWindow(s: State) {
    s.flag == LOCKED_GROUP && s.locked == 0 ==> WindowOpen(s)
  }

  /** A client that opens the group is counted, and so is one that leaves it, until it is the last. */
  lemma StepKeepsEmptyGroup(s: State, a: Act)
    requires Inv(s) && EmptyGroupIsWindow(s) && !(Arrives(s, a) && WindowOpen(s))
    ensures EmptyGroupIsWindow(Step(s, a))
  {
    var s' := Step(s, a);
    StepKeepsInv(s, a);
    if a.c < |s.pcs| && s'.flag == LOCKED_GROUP && s'.locked == 0 {
      OneClientMoves(s, a);
      if Counted(s'.pcs[a.c]) == 1 {
        CountedClosesWindow(s', a.c);
      } else if s.pcs[a.c] == GrSub {
        assert s'.pcs[a.c] == GrStoreDirty || s'.locked != 0 by { CountedClosesWindow(s, a.c); }
      } else {
        WordsStay(s, a);
        var w :| 0 <= w < |s.pcs| && s.pcs[w] == GrStoreDirty;
        assert s'.pcs[w] == GrStoreDirty;
      }
    }
  }

  /** A step that leaves an open group with nobody counted, and is neither by a counted client nor
      a decrement, has touched neither word and closes no window. */
  lemma WordsStay(s: State, a: Act)
    requires Inv(s) && a.c < |s.pcs| && s.pcs[a.c] != GrSub && Counted(Step(s, a).pcs[a.c]) == 0
    requires Step(s, a).flag == LOCKED_GROUP && Step(s, a).locked == 0
    ensures s.flag == LOCKED_GROUP && s.locked == 0 && s.pcs[a.c] != GrStoreDirty
  {
    assert Fits(s.pcs[a.c], s.flag, s.locked);
  }

  lemma {:induction false} RunKeepsEmptyGroup(s: State, sched: seq<Act>)
    requires Inv(s) && EmptyGroupIsWindow(s) && NoArrivalInWindow(s, sched)
    ensures Inv(Exec(s, sched)) && EmptyGroupIsWindow(Exec(s, sched))
    decreases sched
  {
    if sched != [] {
      StepKeepsInv(s, sched[0]);
      StepKeepsEmptyGroup(s, sched[0]);
      RunKeepsEmptyGroup(Step(s, sched[0]), sched[1..]);
    }
  }

  /** Whether a window is open can be read off the two shared words. */
  lemma {:induction false} WindowIsReadable(clients: nat, sched: seq<Act>)
    requires clients < WORD && NoArrivalInWindow(Init(clients), sched)
    ensures var s := Exec(Init(clients), sched);
            Inv(s) && (WindowOpen(s) <==> s.flag == LOCKED_GROUP && s.locked == 0)
  {
    InitIsSafe(clients);
    RunKeepsEmptyGroup(Init(clients), sched);
    var s := Exec(Init(clients), sched);
    assert forall i :: 0 <= i < |s.pcs| ==> Fits(s.pcs[i], s.flag, s.locked);
  }
}
