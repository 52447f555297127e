/** In which order two pushes are linked. */
module VecOrder {
  import opened Tally
  import opened VecMachine
  import opened VecInvariant
  import opened VecSteps
  import opened VecSafety

  /** How far a value has come: in the hand of a pusher without the spin flag, in the slot, in the
      hand of the client that has the flag, linked. */
  datatype Stage = Outside | Waiting | Within | Done(rank: nat)

  function StageOf<V>(s: State<V>, t: nat): Stage
    requires t < |s.fate|
  {
    match s.fate[t]
    case Held(c, _) => if c < |s.pcs| && Inside(s.pcs[c]) == 1 then Within else Outside
    case Stashed(_) => Waiting
    case Linked(r) => Done(r)
  }

  /** With this step push call `t` takes the spin flag. */
  predicate TakesFlag<V>(s: State<V>, a: Act<V>, t: nat) {
    && a.c < |s.pcs| && s.available && s.pcs[a.c].PushLock?
    && s.pcs[a.c].p in s.heap && s.heap[s.pcs[a.c].p].ticket == t
  }

  /** With this step push call `t2` takes the spin flag while the slot holds the value of `t1`. */
  predicate TakesFlagOver<V>(s: State<V>, a: Act<V>, t1: nat, t2: nat) {
    TakesFlag(s, a, t2) && s.slot in s.heap && s.heap[s.slot].ticket == t1
  }

  predicate Overtakes<V>(s: State<V>, sched: seq<Act<V>>, t1: nat, t2: nat)
    decreases sched
  {
    sched != [] && (TakesFlagOver(s, sched[0], t1, t2) || Overtakes(Step(s, sched[0]), sched[1..], t1, t2))
  }

  // ---- one value ----

  /** A step that is none of the three that move a value to the next place leaves every fate. */
  predicate Moves<V>(pc: Pc<V>) {
    pc.PushStash? || pc.StoreTail? || pc.Swap?
  }

  lemma FatesStay<V>(s: State<V>, a: Act<V>)
    requires a.c < |s.pcs| ==> !Moves(s.pcs[a.c])
    ensures s.fate <= Step(s, a).fate
  {
    if a.c < |s.pcs| && !s.pcs[a.c].Idle? {
      if InLink(s.pcs[a.c]) {
        LinkKeepsFates(s, a.c);
      } else if !InPush(s.pcs[a.c]) && !InRelease(s.pcs[a.c]) {
        PopKeepsFates(s, a.c);
      }
    }
  }

  lemma LinkKeepsFates<V>(s: State<V>, c: nat)
    requires c < |s.pcs| && InLink(s.pcs[c]) && !s.pcs[c].StoreTail?
    ensures LinkStep(s, c).fate == s.fate
  {
    match s.pcs[c]
    case LoadTail(_, _) => case StoreNext(_, _, _) => case CasHead(_, _) => case AddLen(_) =>
  }

  lemma PopKeepsFates<V>(s: State<V>, c: nat)
    requires c < |s.pcs| && !s.pcs[c].Idle?
    requires !InPush(s.pcs[c]) && !InLink(s.pcs[c]) && !InRelease(s.pcs[c])
    ensures PopStep(s, c).fate == s.fate
  {
    match s.pcs[c]
    case PopLock => case LoadHead => case LoadNext(_) => case StoreHead(_, _) => case CheckTail(_, _) =>
    case CasTail(_, _) => case ReadValue(_, _) => case FreeBlock(_, _, _) => case SubLen(_, _) =>
  }

  /** A client's own value is in the block it carries. */
  lemma HolderCarries<V>(s: State<V>, t: nat)
    requires Inv(s) && t < |s.fate| && s.fate[t].Held?
    ensures var c := s.fate[t].c;
            c < |s.pcs| && Carries(s.pcs[c]) && Hand(s.pcs[c]) == s.fate[t].p && s.fate[t].p in s.heap
            && s.heap[s.fate[t].p].ticket == t
  {
    assert FateOk(s, t) && BlockOk(s, s.fate[t].p);
  }

  lemma OneClientMoves<V>(s: State<V>, a: Act<V>)
    requires a.c < |s.pcs|
    ensures |Step(s, a).pcs| == |s.pcs| && Step(s, a).pcs == s.pcs[a.c := Step(s, a).pcs[a.c]]
  {
    if !s.pcs[a.c].Idle? {
      if InLink(s.pcs[a.c]) {
        LinkMovesOne(s, a.c);
      } else if !InPush(s.pcs[a.c]) && !InRelease(s.pcs[a.c]) {
        PopMovesOne(s, a.c);
      }
    }
  }

  lemma LinkMovesOne<V>(s: State<V>, c: nat)
    requires c < |s.pcs| && InLink(s.pcs[c])
    ensures var s' := LinkStep(s, c); |s'.pcs| == |s.pcs| && s'.pcs == s.pcs[c := s'.pcs[c]]
  {
    match s.pcs[c]
    case LoadTail(_, _) => case StoreNext(_, _, _) => case StoreTail(_, _) => case CasHead(_, _) => case AddLen(_) =>
  }

  lemma PopMovesOne<V>(s: State<V>, c: nat)
    requires c < |s.pcs| && !s.pcs[c].Idle?
    requires !InPush(s.pcs[c]) && !InLink(s.pcs[c]) && !InRelease(s.pcs[c])
    ensures var s' := PopStep(s, c); |s'.pcs| == |s.pcs| && s'.pcs == s.pcs[c := s'.pcs[c]]
  {
    match s.pcs[c]
    case PopLock => case LoadHead => case LoadNext(_) => case StoreHead(_, _) => case CheckTail(_, _) =>
    case CasTail(_, _) => case ReadValue(_, _) => case FreeBlock(_, _, _) => case SubLen(_, _) =>
  }

  /** What a step can do to one value. */
  ghost predicate Follows<V>(s: State<V>, a: Act<V>, t: nat, before: Stage, after: Stage) {
    match before
    case Outside => after == Outside || (after == Waiting && s.slot == NULL) || (after == Within && TakesFlag(s, a, t))
    case Waiting => after == Waiting || (after == Within && a.c < |s.pcs| && s.pcs[a.c].Swap?)
    case Within => after == Within || after == Done(|s.order|)
    case Done(r) => after == Done(r)
  }

  /** A value in somebody's hand keeps its fate while it stays there. */
  ghost predicate KeepsHand<V>(s: State<V>, s': State<V>, t: nat)
    requires t < |s.fate| && t < |s'.fate|
  {
    s.fate[t].Held? && StageOf(s', t) == StageOf(s, t) ==> s'.fate[t] == s.fate[t]
  }

  lemma UnmovedStage<V>(s: State<V>, a: Act<V>, t: nat)
    requires Inv(s) && t < |s.fate| && a.c < |s.pcs| && !Moves(s.pcs[a.c])
    ensures t < |Step(s, a).fate| && Step(s, a).fate[t] == s.fate[t]
    ensures Follows(s, a, t, StageOf(s, t), StageOf(Step(s, a), t))
  {
    FatesStay(s, a);
    OneClientMoves(s, a);
    if s.fate[t].Held? {
      HolderCarries(s, t);
      if s.fate[t].c == a.c {
        CarrierMoves(s, a);
      }
    }
  }

  /** A client that carries a block and does not hand it over enters the lock at most by taking the
      flag, and does not leave it. */
  lemma CarrierMoves<V>(s: State<V>, a: Act<V>)
    requires a.c < |s.pcs| && Carries(s.pcs[a.c]) && !Moves(s.pcs[a.c])
    ensures a.c < |Step(s, a).pcs|
    ensures Inside(s.pcs[a.c]) == 1 ==> Inside(Step(s, a).pcs[a.c]) == 1
    ensures Inside(s.pcs[a.c]) == 0 && Inside(Step(s, a).pcs[a.c]) == 1 ==> s.pcs[a.c].PushLock? && s.available
  {
    match s.pcs[a.c]
    case PushBusy(_) => case PushLock(_) => case LoadTail(_, _) =>
    case StoreNext(p, t, from) => assert Step(s, a) == SetNext(s, a.c, p, t, from);
  }

  lemma StashStage<V>(s: State<V>, c: nat, p: nat, t: nat)
    requires Inv(s) && t < |s.fate| && c < |s.pcs| && s.pcs[c] == PushStash(p)
    ensures var s' := Stash(s, c, p);
            && t < |s'.fate| && KeepsHand(s, s', t)
            && (StageOf(s', t) == StageOf(s, t)
                || (StageOf(s, t) == Outside && StageOf(s', t) == Waiting && s.slot == NULL))
  {
    assert ClientOk(s, c);
    if s.fate[t].Held? { HolderCarries(s, t); }
  }

  lemma SetTailStage<V>(s: State<V>, c: nat, p: nat, from: From, t: nat)
    requires Inv(s) && t < |s.fate| && c < |s.pcs| && s.pcs[c] == StoreTail(p, from)
    ensures var s' := SetTail(s, c, p, from);
            && t < |s'.fate| && KeepsHand(s, s', t)
            && (StageOf(s', t) == StageOf(s, t) || (StageOf(s, t) == Within && StageOf(s', t) == Done(|s.order|)))
  {
    assert ClientOk(s, c);
    if s.fate[t].Held? { HolderCarries(s, t); }
  }

  lemma TakeSlotStage<V>(s: State<V>, c: nat, k: Cont, t: nat)
    requires Inv(s) && t < |s.fate| && c < |s.pcs| && s.pcs[c] == Swap(k)
    ensures var s' := TakeSlot(s, c, k);
            && t < |s'.fate| && KeepsHand(s, s', t)
            && (StageOf(s', t) == StageOf(s, t) || (StageOf(s, t) == Waiting && StageOf(s', t) == Within))
  {
    assert SlotOk(s);
    if s.fate[t].Held? { HolderCarries(s, t); }
  }

  lemma StageStep<V>(s: State<V>, a: Act<V>, t: nat)
    requires Inv(s) && t < |s.fate|
    ensures t < |Step(s, a).fate| && KeepsHand(s, Step(s, a), t)
    ensures Follows(s, a, t, StageOf(s, t), StageOf(Step(s, a), t))
  {
    if a.c < |s.pcs| {
      match s.pcs[a.c] {
        case PushStash(p) => StashStage(s, a.c, p, t);
        case StoreTail(p, from) => SetTailStage(s, a.c, p, from, t);
        case Swap(k) => TakeSlotStage(s, a.c, k, t);
        case _ => UnmovedStage(s, a, t);
      }
    }
  }

  // ---- two values ----

  lemma WithinHoldsTheFlag<V>(s: State<V>, t: nat)
    requires Inv(s) && t < |s.fate| && StageOf(s, t) == Within
    ensures !s.available
    ensures forall d: nat :: d < |s.pcs| && Inside(s.pcs[d]) == 1 ==> d == s.fate[t].c && !s.pcs[d].Swap?
  {
    HolderCarries(s, t);
    var c := s.fate[t].c;
    SumCovers<Pc<V>>(Inside, s.pcs, c);
    forall d: nat | d < |s.pcs| && Inside(s.pcs[d]) == 1 ensures d == c {
      if d != c { OnlyInside(s, c, d); }
    }
  }

  lemma SlotHoldsOne<V>(s: State<V>, t: nat)
    requires Inv(s) && t < |s.fate|
    ensures StageOf(s, t) == Waiting <==> s.slot in s.heap && s.heap[s.slot].ticket == t
    ensures StageOf(s, t) == Waiting ==> s.slot != NULL
  {
    assert FateOk(s, t) && SlotOk(s);
    if s.fate[t].Stashed? {
      assert BlockOk(s, s.fate[t].p);
    }
  }

  lemma TakerIsOutside<V>(s: State<V>, a: Act<V>, t: nat)
    requires Inv(s) && TakesFlag(s, a, t)
    ensures t < |s.fate| && StageOf(s, t) == Outside
  {
    assert ClientOk(s, a.c);
  }

  lemma RankIsGiven<V>(s: State<V>, t: nat)
    requires Inv(s) && t < |s.fate| && StageOf(s, t).Done?
    ensures StageOf(s, t).rank < |s.order|
  {
    assert FateOk(s, t);
  }

  lemma FlagTaken<V>(s: State<V>, a: Act<V>, t: nat)
    requires Inv(s) && TakesFlag(s, a, t)
    ensures var s' := Step(s, a);
            Inv(s') && t < |s'.fate| && StageOf(s', t) == Within && s'.fate[t].Held? && s'.fate[t].c == a.c
  {
    assert ClientOk(s, a.c);
    StepKeepsInv(s, a);
    FatesStay(s, a);
  }

  /** `t1` is linked before `t2`, or will be. */
  ghost predicate Ahead<V>(s: State<V>, t1: nat, t2: nat)
    requires t1 < |s.fate| && t2 < |s.fate|
  {
    var g1, g2 := StageOf(s, t1), StageOf(s, t2);
    || (g1.Done? && (g2.Done? ==> g1.rank < g2.rank))
    || (g1 == Within && (g2 == Outside || g2 == Waiting))
  }

  /** `t2` is linked before `t1`, or will be: it has taken the flag over the slot. */
  ghost predicate Behind<V>(s: State<V>, t1: nat, t2: nat)
    requires t1 < |s.fate| && t2 < |s.fate|
  {
    var g1, g2 := StageOf(s, t1), StageOf(s, t2);
    || (g2.Done? && (g1.Done? ==> g2.rank < g1.rank))
    || (g2 == Within && g1 == Waiting)
  }

  ghost predicate Undecided<V>(s: State<V>, t1: nat, t2: nat)
    requires t1 < |s.fate| && t2 < |s.fate|
  {
    StageOf(s, t1) == Waiting && StageOf(s, t2) == Outside
  }

  lemma StepDecides<V>(s: State<V>, a: Act<V>, t1: nat, t2: nat)
    requires Inv(s) && t1 < |s.fate| && t2 < |s.fate|
    ensures var s' := Step(s, a);
            && t1 < |s'.fate| && t2 < |s'.fate|
            && (Ahead(s, t1, t2) ==> Ahead(s', t1, t2) && !TakesFlagOver(s, a, t1, t2))
            && (Behind(s, t1, t2) ==> Behind(s', t1, t2) && !TakesFlagOver(s, a, t1, t2))
            && (Undecided(s, t1, t2) ==> if TakesFlagOver(s, a, t1, t2) then Behind(s', t1, t2)
                                         else Undecided(s', t1, t2) || Ahead(s', t1, t2))
  {
    StageStep(s, a, t1);
    StageStep(s, a, t2);
    SlotHoldsOne(s, t1);
    if TakesFlag(s, a, t2) {
      TakerIsOutside(s, a, t2);
      FlagTaken(s, a, t2);
    }
    if StageOf(s, t1) == Within { WithinHoldsTheFlag(s, t1); }
    if StageOf(s, t2) == Within { WithinHoldsTheFlag(s, t2); }
    if StageOf(s, t1).Done? { RankIsGiven(s, t1); }
    if StageOf(s, t2).Done? { RankIsGiven(s, t2); }
  }

  lemma {:induction false} RunDecides<V>(s: State<V>, sched: seq<Act<V>>, t1: nat, t2: nat)
    requires Inv(s) && t1 < |s.fate| && t2 < |s.fate|
    ensures var s' := Exec(s, sched);
            && t1 < |s'.fate| && t2 < |s'.fate|
            && (Ahead(s, t1, t2) ==> Ahead(s', t1, t2) && !Overtakes(s, sched, t1, t2))
            && (Behind(s, t1, t2) ==> Behind(s', t1, t2) && !Overtakes(s, sched, t1, t2))
            && (Undecided(s, t1, t2) ==> if Overtakes(s, sched, t1, t2) then Behind(s', t1, t2)
                                         else Undecided(s', t1, t2) || Ahead(s', t1, t2))
    decreases sched
  {
    if sched != [] {
      StepDecides(s, sched[0], t1, t2);
      StepKeepsInv(s, sched[0]);
      RunDecides(Step(s, sched[0]), sched[1..], t1, t2);
    }
  }

  // ---- two push calls ----

  /** The step starts a push. */
  predicate StartsPush<V>(s: State<V>, a: Act<V>) {
    a.c < |s.pcs| && s.pcs[a.c].Idle? && a.call.Push? && a.call.at != NULL && a.call.at !in s.heap
  }

  lemma PushStarts<V>(s: State<V>, a: Act<V>)
    requires Inv(s) && StartsPush(s, a)
    ensures var s', t := Step(s, a), |s.pushed|;
            && Inv(s') && t < |s'.fate| && s'.fate[..t] == s.fate && s'.fate[t] == Held(a.c, a.call.at)
            && StageOf(s', t) == Outside
            && forall u :: 0 <= u < t ==> StageOf(s', u) == StageOf(s, u)
  {
    StepKeepsInv(s, a);
    forall u: nat | u < |s.pushed| ensures StageOf(Step(s, a), u) == StageOf(s, u) {
      if s.fate[u].Held? { HolderCarries(s, u); }
    }
  }

  /** A value does not leave its pusher's hand but for the slot or the lock, and stays in the hand of
      the client that has it inside the lock until it is linked. */
  lemma {:induction false} HandKept<V>(s: State<V>, sched: seq<Act<V>>, t: nat)
    requires Inv(s) && t < |s.fate| && s.fate[t].Held?
    ensures var s' := Exec(s, sched);
            && Inv(s') && t < |s'.fate|
            && (StageOf(s', t) == Outside ==> s'.fate[t] == s.fate[t])
            && (StageOf(s, t) == Within ==> StageOf(s', t).Done? || s'.fate[t] == s.fate[t])
    decreases sched
  {
    if sched != [] {
      StageStep(s, sched[0], t);
      StepKeepsInv(s, sched[0]);
      var s1 := Step(s, sched[0]);
      if s1.fate[t].Held? {
        HandKept(s1, sched[1..], t);
      } else {
        NeverBack(s1, sched[1..], t);
      }
    }
  }

  lemma {:induction false} NeverBack<V>(s: State<V>, sched: seq<Act<V>>, t: nat)
    requires Inv(s) && t < |s.fate| && StageOf(s, t) != Outside
    ensures var s' := Exec(s, sched);
            && Inv(s') && t < |s'.fate| && StageOf(s', t) != Outside
            && (StageOf(s, t).Done? ==> StageOf(s', t) == StageOf(s, t))
    decreases sched
  {
    if sched != [] {
      StageStep(s, sched[0], t);
      StepKeepsInv(s, sched[0]);
      NeverBack(Step(s, sched[0]), sched[1..], t);
    }
  }

  /** The first push has returned before the second starts. */
  ghost predicate InSequence<V>(clients: nat, before: seq<Act<V>>, a1: Act<V>, between: seq<Act<V>>, a2: Act<V>) {
    var s0 := Exec(Init<V>(clients), before);
    && StartsPush(s0, a1)
    && var s1 := Exec(Step(s0, a1), between);
       && a1.c < |s1.pcs| && s1.pcs[a1.c].Idle?
       && StartsPush(s1, a2)
  }

  lemma StartOfSecond<V>(clients: nat, before: seq<Act<V>>, a1: Act<V>, between: seq<Act<V>>, a2: Act<V>)
    requires InSequence(clients, before, a1, between, a2)
    ensures var s0 := Exec(Init<V>(clients), before);
            var s1 := Exec(Step(s0, a1), between);
            var s2, t1, t2 := Step(s1, a2), |s0.pushed|, |s1.pushed|;
            && Inv(s1) && Inv(s2) && t1 < |s1.fate| && t1 < t2 < |s2.fate|
            && (Ahead(s2, t1, t2) || Undecided(s2, t1, t2))
            && (StageOf(s1, t1).Done? ==> Ahead(s2, t1, t2))
  {
    InitIsSafe<V>(clients);
    RunKeepsInv(Init<V>(clients), before);
    var s0 := Exec(Init<V>(clients), before);
    PushStarts(s0, a1);
    HandKept(Step(s0, a1), between, |s0.pushed|);
    var s1 := Exec(Step(s0, a1), between);
    if StageOf(s1, |s0.pushed|) == Outside {
      HolderCarries(s1, |s0.pushed|);
    }
    PushStarts(s1, a2);
  }

  /** Of two push calls, the second started after the first had returned, by the same thread or
      another: the second is linked first if and only if it takes the spin flag while the slot
      still holds the value of the first. */
  lemma {:induction false} PushOrderKeptIff<V>(
      clients: nat, before: seq<Act<V>>, a1: Act<V>, between: seq<Act<V>>, a2: Act<V>, after: seq<Act<V>>)
    requires InSequence(clients, before, a1, between, a2)
    ensures var s0 := Exec(Init<V>(clients), before);
            var s1 := Exec(Step(s0, a1), between);
            var s2, t1, t2 := Step(s1, a2), |s0.pushed|, |s1.pushed|;
            var s' := Exec(s2, after);
            && t1 < t2 < |s'.fate|
            && (s'.fate[t1].Linked? && s'.fate[t2].Linked? ==>
                  (s'.fate[t2].rank < s'.fate[t1].rank <==> Overtakes(s2, after, t1, t2)))
  {
    StartOfSecond(clients, before, a1, between, a2);
    var s0 := Exec(Init<V>(clients), before);
    var s1 := Exec(Step(s0, a1), between);
    RunDecides(Step(s1, a2), after, |s0.pushed|, |s1.pushed|);
  }

  /** A push that has taken the spin flag itself, instead of leaving its value in the slot, is
      overtaken by no later push. */
  lemma {:induction false} LockedPushKeepsItsTurn<V>(
      clients: nat, before: seq<Act<V>>, a: Act<V>, t1: nat, between: seq<Act<V>>, a2: Act<V>, after: seq<Act<V>>)
    requires TakesFlag(Exec(Init<V>(clients), before), a, t1)
    requires var s1 := Exec(Step(Exec(Init<V>(clients), before), a), between);
             a.c < |s1.pcs| && s1.pcs[a.c].Idle? && StartsPush(s1, a2)
    ensures var s1 := Exec(Step(Exec(Init<V>(clients), before), a), between);
            var s2, t2 := Step(s1, a2), |s1.pushed|;
            var s' := Exec(s2, after);
            && t1 < |s'.fate| && t2 < |s'.fate| && s'.fate[t1].Linked? && !Overtakes(s2, after, t1, t2)
            && (s'.fate[t2].Linked? ==> s'.fate[t1].rank < s'.fate[t2].rank)
  {
    InitIsSafe<V>(clients);
    RunKeepsInv(Init<V>(clients), before);
    var s := Exec(Init<V>(clients), before);
    FlagTaken(s, a, t1);
    HandKept(Step(s, a), between, t1);
    var s1 := Exec(Step(s, a), between);
    if !StageOf(s1, t1).Done? {
      HolderCarries(s1, t1);
    }
    PushStarts(s1, a2);
    RunDecides(Step(s1, a2), after, t1, |s1.pushed|);
    NeverBack(Step(s1, a2), after, t1);
  }

  // ---- both outcomes, for two pushes of one thread of which the first is left in the slot ----

  lemma {:induction false} ExecConcat<V>(s: State<V>, first: seq<Act<V>>, second: seq<Act<V>>)
    ensures Exec(s, first + second) == Exec(Exec(s, first), second)
    decreases first
  {
    if first == [] {
      assert first + second == second;
    } else {
      assert (first + second)[1..] == first[1..] + second;
      ExecConcat(Step(s, first[0]), first[1..], second);
    }
  }

  lemma Four<V>(s: State<V>, a: Act<V>, b: Act<V>, c: Act<V>, d: Act<V>)
    ensures Exec(s, [a, b, c, d]) == Step(Step(Step(Step(s, a), b), c), d)
  {
    assert [a, b, c, d][1..] == [b, c, d] && [b, c, d][1..] == [c, d] && [c, d][1..] == [d] && [d][1..] == [];
    var s1 := Step(s, a);
    var s2 := Step(s1, b);
    assert Exec(s, [a, b, c, d]) == Exec(s1, [b, c, d]) == Exec(s2, [c, d]) == Exec(Step(s2, c), [d]);
    assert Exec(Step(s2, c), [d]) == Exec(Step(Step(s2, c), d), []);
  }

  /** One pushed value that waits in the slot while client 1 is at `pc` inside the lock. */
  function Stuck<V>(v: V, pc: Pc<V>): State<V> {
    State(NULL, NULL, 1, 0, false, map[1 := Node(v, NULL, 0)], [Idle, pc], false, [v], [Stashed(1)], [], [], [], map[])
  }

  /** Client 1, popping an empty list, has the flag; its `release` has swapped the slot and not yet
      given the flag back. Client 0 pushes and leaves its value in the slot. */
  lemma StashAfterSwap<V>(v: V)
    ensures var p, q := Act(0, Push(v, 1)), Act(1, Pop);
            Exec(Exec(Init<V>(2), [q, q, q, q]), [p, p, p, q])
            == Stuck(v, Reopen(Empty)).(available := true, pcs := [Idle, Idle])
  {
    var p, q := Act(0, Push(v, 1)), Act(1, Pop);
    var s := Init<V>(2).(available := false, pcs := [Idle, Reopen(Empty)]);
    Four(Init<V>(2), q, q, q, q);
    assert Step(Step(Init<V>(2), q), q) == Init<V>(2).(available := false, pcs := [Idle, LoadHead]);
    assert Exec(Init<V>(2), [q, q, q, q]) == s;
    Four(s, p, p, p, q);
    assert Step(Step(Step(s, p), p), p) == Stuck(v, Reopen(Empty));
  }

  function Free1<V>(v: V): State<V> {
    Stuck(v, Idle).(available := true)
  }

  /** Its next push finds the flag free, and the first value still in the slot. */
  lemma SecondIsLinkedFirst<V>(v: V, w: V)
    ensures var p := Act(0, Push(w, 2));
            Exec(Exec(Free1(v), [p, p, p, p]), [p, p, p, p])
            == State(2, 2, NULL, 1, false, map[1 := Node(v, NULL, 0), 2 := Node(w, NULL, 1)],
                     [LoadTail(1, FromRelease(Pushed)), Idle], false, [v, w], [Held(0, 1), Linked(0)], [1], [2],
                     [], map[])
  {
    var p := Act(0, Push(w, 2));
    var heap := map[1 := Node(v, NULL, 0), 2 := Node(w, NULL, 1)];
    Four(Free1(v), p, p, p, p);
    var s := State(NULL, NULL, 1, 0, false, heap, [StoreTail(2, FromPush), Idle], false, [v, w],
                   [Stashed(1), Held(0, 2)], [], [], [], map[]);
    assert Step(Free1(v), p) == Free1(v).(heap := heap, pcs := [PushBusy(2), Idle], pushed := [v, w],
                                         fate := [Stashed(1), Held(0, 2)]);
    assert Exec(Free1(v), [p, p, p, p]) == s;
    Four(s, p, p, p, p);
    assert Step(s, p) == s.(tail := 2, fate := [Stashed(1), Linked(0)], order := [1], chain := [2],
                            pcs := [CasHead(2, FromPush), Idle]);
  }

  /** A run in which one thread's second push is linked before its first. */
  lemma PushesReordered<V>(v: V, w: V) returns (sched: seq<Act<V>>)
    ensures |sched| == 20
    ensures var s := Exec(Init<V>(2), sched[..8]); s.pcs == [Idle, Idle] && s.pushed == [v] && s.fate == [Stashed(1)]
    ensures var s := Exec(Init<V>(2), sched); s.pushed == [v, w] && s.order == [1, 0]
  {
    var p1, p2, q := Act(0, Push(v, 1)), Act(0, Push(w, 2)), Act(1, Pop);
    var head, rest, last := [q, q, q, q] + [p1, p1, p1, q], [p2, p2, p2, p2] + [p2, p2, p2, p2], [p2, p2, p2, p2];
    ExecConcat(Init<V>(2), [q, q, q, q], [p1, p1, p1, q]);
    StashAfterSwap(v);
    ExecConcat(Free1(v), [p2, p2, p2, p2], [p2, p2, p2, p2]);
    SecondIsLinkedFirst(v, w);
    var s := Exec(Free1(v), rest);
    Four(s, p2, p2, p2, p2);
    FirstIsLinkedLast(v, w, s);
    ExecConcat(Free1(v), rest, last);
    ExecConcat(Init<V>(2), head, rest + last);
    sched := head + (rest + last);
    assert sched[..8] == head;
  }

  lemma FirstIsLinkedLast<V>(v: V, w: V, s: State<V>)
    requires s == State(2, 2, NULL, 1, false, map[1 := Node(v, NULL, 0), 2 := Node(w, NULL, 1)],
                        [LoadTail(1, FromRelease(Pushed)), Idle], false, [v, w], [Held(0, 1), Linked(0)], [1], [2],
                     [], map[])
    ensures var p := Act(0, Push(w, 2));
            var s' := Step(Step(Step(Step(s, p), p), p), p);
            s'.pushed == [v, w] && s'.order == [1, 0]
  {
    var p := Act(0, Push(w, 2));
    assert Step(s, p) == s.(pcs := [StoreNext(1, 2, FromRelease(Pushed)), Idle]);
    var s2 := Step(Step(s, p), p);
    assert s2 == s.(heap := s.heap[2 := Node(w, 1, 1)], pcs := [StoreTail(1, FromRelease(Pushed)), Idle]);
    assert Step(s2, p).order == [1, 0];
  }

  /** A run in which the first push is left in the slot as well, but the client with the flag swaps
      it out afterwards: the order is kept. */
  lemma StashedPushCanKeepItsTurn<V>(v: V, w: V) returns (sched: seq<Act<V>>)
    ensures |sched| == 20
    ensures Exec(Init<V>(2), sched[..5]) == Stuck(v, LoadHead)
    ensures var s := Exec(Init<V>(2), sched); s.pushed == [v, w] && s.order == [0, 1]
  {
    var p1, p2, q := Act(0, Push(v, 1)), Act(0, Push(w, 2)), Act(1, Pop);
    var head := [q, q, p1, p1] + [p1, q, q, q];
    var rest := [q, q, q, q] + [p2, p2, p2, p2];
    var last := [p2, p2, p2, p2];
    ExecConcat(Init<V>(2), [q, q, p1, p1], [p1, q, q, q]);
    StashBeforeSwap(v);
    var s := Exec(Init<V>(2), head);
    ExecConcat(s, [q, q, q, q], [p2, p2, p2, p2]);
    ReleaseLinksFirst(v, w, s);
    var s' := Exec(s, rest);
    Four(s', p2, p2, p2, p2);
    SecondIsLinkedLast(v, w, s');
    ExecConcat(s, rest, last);
    ExecConcat(Init<V>(2), head, rest + last);
    sched := head + (rest + last);
    assert sched[..5] == [q, q, p1, p1] + [p1];
    ExecConcat(Init<V>(2), [q, q, p1, p1], [p1]);
    assert Exec(Exec(Init<V>(2), [q, q, p1, p1]), [p1]) == Exec(Stuck(v, LoadHead), [p1][1..]);
  }

  function Swapped<V>(v: V): State<V> {
    State(NULL, NULL, NULL, 0, false, map[1 := Node(v, NULL, 0)], [Idle, StoreTail(1, FromRelease(Empty))], false,
          [v], [Held(1, 1)], [], [], [], map[])
  }

  lemma StashBeforeSwap<V>(v: V)
    ensures var p, q := Act(0, Push(v, 1)), Act(1, Pop);
            && Step(Exec(Init<V>(2), [q, q, p, p]), p) == Stuck(v, LoadHead)
            && Exec(Exec(Init<V>(2), [q, q, p, p]), [p, q, q, q]) == Swapped(v)
  {
    var p, q := Act(0, Push(v, 1)), Act(1, Pop);
    var s := Stuck(v, LoadHead).(slot := NULL, pcs := [PushStash(1), LoadHead], fate := [Held(0, 1)]);
    Four(Init<V>(2), q, q, p, p);
    assert Step(Step(Init<V>(2), q), q) == Init<V>(2).(available := false, pcs := [Idle, LoadHead]);
    assert Exec(Init<V>(2), [q, q, p, p]) == s;
    Four(s, p, q, q, q);
    assert Step(s, p) == Stuck(v, LoadHead);
    assert Step(Step(Step(s, p), q), q) == Swapped(v).(pcs := [Idle, LoadTail(1, FromRelease(Empty))]);
  }

  lemma ReleaseLinksFirst<V>(v: V, w: V, s: State<V>)
    requires s == Swapped(v)
    ensures var p, q := Act(0, Push(w, 2)), Act(1, Pop);
            Exec(Exec(s, [q, q, q, q]), [p, p, p, p])
            == State(1, 1, NULL, 1, false, map[1 := Node(v, NULL, 0), 2 := Node(w, NULL, 1)],
                     [StoreNext(2, 1, FromPush), Idle], false, [v, w], [Linked(0), Held(0, 2)], [0], [1], [], map[])
  {
    var p, q := Act(0, Push(w, 2)), Act(1, Pop);
    Four(s, q, q, q, q);
    var t := State(1, 1, NULL, 1, true, map[1 := Node(v, NULL, 0)], [Idle, Idle], false, [v], [Linked(0)],
                   [0], [1], [], map[]);
    assert Step(s, q) == s.(tail := 1, fate := [Linked(0)], order := [0], chain := [1],
                            pcs := [Idle, CasHead(1, FromRelease(Empty))]);
    assert Exec(s, [q, q, q, q]) == t;
    Four(t, p, p, p, p);
    assert Step(t, p) == t.(heap := map[1 := Node(v, NULL, 0), 2 := Node(w, NULL, 1)], pcs := [PushBusy(2), Idle],
                            pushed := [v, w], fate := [Linked(0), Held(0, 2)]);
  }

  lemma SecondIsLinkedLast<V>(v: V, w: V, s: State<V>)
    requires s == State(1, 1, NULL, 1, false, map[1 := Node(v, NULL, 0), 2 := Node(w, NULL, 1)],
                        [StoreNext(2, 1, FromPush), Idle], false, [v, w], [Linked(0), Held(0, 2)], [0], [1], [], map[])
    ensures var p := Act(0, Push(w, 2));
            var s' := Step(Step(Step(Step(s, p), p), p), p);
            s'.pushed == [v, w] && s'.order == [0, 1]
  {
    var p := Act(0, Push(w, 2));
    assert Step(s, p) == s.(heap := s.heap[1 := Node(v, 2, 0)], pcs := [StoreTail(2, FromPush), Idle]);
    var s2 := Step(Step(s, p), p);
    assert s2.order == [0, 1] && s2.pcs == [CasHead(2, FromPush), Idle];
  }
}
