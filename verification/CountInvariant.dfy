/** What the two counters mean. */
module CountInvariant {
  import opened Words
  import opened Tally
  import opened CountMachine

  /** Between an over-limit fetch_add and the abort. */
  function OverStrong(pc: Pc): nat { if pc.AbortStrong? then 1 else 0 }
  function OverWeak(pc: Pc): nat { if pc.AbortWeak? then 1 else 0 }

  /** The last strong dropper, until it gives up the implicit weak reference. */
  function Tearing(pc: Pc): nat { if pc.DropLock? || pc.DropPayload? || pc.GiveUpImplicit? then 1 else 0 }

  /** is_unique while it holds the sentinel in `weak`. */
  function Sealing(pc: Pc): nat { if pc.UniqueLoad? || pc.UniqueStore? then 1 else 0 }

  function Freeing(pc: Pc): nat { if pc.Dealloc? then 1 else 0 }

  function One(b: bool): nat { if b then 1 else 0 }

  /** The number of weak references: weak handles and the implicit one. */
  function WeakRefs(s: State): nat {
    |s.weakHandles| + One(s.implicit)
  }

  /** What an operation in progress may rely on. */
  ghost predicate PcOk(s: State, c: nat) {
    c < |s.pcs| ==>
      && (forall h :: PinsStrong(s.pcs[c], h) ==> h in s.strongHandles)
      && (forall w :: PinsWeak(s.pcs[c], w) ==> w in s.weakHandles)
      && (match s.pcs[c]
          case DropLock => s.payloadDrops == 0
          case DropPayload => s.payloadDrops == 0
          case GiveUpImplicit => s.payloadDrops == 1
          case DownCheck(_, cur) => 1 <= cur <= MAX_REFCOUNT
          case UpCheck(_, n) => 1 <= n <= MAX_REFCOUNT
          case _ => true)
  }

  ghost predicate StrongOk(s: State) {
    && s.strong == |s.strongHandles| + Sum(OverStrong, s.pcs)
    && s.strong <= MAX_REFCOUNT + 1 + Sum(OverStrong, s.pcs)
  }

  ghost predicate WeakOk(s: State) {
    if Sum(Sealing, s.pcs) == 0 then
      && s.weak == WeakRefs(s) + Sum(OverWeak, s.pcs)
      && s.weak <= MAX_REFCOUNT + 1 + Sum(OverWeak, s.pcs)
    else
      && Sum(Sealing, s.pcs) == 1 && s.weak == USIZE_MAX
      && s.weakHandles == {} && s.implicit && Sum(OverWeak, s.pcs) == 0
  }

  ghost predicate LifeOk(s: State) {
    && (s.strongHandles != {} ==> s.implicit && s.payloadDrops == 0)
    && (!s.implicit ==> s.payloadDrops == 1)
    && Sum(Tearing, s.pcs) == One(s.strongHandles == {} && s.implicit)
    && s.frees + Sum(Freeing, s.pcs) == One(WeakRefs(s) == 0)
  }

  ghost predicate HandlesOk(s: State) {
    && (forall h :: h in s.strongHandles ==> h < s.nextHandle)
    && (forall w :: w in s.weakHandles ==> w < s.nextHandle)
  }

  ghost predicate Inv(s: State) {
    && |s.pcs| < MAX_REFCOUNT
    && (forall c: nat :: PcOk(s, c))
    && StrongOk(s) && WeakOk(s) && LifeOk(s) && HandlesOk(s)
  }

  lemma {:induction false} InitIsSafe(clients: nat)
    requires clients < MAX_REFCOUNT
    ensures Inv(Init(clients))
  {
    var s := Init(clients);
    SumOfZeros(OverStrong, s.pcs);
    SumOfZeros(OverWeak, s.pcs);
    SumOfZeros(Tearing, s.pcs);
    SumOfZeros(Sealing, s.pcs);
    SumOfZeros(Freeing, s.pcs);
  }

  /** All five sums after one client has moved. */
  lemma Moved(s: State, c: nat, pc: Pc)
    requires c < |s.pcs|
    ensures var t := s.pcs[c := pc];
            && Sum(OverStrong, t) + OverStrong(s.pcs[c]) == Sum(OverStrong, s.pcs) + OverStrong(pc)
            && Sum(OverWeak, t) + OverWeak(s.pcs[c]) == Sum(OverWeak, s.pcs) + OverWeak(pc)
            && Sum(Tearing, t) + Tearing(s.pcs[c]) == Sum(Tearing, s.pcs) + Tearing(pc)
            && Sum(Sealing, t) + Sealing(s.pcs[c]) == Sum(Sealing, s.pcs) + Sealing(pc)
            && Sum(Freeing, t) + Freeing(s.pcs[c]) == Sum(Freeing, s.pcs) + Freeing(pc)
  {
    SumUpdate(OverStrong, s.pcs, c, pc);
    SumUpdate(OverWeak, s.pcs, c, pc);
    SumUpdate(Tearing, s.pcs, c, pc);
    SumUpdate(Sealing, s.pcs, c, pc);
    SumUpdate(Freeing, s.pcs, c, pc);
  }

  /** A client in one of the weighted positions is counted by the sum. */
  lemma Present(s: State, c: nat)
    requires c < |s.pcs|
    ensures OverStrong(s.pcs[c]) <= Sum(OverStrong, s.pcs) <= |s.pcs|
    ensures OverWeak(s.pcs[c]) <= Sum(OverWeak, s.pcs) <= |s.pcs|
    ensures Tearing(s.pcs[c]) <= Sum(Tearing, s.pcs)
    ensures Sealing(s.pcs[c]) <= Sum(Sealing, s.pcs)
    ensures Freeing(s.pcs[c]) <= Sum(Freeing, s.pcs)
  {
    SumCovers(OverStrong, s.pcs, c);
    SumCovers(OverWeak, s.pcs, c);
    SumCovers(Tearing, s.pcs, c);
    SumCovers(Sealing, s.pcs, c);
    SumCovers(Freeing, s.pcs, c);
    SumBounded(OverStrong, s.pcs);
    SumBounded(OverWeak, s.pcs);
  }

  /** Neither counter wraps, and `weak` is the sentinel only while is_unique has put it there. */
  lemma CountersAreBounded(s: State)
    requires Inv(s)
    ensures s.strong < USIZE_MAX
    ensures s.weak == USIZE_MAX <==> Sum(Sealing, s.pcs) == 1
  {
    SumBounded(OverStrong, s.pcs);
    SumBounded(OverWeak, s.pcs);
  }

  /** An over-limit clone still borrows its handle, so handles exist. */
  lemma OverLimitHasHandle(s: State)
    requires Inv(s)
    ensures s.strongHandles == {} ==> Sum(OverStrong, s.pcs) == 0
    ensures s.weakHandles == {} ==> Sum(OverWeak, s.pcs) == 0
  {
    if Sum(OverStrong, s.pcs) > 0 {
      var c := SumWitness(OverStrong, s.pcs);
      assert PcOk(s, c) && PinsStrong(s.pcs[c], s.pcs[c].h);
    }
    if Sum(OverWeak, s.pcs) > 0 {
      var c := SumWitness(OverWeak, s.pcs);
      assert PcOk(s, c) && PinsWeak(s.pcs[c], s.pcs[c].w);
    }
  }
}
