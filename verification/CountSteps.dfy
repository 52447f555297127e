/** Every step of the counting machine keeps the invariant. The cases follow the operations:
    clone and drop of either kind, downgrade, upgrade, is_unique, and what the last drops do to
    the payload and the block. */
module CountSteps {
  import opened Tally
  import opened CountMachine
  import opened CountInvariant

  /** A move that changes no counter, handle or resource. */
  lemma LocalMove(s: State, c: nat, pc: Pc)
    requires Inv(s) && c < |s.pcs|
    requires OverStrong(pc) == OverStrong(s.pcs[c]) && OverWeak(pc) == OverWeak(s.pcs[c])
    requires Tearing(pc) == Tearing(s.pcs[c]) && Sealing(pc) == Sealing(s.pcs[c]) && Freeing(pc) == Freeing(s.pcs[c])
    requires PcOk(Goto(s, c, pc), c)
    ensures Inv(Goto(s, c, pc))
  {
    Moved(s, c, pc);
    var s' := Goto(s, c, pc);
    forall d: nat ensures PcOk(s', d) {
      assert PcOk(s, d);
    }
  }

  /** A new strong handle, made by clone or upgrade below the limit from an existing handle. */
  lemma NewStrongStep(s: State, c: nat)
    requires Inv(s) && c < |s.pcs| && s.strongHandles != {} && s.strong <= MAX_REFCOUNT
    requires s.pcs[c].Idle? || s.pcs[c].UpCheck?
    ensures Inv(NewStrong(s, c))
  {
    var s' := NewStrong(s, c);
    Moved(s, c, Idle);
    assert s.nextHandle !in s.strongHandles;
    forall d: nat ensures PcOk(s', d) { assert PcOk(s, d); }
  }

  /** A new weak handle, made by weak clone or downgrade while a weak reference exists. */
  lemma NewWeakStep(s: State, c: nat)
    requires Inv(s) && c < |s.pcs| && WeakRefs(s) > 0 && s.weak <= MAX_REFCOUNT
    requires s.pcs[c].Idle? || s.pcs[c].DownCheck?
    ensures Inv(NewWeak(s, c))
  {
    var s' := NewWeak(s, c);
    Moved(s, c, Idle);
    CountersAreBounded(s);
    assert s.nextHandle !in s.weakHandles;
    forall d: nat ensures PcOk(s', d) { assert PcOk(s, d); }
  }

  lemma CloneStep(limit: nat, s: State, c: nat, h: nat)
    requires Inv(s) && c < |s.pcs| && s.pcs[c].Idle? && 0 < limit <= MAX_REFCOUNT + 1
    ensures Inv(Begin(limit, s, c, Clone(h)))
  {
    if h in s.strongHandles {
      if s.strong < limit {
        NewStrongStep(s, c);
      } else {
        var s' := Begin(limit, s, c, Clone(h));
        Moved(s, c, AbortStrong(h));
        CountersAreBounded(s);
        forall d: nat ensures PcOk(s', d) { assert PcOk(s, d); }
      }
    }
  }

  lemma WeakCloneStep(limit: nat, s: State, c: nat, w: nat)
    requires Inv(s) && c < |s.pcs| && s.pcs[c].Idle?
    ensures Inv(Begin(limit, s, c, WeakClone(w)))
  {
    if w in s.weakHandles {
      if s.weak <= MAX_REFCOUNT {
        NewWeakStep(s, c);
      } else {
        var s' := Begin(limit, s, c, WeakClone(w));
        Moved(s, c, AbortWeak(w));
        CountersAreBounded(s);
        forall d: nat ensures PcOk(s', d) { assert PcOk(s, d); }
      }
    }
  }

  lemma WeakDropStep(limit: nat, s: State, c: nat, w: nat)
    requires Inv(s) && c < |s.pcs| && s.pcs[c].Idle?
    ensures Inv(Begin(limit, s, c, WeakDrop(w)))
  {
    var s' := Begin(limit, s, c, WeakDrop(w));
    if WeakFree(s, w) {
      Moved(s, c, s'.pcs[c]);
      CountersAreBounded(s);
      assert |s'.weakHandles| == |s.weakHandles| - 1;
      if s'.weakHandles == {} {
        assert s.weakHandles == {w};
        NoWeakPins(s, w);
      }
      forall d: nat ensures PcOk(s', d) { assert PcOk(s, d); }
    }
  }

  /** With its only weak handle free, no operation through a weak handle is in progress. */
  lemma NoWeakPins(s: State, w: nat)
    requires Inv(s) && WeakFree(s, w) && s.weakHandles == {w}
    ensures Sum(OverWeak, s.pcs) == 0
  {
    forall i | 0 <= i < |s.pcs| ensures OverWeak(s.pcs[i]) == 0 {
      assert PcOk(s, i);
      if s.pcs[i].AbortWeak? {
        assert PinsWeak(s.pcs[i], s.pcs[i].w);
        assert false;
      }
    }
    SumOfZeros(OverWeak, s.pcs);
  }

  lemma DropStep(limit: nat, s: State, c: nat, h: nat)
    requires Inv(s) && c < |s.pcs| && s.pcs[c].Idle?
    ensures Inv(Begin(limit, s, c, Drop(h)))
  {
    var s' := Begin(limit, s, c, Drop(h));
    if StrongFree(s, h) {
      Moved(s, c, s'.pcs[c]);
      CountersAreBounded(s);
      OverLimitHasHandle(s);
      assert |s'.strongHandles| == |s.strongHandles| - 1;
      if s'.strongHandles == {} {
        assert s.strongHandles == {h};
        NoPins(s, h);
      }
      forall d: nat ensures PcOk(s', d) { assert PcOk(s, d); }
    }
  }

  /** With its only handle free, no operation through a strong handle is in progress. */
  lemma NoPins(s: State, h: nat)
    requires Inv(s) && StrongFree(s, h) && s.strongHandles == {h}
    ensures Sum(OverStrong, s.pcs) == 0
  {
    forall i | 0 <= i < |s.pcs| ensures OverStrong(s.pcs[i]) == 0 {
      assert PcOk(s, i);
      if s.pcs[i].AbortStrong? {
        assert PinsStrong(s.pcs[i], s.pcs[i].h);
        assert false;
      }
    }
    SumOfZeros(OverStrong, s.pcs);
  }

  // ---- teardown ----

  lemma DropPayloadStep(limit: nat, s: State, a: Act)
    requires Inv(s) && a.c < |s.pcs| && !s.aborted && s.pcs[a.c].DropPayload?
    ensures Inv(Step(limit, s, a))
  {
    var c, s' := a.c, Step(limit, s, a);
    assert PcOk(s, c);
    Moved(s, c, s'.pcs[c]);
    Present(s, c);
    forall d: nat ensures PcOk(s', d) {
      assert PcOk(s, d);
      if d < |s.pcs| && d != c {
        SumCoversPair(Tearing, s.pcs, if c < d then c else d, if c < d then d else c);
      }
    }
  }

  lemma GiveUpStep(limit: nat, s: State, a: Act)
    requires Inv(s) && a.c < |s.pcs| && !s.aborted && s.pcs[a.c].GiveUpImplicit?
    ensures Inv(Step(limit, s, a))
  {
    var c, s' := a.c, Step(limit, s, a);
    assert PcOk(s, c);
    Moved(s, c, s'.pcs[c]);
    Present(s, c);
    NotSealed(s);
    OverLimitHasHandle(s);
    forall d: nat ensures PcOk(s', d) {
      assert PcOk(s, d);
    }
  }

  /** is_unique borrows a strong handle, so it never overlaps the teardown. */
  lemma NotSealed(s: State)
    requires Inv(s) && s.strongHandles == {}
    ensures Sum(Sealing, s.pcs) == 0
  {
    if Sum(Sealing, s.pcs) > 0 {
      var i := SumWitness(Sealing, s.pcs);
      assert PcOk(s, i) && PinsStrong(s.pcs[i], s.pcs[i].h);
    }
  }

  lemma DeallocStep(limit: nat, s: State, a: Act)
    requires Inv(s) && a.c < |s.pcs| && !s.aborted && s.pcs[a.c].Dealloc?
    ensures Inv(Step(limit, s, a))
  {
    var c, s' := a.c, Step(limit, s, a);
    Moved(s, c, s'.pcs[c]);
    Present(s, c);
    forall d: nat ensures PcOk(s', d) { assert PcOk(s, d); }
  }

  // ---- downgrade and upgrade ----

  lemma DowngradeSteps(limit: nat, s: State, a: Act)
    requires Inv(s) && a.c < |s.pcs| && !s.aborted && (s.pcs[a.c].DownLoad? || s.pcs[a.c].DownCheck?)
    ensures Inv(Step(limit, s, a))
  {
    var c := a.c;
    assert PcOk(s, c) && PinsStrong(s.pcs[c], s.pcs[c].h);
    if s.pcs[c].DownCheck? && s.weak == s.pcs[c].cur && !a.spurious {
      NewWeakStep(s, c);
    } else {
      WeakIsPositive(s);
      LocalMove(s, c, AfterWeakRead(s.pcs[c].h, s.weak));
    }
  }

  /** While a strong handle exists `weak` is not zero, so weak_count's `cnt - 1` cannot underflow. */
  lemma WeakIsPositive(s: State)
    requires Inv(s) && s.strongHandles != {}
    ensures s.weak >= 1
  {
  }

  lemma UpgradeSteps(limit: nat, s: State, a: Act)
    requires Inv(s) && a.c < |s.pcs| && !s.aborted && (s.pcs[a.c].UpLoad? || s.pcs[a.c].UpCheck?)
    ensures Inv(Step(limit, s, a))
  {
    var c := a.c;
    assert PcOk(s, c);
    if s.pcs[c].UpCheck? && s.strong == s.pcs[c].n && !a.spurious {
      OverLimitHasHandle(s);
      NewStrongStep(s, c);
    } else {
      LocalMove(s, c, AfterStrongRead(s.pcs[c].w, s.strong));
    }
  }

  // ---- is_unique ----

  lemma UniqueCasStep(limit: nat, s: State, a: Act)
    requires Inv(s) && a.c < |s.pcs| && !s.aborted && s.pcs[a.c].UniqueCas?
    ensures Inv(Step(limit, s, a))
  {
    var c, s' := a.c, Step(limit, s, a);
    assert PcOk(s, c) && PinsStrong(s.pcs[c], s.pcs[c].h);
    Moved(s, c, s'.pcs[c]);
    forall d: nat ensures PcOk(s', d) { assert PcOk(s, d); }
  }

  lemma UniqueStoreStep(limit: nat, s: State, a: Act)
    requires Inv(s) && a.c < |s.pcs| && !s.aborted && s.pcs[a.c].UniqueStore?
    ensures Inv(Step(limit, s, a))
  {
    var c, s' := a.c, Step(limit, s, a);
    Moved(s, c, s'.pcs[c]);
    Present(s, c);
    forall d: nat ensures PcOk(s', d) { assert PcOk(s, d); }
  }
}
