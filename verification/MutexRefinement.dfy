/** The Mutex is a readers-writer lock. */
module MutexRefinement {
  import opened Words
  import opened MutexMachine
  import opened MutexSafety
  import RwLock
  import Wrappers

  // Each run, read as a sequence of lock events, is one that the reference lock permits.

  ghost function Members(s: State): set<nat> {
    set i | 0 <= i < |s.pcs| && Joined(s.pcs[i])
  }

  /** The reference lock a state stands for. */
  ghost function Abs(s: State): RwLock.Lock {
    if exists i :: 0 <= i < |s.pcs| && s.pcs[i] == ExHeld then
      var i :| 0 <= i < |s.pcs| && s.pcs[i] == ExHeld;
      RwLock.Exclusive(i)
    else if Members(s) == {} then RwLock.Free
    else RwLock.Group(Members(s))
  }

  /** What a step does to the lock, read off the moving client alone. */
  function EventOf(s: State, a: Act): RwLock.Event {
    if a.c >= |s.pcs| then RwLock.Silent
    else
      var before, after := s.pcs[a.c], Step(s, a).pcs[a.c];
      if after == ExHeld && before != ExHeld then RwLock.Lock(a.c)
      else if before == ExHeld && after != ExHeld then RwLock.Unlock(a.c)
      else if Joined(after) && !Joined(before) then RwLock.Join(a.c)
      else if Joined(before) && !Joined(after) then RwLock.Leave(a.c)
      else RwLock.Silent
  }

  function Events(s: State, sched: seq<Act>): seq<RwLock.Event>
    decreases sched
  {
    if sched == [] then [] else [EventOf(s, sched[0])] + Events(Step(s, sched[0]), sched[1..])
  }

  lemma AbsExclusive(s: State, c: nat)
    requires Inv(s) && c < |s.pcs| && s.pcs[c] == ExHeld
    ensures Abs(s) == RwLock.Exclusive(c)
  {
    var i :| 0 <= i < |s.pcs| && s.pcs[i] == ExHeld && Abs(s) == RwLock.Exclusive(i);
    assert i != c ==> !Clash(s.pcs[i], s.pcs[c]);
  }

  lemma AbsGroup(s: State, c: nat)
    requires Inv(s) && c < |s.pcs| && Joined(s.pcs[c])
    ensures Abs(s).Group? && c in Abs(s).members
  {
    assert Fits(s.pcs[c], s.flag, s.locked) && c in Members(s);
    assert forall i :: 0 <= i < |s.pcs| ==> Fits(s.pcs[i], s.flag, s.locked);
  }

  lemma AbsWithout(s: State, c: nat)
    requires c < |s.pcs| && s.pcs[c] != ExHeld && !Joined(s.pcs[c])
    ensures c !in RwLock.Holders(Abs(s))
  {
  }

  ghost predicate Unowned(s: State) {
    forall i :: 0 <= i < |s.pcs| ==> s.pcs[i] != ExHeld
  }

  lemma MembersAfter(s: State, a: Act)
    requires a.c < |s.pcs|
    ensures Members(Step(s, a)) ==
            if Joined(Step(s, a).pcs[a.c]) then Members(s) + {a.c} else Members(s) - {a.c}
  {
    OneClientMoves(s, a);
  }

  lemma NoMembersWhen(s: State)
    requires Inv(s) && s.flag != LOCKED_GROUP
    ensures Members(s) == {}
  {
    assert forall i :: 0 <= i < |s.pcs| && Joined(s.pcs[i]) ==> Fits(s.pcs[i], s.flag, s.locked);
  }

  /** Steps around an exclusive holder: its release, and every step of the others. */
  lemma StepWithOwner(s: State, a: Act, h: nat)
    requires Inv(s) && !(Arrives(s, a) && WindowOpen(s))
    requires a.c < |s.pcs| && h < |s.pcs| && s.pcs[h] == ExHeld
    ensures RwLock.Apply(Abs(s), EventOf(s, a)) == Wrappers.Some(Abs(Step(s, a)))
  {
    var s' := Step(s, a);
    StepKeepsInv(s, a);
    AbsExclusive(s, h);
    assert Fits(s.pcs[h], s.flag, s.locked) && Fits(s.pcs[a.c], s.flag, s.locked);
    if a.c == h {
      NoMembersWhen(s');
      forall i | 0 <= i < |s'.pcs| ensures s'.pcs[i] != ExHeld {
        assert i != h ==> s'.pcs[i] == s.pcs[i] && !Clash(s.pcs[i], s.pcs[h]);
      }
    } else {
      assert s'.pcs[h] == ExHeld;
      AbsExclusive(s', h);
      assert Fits(s'.pcs[a.c], s'.flag, s'.locked) && Fits(s'.pcs[h], s'.flag, s'.locked);
      assert !Clash(s.pcs[a.c], s.pcs[h]) && !Clash(s'.pcs[a.c], s'.pcs[h]);
    }
  }

  lemma StepTakesLock(s: State, a: Act)
    requires Inv(s) && !(Arrives(s, a) && WindowOpen(s))
    requires a.c < |s.pcs| && Unowned(s) && Step(s, a).pcs[a.c] == ExHeld
    ensures RwLock.Apply(Abs(s), EventOf(s, a)) == Wrappers.Some(Abs(Step(s, a)))
  {
    StepKeepsInv(s, a);
    NoMembersWhen(s);
    AbsExclusive(Step(s, a), a.c);
  }

  function Joint(members: set<nat>): RwLock.Lock {
    if members == {} then RwLock.Free else RwLock.Group(members)
  }

  lemma JoinOrLeave(m: set<nat>, c: nat, after: bool)
    ensures var e := if after && c !in m then RwLock.Join(c)
                     else if !after && c in m then RwLock.Leave(c) else RwLock.Silent;
            RwLock.Apply(Joint(m), e) == Wrappers.Some(Joint(if after then m + {c} else m - {c}))
  {
    if c !in m {
      assert m - {c} == m;
      assert m == {} ==> m + {c} == {c};
    } else {
      assert m + {c} == m;
      assert m == {c} <==> m - {c} == {};
    }
  }

  lemma StillUnowned(s: State, a: Act)
    requires a.c < |s.pcs| && Unowned(s) && Step(s, a).pcs[a.c] != ExHeld
    ensures Unowned(Step(s, a)) && Abs(Step(s, a)) == Joint(Members(Step(s, a)))
  {
    OneClientMoves(s, a);
  }

  lemma StepInGroup(s: State, a: Act)
    requires Inv(s) && !(Arrives(s, a) && WindowOpen(s))
    requires a.c < |s.pcs| && Unowned(s) && Step(s, a).pcs[a.c] != ExHeld
    ensures RwLock.Apply(Abs(s), EventOf(s, a)) == Wrappers.Some(Abs(Step(s, a)))
  {
    MembersAfter(s, a);
    StillUnowned(s, a);
    assert a.c in Members(s) <==> Joined(s.pcs[a.c]);
    JoinOrLeave(Members(s), a.c, Joined(Step(s, a).pcs[a.c]));
  }

  lemma StepSimulates(s: State, a: Act)
    requires Inv(s) && !(Arrives(s, a) && WindowOpen(s))
    ensures RwLock.Apply(Abs(s), EventOf(s, a)) == Wrappers.Some(Abs(Step(s, a)))
  {
    if a.c < |s.pcs| {
      if h :| 0 <= h < |s.pcs| && s.pcs[h] == ExHeld {
        StepWithOwner(s, a, h);
      } else if Step(s, a).pcs[a.c] == ExHeld {
        StepTakesLock(s, a);
      } else {
        StepInGroup(s, a);
      }
    }
  }

  /** Every run is a run of the reference lock, from Free to the lock its last state stands for. */
  lemma {:induction false} RunSimulates(s: State, sched: seq<Act>)
    requires Inv(s) && NoArrivalInWindow(s, sched)
    ensures RwLock.Replay(Abs(s), Events(s, sched)) == Wrappers.Some(Abs(Exec(s, sched)))
    decreases sched
  {
    if sched != [] {
      StepSimulates(s, sched[0]);
      StepKeepsInv(s, sched[0]);
      RunSimulates(Step(s, sched[0]), sched[1..]);
      assert Events(s, sched)[1..] == Events(Step(s, sched[0]), sched[1..]);
    }
  }

  lemma {:induction false} MutexIsAReadersWriterLock(clients: nat, sched: seq<Act>)
    requires clients < WORD && NoArrivalInWindow(Init(clients), sched)
    ensures RwLock.Replay(RwLock.Free, Events(Init(clients), sched))
            == Wrappers.Some(Abs(Exec(Init(clients), sched)))
  {
    InitIsSafe(clients);
    assert Abs(Init(clients)) == RwLock.Free;
    RunSimulates(Init(clients), sched);
  }

  // ---- is_locked_exclusive ----

  lemma FreeWordMeansFree(s: State)
    requires Inv(s) && (s.flag == UNLOCKED || s.flag == DIRTY)
    ensures Abs(s) == RwLock.Free
  {
    NoMembersWhen(s);
    forall i | 0 <= i < |s.pcs| ensures s.pcs[i] != ExHeld {
      FreeWordMeansNoHolder(s, i);
    }
  }

  /** With whatever the others do between its two loads: the answer is false exactly when the
      first load sees UNLOCKED, or DIRTY and the second load sees nobody counted; and then nobody
      held the lock, in any mode, at the first load. */
  lemma NotLockedMeansFree(s: State, c: nat, acts: seq<Act>)
    requires Inv(s) && c < |s.pcs| && s.pcs[c] == AskState && forall a :: a in acts ==> a.c != c
    ensures var a := Act(c, IsLockedExclusive);
            var mid := Exec(Step(s, a), acts);
            && c < |mid.pcs| && (mid.pcs[c].Told? || mid.pcs[c] == AskCount)
            && var last := if mid.pcs[c].Told? then mid else Step(mid, a);
            && (last.pcs[c] == Told(false) <==> s.flag == UNLOCKED || (s.flag == DIRTY && mid.locked == 0))
            && (last.pcs[c] == Told(false) ==> Abs(s) == RwLock.Free)
  {
    var a := Act(c, IsLockedExclusive);
    StaysPut(Step(s, a), acts, c);
    if s.flag == UNLOCKED || s.flag == DIRTY {
      FreeWordMeansFree(s);
    }
  }
}
