/** The Mutex without contention. */
module MutexProgress {
  import opened Words
  import opened MutexLimits
  import opened MutexMachine

  lemma Next(s: State, a: Act, n: nat)
    ensures Exec(s, Alone(a, n + 1)) == Exec(Step(s, a), Alone(a, n))
  {
    assert Alone(a, n + 1)[1..] == Alone(a, n);
  }

  lemma Three(s: State, a: Act)
    ensures Exec(s, Alone(a, 3)) == Step(Step(Step(s, a), a), a)
  {
    Next(s, a, 2);
    Next(Step(s, a), a, 1);
    Next(Step(Step(s, a), a), a, 0);
  }

  /** The operation that client `c` makes next cannot take the lock. */
  predicate Refuses(s: State, c: nat) {
    c < |s.pcs| &&
    match s.pcs[c]
    case ExLoadLocked => s.locked != 0
    case ExCasDirty => s.flag != DIRTY
    case ExCasUnlocked => s.flag != UNLOCKED
    case TryCasDirty => s.flag != DIRTY
    case TryCasUnlocked => s.flag != UNLOCKED
    case GrCasDirty => s.flag != DIRTY
    case GrCasUnlocked => s.flag != UNLOCKED
    case _ => false
  }

  // ---- lock_exclusive ----

  /** The words that an exclusive lock can be taken on. */
  predicate OpenForOne(s: State) {
    s.flag == UNLOCKED || (s.flag == DIRTY && s.locked == 0)
  }

  lemma TakesUnlocked(s: State, c: nat)
    requires c < |s.pcs| && s.pcs[c] == Idle && s.flag == UNLOCKED
    ensures Exec(s, Alone(Act(c, LockExclusive), 3)) == State(LOCKED, s.locked, s.pcs[c := ExHeld])
  {
    Three(s, Act(c, LockExclusive));
  }

  lemma TakesDirty(s: State, c: nat)
    requires c < |s.pcs| && s.pcs[c] == Idle && s.flag == DIRTY && s.locked == 0
    ensures Exec(s, Alone(Act(c, LockExclusive), 4)) == State(LOCKED, 0, s.pcs[c := ExHeld])
  {
    var a := Act(c, LockExclusive);
    Next(s, a, 3);
    Three(Step(s, a), a);
  }

  lemma {:induction false} StaysOut(s: State, c: nat, n: nat)
    requires c < |s.pcs| && !OpenForOne(s)
    requires s.pcs[c] == Idle || (InExclusive(s.pcs[c]) && s.pcs[c] != ExHeld)
    requires s.pcs[c] == ExCasDirty ==> s.flag != DIRTY
    ensures var s' := Exec(s, Alone(Act(c, LockExclusive), n)); c < |s'.pcs| && s'.pcs[c] != ExHeld
    decreases n
  {
    if n > 0 {
      var a := Act(c, LockExclusive);
      Next(s, a, n - 1);
      StaysOut(Step(s, a), c, n - 1);
    }
  }

  /** lock_exclusive, run alone, takes the lock if and only if it finds UNLOCKED, whatever the
      counter says, or DIRTY with nobody counted; in three or four operations then. */
  lemma LockExclusiveAloneIff(s: State, c: nat)
    requires c < |s.pcs| && s.pcs[c] == Idle
    ensures var a := Act(c, LockExclusive);
            && (OpenForOne(s) <==> exists n :: Exec(s, Alone(a, n)) == State(LOCKED, s.locked, s.pcs[c := ExHeld]))
            && (OpenForOne(s) ==>
                Exec(s, Alone(a, if s.flag == UNLOCKED then 3 else 4)) == State(LOCKED, s.locked, s.pcs[c := ExHeld]))
  {
    var a := Act(c, LockExclusive);
    if s.flag == UNLOCKED {
      TakesUnlocked(s, c);
    } else if OpenForOne(s) {
      TakesDirty(s, c);
    } else {
      forall n: nat ensures Exec(s, Alone(a, n)) != State(LOCKED, s.locked, s.pcs[c := ExHeld]) {
        StaysOut(s, c, n);
      }
    }
  }

  // ---- lock_group ----

  lemma Counts(s: State, c: nat)
    requires c < |s.pcs| && s.pcs[c] == Idle
    ensures var a := Act(c, LockGroup);
            Step(Step(s, a), a) == State(s.flag, Inc(s.locked), s.pcs[c := GrSpin(SPINS)])
  {
  }

  lemma Opens(s: State, c: nat)
    requires c < |s.pcs| && s.pcs[c] == GrSpin(SPINS) && (s.flag == UNLOCKED || s.flag == DIRTY)
    ensures var a := Act(c, LockGroup);
            Step(Step(s, a), a) == State(LOCKED_GROUP, s.locked, s.pcs[c := GrHeld])
  {
  }

  lemma JoinsFree(s: State, c: nat)
    requires c < |s.pcs| && s.pcs[c] == Idle && (s.flag == UNLOCKED || s.flag == DIRTY)
    ensures Exec(s, Alone(Act(c, LockGroup), 4)) == State(LOCKED_GROUP, Inc(s.locked), s.pcs[c := GrHeld])
  {
    var a := Act(c, LockGroup);
    Next(s, a, 3);
    Three(Step(s, a), a);
    Counts(s, c);
    Opens(Step(Step(s, a), a), c);
  }

  /** A newcomer to an open group spins out and enters. */
  lemma {:induction false} SpinsOut(s: State, c: nat, left: nat)
    requires c < |s.pcs| && s.pcs[c] == GrSpin(left) && s.flag == LOCKED_GROUP
    ensures Exec(s, Alone(Act(c, LockGroup), left + 2)) == s.(pcs := s.pcs[c := GrHeld])
    decreases left
  {
    var a := Act(c, LockGroup);
    Next(s, a, left + 1);
    if left > 0 {
      SpinsOut(Step(s, a), c, left - 1);
    } else {
      Next(Step(s, a), a, 0);
    }
  }

  lemma JoinsOpen(s: State, c: nat, n: nat)
    requires c < |s.pcs| && s.pcs[c] == Idle && s.flag == LOCKED_GROUP && n == SPINS + 2
    ensures Exec(s, Alone(Act(c, LockGroup), n + 2)) == State(LOCKED_GROUP, Inc(s.locked), s.pcs[c := GrHeld])
  {
    var a := Act(c, LockGroup);
    Next(s, a, n + 1);
    Next(Step(s, a), a, n);
    Counts(s, c);
    SpinsOut(Step(Step(s, a), a), c, SPINS);
  }

  lemma {:induction false} KeptOut(s: State, c: nat, n: nat)
    requires c < |s.pcs| && s.flag == LOCKED
    requires s.pcs[c] == Idle || s.pcs[c] == GrAdd || s.pcs[c].GrSpin? || s.pcs[c] == GrCasUnlocked
    ensures var s' := Exec(s, Alone(Act(c, LockGroup), n)); c < |s'.pcs| && s'.pcs[c] != GrHeld
    decreases n
  {
    if n > 0 {
      var a := Act(c, LockGroup);
      Next(s, a, n - 1);
      KeptOut(Step(s, a), c, n - 1);
    }
  }

  /** lock_group, run alone, enters if and only if no exclusive lock is in the way. */
  lemma LockGroupAloneIff(s: State, c: nat)
    requires c < |s.pcs| && s.pcs[c] == Idle
    ensures var a := Act(c, LockGroup);
            && (s.flag != LOCKED <==>
                exists n :: Exec(s, Alone(a, n)) == State(LOCKED_GROUP, Inc(s.locked), s.pcs[c := GrHeld]))
            && (s.flag != LOCKED ==>
                Exec(s, Alone(a, if s.flag == LOCKED_GROUP then SPINS + 4 else 4))
                == State(LOCKED_GROUP, Inc(s.locked), s.pcs[c := GrHeld]))
  {
    var a := Act(c, LockGroup);
    if s.flag == LOCKED_GROUP {
      JoinsOpen(s, c, SPINS + 2);
    } else if s.flag != LOCKED {
      JoinsFree(s, c);
    } else {
      forall n: nat ensures Exec(s, Alone(a, n)) != State(LOCKED_GROUP, Inc(s.locked), s.pcs[c := GrHeld]) {
        KeptOut(s, c, n);
      }
    }
  }
}
