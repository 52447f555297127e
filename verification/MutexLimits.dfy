/** When the Mutex is safe, and when not. */
module MutexLimits {
  import opened Words
  import opened MutexMachine
  import opened MutexSafety

  /** `n` consecutive operations of one client, which makes the given call when idle. */
  function Alone(a: Act, n: nat): seq<Act> {
    if n == 0 then [] else [a] + Alone(a, n - 1)
  }

  lemma {:induction false} NoArrivalConcat(s: State, first: seq<Act>, second: seq<Act>)
    requires NoArrivalInWindow(s, first) && NoArrivalInWindow(Exec(s, first), second)
    ensures NoArrivalInWindow(s, first + second)
    decreases first
  {
    if first == [] {
      assert first + second == second;
    } else {
      assert (first + second)[1..] == first[1..] + second;
      NoArrivalConcat(Step(s, first[0]), first[1..], second);
    }
  }

  lemma ThreeParts(s: State, first: seq<Act>, second: seq<Act>, third: seq<Act>)
    requires NoArrivalInWindow(s, first) && NoArrivalInWindow(Exec(s, first), second)
    requires NoArrivalInWindow(Exec(Exec(s, first), second), third)
    ensures NoArrivalInWindow(s, first + (second + third))
    ensures Exec(s, first + (second + third)) == Exec(Exec(Exec(s, first), second), third)
  {
    NoArrivalConcat(Exec(s, first), second, third);
    NoArrivalConcat(s, first, second + third);
    ExecConcat(Exec(s, first), second, third);
    ExecConcat(s, first, second + third);
  }

  function Solo(s: State, a: Act, n: nat): State
    decreases n
  {
    if n == 0 then s else Solo(Step(s, a), a, n - 1)
  }

  ghost predicate Quiet(s: State, a: Act, n: nat)
    decreases n
  {
    n == 0 || (!(Arrives(s, a) && WindowOpen(s)) && Quiet(Step(s, a), a, n - 1))
  }

  lemma {:induction false} SoloRun(s: State, a: Act, n: nat)
    requires Quiet(s, a, n)
    ensures NoArrivalInWindow(s, Alone(a, n)) && Exec(s, Alone(a, n)) == Solo(s, a, n)
    decreases n
  {
    if n > 0 {
      SoloRun(Step(s, a), a, n - 1);
      assert Alone(a, n)[1..] == Alone(a, n - 1);
    }
  }

  /** A newcomer, alone in the counter, sees the stale LOCKED_GROUP, spins it out, enters,
      leaves as the last one and stores DIRTY. */
  lemma {:induction false} NewcomerPassesThrough(s: State, b: nat, left: nat) returns (run: seq<Act>)
    requires b < |s.pcs| && s.pcs[b] == GrSpin(left) && s.flag == LOCKED_GROUP && s.locked == 1
    ensures NoArrivalInWindow(s, run) && Exec(s, run) == State(DIRTY, 0, s.pcs[b := Idle])
    decreases left
  {
    var a := Act(b, LockGroup);
    var s1 := Step(s, a);
    if left > 0 {
      var rest := NewcomerPassesThrough(s1, b, left - 1);
      assert s1.pcs[b := Idle] == s.pcs[b := Idle];
      run := [a] + rest;
      assert run[1..] == rest;
    } else {
      var s5 := Step(Step(Step(Step(s1, a), a), a), a);
      assert s5 == State(DIRTY, 0, s.pcs[b := Idle]);
      SoloRun(s, a, 5);
      run := Alone(a, 5);
      assert Solo(s, a, 5) == Solo(s1, a, 4) == s5;
    }
  }

  /** An idle client that finds DIRTY and a zero counter takes the exclusive lock in four steps. */
  lemma {:induction false} ExclusiveEnters(s: State, x: nat) returns (run: seq<Act>)
    requires x < |s.pcs| && s.pcs[x] == Idle && s.flag == DIRTY && s.locked == 0
    ensures NoArrivalInWindow(s, run) && Exec(s, run) == State(LOCKED, 0, s.pcs[x := ExHeld])
  {
    var a := Act(x, LockExclusive);
    var s4 := Step(Step(Step(Step(s, a), a), a), a);
    assert s4 == State(LOCKED, 0, s.pcs[x := ExHeld]);
    SoloRun(s, a, 4);
    run := Alone(a, 4);
  }

  /** The delayed DIRTY store overwrites LOCKED. */
  lemma DelayedStoreLetsIn(s: State, w: nat, x: nat, y: nat) returns (rest: seq<Act>)
    requires w < |s.pcs| && x < |s.pcs| && y < |s.pcs| && x != y && w != x
    requires s.pcs[w] == GrStoreDirty && s.pcs[x] == ExHeld && s.pcs[y] == Idle && s.flag == LOCKED && s.locked == 0
    ensures NoArrivalInWindow(s, rest) && !MutuallyExclusive(Exec(s, rest))
  {
    var s3 := Step(s, Act(w, LockGroup));
    var second := ExclusiveEnters(s3, y);
    var s4 := Exec(s3, second);
    assert s4.pcs[x] == ExHeld && s4.pcs[y] == ExHeld;
    rest := [Act(w, LockGroup)] + second;
    assert rest[1..] == second;
  }

  /** An arrival inside the window can always be driven to two exclusive holders,
      without any further arrival. */
  lemma {:induction false} ArrivalInWindowBreaks(s: State, w: nat, b: nat, x: nat, y: nat)
    requires Inv(s) && w < |s.pcs| && b < |s.pcs| && x < |s.pcs| && y < |s.pcs| && x != y
    requires s.pcs[w] == GrStoreDirty && s.pcs[b] == GrAdd && s.pcs[x] == Idle && s.pcs[y] == Idle
    ensures var s' := Step(s, Act(b, LockGroup));
            exists sched :: NoArrivalInWindow(s', sched) && !MutuallyExclusive(Exec(s', sched))
  {
    assert Fits(s.pcs[w], s.flag, s.locked);
    var s0 := Step(s, Act(b, LockGroup));
    var through := NewcomerPassesThrough(s0, b, SPINS);
    var s1 := Exec(s0, through);
    var first := ExclusiveEnters(s1, x);
    var rest := DelayedStoreLetsIn(Exec(s1, first), w, x, y);
    ThreeParts(s0, through, first, rest);
  }

  /** The assumption of MutualExclusion cannot be weakened at any state: an arrival is safe
      (every continuation keeps exclusion) if and only if no window is open when it happens. */
  lemma {:induction false} ArrivalIsSafeIffNoWindow(s: State, b: nat, x: nat, y: nat)
    requires Inv(s) && b < |s.pcs| && x < |s.pcs| && y < |s.pcs| && x != y
    requires s.pcs[b] == GrAdd && s.pcs[x] == Idle && s.pcs[y] == Idle
    ensures !WindowOpen(s) <==>
            forall sched | NoArrivalInWindow(Step(s, Act(b, LockGroup)), sched) ::
              MutuallyExclusive(Exec(Step(s, Act(b, LockGroup)), sched))
  {
    var s' := Step(s, Act(b, LockGroup));
    if WindowOpen(s) {
      var w :| 0 <= w < |s.pcs| && s.pcs[w] == GrStoreDirty;
      ArrivalInWindowBreaks(s, w, b, x, y);
    } else {
      StepKeepsInv(s, Act(b, LockGroup));
      forall sched | NoArrivalInWindow(s', sched)
        ensures MutuallyExclusive(Exec(s', sched))
      {
        RunKeepsInv(s', sched);
        InvExcludes(Exec(s', sched));
      }
    }
  }

  /** The same in terms of the two words that the arriving thread can read: in every disciplined
      run an arrival keeps exclusion in all continuations unless it finds (LOCKED_GROUP, 0). */
  lemma {:induction false} ArrivalIsSafeIffWords(clients: nat, before: seq<Act>, b: nat, x: nat, y: nat)
    requires clients < WORD && NoArrivalInWindow(Init(clients), before)
    requires var s := Exec(Init(clients), before);
             && b < |s.pcs| && x < |s.pcs| && y < |s.pcs| && x != y
             && s.pcs[b] == GrAdd && s.pcs[x] == Idle && s.pcs[y] == Idle
    ensures var s := Exec(Init(clients), before);
            !(s.flag == LOCKED_GROUP && s.locked == 0) <==>
            forall sched | NoArrivalInWindow(Step(s, Act(b, LockGroup)), sched) ::
              MutuallyExclusive(Exec(Step(s, Act(b, LockGroup)), sched))
  {
    WindowIsReadable(clients, before);
    ArrivalIsSafeIffNoWindow(Exec(Init(clients), before), b, x, y);
  }

  /** A client alone on a fresh lock takes the group and gives it up, as far as the window. */
  lemma {:induction false} FreshGroupOpensWindow(s: State, w: nat) returns (run: seq<Act>)
    requires w < |s.pcs| && s.pcs[w] == Idle && s.flag == UNLOCKED && s.locked == 0 && !WindowOpen(s)
    ensures NoArrivalInWindow(s, run) && Exec(s, run) == State(LOCKED_GROUP, 0, s.pcs[w := GrStoreDirty])
  {
    var a := Act(w, LockGroup);
    var s2 := Step(Step(s, a), a);
    var s6 := Step(Step(Step(Step(s2, a), a), a), a);
    assert !WindowOpen(Step(s, a));
    assert s6 == State(LOCKED_GROUP, 0, s.pcs[w := GrStoreDirty]);
    assert Solo(s, a, 6) == Solo(s2, a, 4) == s6;
    SoloRun(s, a, 6);
    run := Alone(a, 6);
  }

  lemma {:induction false} OpenWindowFails(s: State, w: nat, b: nat, x: nat, y: nat)
    requires Inv(s) && w < |s.pcs| && b < |s.pcs| && x < |s.pcs| && y < |s.pcs|
    requires b != x && b != y && x != y && s.pcs[w] == GrStoreDirty
    requires s.pcs[b] == Idle && s.pcs[x] == Idle && s.pcs[y] == Idle
    ensures exists sched :: !MutuallyExclusive(Exec(s, sched))
  {
    var a := Act(b, LockGroup);
    var s1 := Step(s, a);
    var s2 := Step(s1, a);
    StepKeepsInv(s, a);
    ArrivalInWindowBreaks(s1, w, b, x, y);
    var rest :| !MutuallyExclusive(Exec(s2, rest));
    assert ([a] + rest)[1..] == rest && ([a] + ([a] + rest))[1..] == [a] + rest;
    assert Exec(s1, [a] + rest) == Exec(s2, rest);
    assert Exec(s, [a] + ([a] + rest)) == Exec(s2, rest);
  }

  /** On a fresh lock any four clients can do it: the first two lock and unlock the group,
      the last two end up as simultaneous exclusive holders. */
  lemma {:induction false} UnrestrictedMutexFails(clients: nat, w: nat, b: nat, x: nat, y: nat)
    requires clients < WORD && w < clients && b < clients && x < clients && y < clients
    requires w != b && w != x && w != y && b != x && b != y && x != y
    ensures exists sched :: !MutuallyExclusive(Exec(Init(clients), sched))
  {
    InitIsSafe(clients);
    var close := FreshGroupOpensWindow(Init(clients), w);
    RunKeepsInv(Init(clients), close);
    var s := Exec(Init(clients), close);
    OpenWindowFails(s, w, b, x, y);
    var rest :| !MutuallyExclusive(Exec(s, rest));
    ExecConcat(Init(clients), close, rest);
  }

  /** try_lock_exclusive, run alone, succeeds exactly on (DIRTY, nobody counted) and on (UNLOCKED,
      somebody counted). So it fails on a fresh lock, which is free but reads (UNLOCKED, 0). */
  lemma {:induction false} TryLockSucceedsIff(s: State, c: nat)
    requires c < |s.pcs| && s.pcs[c] == Idle
    ensures var t := Act(c, TryLockExclusive);
            var s' := Exec(s, [t, t, t]);
            (c < |s'.pcs| && s'.pcs[c] == ExHeld) <==>
            (s.flag == DIRTY && s.locked == 0) || (s.flag == UNLOCKED && s.locked != 0)
  {
    var t := Act(c, TryLockExclusive);
    var s1 := Step(s, t);
    var s2 := Step(s1, t);
    var s3 := Step(s2, t);
    assert [t, t, t][1..] == [t, t] && [t, t][1..] == [t] && [t][1..] == [];
    assert Exec(s, [t, t, t]) == Exec(s1, [t, t]) == Exec(s2, [t]) == Exec(s3, []);
  }
}
