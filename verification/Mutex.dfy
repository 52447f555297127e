/** The Mutex as an object. */
module MutexObject {
  import opened Words
  import opened MutexMachine
  import opened MutexProgress
  import opened MutexSafety
  import opened MutexRefinement
  import RwLock

  /** The methods follow the code, operation by operation, while the other clients run in
      between. `others(n)` is whatever the others do before the n-th atomic operation of this
      call, so a statement for every `others` covers every interleaving; `rounds` cuts the
      retry loop, which the code leaves unbounded, so a statement for every `rounds` covers
      every finite run. */
  class Mutex {
    var state: Flag
    var locked: nat
    /** Where the code of each client stands. */
    var pcs: seq<Pc>
    ghost const clients: nat
    /** Everything that has happened to this lock. */
    ghost var history: seq<Act>

    ghost function View(): State
      reads this
    {
      State(state, locked, pcs)
    }

    ghost predicate Valid()
      reads this
    {
      clients < WORD && |pcs| == clients && View() == Exec(Init(clients), history)
    }

    /** The history so far respects the one assumption of MutexSafety. */
    ghost predicate Disciplined()
      reads this
    {
      NoArrivalInWindow(Init(clients), history)
    }

    /** Operation number `at` was an attempt of client `c` that could not take the lock, given the
        two words that it met. */
    ghost predicate RefusedAt(c: nat, at: nat)
      reads this
    {
      at < |history| && history[at].c == c && Refuses(Exec(Init(clients), history[..at]), c)
    }

    /** Attempts since operation number `start`, in their order. */
    ghost predicate AllRefused(c: nat, start: nat, attempts: seq<nat>)
      reads this
    {
      && (forall i :: 0 <= i < |attempts| ==> start <= attempts[i] && RefusedAt(c, attempts[i]))
      && (forall i, j :: 0 <= i < j < |attempts| ==> attempts[i] < attempts[j])
    }

    constructor (clients: nat)
      requires clients < WORD
      ensures Valid() && history == [] && this.clients == clients
      ensures View() == Init(clients)
    {
      state, locked, pcs := UNLOCKED, 0, seq(clients, _ => Idle);
      this.clients := clients;
      history := [];
    }

    /** Appends operations that have just been performed to the history. */
    ghost method Record(before: State, acts: seq<Act>)
      requires clients < WORD && |pcs| == clients
      requires before == Exec(Init(clients), history) && View() == Exec(before, acts)
      modifies this`history
      ensures Valid() && history == old(history) + acts
    {
      ExecConcat(Init(clients), history, acts);
      history := history + acts;
    }

    /** The other clients run. */
    method Interfere(ghost c: nat, acts: seq<Act>)
      requires Valid() && c < clients && forall a :: a in acts ==> a.c != c
      modifies this
      ensures Valid() && history == old(history) + acts && pcs[c] == old(pcs)[c]
    {
      ghost var before := View();
      var s := Exec(State(state, locked, pcs), acts);
      ExecKeepsClients(before, acts);
      StaysPut(before, acts, c);
      state, locked, pcs := s.flag, s.locked, s.pcs;
      Record(before, acts);
    }

    /** The local outcome of an operation that only read, then the client's next position. */
    method Advance(c: nat, pc: Pc, ghost a: Act)
      requires Valid() && c < clients && a.c == c && Step(View(), a) == Goto(View(), c, pc)
      modifies this
      ensures Valid() && history == old(history) + [a] && pcs == old(pcs)[c := pc]
      ensures state == old(state) && locked == old(locked)
    {
      ghost var before := View();
      pcs := pcs[c := pc];
      assert Exec(before, [a]) == Exec(Step(before, a), [a][1..]);
      Record(before, [a]);
    }

    method CompareExchange(c: nat, expected: Flag, desired: Flag, okPc: Pc, errPc: Pc) returns (ok: bool)
      requires Valid() && c < clients && pcs[c] != Idle
      requires Step(View(), Act(c, Call.LockGroup)) == Cas(View(), c, expected, desired, okPc, errPc)
      modifies this
      ensures Valid() && history == old(history) + [Act(c, Call.LockGroup)]
      ensures ok <==> old(state) == expected
      ensures state == (if ok then desired else old(state)) && locked == old(locked)
      ensures pcs == old(pcs)[c := if ok then okPc else errPc]
    {
      ghost var before, a := View(), Act(c, Call.LockGroup);
      ok := state == expected;
      if ok {
        state := desired;
      }
      pcs := pcs[c := if ok then okPc else errPc];
      assert Exec(before, [a]) == Exec(Step(before, a), [a][1..]);
      Record(before, [a]);
    }

    method FetchAdd(c: nat)
      requires Valid() && c < clients && pcs[c] == GrAdd
      modifies this
      ensures Valid() && history == old(history) + [Act(c, Call.LockGroup)]
      ensures state == old(state) && locked == Inc(old(locked))
      ensures pcs == old(pcs)[c := GrSpin(SPINS)]
    {
      ghost var before, a := View(), Act(c, Call.LockGroup);
      locked := Inc(locked);
      pcs := pcs[c := GrSpin(SPINS)];
      assert Exec(before, [a]) == Exec(Step(before, a), [a][1..]);
      Record(before, [a]);
    }

    /** fetch_sub; tells whether the counter was 1. */
    method FetchSub(c: nat) returns (last: bool)
      requires Valid() && c < clients && pcs[c] == GrSub
      modifies this
      ensures Valid() && history == old(history) + [Act(c, Call.LockGroup)]
      ensures state == old(state) && locked == Dec(old(locked))
      ensures last <==> old(locked) == 1
      ensures pcs == old(pcs)[c := if last then GrStoreDirty else Idle]
    {
      ghost var before, a := View(), Act(c, Call.LockGroup);
      last := locked == 1;
      locked := Dec(locked);
      pcs := pcs[c := if last then GrStoreDirty else Idle];
      assert Exec(before, [a]) == Exec(Step(before, a), [a][1..]);
      Record(before, [a]);
    }

    method StoreDirty(c: nat)
      requires Valid() && c < clients && pcs[c] == GrStoreDirty
      modifies this
      ensures Valid() && history == old(history) + [Act(c, Call.LockGroup)]
      ensures state == DIRTY && locked == old(locked) && pcs == old(pcs)[c := Idle]
    {
      ghost var before, a := View(), Act(c, Call.LockGroup);
      state := DIRTY;
      pcs := pcs[c := Idle];
      assert Exec(before, [a]) == Exec(Step(before, a), [a][1..]);
      Record(before, [a]);
    }

    /** `spin`: up to eleven loads; returns the last value seen. */
    method Spin(c: nat, group: bool, others: nat -> seq<Act>, start: nat) returns (seen: Flag, n: nat)
      requires Valid() && c < clients && pcs[c] == (if group then GrSpin(SPINS) else ExSpin(SPINS))
      requires forall k, a :: a in others(k) ==> a.c != c
      modifies this
      ensures Valid() && old(history) <= history && |history| > 0
      ensures seen == Exec(Init(clients), history[..|history| - 1]).flag
      ensures pcs[c] == (if group then
                           match seen
                           case DIRTY => GrCasDirty
                           case LOCKED_GROUP => GrRecheck
                           case _ => GrCasUnlocked
                         else if seen == DIRTY then ExLoadLocked else ExCasUnlocked)
    {
      n := start;
      var left: nat := SPINS;
      while true
        invariant Valid() && old(history) <= history && left <= SPINS
        invariant pcs[c] == (if group then GrSpin(left) else ExSpin(left))
        decreases left
      {
        Interfere(c, others(n));
        n := n + 1;
        seen := state;
        if !SpinsOn(seen, left) {
          var next := if group then
                        match seen
                        case DIRTY => GrCasDirty
                        case LOCKED_GROUP => GrRecheck
                        case _ => GrCasUnlocked
                      else if seen == DIRTY then ExLoadLocked else ExCasUnlocked;
          Advance(c, next, Act(c, Call.LockGroup));
          return;
        }
        left := left - 1;
        Advance(c, if group then GrSpin(left) else ExSpin(left), Act(c, Call.LockGroup));
      }
    }

    /** One round of lock_exclusive; when it fails, operation number `at` was refused. */
    method ExclusiveRound(c: nat, others: nat -> seq<Act>, start: nat)
      returns (acquired: bool, n: nat, ghost at: nat)
      requires Valid() && c < clients && pcs[c] == ExSpin(SPINS)
      requires forall k, a :: a in others(k) ==> a.c != c
      modifies this
      ensures Valid() && old(history) <= history
      ensures pcs[c] == if acquired then ExHeld else ExSpin(SPINS)
      ensures |old(history)| <= at && (!acquired ==> RefusedAt(c, at))
    {
      var seen: Flag;
      acquired := false;
      seen, n := Spin(c, false, others, start);
      Interfere(c, others(n));
      n := n + 1;
      at := |history|;
      ghost var mark := history;
      if seen == DIRTY {
        // nobody counted: the group is over and LOCKED may be taken
        var counted := locked;
        Advance(c, if counted == 0 then ExCasDirty else ExSpin(SPINS), Act(c, Call.LockGroup));
        if counted == 0 {
          Interfere(c, others(n));
          n := n + 1;
          at, mark := |history|, history;
          acquired := CompareExchange(c, DIRTY, LOCKED, ExHeld, ExSpin(SPINS));
        }
      } else {
        acquired := CompareExchange(c, UNLOCKED, LOCKED, ExHeld, ExSpin(SPINS));
      }
      assert history[..at] == mark;
    }

    /** Gives up only after `rounds` attempts, each of which met words that it could not take. */
    method LockExclusive(c: nat, others: nat -> seq<Act>, rounds: nat)
      returns (acquired: bool, ghost refusals: seq<nat>)
      requires Valid() && c < clients && pcs[c] == Idle
      requires forall k, a :: a in others(k) ==> a.c != c
      modifies this
      ensures Valid() && old(history) <= history
      ensures pcs[c] == if acquired then ExHeld else ExSpin(SPINS)
      ensures acquired && Disciplined() ==> Abs(View()) == RwLock.Exclusive(c)
      ensures AllRefused(c, |old(history)|, refusals) && (!acquired ==> |refusals| == rounds)
    {
      var n, r := 0, 0;
      acquired, refusals := false, [];
      Advance(c, ExSpin(SPINS), Act(c, Call.LockExclusive));
      while r < rounds && !acquired
        invariant Valid() && old(history) <= history && r <= rounds
        invariant pcs[c] == if acquired then ExHeld else ExSpin(SPINS)
        invariant AllRefused(c, |old(history)|, refusals) && (!acquired ==> |refusals| == r)
      {
        ghost var at, before := 0, history;
        acquired, n, at := ExclusiveRound(c, others, n);
        RefusalsStay(c, |old(history)|, refusals, before);
        if !acquired { refusals := refusals + [at]; }
        r := r + 1;
      }
      if acquired && Disciplined() {
        HistoryIsSafe();
        AbsExclusive(View(), c);
      }
    }

    /** What has been refused stays so while the history grows, and lies in the past. */
    lemma RefusalsStay(c: nat, start: nat, attempts: seq<nat>, before: seq<Act>)
      requires before <= history && start <= |before|
      requires forall i :: 0 <= i < |attempts| ==>
                 && start <= attempts[i] < |before| && before[attempts[i]].c == c
                 && Refuses(Exec(Init(clients), before[..attempts[i]]), c)
      requires forall i, j :: 0 <= i < j < |attempts| ==> attempts[i] < attempts[j]
      ensures AllRefused(c, start, attempts)
    {
      forall i | 0 <= i < |attempts| ensures RefusedAt(c, attempts[i]) {
        assert history[..attempts[i]] == before[..attempts[i]];
      }
    }

    /** A false answer means that the one exchange was refused. */
    method TryLockExclusive(c: nat, others: nat -> seq<Act>) returns (acquired: bool, ghost at: nat)
      requires Valid() && c < clients && pcs[c] == Idle
      requires forall k, a :: a in others(k) ==> a.c != c
      modifies this
      ensures Valid() && old(history) <= history
      ensures pcs[c] == if acquired then ExHeld else Idle
      ensures acquired && Disciplined() ==> Abs(View()) == RwLock.Exclusive(c)
      ensures |old(history)| <= at && (!acquired ==> RefusedAt(c, at))
    {
      Advance(c, TryLoadLocked, Act(c, Call.TryLockExclusive));
      Interfere(c, others(0));
      var counted := locked;
      Advance(c, if counted == 0 then TryCasDirty else TryCasUnlocked, Act(c, Call.LockGroup));
      Interfere(c, others(1));
      at := |history|;
      ghost var mark := history;
      if counted == 0 {
        acquired := CompareExchange(c, DIRTY, LOCKED, ExHeld, Idle);
      } else {
        acquired := CompareExchange(c, UNLOCKED, LOCKED, ExHeld, Idle);
      }
      assert history[..at] == mark;
      if acquired && Disciplined() {
        HistoryIsSafe();
        AbsExclusive(View(), c);
      }
    }

    /** One round of lock_group: spin, then enter or try to open the group. */
    method GroupRound(c: nat, others: nat -> seq<Act>, start: nat) returns (joined: bool, n: nat, ghost at: nat)
      requires Valid() && c < clients && pcs[c] == GrSpin(SPINS)
      requires forall k, a :: a in others(k) ==> a.c != c
      modifies this
      ensures Valid() && old(history) <= history
      ensures pcs[c] == if joined then GrHeld else GrSpin(SPINS)
      ensures |old(history)| <= at && (!joined ==> RefusedAt(c, at))
    {
      var seen: Flag;
      seen, n := Spin(c, true, others, start);
      Interfere(c, others(n));
      n := n + 1;
      at := |history|;
      ghost var mark := history;
      match seen {
        case DIRTY =>
          joined := CompareExchange(c, DIRTY, LOCKED_GROUP, GrHeld, GrSpin(SPINS));
        case LOCKED_GROUP =>
          // the second load only decides whether parked threads are woken
          Advance(c, GrHeld, Act(c, Call.LockGroup));
          joined := true;
        case _ =>
          joined := CompareExchange(c, UNLOCKED, LOCKED_GROUP, GrHeld, GrSpin(SPINS));
      }
      assert history[..at] == mark;
    }

    /** Gives up only after `rounds` attempts, each of which met words that it could not take. */
    method LockGroup(c: nat, others: nat -> seq<Act>, rounds: nat) returns (joined: bool, ghost refusals: seq<nat>)
      requires Valid() && c < clients && pcs[c] == Idle
      requires forall k, a :: a in others(k) ==> a.c != c
      modifies this
      ensures Valid() && old(history) <= history
      ensures pcs[c] == if joined then GrHeld else GrSpin(SPINS)
      ensures joined && Disciplined() ==> Abs(View()).Group? && c in Abs(View()).members
      ensures AllRefused(c, |old(history)|, refusals) && (!joined ==> |refusals| == rounds)
    {
      var n, r := 1, 0;
      joined, refusals := false, [];
      Advance(c, GrAdd, Act(c, Call.LockGroup));
      Interfere(c, others(0));
      FetchAdd(c);
      while r < rounds && !joined
        invariant Valid() && old(history) <= history && r <= rounds
        invariant pcs[c] == if joined then GrHeld else GrSpin(SPINS)
        invariant AllRefused(c, |old(history)|, refusals) && (!joined ==> |refusals| == r)
      {
        ghost var at, before := 0, history;
        joined, n, at := GroupRound(c, others, n);
        RefusalsStay(c, |old(history)|, refusals, before);
        if !joined { refusals := refusals + [at]; }
        r := r + 1;
      }
      if joined && Disciplined() {
        HistoryIsSafe();
        AbsGroup(View(), c);
      }
    }

    lemma OutsideMeansFree(c: nat, ok: bool)
      requires Valid() && Disciplined() && c < clients && pcs[c] == if ok then Idle else Panicked
      ensures ok && c !in RwLock.Holders(Abs(View()))
    {
      HistoryIsSafe();
      assert Fits(pcs[c], state, locked);
      AbsWithout(View(), c);
    }

    /** The check of the state that guards the decrement. */
    method CheckGroup(c: nat) returns (ok: bool)
      requires Valid() && c < clients && pcs[c] == GrHeld
      modifies this
      ensures Valid() && history == old(history) + [Act(c, Call.LockGroup)]
      ensures ok <==> old(state) == LOCKED_GROUP || old(state) == DIRTY
      ensures pcs[c] == if ok then GrSub else Panicked
    {
      ok := state == LOCKED_GROUP || state == DIRTY;
      Advance(c, if ok then GrSub else Panicked, Act(c, Call.LockGroup));
    }

    /** Returns false where the code panics; under the discipline it never does, and the
        caller has left the group as soon as its decrement is done. */
    method UnlockGroup(c: nat, others: nat -> seq<Act>) returns (ok: bool)
      requires Valid() && c < clients && pcs[c] == GrHeld
      requires forall k, a :: a in others(k) ==> a.c != c
      modifies this
      ensures Valid() && old(history) <= history
      ensures pcs[c] == if ok then Idle else Panicked
      ensures Disciplined() ==> ok && c !in RwLock.Holders(Abs(View()))
    {
      Interfere(c, others(0));
      ok := CheckGroup(c);
      if ok {
        Uncount(c, others);
      }
      if Disciplined() {
        OutsideMeansFree(c, ok);
      }
    }

    /** The decrement, and the store of DIRTY by the last member. */
    method Uncount(c: nat, others: nat -> seq<Act>)
      requires Valid() && c < clients && pcs[c] == GrSub
      requires forall k, a :: a in others(k) ==> a.c != c
      modifies this
      ensures Valid() && old(history) <= history && pcs[c] == Idle
    {
      Interfere(c, others(1));
      var last := FetchSub(c);
      if last {
        Interfere(c, others(2));
        StoreDirty(c);
      }
    }

    /** Returns false where the code panics. */
    method UnlockExclusive(c: nat, others: nat -> seq<Act>) returns (ok: bool)
      requires Valid() && c < clients && pcs[c] == ExHeld
      requires forall k, a :: a in others(k) ==> a.c != c
      modifies this
      ensures Valid() && old(history) <= history
      ensures pcs[c] == if ok then Idle else Panicked
      ensures Disciplined() ==> ok && Abs(View()) == RwLock.Free
    {
      Interfere(c, others(0));
      ok := CompareExchange(c, LOCKED, UNLOCKED, Idle, Panicked);
      if Disciplined() {
        HistoryIsSafe();
        assert Fits(pcs[c], state, locked);
        NoMembersWhen(View());
        forall i | 0 <= i < |pcs| ensures pcs[i] != ExHeld {
          assert Fits(pcs[i], state, locked);
        }
      }
    }

    method AskStateWord(c: nat) returns (seen: Flag)
      requires Valid() && c < clients && pcs[c] == AskState
      modifies this
      ensures Valid() && history == old(history) + [Act(c, Call.LockGroup)]
      ensures seen == old(state)
      ensures pcs[c] == if seen == UNLOCKED then Told(false) else if seen == DIRTY then AskCount else Told(true)
    {
      seen := state;
      Advance(c, if seen == UNLOCKED then Told(false) else if seen == DIRTY then AskCount else Told(true),
              Act(c, Call.LockGroup));
    }

    method AskCounter(c: nat) returns (counted: nat)
      requires Valid() && c < clients && pcs[c] == AskCount
      modifies this
      ensures Valid() && history == old(history) + [Act(c, Call.LockGroup)]
      ensures counted == old(locked) && pcs[c] == Told(counted != 0)
    {
      counted := locked;
      Advance(c, Told(counted != 0), Act(c, Call.LockGroup));
    }

    method Return(c: nat)
      requires Valid() && c < clients && pcs[c].Told?
      modifies this
      ensures Valid() && history == old(history) + [Act(c, Call.LockGroup)] && pcs[c] == Idle
    {
      Advance(c, Idle, Act(c, Call.LockGroup));
    }

    /** The state is loaded after the first `at` operations of the history and the counter, if the
        state is DIRTY, after the first `later`: the answer is what the two loads say. False means
        that the lock was free, of groups too, at the first. */
    method IsLockedExclusive(c: nat, others: nat -> seq<Act>) returns (r: bool, ghost at: nat, ghost later: nat)
      requires Valid() && c < clients && pcs[c] == Idle
      requires forall k, a :: a in others(k) ==> a.c != c
      modifies this
      ensures Valid() && old(history) <= history && pcs[c] == Idle
      ensures |old(history)| <= at <= later <= |history|
      ensures var s, s' := Exec(Init(clients), history[..at]), Exec(Init(clients), history[..later]);
              r <==> s.flag != UNLOCKED && (s.flag == DIRTY ==> s'.locked != 0)
      ensures !r && Disciplined() ==> Abs(Exec(Init(clients), history[..at])) == RwLock.Free
    {
      Advance(c, AskState, Act(c, Call.IsLockedExclusive));
      Interfere(c, others(0));
      at, later := |history|, |history|;
      ghost var loaded, mark := View(), history;
      ghost var mark' := history;
      var seen := AskStateWord(c);
      r := seen != UNLOCKED;
      if seen == DIRTY {
        Interfere(c, others(1));
        later, mark' := |history|, history;
        var counted := AskCounter(c);
        r := counted != 0;
      }
      Return(c);
      assert history[..at] == mark && history[..later] == mark';
      if !r && Disciplined() {
        assert history == mark + history[at..];
        WasFree(mark, history[at..], loaded);
      }
    }

    lemma HistoryIsSafe()
      requires Valid() && Disciplined()
      ensures Inv(View())
    {
      InitIsSafe(clients);
      RunKeepsInv(Init(clients), history);
    }
  }

  lemma WasFree(first: seq<Act>, second: seq<Act>, s: State)
    requires |s.pcs| < WORD && s == Exec(Init(|s.pcs|), first) && NoArrivalInWindow(Init(|s.pcs|), first + second)
    requires s.flag == UNLOCKED || s.flag == DIRTY
    ensures Abs(s) == RwLock.Free
  {
    NoArrivalInPrefix(Init(|s.pcs|), first, second);
    InitIsSafe(|s.pcs|);
    RunKeepsInv(Init(|s.pcs|), first);
    FreeWordMeansFree(s);
  }
}
