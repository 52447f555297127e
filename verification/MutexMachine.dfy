/** The Mutex as a step machine. */
module MutexMachine {
  import opened Words

  // src/mutex/mutex.rs. Each step is one atomic operation on `state` or `locked` by one client;
  // values read earlier survive in the client's program counter, so stale reads are part of the
  // model. A client is one lock session: a thread that locks a group twice is two clients.

  const SPINS: nat := 10

  datatype Flag = UNLOCKED | LOCKED | LOCKED_GROUP | DIRTY

  datatype Pc =
    | Idle
    // lock_exclusive
    | ExSpin(left: nat)
    | ExLoadLocked
    | ExCasDirty
    | ExCasUnlocked
    | ExHeld
    // try_lock_exclusive
    | TryLoadLocked
    | TryCasDirty
    | TryCasUnlocked
    // lock_group
    | GrAdd
    | GrSpin(left: nat)
    | GrCasDirty
    | GrRecheck
    | GrCasUnlocked
    | GrHeld
    // unlock_group, after its check of the state
    | GrSub
    | GrStoreDirty
    // is_locked_exclusive
    | AskState
    | AskCount
    | Told(locked: bool)
    | Panicked

  datatype Call = LockExclusive | TryLockExclusive | LockGroup | IsLockedExclusive

  /** `call` matters only when client `c` is idle. */
  datatype Act = Act(c: nat, call: Call)

  datatype State = State(flag: Flag, locked: nat, pcs: seq<Pc>)

  function Init(clients: nat): State {
    State(UNLOCKED, 0, seq(clients, _ => Idle))
  }

  function Goto(s: State, c: nat, pc: Pc): State
    requires c < |s.pcs|
  {
    s.(pcs := s.pcs[c := pc])
  }

  /** compare_exchange on the state word, with the two continuations. */
  function Cas(s: State, c: nat, expected: Flag, desired: Flag, ok: Pc, err: Pc): State
    requires c < |s.pcs|
  {
    if s.flag == expected then Goto(s.(flag := desired), c, ok) else Goto(s, c, err)
  }

  function Begin(call: Call): Pc {
    match call
    case LockExclusive => ExSpin(SPINS)
    case TryLockExclusive => TryLoadLocked
    case LockGroup => GrAdd
    case IsLockedExclusive => AskState
  }

  /** `spin` goes on loading while it sees a held lock and has tries left. */
  predicate SpinsOn(flag: Flag, left: nat) {
    flag != UNLOCKED && flag != DIRTY && left > 0
  }

  predicate InExclusive(pc: Pc) {
    pc.ExSpin? || pc.ExLoadLocked? || pc.ExCasDirty? || pc.ExCasUnlocked? || pc.ExHeld?
  }

  predicate InTry(pc: Pc) {
    pc.TryLoadLocked? || pc.TryCasDirty? || pc.TryCasUnlocked?
  }

  predicate InQuery(pc: Pc) {
    pc.AskState? || pc.AskCount? || pc.Told?
  }

  /** lock_exclusive and unlock_exclusive */
  function ExclusiveStep(s: State, c: nat): State
    requires c < |s.pcs| && InExclusive(s.pcs[c])
  {
    match s.pcs[c]
    case ExSpin(left) =>
      if SpinsOn(s.flag, left) then Goto(s, c, ExSpin(left - 1))
      else Goto(s, c, if s.flag == DIRTY then ExLoadLocked else ExCasUnlocked)
    case ExLoadLocked => Goto(s, c, if s.locked == 0 then ExCasDirty else ExSpin(SPINS))
    case ExCasDirty => Cas(s, c, DIRTY, LOCKED, ExHeld, ExSpin(SPINS))
    case ExCasUnlocked => Cas(s, c, UNLOCKED, LOCKED, ExHeld, ExSpin(SPINS))
    case ExHeld => Cas(s, c, LOCKED, UNLOCKED, Idle, Panicked)
  }

  /** try_lock_exclusive */
  function TryStep(s: State, c: nat): State
    requires c < |s.pcs| && InTry(s.pcs[c])
  {
    match s.pcs[c]
    case TryLoadLocked => Goto(s, c, if s.locked == 0 then TryCasDirty else TryCasUnlocked)
    case TryCasDirty => Cas(s, c, DIRTY, LOCKED, ExHeld, Idle)
    case TryCasUnlocked => Cas(s, c, UNLOCKED, LOCKED, ExHeld, Idle)
  }

  /** is_locked_exclusive: the state first, and the counter only if the state is DIRTY. */
  function QueryStep(s: State, c: nat): State
    requires c < |s.pcs| && InQuery(s.pcs[c])
  {
    match s.pcs[c]
    case AskState =>
      Goto(s, c, if s.flag == UNLOCKED then Told(false) else if s.flag == DIRTY then AskCount else Told(true))
    case AskCount => Goto(s, c, Told(s.locked != 0))
    case Told(_) => Goto(s, c, Idle)
  }

  /** lock_group and unlock_group */
  function GroupStep(s: State, c: nat): State
    requires c < |s.pcs| && s.pcs[c] != Idle
    requires !InExclusive(s.pcs[c]) && !InTry(s.pcs[c]) && !InQuery(s.pcs[c])
  {
    match s.pcs[c]
    case GrAdd => Goto(s.(locked := Inc(s.locked)), c, GrSpin(SPINS))
    case GrSpin(left) =>
      if SpinsOn(s.flag, left) then Goto(s, c, GrSpin(left - 1))
      else Goto(s, c, match s.flag
                      case DIRTY => GrCasDirty
                      case LOCKED_GROUP => GrRecheck
                      case _ => GrCasUnlocked)
    case GrCasDirty => Cas(s, c, DIRTY, LOCKED_GROUP, GrHeld, GrSpin(SPINS))
    case GrRecheck => Goto(s, c, GrHeld)  // enters whatever the second load sees
    case GrCasUnlocked => Cas(s, c, UNLOCKED, LOCKED_GROUP, GrHeld, GrSpin(SPINS))
    case GrHeld => Goto(s, c, if s.flag == LOCKED_GROUP || s.flag == DIRTY then GrSub else Panicked)
    case GrSub =>
      Goto(s.(locked := Dec(s.locked)), c, if s.locked == 1 then GrStoreDirty else Idle)
    case GrStoreDirty => Goto(s.(flag := DIRTY), c, Idle)
    case Panicked => s
  }

  /** The next atomic operation of client `a.c`. */
  function Step(s: State, a: Act): State {
    if a.c >= |s.pcs| then s
    else if s.pcs[a.c] == Idle then Goto(s, a.c, Begin(a.call))
    else if InExclusive(s.pcs[a.c]) then ExclusiveStep(s, a.c)
    else if InTry(s.pcs[a.c]) then TryStep(s, a.c)
    else if InQuery(s.pcs[a.c]) then QueryStep(s, a.c)
    else GroupStep(s, a.c)
  }

  function Exec(s: State, sched: seq<Act>): State
    decreases sched
  {
    if sched == [] then s else Exec(Step(s, sched[0]), sched[1..])
  }

  lemma {:induction false} ExecConcat(s: State, first: seq<Act>, second: seq<Act>)
    ensures Exec(s, first + second) == Exec(Exec(s, first), second)
    decreases first
  {
    if first == [] {
      assert first + second == second;
    } else {
      assert (first + second)[1..] == first[1..] + second;
      ExecConcat(Step(s, first[0]), first[1..], second);
    }
  }

  lemma {:induction false} StaysPut(s: State, acts: seq<Act>, c: nat)
    requires c < |s.pcs| && forall a :: a in acts ==> a.c != c
    ensures |Exec(s, acts).pcs| == |s.pcs| && Exec(s, acts).pcs[c] == s.pcs[c]
    decreases acts
  {
    if acts != [] {
      assert acts[0].c != c;
      StaysPut(Step(s, acts[0]), acts[1..], c);
    }
  }

  /** Some client has made the last decrement and not yet stored DIRTY. */
  ghost predicate WindowOpen(s: State) {
    exists i :: 0 <= i < |s.pcs| && s.pcs[i] == GrStoreDirty
  }

  ghost predicate Arrives(s: State, a: Act) {
    a.c < |s.pcs| && s.pcs[a.c] == GrAdd
  }

  /** No increment of `locked` falls between a last decrement and its DIRTY store. */
  ghost predicate NoArrivalInWindow(s: State, sched: seq<Act>)
    decreases sched
  {
    sched == [] ||
    (!(Arrives(s, sched[0]) && WindowOpen(s)) && NoArrivalInWindow(Step(s, sched[0]), sched[1..]))
  }

  lemma {:induction false} NoArrivalInPrefix(s: State, first: seq<Act>, second: seq<Act>)
    requires NoArrivalInWindow(s, first + second)
    ensures NoArrivalInWindow(s, first)
    decreases first
  {
    if first != [] {
      assert (first + second)[1..] == first[1..] + second;
      NoArrivalInPrefix(Step(s, first[0]), first[1..], second);
    }
  }

  /** The client owns the group lock: lock_group has returned and the decrement is still to come. */
  predicate HoldsGroup(pc: Pc) {
    pc == GrHeld || pc == GrSub
  }

  ghost predicate MutuallyExclusive(s: State) {
    forall i, j :: 0 <= i < |s.pcs| && 0 <= j < |s.pcs| && i != j && s.pcs[i] == ExHeld ==>
      s.pcs[j] != ExHeld && !HoldsGroup(s.pcs[j])
  }
}
