/** The downcasts of AnyRef as a step machine. */
module DowncastMachine {
  import opened RwLock

  // The payload under downcasts and fills by any number of clients, as in src/any_ref/strong.rs,
  // over the reference readers-writer lock. A client is one call together with the guard it
  // returns.

  type TypeId = nat

  datatype Pc =
    | Idle
    // try_downcast_ref, or try_downcast_mut when exclusive
    | Ask(u: TypeId, exclusive: bool)
    | Wait(u: TypeId, exclusive: bool)
    | Look(u: TypeId, exclusive: bool)
    | Undo(u: TypeId, exclusive: bool)
    | Guard(u: TypeId, p: nat, exclusive: bool)
    // fill
    | FillWait(t: TypeId)
    | FillData(t: TypeId)
    | FillId(t: TypeId)
    | FillUnlock

  datatype Call = Downcast(u: TypeId, exclusive: bool) | Fill(t: TypeId)

  datatype Act = Act(c: nat, call: Call)

  /** Payload `p` is the p-th value ever stored and has type `types[p]`; storing the next one
      drops it. `typeId` is the field that is tested before locking. */
  datatype State = State(
    lock: Lock,
    data: nat,
    types: seq<TypeId>,
    typeId: TypeId,
    pcs: seq<Pc>,
    crashed: bool)

  function Init(first: TypeId, clients: nat): State {
    State(Lock.Free, 0, [first], first, seq(clients, _ => Idle), false)
  }

  function Goto(s: State, c: nat, pc: Pc): State
    requires c < |s.pcs|
  {
    s.(pcs := s.pcs[c := pc])
  }

  function Taking(c: nat, exclusive: bool): Event {
    if exclusive then Event.Lock(c) else Event.Join(c)
  }

  function Giving(c: nat, exclusive: bool): Event {
    if exclusive then Event.Unlock(c) else Event.Leave(c)
  }

  /** Blocks while the lock does not permit it. */
  function Acquire(s: State, c: nat, exclusive: bool, pc: Pc): State
    requires c < |s.pcs|
  {
    match Apply(s.lock, Taking(c, exclusive))
    case None => s
    case Some(l) => Goto(s.(lock := l), c, pc)
  }

  function Release(s: State, c: nat, exclusive: bool): State
    requires c < |s.pcs|
  {
    match Apply(s.lock, Giving(c, exclusive))
    case None => s.(crashed := true)
    case Some(l) => Goto(s.(lock := l), c, Idle)
  }

  /** The downcast of the payload that is there now. */
  function Inspect(s: State, c: nat, u: TypeId, exclusive: bool): State
    requires c < |s.pcs|
  {
    if s.data >= |s.types| then s.(crashed := true)
    else if s.types[s.data] == u then Goto(s, c, Guard(u, s.data, exclusive))
    else Goto(s, c, Undo(u, exclusive))
  }

  function Store(s: State, c: nat, t: TypeId): State
    requires c < |s.pcs|
  {
    Goto(s.(data := |s.types|, types := s.types + [t]), c, FillId(t))
  }

  function Begin(call: Call): Pc {
    match call
    case Downcast(u, exclusive) => Ask(u, exclusive)
    case Fill(t) => FillWait(t)
  }

  /** The next operation of client `a.c`. */
  function Step(s: State, a: Act): State {
    var c := a.c;
    if c >= |s.pcs| then s
    else match s.pcs[c]
      case Idle => Goto(s, c, Begin(a.call))
      case Ask(u, exclusive) => Goto(s, c, if s.typeId == u then Wait(u, exclusive) else Idle)
      case Wait(u, exclusive) => Acquire(s, c, exclusive, Look(u, exclusive))
      case Look(u, exclusive) => Inspect(s, c, u, exclusive)
      case Undo(u, exclusive) => Release(s, c, exclusive)
      case Guard(u, p, exclusive) => Release(s, c, exclusive)
      case FillWait(t) => Acquire(s, c, true, FillData(t))
      case FillData(t) => Store(s, c, t)
      case FillId(t) => Goto(s.(typeId := t), c, FillUnlock)
      case FillUnlock => Release(s, c, true)
  }

  function Exec(s: State, sched: seq<Act>): State
    decreases sched
  {
    if sched == [] then s else Exec(Step(s, sched[0]), sched[1..])
  }

  lemma {:induction false} ExecConcat(s: State, first: seq<Act>, second: seq<Act>)
    ensures Exec(s, first + second) == Exec(Exec(s, first), second)
    decreases first
  {
    if first == [] {
      assert first + second == second;
    } else {
      assert (first + second)[1..] == first[1..] + second;
      ExecConcat(Step(s, first[0]), first[1..], second);
    }
  }

  lemma {:induction false} StaysPut(s: State, acts: seq<Act>, c: nat)
    requires c < |s.pcs| && forall a :: a in acts ==> a.c != c
    ensures |Exec(s, acts).pcs| == |s.pcs| && Exec(s, acts).pcs[c] == s.pcs[c]
    decreases acts
  {
    if acts != [] {
      assert acts[0].c != c;
      StaysPut(Step(s, acts[0]), acts[1..], c);
    }
  }

  /** Payloads are numbered in the order in which they are stored. */
  lemma {:induction false} TypesOnlyGrow(s: State, sched: seq<Act>)
    ensures s.types <= Exec(s, sched).types
    decreases sched
  {
    if sched != [] {
      TypesOnlyGrow(Step(s, sched[0]), sched[1..]);
    }
  }

  lemma {:induction false} ExecKeepsClients(s: State, sched: seq<Act>)
    ensures |Exec(s, sched).pcs| == |s.pcs|
    decreases sched
  {
    if sched != [] {
      ExecKeepsClients(Step(s, sched[0]), sched[1..]);
    }
  }
}
