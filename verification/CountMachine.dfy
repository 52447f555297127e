/** The strong/weak reference counts shared by Arw (src/arw) and AnyRef (src/any_ref) as a
    step machine. Handles are the client-owned Arw/AnyRef and WeakArw/WeakAnyRef values; an
    operation taking `&self` pins its handle until it returns. The two sources differ only in
    `limit`: a clone aborts when it finds a count of at least `limit`. */
module CountMachine {
  import opened Words

  /** isize::MAX */
  const MAX_REFCOUNT: nat := 0x7fff_ffff_ffff_ffff

  /** Arw::clone tests `>= MAX_REFCOUNT`. */
  const ARW_LIMIT: nat := MAX_REFCOUNT

  /** AnyRef::clone tests `> MAX_REFCOUNT`. */
  const ANYREF_LIMIT: nat := MAX_REFCOUNT + 1

  datatype Pc =
    | Idle
    // clone of a strong or weak handle that found too high a count
    | AbortStrong(h: nat)
    | AbortWeak(w: nat)
    // the last drop of a strong handle
    | DropLock
    | DropPayload
    | GiveUpImplicit
    // downgrade
    | DownLoad(h: nat)
    | DownCheck(h: nat, cur: nat)
    // upgrade
    | UpLoad(w: nat)
    | UpCheck(w: nat, n: nat)
    // is_unique
    | UniqueCas(h: nat)
    | UniqueLoad(h: nat)
    | UniqueStore(h: nat, unique: bool)
    // deallocation, by whoever took `weak` to zero
    | Dealloc

  datatype Call =
    | Clone(h: nat) | Drop(h: nat) | Downgrade(h: nat) | IsUnique(h: nat)
    | Upgrade(w: nat) | WeakClone(w: nat) | WeakDrop(w: nat)

  /** `spurious` lets a compare_exchange_weak fail although the word matches. */
  datatype Act = Act(c: nat, call: Call, spurious: bool)

  datatype State = State(
    strong: nat, weak: nat,
    pcs: seq<Pc>,
    aborted: bool,
    // history: which handles exist, and what has been destroyed
    strongHandles: set<nat>, weakHandles: set<nat>, nextHandle: nat,
    implicit: bool,               // the weak reference that the strong handles share
    payloadDrops: nat, frees: nat,
    answers: seq<bool>)           // results of is_unique, in order

  function Init(clients: nat): State {
    State(1, 1, seq(clients, _ => Idle), false, {0}, {}, 1, true, 0, 0, [])
  }

  function Goto(s: State, c: nat, pc: Pc): State
    requires c < |s.pcs|
  {
    s.(pcs := s.pcs[c := pc])
  }

  /** The strong handle an operation in progress borrows. */
  predicate PinsStrong(pc: Pc, h: nat) {
    match pc
    case AbortStrong(h') => h == h'
    case DownLoad(h') => h == h'
    case DownCheck(h', _) => h == h'
    case UniqueCas(h') => h == h'
    case UniqueLoad(h') => h == h'
    case UniqueStore(h', _) => h == h'
    case _ => false
  }

  predicate PinsWeak(pc: Pc, w: nat) {
    match pc
    case AbortWeak(w') => w == w'
    case UpLoad(w') => w == w'
    case UpCheck(w', _) => w == w'
    case _ => false
  }

  predicate StrongFree(s: State, h: nat) {
    h in s.strongHandles && forall i :: 0 <= i < |s.pcs| ==> !PinsStrong(s.pcs[i], h)
  }

  predicate WeakFree(s: State, w: nat) {
    w in s.weakHandles && forall i :: 0 <= i < |s.pcs| ==> !PinsWeak(s.pcs[i], w)
  }

  function NewStrong(s: State, c: nat): State
    requires c < |s.pcs|
  {
    Goto(s.(strong := Inc(s.strong), strongHandles := s.strongHandles + {s.nextHandle},
            nextHandle := s.nextHandle + 1), c, Idle)
  }

  function NewWeak(s: State, c: nat): State
    requires c < |s.pcs|
  {
    Goto(s.(weak := Inc(s.weak), weakHandles := s.weakHandles + {s.nextHandle},
            nextHandle := s.nextHandle + 1), c, Idle)
  }

  /** The first operation of a call; calls on handles that do not exist are not made. */
  function Begin(limit: nat, s: State, c: nat, call: Call): State
    requires c < |s.pcs|
  {
    match call
    case Clone(h) =>
      if h !in s.strongHandles then s
      else if s.strong >= limit then Goto(s.(strong := Inc(s.strong)), c, AbortStrong(h))
      else NewStrong(s, c)
    case Drop(h) =>
      if !StrongFree(s, h) then s
      else Goto(s.(strong := Dec(s.strong), strongHandles := s.strongHandles - {h}), c,
                if s.strong == 1 then DropLock else Idle)
    case Downgrade(h) => if h !in s.strongHandles then s else Goto(s, c, DownLoad(h))
    case IsUnique(h) => if h !in s.strongHandles then s else Goto(s, c, UniqueCas(h))
    case Upgrade(w) => if w !in s.weakHandles then s else Goto(s, c, UpLoad(w))
    case WeakClone(w) =>
      if w !in s.weakHandles then s
      else if s.weak > MAX_REFCOUNT then Goto(s.(weak := Inc(s.weak)), c, AbortWeak(w))
      else NewWeak(s, c)
    case WeakDrop(w) =>
      if !WeakFree(s, w) then s
      else Goto(s.(weak := Dec(s.weak), weakHandles := s.weakHandles - {w}), c,
                if s.weak == 1 then Dealloc else Idle)
  }

  /** Local part of `downgrade` after it has a value of `weak`: spin on the sentinel, panic on
      overflow (the call ends without effect), or go on to the compare_exchange. */
  function AfterWeakRead(h: nat, cur: nat): Pc {
    if cur == USIZE_MAX then DownLoad(h) else if cur > MAX_REFCOUNT then Idle else DownCheck(h, cur)
  }

  /** Local part of `upgrade` after it has a value of `strong`. */
  function AfterStrongRead(w: nat, n: nat): Pc {
    if n == 0 || n > MAX_REFCOUNT then Idle else UpCheck(w, n)
  }

  /** The next operation of client `a.c`; an aborted process takes no more steps. */
  function Step(limit: nat, s: State, a: Act): State {
    var c := a.c;
    if c >= |s.pcs| || s.aborted then s
    else match s.pcs[c]
      case Idle => Begin(limit, s, c, a.call)
      case AbortStrong(_) => s.(aborted := true)
      case AbortWeak(_) => s.(aborted := true)
      case DropLock => Goto(s, c, DropPayload)
      case DropPayload => Goto(s.(payloadDrops := s.payloadDrops + 1), c, GiveUpImplicit)
      case GiveUpImplicit =>
        Goto(s.(weak := Dec(s.weak), implicit := false), c, if s.weak == 1 then Dealloc else Idle)
      case DownLoad(h) => Goto(s, c, AfterWeakRead(h, s.weak))
      case DownCheck(h, cur) =>
        if s.weak == cur && !a.spurious then NewWeak(s, c) else Goto(s, c, AfterWeakRead(h, s.weak))
      case UpLoad(w) => Goto(s, c, AfterStrongRead(w, s.strong))
      case UpCheck(w, n) =>
        if s.strong == n && !a.spurious then NewStrong(s, c) else Goto(s, c, AfterStrongRead(w, s.strong))
      case UniqueCas(h) =>
        if s.weak == 1 then Goto(s.(weak := USIZE_MAX), c, UniqueLoad(h))
        else Goto(s.(answers := s.answers + [false]), c, Idle)
      case UniqueLoad(h) => Goto(s, c, UniqueStore(h, s.strong == 1))
      case UniqueStore(h, u) => Goto(s.(weak := 1, answers := s.answers + [u]), c, Idle)
      case Dealloc => Goto(s.(frees := s.frees + 1), c, Idle)
  }

  function Exec(limit: nat, s: State, sched: seq<Act>): State
    decreases sched
  {
    if sched == [] then s else Exec(limit, Step(limit, s, sched[0]), sched[1..])
  }
}
