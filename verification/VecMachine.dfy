/** AtomicVec of src/collections/atomic_vec.rs as a step machine over an explicit memory.
    Each step is one atomic operation, allocation or deallocation by one client. Addresses
    come from an allocator that may hand out any address not in use, freed ones included. */
module VecMachine {
  import opened Words

  /** The null pointer. */
  const NULL: nat := 0

  /** A list block. `ticket` is the number of the push call that made it; no step reads it. */
  datatype Node<V> = Node(val: V, next: nat, ticket: nat)

  /** What a releasing client does after its `release`. */
  datatype Cont =
    | Pushed                       // push returns
    | Empty                        // pop returns None
    | Took(h: nat, rank: nat)      // pop goes on with the unlinked block h

  /** Where `update_tail` was called from. */
  datatype From = FromPush | FromRelease(k: Cont)

  datatype Pc<V> =
    | Idle
    // push
    | PushBusy(p: nat)
    | PushStash(p: nat)
    | PushLock(p: nat)
    // update_tail
    | LoadTail(p: nat, from: From)
    | StoreNext(p: nat, t: nat, from: From)
    | StoreTail(p: nat, from: From)
    | CasHead(p: nat, from: From)
    | AddLen(from: From)
    // release
    | Swap(k: Cont)
    | Reopen(k: Cont)
    // pop
    | PopLock
    | LoadHead
    | LoadNext(h: nat)
    | StoreHead(h: nat, n: nat)
    | CheckTail(h: nat, rank: nat)
    | CasTail(h: nat, rank: nat)
    | ReadValue(h: nat, rank: nat)
    | FreeBlock(h: nat, rank: nat, v: V)
    | SubLen(rank: nat, v: V)

  datatype Call<V> = Push(v: V, at: nat) | Pop

  /** `call` matters only when client `c` is idle; `at` is the address the allocator returns. */
  datatype Act<V> = Act(c: nat, call: Call<V>)

  /** Where the value of a push call is now. */
  datatype Fate =
    | Held(c: nat, p: nat)         // in the hand of a pusher or of a releaser
    | Stashed(p: nat)              // in t_tail
    | Linked(rank: nat)            // linked as number `rank`

  datatype State<V> = State(
    head: nat, tail: nat, slot: nat, len: nat, available: bool,
    heap: map<nat, Node<V>>,
    pcs: seq<Pc<V>>,
    crashed: bool,                 // some step touched or freed memory that was not allocated
    // history, read by no step
    pushed: seq<V>,                // values in the order of the push calls
    fate: seq<Fate>,               // by push call
    order: seq<nat>,               // push calls in link order
    chain: seq<nat>,               // addresses of the linked blocks, from the head
    took: seq<nat>,                // client that unlinked each rank
    delivered: map<nat, V>)        // values returned by pop, by rank

  function Init<V>(clients: nat): State<V> {
    State(NULL, NULL, NULL, 0, true, map[], seq(clients, _ => Idle), false, [], [], [], [], [], map[])
  }

  function Goto<V>(s: State<V>, c: nat, pc: Pc<V>): State<V>
    requires c < |s.pcs|
  {
    s.(pcs := s.pcs[c := pc])
  }

  function Crash<V>(s: State<V>): State<V> {
    s.(crashed := true)
  }

  function AfterRelease<V>(k: Cont): Pc<V> {
    match k
    case Pushed => Idle
    case Empty => Idle
    case Took(h, r) => ReadValue(h, r)
  }

  function AfterLink<V>(from: From): Pc<V> {
    match from
    case FromPush => Swap(Pushed)
    case FromRelease(k) => Reopen(k)
  }

  function BeginPush<V>(s: State<V>, c: nat, v: V, at: nat): State<V>
    requires c < |s.pcs|
  {
    if at == NULL || at in s.heap then s
    else Goto(s.(heap := s.heap[at := Node(v, NULL, |s.pushed|)],
                 pushed := s.pushed + [v],
                 fate := s.fate + [Held(c, at)]), c, PushBusy(at))
  }

  function Stash<V>(s: State<V>, c: nat, p: nat): State<V>
    requires c < |s.pcs|
  {
    if s.slot != NULL then Goto(s, c, PushLock(p))
    else if p !in s.heap || s.heap[p].ticket >= |s.fate| then Crash(s)
    else Goto(s.(slot := p, fate := s.fate[s.heap[p].ticket := Stashed(p)]), c, Idle)
  }

  function SetNext<V>(s: State<V>, c: nat, p: nat, t: nat, from: From): State<V>
    requires c < |s.pcs|
  {
    if t !in s.heap then Crash(s)
    else Goto(s.(heap := s.heap[t := s.heap[t].(next := p)]), c, StoreTail(p, from))
  }

  /** The store to `tail` is where a value counts as linked. */
  function SetTail<V>(s: State<V>, c: nat, p: nat, from: From): State<V>
    requires c < |s.pcs|
  {
    if p !in s.heap || s.heap[p].ticket >= |s.fate| then Crash(s)
    else Goto(s.(tail := p,
                 fate := s.fate[s.heap[p].ticket := Linked(|s.order|)],
                 order := s.order + [s.heap[p].ticket],
                 chain := s.chain + [p]), c, CasHead(p, from))
  }

  function TakeSlot<V>(s: State<V>, c: nat, k: Cont): State<V>
    requires c < |s.pcs|
  {
    var p := s.slot;
    if p == NULL then Goto(s, c, Reopen(k))
    else if p !in s.heap || s.heap[p].ticket >= |s.fate| then Crash(s)
    else Goto(s.(slot := NULL, fate := s.fate[s.heap[p].ticket := Held(c, p)]), c, LoadTail(p, FromRelease(k)))
  }

  /** The store to `head` is where a value counts as popped. */
  function SetHead<V>(s: State<V>, c: nat, h: nat, n: nat): State<V>
    requires c < |s.pcs|
  {
    if s.chain == [] then Crash(s)
    else Goto(s.(head := n, chain := s.chain[1..], took := s.took + [c]), c, CheckTail(h, |s.took|))
  }

  function Free<V>(s: State<V>, c: nat, h: nat, r: nat, v: V): State<V>
    requires c < |s.pcs|
  {
    if h !in s.heap then Crash(s) else Goto(s.(heap := s.heap - {h}), c, SubLen(r, v))
  }

  function Deliver<V>(s: State<V>, c: nat, r: nat, v: V): State<V>
    requires c < |s.pcs|
  {
    Goto(s.(len := Dec(s.len), delivered := s.delivered[r := v]), c, Idle)
  }

  predicate InLink<V>(pc: Pc<V>) {
    pc.LoadTail? || pc.StoreNext? || pc.StoreTail? || pc.CasHead? || pc.AddLen?
  }

  predicate InRelease<V>(pc: Pc<V>) {
    pc.Swap? || pc.Reopen?
  }

  predicate InPush<V>(pc: Pc<V>) {
    pc.PushBusy? || pc.PushStash? || pc.PushLock?
  }

  function Enter<V>(s: State<V>, c: nat, call: Call<V>): State<V>
    requires c < |s.pcs|
  {
    match call
    case Push(v, at) => BeginPush(s, c, v, at)
    case Pop => Goto(s, c, PopLock)
  }

  function PushStep<V>(s: State<V>, c: nat): State<V>
    requires c < |s.pcs| && InPush(s.pcs[c])
  {
    match s.pcs[c]
    case PushBusy(p) => Goto(s, c, if s.available then PushLock(p) else PushStash(p))
    case PushStash(p) => Stash(s, c, p)
    case PushLock(p) =>
      if s.available then Goto(s.(available := false), c, LoadTail(p, FromPush)) else s
  }

  /** update_tail */
  function LinkStep<V>(s: State<V>, c: nat): State<V>
    requires c < |s.pcs| && InLink(s.pcs[c])
  {
    match s.pcs[c]
    case LoadTail(p, from) =>
      Goto(s, c, if s.tail == NULL then StoreTail(p, from) else StoreNext(p, s.tail, from))
    case StoreNext(p, t, from) => SetNext(s, c, p, t, from)
    case StoreTail(p, from) => SetTail(s, c, p, from)
    case CasHead(p, from) => Goto(if s.head == NULL then s.(head := p) else s, c, AddLen(from))
    case AddLen(from) => Goto(s.(len := Inc(s.len)), c, AfterLink(from))
  }

  function ReleaseStep<V>(s: State<V>, c: nat): State<V>
    requires c < |s.pcs| && InRelease(s.pcs[c])
  {
    match s.pcs[c]
    case Swap(k) => TakeSlot(s, c, k)
    case Reopen(k) => Goto(s.(available := true), c, AfterRelease(k))
  }

  function PopStep<V>(s: State<V>, c: nat): State<V>
    requires c < |s.pcs| && !s.pcs[c].Idle?
    requires !InPush(s.pcs[c]) && !InLink(s.pcs[c]) && !InRelease(s.pcs[c])
  {
    match s.pcs[c]
    case PopLock => if s.available then Goto(s.(available := false), c, LoadHead) else s
    case LoadHead => Goto(s, c, if s.head == NULL then Swap(Empty) else LoadNext(s.head))
    case LoadNext(h) =>
      if h !in s.heap then Crash(s) else Goto(s, c, StoreHead(h, s.heap[h].next))
    case StoreHead(h, n) => SetHead(s, c, h, n)
    case CheckTail(h, r) => Goto(s, c, if s.tail == h then CasTail(h, r) else Swap(Took(h, r)))
    case CasTail(h, r) => Goto(if s.tail == h then s.(tail := NULL) else s, c, Swap(Took(h, r)))
    case ReadValue(h, r) =>
      if h !in s.heap then Crash(s) else Goto(s, c, FreeBlock(h, r, s.heap[h].val))
    case FreeBlock(h, r, v) => Free(s, c, h, r, v)
    case SubLen(r, v) => Deliver(s, c, r, v)
  }

  /** The next operation of client `a.c`. */
  function Step<V>(s: State<V>, a: Act<V>): State<V> {
    if a.c >= |s.pcs| then s
    else if s.pcs[a.c].Idle? then Enter(s, a.c, a.call)
    else if InPush(s.pcs[a.c]) then PushStep(s, a.c)
    else if InLink(s.pcs[a.c]) then LinkStep(s, a.c)
    else if InRelease(s.pcs[a.c]) then ReleaseStep(s, a.c)
    else PopStep(s, a.c)
  }

  function Exec<V>(s: State<V>, sched: seq<Act<V>>): State<V>
    decreases sched
  {
    if sched == [] then s else Exec(Step(s, sched[0]), sched[1..])
  }
}
