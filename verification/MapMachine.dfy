/** AtomicHashMap as a step machine. */
module MapMachine {
  import opened Sequences
  import opened Words
  import opened RwLock
  import opened Wrappers

  // src/collections/atomic_hashmap.rs: the map-wide lock, the bucket flags and the per-bucket guard
  // locks, over an explicit memory. The two kinds of Mutex are the reference readers-writer lock
  // that MutexRefinement justifies. A client is one call together with the guard or the iterator
  // it returns.

  const NULL: nat := 0

  /** The value of an item; who dropped it is history, read by no step. */
  datatype Value = Present | Dropped(who: nat)

  /** `data` is what the value's bytes say, also after it has been dropped. */
  datatype Item<K> = Item(key: K, next: nat, value: Value, data: nat)

  datatype Op = Insert | Get | GetMut | Remove

  /** What a client does once it has given back the bucket flag. */
  datatype After =
    | Leave
    | Count                    // insert: add to `len`, then leave
    | KeepRef(p: nat)          // leave with a WatchGuardRef on p
    | KeepMut(p: nat)          // leave with a WatchGuardMut on p
    | Free(p: nat)             // remove: free the unlinked item, then leave
    | Return(v: nat)           // remove: leave with the value of the item

  datatype Pc<K> =
    | Idle
    | MapLock(op: Op, k: K)
    | TakeFlag(op: Op, k: K)
    | LoadHead(op: Op, k: K)
    // the walk; `i` is the position of `cur` in the list, read by no step
    | Walk(op: Op, k: K, head: nat, prev: nat, cur: nat, i: nat)
    // insert, key present
    | InsRef(k: K, p: nat, i: nat)
    | InsDrop(k: K, p: nat, i: nat)
    | InsUnref(k: K, p: nat, i: nat)
    | InsWrite(k: K, p: nat, i: nat)
    // insert, key absent
    | InsAlloc(k: K, head: nat)
    | InsLink(k: K, p: nat)
    // get, get_mut
    | GuardLock(k: K, p: nat, i: nat, exclusive: bool)
    // remove
    | RemNext(k: K, prev: nat, p: nat, i: nat)
    | RemStore(k: K, prev: nat, p: nat, next: nat, i: nat)
    | SubLen(k: K, p: nat)
    // leaving
    | GiveFlag(k: K, after: After)
    | AddLen(k: K)
    | FreeLock(k: K, p: nat)
    | FreeItem(k: K, p: nat)
    | FreeUnlock(k: K, v: nat)
    | MapUnlock(k: K, after: After)
    // guards that have been returned
    | GuardRef(k: K, p: nat)
    | GuardMut(k: K, p: nat)
    // iteration; `out` is what has been yielded, `i` the position of `cur`, read by no step
    | IterLock
    | IterAdvance(b: nat, out: seq<nat>)
    | IterReady(b: nat, cur: nat, i: nat, out: seq<nat>)
    | IterWait(b: nat, cur: nat, i: nat, out: seq<nat>)
    | IterRead(b: nat, cur: nat, i: nat, out: seq<nat>)

  datatype Call<K> = Do(op: Op, k: K) | Iterate

  /** `call` matters when client `c` is idle, `at` is the address the allocator returns, `drop`
      chooses between dropping an iterator or a mutable guard and using it, and `v` is the value
      inserted by a call or written through a guard. */
  datatype Act<K> = Act(c: nat, call: Call<K>, at: nat, drop: bool, v: nat)

  datatype State<K> = State(
    mapLock: Lock,
    flags: seq<Option<nat>>,     // per bucket: None is available; the holder is read by no step
    refs: seq<Lock>,             // per bucket: ref_locked
    heads: seq<nat>,
    heap: map<nat, Item<K>>,
    len: nat,
    pcs: seq<Pc<K>>,
    args: map<nat, nat>,         // by client: the value its call inserts
    crashed: bool,
    // history, read by no step
    chains: seq<seq<nat>>,       // per bucket: the linked items, from the head
    keys: seq<seq<K>>,           // per bucket: their keys
    held: map<nat, nat>)         // items that are in a client's hand, not linked

  function Init<K>(buckets: nat, clients: nat): State<K> {
    State(Lock.Free, seq(buckets, _ => None), seq(buckets, _ => Lock.Free), seq(buckets, _ => NULL), map[], 0,
          seq(clients, _ => Idle), map[], false, seq(buckets, _ => []), seq(buckets, _ => []), map[])
  }

  function Goto<K>(s: State<K>, c: nat, pc: Pc<K>): State<K>
    requires c < |s.pcs|
  {
    s.(pcs := s.pcs[c := pc])
  }

  function Arg<K>(s: State<K>, c: nat): nat {
    if c in s.args then s.args[c] else 0
  }

  function Crash<K>(s: State<K>): State<K> {
    s.(crashed := true)
  }

  /** A blocking acquisition: nothing happens while the lock does not permit it. */
  function Acquire<K>(s: State<K>, e: Event, pc: Pc<K>): State<K>
    requires e.Lock? || e.Join?
    requires e.who < |s.pcs|
  {
    match Apply(s.mapLock, e)
    case None => s
    case Some(l) => Goto(s.(mapLock := l), e.who, pc)
  }

  function Release<K>(s: State<K>, e: Event, pc: Pc<K>): State<K>
    requires e.Unlock? || e.Leave?
    requires e.who < |s.pcs|
  {
    match Apply(s.mapLock, e)
    case None => Crash(s)
    case Some(l) => Goto(s.(mapLock := l), e.who, pc)
  }

  function AcquireRef<K>(s: State<K>, b: nat, e: Event, pc: Pc<K>): State<K>
    requires e.Lock? || e.Join?
    requires e.who < |s.pcs|
  {
    if b >= |s.refs| then Crash(s)
    else match Apply(s.refs[b], e)
      case None => s
      case Some(l) => Goto(s.(refs := s.refs[b := l]), e.who, pc)
  }

  function ReleaseRef<K>(s: State<K>, b: nat, e: Event, pc: Pc<K>): State<K>
    requires e.Unlock? || e.Leave?
    requires e.who < |s.pcs|
  {
    if b >= |s.refs| then Crash(s)
    else match Apply(s.refs[b], e)
      case None => Crash(s)
      case Some(l) => Goto(s.(refs := s.refs[b := l]), e.who, pc)
  }

  /** The item the walk stopped at has the key. */
  function Found<K>(op: Op, k: K, prev: nat, p: nat, i: nat): Pc<K> {
    match op
    case Insert => InsRef(k, p, i)
    case Get => GuardLock(k, p, i, false)
    case GetMut => GuardLock(k, p, i, true)
    case Remove => RemNext(k, prev, p, i)
  }

  function NotFound<K>(op: Op, k: K, head: nat): Pc<K> {
    if op == Insert then InsAlloc(k, head) else GiveFlag(k, After.Leave)
  }

  function WalkOn<K(==)>(s: State<K>, c: nat, op: Op, k: K, head: nat, prev: nat, cur: nat, i: nat): State<K>
    requires c < |s.pcs|
  {
    if cur == NULL then Goto(s, c, NotFound(op, k, head))
    else if cur !in s.heap then Crash(s)
    else if s.heap[cur].key == k then Goto(s, c, Found(op, k, prev, cur, i))
    else Goto(s, c, Walk(op, k, head, cur, s.heap[cur].next, i + 1))
  }

  /** ManuallyDrop::drop of the value. */
  function DropValue<K>(s: State<K>, c: nat, p: nat, pc: Pc<K>): State<K>
    requires c < |s.pcs|
  {
    if p !in s.heap || s.heap[p].value.Dropped? then Crash(s)
    else Goto(s.(heap := s.heap[p := s.heap[p].(value := Dropped(c))]), c, pc)
  }

  /** The store of a new value, which drops nothing. */
  function WriteValue<K>(s: State<K>, c: nat, p: nat, pc: Pc<K>): State<K>
    requires c < |s.pcs|
  {
    if p !in s.heap || s.heap[p].value.Present? then Crash(s)
    else Goto(s.(heap := s.heap[p := s.heap[p].(value := Present, data := Arg(s, c))]), c, pc)
  }

  /** An assignment through a WatchGuardMut. */
  function WriteThrough<K>(s: State<K>, p: nat, v: nat): State<K> {
    if p !in s.heap || s.heap[p].value.Dropped? then Crash(s)
    else s.(heap := s.heap[p := s.heap[p].(data := v)])
  }

  /** Item::new and the store of its link; no step happens when the address is in use. */
  function Alloc<K>(s: State<K>, c: nat, k: K, head: nat, at: nat): State<K>
    requires c < |s.pcs|
  {
    if at == NULL || at in s.heap then s
    else Goto(s.(heap := s.heap[at := Item(k, head, Present, Arg(s, c))], held := s.held[at := c]), c, InsLink(k, at))
  }

  function Link<K>(s: State<K>, c: nat, b: nat, k: K, p: nat): State<K>
    requires c < |s.pcs|
  {
    if b >= |s.heads| || b >= |s.chains| || b >= |s.keys| then Crash(s)
    else
      Goto(s.(heads := s.heads[b := p], chains := s.chains[b := [p] + s.chains[b]],
              keys := s.keys[b := [k] + s.keys[b]], held := s.held - {p}),
           c, GiveFlag(k, Count))
  }

  /** The store that takes an item out of its list. */
  function Relink<K>(s: State<K>, b: nat, prev: nat, next: nat): State<K>
    requires b < |s.heads| && (prev == NULL || prev in s.heap)
  {
    if prev == NULL then s.(heads := s.heads[b := next])
    else s.(heap := s.heap[prev := s.heap[prev].(next := next)])
  }

  function Unlink<K>(s: State<K>, c: nat, b: nat, k: K, prev: nat, p: nat, next: nat, i: nat): State<K>
    requires c < |s.pcs|
  {
    if b >= |s.heads| || b >= |s.chains| || b >= |s.keys| || i >= |s.chains[b]| || i >= |s.keys[b]| then Crash(s)
    else if prev != NULL && prev !in s.heap then Crash(s)
    else
      Goto(Relink(s, b, prev, next).(chains := s.chains[b := Without(s.chains[b], i)],
                                     keys := s.keys[b := Without(s.keys[b], i)], held := s.held[p := c]),
           c, SubLen(k, p))
  }

  function AfterFlag<K>(k: K, after: After): Pc<K> {
    match after
    case Count => AddLen(k)
    case Free(p) => FreeLock(k, p)
    case _ => MapUnlock(k, after)
  }

  function AfterMap<K>(k: K, after: After): Pc<K> {
    match after
    case KeepRef(p) => GuardRef(k, p)
    case KeepMut(p) => GuardMut(k, p)
    case _ => Idle
  }

  /** Reads the value out of the item and frees it. */
  function FreeNow<K>(s: State<K>, c: nat, k: K, p: nat): State<K>
    requires c < |s.pcs|
  {
    if p !in s.heap || s.heap[p].value.Dropped? then Crash(s)
    else Goto(s.(heap := s.heap - {p}, held := s.held - {p}), c, FreeUnlock(k, s.heap[p].data))
  }

  /** advance_bucket: the head of bucket `b`, or on to the next bucket. */
  function Advance<K>(s: State<K>, c: nat, b: nat, out: seq<nat>): State<K>
    requires c < |s.pcs|
  {
    if b >= |s.heads| then Goto(s, c, IterReady(b, NULL, 0, out))
    else if s.heads[b] == NULL then Goto(s, c, IterAdvance(b + 1, out))
    else Goto(s, c, IterReady(b, s.heads[b], 0, out))
  }

  /** The body of `next` after its wait: reads the item and moves on. */
  function Yield<K>(s: State<K>, c: nat, b: nat, cur: nat, i: nat, out: seq<nat>): State<K>
    requires c < |s.pcs|
  {
    if cur !in s.heap then Crash(s)
    else if s.heap[cur].next == NULL then Goto(s, c, IterAdvance(b + 1, out + [cur]))
    else Goto(s, c, IterReady(b, s.heap[cur].next, i + 1, out + [cur]))
  }

  predicate InInsert<K>(pc: Pc<K>) {
    pc.InsRef? || pc.InsDrop? || pc.InsUnref? || pc.InsWrite? || pc.InsAlloc? || pc.InsLink? || pc.AddLen?
  }

  predicate InRemove<K>(pc: Pc<K>) {
    pc.RemNext? || pc.RemStore? || pc.SubLen? || pc.FreeLock? || pc.FreeItem? || pc.FreeUnlock?
  }

  predicate InIter<K>(pc: Pc<K>) {
    pc.IterLock? || pc.IterAdvance? || pc.IterReady? || pc.IterWait? || pc.IterRead?
  }

  /** What is particular to insert. */
  function InsertStep<K>(home: K -> nat, s: State<K>, c: nat, at: nat): (r: State<K>)
    requires c < |s.pcs| && InInsert(s.pcs[c])
    ensures |r.heads| == |s.heads| && |r.pcs| == |s.pcs|
  {
    match s.pcs[c]
    case InsRef(k, p, i) => AcquireRef(s, home(k), Event.Lock(c), InsDrop(k, p, i))
    case InsDrop(k, p, i) => DropValue(s, c, p, InsUnref(k, p, i))
    case InsUnref(k, p, i) => ReleaseRef(s, home(k), Event.Unlock(c), InsWrite(k, p, i))
    case InsWrite(k, p, i) => WriteValue(s, c, p, GiveFlag(k, After.Leave))
    case InsAlloc(k, head) => Alloc(s, c, k, head, at)
    case InsLink(k, p) => Link(s, c, home(k), k, p)
    case AddLen(k) => Goto(s.(len := Inc(s.len)), c, MapUnlock(k, After.Leave))
  }

  /** What is particular to remove. */
  function RemoveStep<K>(home: K -> nat, s: State<K>, c: nat): (r: State<K>)
    requires c < |s.pcs| && InRemove(s.pcs[c])
    ensures |r.heads| == |s.heads| && |r.pcs| == |s.pcs|
  {
    match s.pcs[c]
    case RemNext(k, prev, p, i) =>
      if p !in s.heap then Crash(s) else Goto(s, c, RemStore(k, prev, p, s.heap[p].next, i))
    case RemStore(k, prev, p, next, i) => Unlink(s, c, home(k), k, prev, p, next, i)
    case SubLen(k, p) => Goto(s.(len := Dec(s.len)), c, GiveFlag(k, After.Free(p)))
    case FreeLock(k, p) => AcquireRef(s, home(k), Event.Lock(c), FreeItem(k, p))
    case FreeItem(k, p) => FreeNow(s, c, k, p)
    case FreeUnlock(k, v) => ReleaseRef(s, home(k), Event.Unlock(c), MapUnlock(k, Return(v)))
  }

  function IterStep<K>(s: State<K>, c: nat, drop: bool): (r: State<K>)
    requires c < |s.pcs| && InIter(s.pcs[c])
    ensures |r.heads| == |s.heads| && |r.pcs| == |s.pcs|
  {
    match s.pcs[c]
    case IterLock => Acquire(s, Event.Lock(c), IterAdvance(0, []))
    case IterAdvance(b, out) => Advance(s, c, b, out)
    case IterReady(b, cur, i, out) =>
      if drop then Release(s, Event.Unlock(c), Idle)
      else if b >= |s.heads| || cur == NULL then s       // next returns None
      else Goto(s, c, IterWait(b, cur, i, out))
    case IterWait(b, cur, i, out) =>
      // is_locked_exclusive answers false only if it has read the state of a free lock
      if b < |s.refs| && s.refs[b].Free? then Goto(s, c, IterRead(b, cur, i, out)) else s
    case IterRead(b, cur, i, out) => Yield(s, c, b, cur, i, out)
  }

  /** Before the map-wide lock is taken, and after it has been given back. */
  predicate OutsideMap<K>(pc: Pc<K>) {
    pc.Idle? || pc.MapLock? || pc.GuardRef? || pc.GuardMut?
  }

  function OutsideStep<K>(home: K -> nat, s: State<K>, c: nat, call: Call<K>, drop: bool, v: nat): (r: State<K>)
    requires c < |s.pcs| && OutsideMap(s.pcs[c])
    ensures |r.heads| == |s.heads| && |r.pcs| == |s.pcs|
  {
    match s.pcs[c]
    case Idle => Goto(s.(args := s.args[c := v]), c, if call.Do? then MapLock(call.op, call.k) else IterLock)
    case MapLock(op, k) => Acquire(s, Join(c), TakeFlag(op, k))
    case GuardRef(k, p) => ReleaseRef(s, home(k), Event.Leave(c), Idle)
    case GuardMut(k, p) => if drop then ReleaseRef(s, home(k), Event.Unlock(c), Idle) else WriteThrough(s, p, v)
  }

  /** What the four operations share inside: the flag, the walk, the guard, leaving. */
  function LookupStep<K(==)>(home: K -> nat, s: State<K>, c: nat): (r: State<K>)
    requires c < |s.pcs|
    requires !InInsert(s.pcs[c]) && !InRemove(s.pcs[c]) && !InIter(s.pcs[c]) && !OutsideMap(s.pcs[c])
    ensures |r.heads| == |s.heads| && |r.pcs| == |s.pcs|
  {
    match s.pcs[c]
    case TakeFlag(op, k) =>
      if home(k) >= |s.flags| then Crash(s)
      else if s.flags[home(k)].Some? then s
      else Goto(s.(flags := s.flags[home(k) := Some(c)]), c, LoadHead(op, k))
    case LoadHead(op, k) =>
      if home(k) >= |s.heads| then Crash(s)
      else Goto(s, c, Walk(op, k, s.heads[home(k)], NULL, s.heads[home(k)], 0))
    case Walk(op, k, head, prev, cur, i) => WalkOn(s, c, op, k, head, prev, cur, i)
    case GuardLock(k, p, i, exclusive) =>
      if exclusive then AcquireRef(s, home(k), Event.Lock(c), GiveFlag(k, KeepMut(p)))
      else AcquireRef(s, home(k), Join(c), GiveFlag(k, KeepRef(p)))
    case GiveFlag(k, after) =>
      if home(k) >= |s.flags| then Crash(s)
      else Goto(s.(flags := s.flags[home(k) := None]), c, AfterFlag(k, after))
    case MapUnlock(k, after) => Release(s, Event.Leave(c), AfterMap(k, after))
  }

  /** The next operation of client `a.c`. */
  function Step<K(==)>(home: K -> nat, s: State<K>, a: Act<K>): (r: State<K>)
    ensures |r.heads| == |s.heads| && |r.pcs| == |s.pcs|
  {
    if a.c >= |s.pcs| then s
    else if InInsert(s.pcs[a.c]) then InsertStep(home, s, a.c, a.at)
    else if InRemove(s.pcs[a.c]) then RemoveStep(home, s, a.c)
    else if InIter(s.pcs[a.c]) then IterStep(s, a.c, a.drop)
    else if OutsideMap(s.pcs[a.c]) then OutsideStep(home, s, a.c, a.call, a.drop, a.v)
    else LookupStep(home, s, a.c)
  }

  function Exec<K(==)>(home: K -> nat, s: State<K>, sched: seq<Act<K>>): State<K>
    decreases sched
  {
    if sched == [] then s else Exec(home, Step(home, s, sched[0]), sched[1..])
  }

  lemma {:induction false} ExecConcat<K>(home: K -> nat, s: State<K>, first: seq<Act<K>>, second: seq<Act<K>>)
    ensures Exec(home, s, first + second) == Exec(home, Exec(home, s, first), second)
    decreases first
  {
    if first == [] {
      assert first + second == second;
    } else {
      assert (first + second)[1..] == first[1..] + second;
      ExecConcat(home, Step(home, s, first[0]), first[1..], second);
    }
  }
}
