/** The invariant of AtomicVec: a well-formed list around the lock holder, one place for
    every pushed value, and one block for every place. */
module VecInvariant {
  import opened Words
  import opened Tally
  import opened VecMachine

  /** The block in a client's hand that is not linked yet; NULL if none. */
  function Hand<V>(pc: Pc<V>): nat {
    match pc
    case PushBusy(p) => p
    case PushStash(p) => p
    case PushLock(p) => p
    case LoadTail(p, _) => p
    case StoreNext(p, _, _) => p
    case StoreTail(p, _) => p
    case _ => NULL
  }

  predicate Carries<V>(pc: Pc<V>) {
    pc.PushBusy? || pc.PushStash? || pc.PushLock? || pc.LoadTail? || pc.StoreNext? || pc.StoreTail?
  }

  datatype Taking = Nothing | Block(h: nat, rank: nat) | Value(rank: nat)

  function TakingOf(k: Cont): Taking {
    match k
    case Took(h, r) => Block(h, r)
    case _ => Nothing
  }

  function TakingFrom(from: From): Taking {
    match from
    case FromPush => Nothing
    case FromRelease(k) => TakingOf(k)
  }

  /** The value a client has unlinked and not yet returned. */
  function Takes<V>(pc: Pc<V>): Taking {
    match pc
    case LoadTail(_, from) => TakingFrom(from)
    case StoreNext(_, _, from) => TakingFrom(from)
    case StoreTail(_, from) => TakingFrom(from)
    case CasHead(_, from) => TakingFrom(from)
    case AddLen(from) => TakingFrom(from)
    case Swap(k) => TakingOf(k)
    case Reopen(k) => TakingOf(k)
    case CheckTail(h, r) => Block(h, r)
    case CasTail(h, r) => Block(h, r)
    case ReadValue(h, r) => Block(h, r)
    case FreeBlock(h, r, _) => Block(h, r)
    case SubLen(r, _) => Value(r)
    case _ => Nothing
  }

  predicate TakesRank<V>(pc: Pc<V>, r: nat) {
    !Takes(pc).Nothing? && Takes(pc).rank == r
  }

  /** Between the CAS that takes the spin flag and the store that gives it back. */
  function Inside<V>(pc: Pc<V>): nat {
    match pc
    case Idle => 0
    case PushBusy(_) => 0
    case PushStash(_) => 0
    case PushLock(_) => 0
    case PopLock => 0
    case ReadValue(_, _) => 0
    case FreeBlock(_, _, _) => 0
    case SubLen(_, _) => 0
    case _ => 1
  }

  /** Linked, and `len` not incremented yet. */
  function Uncounted<V>(pc: Pc<V>): nat {
    if pc.CasHead? || pc.AddLen? then 1 else 0
  }

  /** Unlinked, and `len` not decremented yet. */
  function Undiscounted<V>(pc: Pc<V>): nat {
    if Takes(pc) == Nothing then 0 else 1
  }

  // ---- the list ----

  function First(chain: seq<nat>): nat {
    if chain == [] then NULL else chain[0]
  }

  function Last(chain: seq<nat>): nat {
    if chain == [] then NULL else chain[|chain| - 1]
  }

  /** The part of a state that the linked list consists of. */
  datatype List<V> = List(head: nat, tail: nat, heap: map<nat, Node<V>>, chain: seq<nat>)

  function ListOf<V>(s: State<V>): List<V> {
    List(s.head, s.tail, s.heap, s.chain)
  }

  ghost predicate LinkAt<V>(l: List<V>, i: nat, end: nat)
    requires i < |l.chain|
  {
    l.chain[i] in l.heap && l.heap[l.chain[i]].next == if i + 1 < |l.chain| then l.chain[i + 1] else end
  }

  /** Every linked block is allocated and points to the next one; the last points to `end`. */
  ghost predicate Links<V>(l: List<V>, end: nat) {
    forall i :: 0 <= i < |l.chain| ==> LinkAt(l, i, end)
  }

  ghost predicate AtRest<V>(l: List<V>) {
    Links(l, NULL) && l.head == First(l.chain) && l.tail == Last(l.chain)
  }

  /** The list as the lock holder finds it. */
  ghost predicate Shape<V>(l: List<V>, pc: Pc<V>) {
    match pc
    case StoreNext(p, t, _) => AtRest(l) && t == l.tail && t != NULL
    case StoreTail(p, _) =>
      Links(l, p) && l.head == First(l.chain) && l.tail == Last(l.chain)
    case CasHead(p, _) =>
      && Links(l, NULL) && l.chain != [] && l.tail == Last(l.chain) == p
      && l.head == if |l.chain| == 1 then NULL else First(l.chain)
    case LoadNext(h) => AtRest(l) && h == l.head && h != NULL
    case StoreHead(h, n) => AtRest(l) && h == l.head && h != NULL && h in l.heap && n == l.heap[h].next
    case CheckTail(h, _) =>
      Links(l, NULL) && l.head == First(l.chain) && l.tail == if l.chain == [] then h else Last(l.chain)
    case CasTail(h, _) => l.chain == [] && l.head == NULL && l.tail == h
    case AddLen(_) => AtRest(l) && l.chain != []
    case _ => AtRest(l)
  }

  ghost predicate ShapeOk<V>(s: State<V>, c: nat) {
    c < |s.pcs| && Inside(s.pcs[c]) == 1 ==> Shape(ListOf(s), s.pcs[c])
  }

  // ---- places ----

  ghost predicate Sized<V>(s: State<V>) {
    && !s.crashed && NULL !in s.heap
    && |s.fate| == |s.pushed|
    && |s.order| == |s.took| + |s.chain|
  }

  /** The client that unlinked rank `r` still has block `p`. */
  ghost predicate TakerHas<V>(s: State<V>, r: nat, p: nat) {
    r < |s.took| && s.took[r] < |s.pcs| && Takes(s.pcs[s.took[r]]) == Block(p, r)
  }

  /** Block `p` is where its value's fate says. */
  ghost predicate Located<V>(s: State<V>, p: nat, f: Fate) {
    match f
    case Held(c, q) => q == p && c < |s.pcs| && Hand(s.pcs[c]) == p
    case Stashed(q) => q == p && s.slot == p
    case Linked(r) =>
      r < |s.order| && if r < |s.took| then TakerHas(s, r, p)
                        else r - |s.took| < |s.chain| && s.chain[r - |s.took|] == p
  }

  /** An allocated block carries the value of its push and is in exactly one place. */
  ghost predicate BlockOk<V>(s: State<V>, p: nat) {
    p in s.heap ==>
      var t := s.heap[p].ticket;
      t < |s.fate| && t < |s.pushed| && s.heap[p].val == s.pushed[t] && Located(s, p, s.fate[t])
  }

  /** A value that is not linked yet has its block, with a null link. */
  ghost predicate FateOk<V>(s: State<V>, t: nat) {
    t < |s.fate| ==>
      match s.fate[t]
      case Held(_, p) => p in s.heap && s.heap[p].ticket == t
      case Stashed(p) => p in s.heap && s.heap[p].ticket == t
      case Linked(r) => r < |s.order| && s.order[r] == t
  }

  /** The link order: ranks and linked values correspond one to one. */
  ghost predicate RankOk<V>(s: State<V>, r: nat) {
    r < |s.order| ==>
      && s.order[r] < |s.fate| && s.fate[s.order[r]] == Linked(r)
      && (r >= |s.took| ==>
          var i := r - |s.took|;
          i < |s.chain| && s.chain[i] in s.heap && s.heap[s.chain[i]].ticket == s.order[r])
      && (r < |s.took| && r !in s.delivered ==>
          s.took[r] < |s.pcs| && TakesRank(s.pcs[s.took[r]], r))
  }

  ghost predicate ClientOk<V>(s: State<V>, c: nat) {
    c < |s.pcs| ==>
      var pc := s.pcs[c];
      && (Carries(pc) ==>
          var p := Hand(pc);
          && p in s.heap && s.heap[p].next == NULL
          && s.heap[p].ticket < |s.fate| && s.fate[s.heap[p].ticket] == Held(c, p))
      && (match Takes(pc)
          case Nothing => true
          case Block(h, r) =>
            && r < |s.took| && s.took[r] == c && r < |s.order| && r !in s.delivered
            && h in s.heap && s.heap[h].ticket == s.order[r]
          case Value(r) => r < |s.took| && s.took[r] == c && r < |s.order| && r !in s.delivered)
      && (pc.FreeBlock? ==> pc.h in s.heap && pc.v == s.heap[pc.h].val)
      && (pc.SubLen? ==> s.order[pc.rank] < |s.pushed| && pc.v == s.pushed[s.order[pc.rank]])
  }

  ghost predicate SlotOk<V>(s: State<V>) {
    s.slot != NULL ==>
      && s.slot in s.heap && s.heap[s.slot].next == NULL
      && s.heap[s.slot].ticket < |s.fate| && s.fate[s.heap[s.slot].ticket] == Stashed(s.slot)
  }

  ghost predicate DeliveredOk<V>(s: State<V>) {
    forall r :: r in s.delivered ==>
      r < |s.took| && r < |s.order| && s.order[r] < |s.pushed| && s.delivered[r] == s.pushed[s.order[r]]
  }

  ghost predicate LockOk<V>(s: State<V>) {
    && Sum<Pc<V>>(Inside, s.pcs) == (if s.available then 0 else 1)
    && (s.available ==> AtRest(ListOf(s)))
  }

  // ---- the counter ----

  /** What `len` stands for, as an exact number. */
  ghost function Count<V>(s: State<V>): int {
    |s.chain| - Sum<Pc<V>>(Uncounted, s.pcs) + Sum<Pc<V>>(Undiscounted, s.pcs)
  }

  /** Everything but the shape of the list and the lock. */
  ghost predicate Places<V>(s: State<V>) {
    && Sized(s)
    && (forall p: nat :: BlockOk(s, p))
    && (forall t: nat :: FateOk(s, t))
    && (forall r: nat :: RankOk(s, r))
    && (forall c: nat :: ClientOk(s, c))
    && SlotOk(s) && DeliveredOk(s)
  }

  ghost predicate Shaped<V>(s: State<V>) {
    LockOk(s) && forall c: nat :: ShapeOk(s, c)
  }

  ghost predicate Counted<V>(s: State<V>) {
    Count(s) >= 0 && s.len == Count(s) % WORD
  }

  ghost predicate Inv<V>(s: State<V>) {
    Places(s) && Shaped(s) && Counted(s)
  }
}
