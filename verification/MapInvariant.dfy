/** The invariant of the map. */
module MapInvariant {
  import opened Words
  import opened Tally
  import opened RwLock
  import opened MapMachine
  import opened Wrappers

  // Who has which lock, where every item is, and what each client knows.

  datatype Mode = Nowhere | Shared | Excl

  // ---- what a position means ----

  /** The bucket of the key a call works on. */
  function Bucket<K>(home: K -> nat, pc: Pc<K>): nat {
    match pc
    case Idle => 0
    case IterLock => 0
    case IterAdvance(b, _) => b
    case IterReady(b, _, _, _) => b
    case IterWait(b, _, _, _) => b
    case IterRead(b, _, _, _) => b
    case _ => home(pc.k)
  }

  function MapMode<K>(pc: Pc<K>): Mode {
    match pc
    case Idle => Nowhere
    case MapLock(_, _) => Nowhere
    case GuardRef(_, _) => Nowhere
    case GuardMut(_, _) => Nowhere
    case IterLock => Nowhere
    case IterAdvance(_, _) => Excl
    case IterReady(_, _, _, _) => Excl
    case IterWait(_, _, _, _) => Excl
    case IterRead(_, _, _, _) => Excl
    case _ => Shared
  }

  function AfterMode(after: After): Mode {
    match after
    case KeepRef(_) => Shared
    case KeepMut(_) => Excl
    case _ => Nowhere
  }

  function RefMode<K>(pc: Pc<K>): Mode {
    match pc
    case InsDrop(_, _, _) => Excl
    case InsUnref(_, _, _) => Excl
    case FreeItem(_, _) => Excl
    case FreeUnlock(_, _) => Excl
    case GiveFlag(_, after) => AfterMode(after)
    case MapUnlock(_, after) => AfterMode(after)
    case GuardRef(_, _) => Shared
    case GuardMut(_, _) => Excl
    case _ => Nowhere
  }

  /** Between the CAS on the bucket flag and the store that gives it back. */
  predicate InBucket<K>(pc: Pc<K>) {
    match pc
    case LoadHead(_, _) => true
    case Walk(_, _, _, _, _, _) => true
    case InsRef(_, _, _) => true
    case InsDrop(_, _, _) => true
    case InsUnref(_, _, _) => true
    case InsWrite(_, _, _) => true
    case InsAlloc(_, _) => true
    case InsLink(_, _) => true
    case GuardLock(_, _, _, _) => true
    case RemNext(_, _, _, _) => true
    case RemStore(_, _, _, _, _) => true
    case SubLen(_, _) => true
    case GiveFlag(_, _) => true
    case _ => false
  }

  function AfterGuard(after: After): Option<nat> {
    match after
    case KeepRef(p) => Some(p)
    case KeepMut(p) => Some(p)
    case _ => None
  }

  /** The item a client has a guard on, returned or about to be. */
  function Guarded<K>(pc: Pc<K>): Option<nat> {
    match pc
    case GiveFlag(_, after) => AfterGuard(after)
    case MapUnlock(_, after) => AfterGuard(after)
    case GuardRef(_, p) => Some(p)
    case GuardMut(_, p) => Some(p)
    case _ => None
  }

  /** The item a client has allocated and not linked, or unlinked and not freed. */
  function Hand<K>(pc: Pc<K>): Option<nat> {
    match pc
    case InsLink(_, p) => Some(p)
    case SubLen(_, p) => Some(p)
    case GiveFlag(_, after) => if after.Free? then Some(after.p) else None
    case FreeLock(_, p) => Some(p)
    case FreeItem(_, p) => Some(p)
    case _ => None
  }

  /** The item whose value a client has dropped and not written again. */
  function Dead<K>(pc: Pc<K>): Option<nat> {
    match pc
    case InsUnref(_, p, _) => Some(p)
    case InsWrite(_, p, _) => Some(p)
    case _ => None
  }

  /** Linked, and `len` not incremented yet. */
  function Uncounted<K>(pc: Pc<K>): nat {
    match pc
    case GiveFlag(_, after) => if after.Count? then 1 else 0
    case AddLen(_) => 1
    case _ => 0
  }

  /** Unlinked, and `len` not decremented yet. */
  function Undiscounted<K>(pc: Pc<K>): nat {
    if pc.SubLen? then 1 else 0
  }

  // ---- locks ----

  ghost predicate Granted(l: Lock, c: nat, m: Mode) {
    && (m == Shared <==> l.Group? && c in l.members)
    && (m == Excl <==> l == Exclusive(c))
  }

  ghost predicate MapOk<K>(s: State<K>, c: nat) {
    c < |s.pcs| ==> Granted(s.mapLock, c, MapMode(s.pcs[c]))
  }

  /** The mode in which a client at `pc` holds the guard lock of bucket `b`. */
  function ModeAt<K>(home: K -> nat, pc: Pc<K>, b: nat): Mode {
    if Bucket(home, pc) == b then RefMode(pc) else Nowhere
  }

  ghost predicate RefOk<K>(home: K -> nat, s: State<K>, b: nat, c: nat) {
    b < |s.refs| && c < |s.pcs| ==> Granted(s.refs[b], c, ModeAt(home, s.pcs[c], b))
  }

  ghost predicate FlagOk<K>(home: K -> nat, s: State<K>, b: nat, c: nat) {
    b < |s.flags| && c < |s.pcs| ==>
      (s.flags[b] == Some(c) <==> InBucket(s.pcs[c]) && Bucket(home, s.pcs[c]) == b)
  }

  /** While an insert writes a value no client has a guard on the bucket, although the insert
      has already given up the guard lock. */
  ghost predicate WriteOk<K>(home: K -> nat, s: State<K>, c: nat, d: nat) {
    c < |s.pcs| && d < |s.pcs| && s.pcs[c].InsWrite? && Guarded(s.pcs[d]).Some? ==>
      Bucket(home, s.pcs[c]) != Bucket(home, s.pcs[d])
  }

  ghost predicate IterFree<K>(s: State<K>, c: nat) {
    c < |s.pcs| && s.pcs[c].IterRead? ==> s.pcs[c].b < |s.refs| && s.refs[s.pcs[c].b].Free?
  }

  ghost predicate Locks<K>(home: K -> nat, s: State<K>) {
    && (forall c: nat :: MapOk(s, c))
    && (forall b: nat, c: nat :: RefOk(home, s, b, c))
    && (forall b: nat, c: nat :: FlagOk(home, s, b, c))
    && (forall c: nat, d: nat :: WriteOk(home, s, c, d))
    && (forall c: nat :: IterFree(s, c))
  }

  // ---- memory ----

  function At(chain: seq<nat>, i: nat): nat {
    if i < |chain| then chain[i] else NULL
  }

  function Before(chain: seq<nat>, i: nat): nat {
    if 0 < i <= |chain| then chain[i - 1] else NULL
  }

  ghost predicate Distinct<K(!new)>(keys: seq<K>) {
    forall i, j :: 0 <= i < j < |keys| ==> keys[i] != keys[j]
  }

  ghost predicate Sized<K>(home: K -> nat, s: State<K>) {
    && |s.flags| == |s.refs| == |s.heads| == |s.chains| == |s.keys|
    && !s.crashed && NULL !in s.heap
  }

  /** Position `i` of bucket `b`: an allocated item of that bucket, linked to the next one. */
  ghost predicate LinkOk<K>(home: K -> nat, s: State<K>, b: nat, i: nat) {
    b < |s.chains| && b < |s.keys| && i < |s.chains[b]| ==>
      var p := s.chains[b][i];
      && i < |s.keys[b]| && p in s.heap && p !in s.held
      && s.heap[p].key == s.keys[b][i] && home(s.heap[p].key) == b
      && s.heap[p].next == At(s.chains[b], i + 1)
  }

  ghost predicate BucketOk<K(!new)>(s: State<K>, b: nat) {
    b < |s.chains| && b < |s.keys| && b < |s.heads| ==>
      s.heads[b] == At(s.chains[b], 0) && |s.keys[b]| == |s.chains[b]| && Distinct(s.keys[b])
  }

  /** Every allocated item is linked in its bucket or in one client's hand, and its value is
      there unless one client is replacing it. */
  ghost predicate ItemOk<K>(home: K -> nat, s: State<K>, p: nat) {
    p in s.heap ==>
      && (if p in s.held then s.held[p] < |s.pcs| && Hand(s.pcs[s.held[p]]) == Some(p)
          else home(s.heap[p].key) < |s.chains| && p in s.chains[home(s.heap[p].key)])
      && (s.heap[p].value.Dropped? ==>
          var d := s.heap[p].value.who; d < |s.pcs| && Dead(s.pcs[d]) == Some(p))
  }

  /** Item `p` with key `k` is at position `i` of its bucket. */
  ghost predicate Holds<K>(home: K -> nat, s: State<K>, k: K, p: nat, i: nat) {
    var b := home(k);
    b < |s.chains| && b < |s.keys| && i < |s.chains[b]| && i < |s.keys[b]|
    && s.chains[b][i] == p && s.keys[b][i] == k
  }

  /** Key `k` is not linked. */
  ghost predicate Absent<K(!new)>(home: K -> nat, s: State<K>, k: K) {
    home(k) < |s.keys| && k !in s.keys[home(k)]
  }

  /** What the holder of a bucket flag knows about the list. */
  ghost predicate WalkOk<K(!new)>(home: K -> nat, s: State<K>, pc: Pc<K>) {
    match pc
    case Walk(op, k, head, prev, cur, i) =>
      var b := home(k);
      && b < |s.chains| && b < |s.keys| && b < |s.heads| && i <= |s.chains[b]| && |s.keys[b]| == |s.chains[b]|
      && head == s.heads[b] && cur == At(s.chains[b], i) && prev == Before(s.chains[b], i)
      && k !in s.keys[b][..i]
    case InsRef(k, p, i) => Holds(home, s, k, p, i)
    case InsDrop(k, p, i) => Holds(home, s, k, p, i) && p in s.heap && s.heap[p].value.Present?
    case InsUnref(k, p, i) => Holds(home, s, k, p, i) && p in s.heap && s.heap[p].value.Dropped?
    case InsWrite(k, p, i) => Holds(home, s, k, p, i) && p in s.heap && s.heap[p].value.Dropped?
    case InsAlloc(k, head) => Absent(home, s, k) && home(k) < |s.heads| && head == s.heads[home(k)]
    case InsLink(k, p) =>
      Absent(home, s, k) && home(k) < |s.heads| && p in s.heap && s.heap[p].next == s.heads[home(k)]
    case GuardLock(k, p, i, _) => Holds(home, s, k, p, i)
    case RemNext(k, prev, p, i) => Holds(home, s, k, p, i) && prev == Before(s.chains[home(k)], i)
    case RemStore(k, prev, p, next, i) =>
      Holds(home, s, k, p, i) && prev == Before(s.chains[home(k)], i) && next == At(s.chains[home(k)], i + 1)
    case _ => true
  }

  ghost predicate HandOk<K>(s: State<K>, c: nat, pc: Pc<K>) {
    Hand(pc).Some? ==>
      var p := Hand(pc).value;
      p in s.heap && p in s.held && s.held[p] == c && s.heap[p].key == pc.k && s.heap[p].value.Present?
  }

  /** The item under a guard is allocated and has its value. */
  ghost predicate GuardOk<K>(s: State<K>, pc: Pc<K>) {
    Guarded(pc).Some? ==>
      var p := Guarded(pc).value;
      p in s.heap && s.heap[p].key == pc.k && s.heap[p].value.Present?
  }

  /** The items of the first `n` buckets, bucket by bucket. */
  function Listed(chains: seq<seq<nat>>, n: nat): seq<nat>
    requires n <= |chains|
  {
    if n == 0 then [] else Listed(chains, n - 1) + chains[n - 1]
  }

  ghost predicate ReadyOk(chains: seq<seq<nat>>, b: nat, cur: nat, i: nat, out: seq<nat>) {
    && b < |chains| && i < |chains[b]| && cur == chains[b][i]
    && out == Listed(chains, b) + chains[b][..i]
  }

  ghost predicate IterOk<K>(s: State<K>, pc: Pc<K>) {
    match pc
    case IterAdvance(b, out) => b <= |s.chains| && out == Listed(s.chains, b)
    case IterReady(b, cur, i, out) =>
      if b == |s.chains| then cur == NULL && out == Listed(s.chains, b)
      else ReadyOk(s.chains, b, cur, i, out)
    case IterWait(b, cur, i, out) => ReadyOk(s.chains, b, cur, i, out)
    case IterRead(b, cur, i, out) => ReadyOk(s.chains, b, cur, i, out)
    case _ => true
  }

  /** What the client at position `pc` of call `c` knows. */
  ghost predicate Knows<K(!new)>(home: K -> nat, s: State<K>, c: nat, pc: Pc<K>) {
    WalkOk(home, s, pc) && HandOk(s, c, pc) && GuardOk(s, pc) && IterOk(s, pc)
  }

  ghost predicate ClientOk<K(!new)>(home: K -> nat, s: State<K>, c: nat) {
    c < |s.pcs| ==> Knows(home, s, c, s.pcs[c])
  }

  ghost predicate Memory<K(!new)>(home: K -> nat, s: State<K>) {
    && Sized(home, s)
    && (forall b: nat :: BucketOk(s, b))
    && (forall b: nat, i: nat :: LinkOk(home, s, b, i))
    && (forall p: nat :: ItemOk(home, s, p))
    && (forall c: nat :: ClientOk(home, s, c))
  }

  // ---- the counter ----

  function Length(chain: seq<nat>): nat { |chain| }

  /** What `len` stands for, as an exact number; it can be negative for a while. */
  ghost function Balance<K>(s: State<K>): int {
    Sum(Length, s.chains) - Sum<Pc<K>>(Uncounted, s.pcs) + Sum<Pc<K>>(Undiscounted, s.pcs)
  }

  ghost predicate Counted<K>(s: State<K>) {
    s.len == Balance(s) % WORD
  }

  ghost predicate Inv<K(!new)>(home: K -> nat, s: State<K>) {
    Locks(home, s) && Memory(home, s) && Counted(s)
  }

  /** Every key has a bucket; this is what `% buckets.len()` gives for a map with buckets. */
  ghost predicate Homes<K(!new)>(home: K -> nat, buckets: nat) {
    forall k :: home(k) < buckets
  }

  lemma InitIsSafe<K(!new)>(home: K -> nat, buckets: nat, clients: nat)
    ensures Inv(home, Init<K>(buckets, clients))
  {
    var s := Init<K>(buckets, clients);
    SumOfZeros(Length, s.chains);
    SumOfZeros<Pc<K>>(Uncounted, s.pcs);
    SumOfZeros<Pc<K>>(Undiscounted, s.pcs);
  }
}
