/** The control flow of the calls on the map: which position a client can reach in one step from
    which; what has to be said about one whole call is said over this relation, and the shared
    state does not come into it. */
module MapPaths {
  import opened RwLock
  import opened MapMachine

  ghost predicate LookupPath<K>(pc: Pc<K>, pc': Pc<K>) {
    match pc
    case TakeFlag(op, k) => pc' == LoadHead(op, k)
    case LoadHead(op, k) => pc'.Walk? && pc'.op == op && pc'.k == k
    case Walk(op, k, head, prev, cur, i) =>
      || pc' == NotFound(op, k, head) || pc' == Found(op, k, prev, cur, i)
      || (pc'.Walk? && pc'.op == op && pc'.k == k)
    case GuardLock(k, p, _, exclusive) => pc' == GiveFlag(k, if exclusive then KeepMut(p) else KeepRef(p))
    case GiveFlag(k, after) => pc' == AfterFlag(k, after)
    case MapUnlock(k, after) => pc' == AfterMap(k, after)
    case _ => false
  }

  ghost predicate InsertPath<K>(pc: Pc<K>, pc': Pc<K>) {
    match pc
    case InsRef(k, p, i) => pc' == InsDrop(k, p, i)
    case InsDrop(k, p, i) => pc' == InsUnref(k, p, i)
    case InsUnref(k, p, i) => pc' == InsWrite(k, p, i)
    case InsWrite(k, _, _) => pc' == GiveFlag(k, After.Leave)
    case InsAlloc(k, _) => pc'.InsLink? && pc'.k == k
    case InsLink(k, _) => pc' == GiveFlag(k, Count)
    case AddLen(k) => pc' == MapUnlock(k, After.Leave)
    case _ => false
  }

  ghost predicate RemovePath<K>(pc: Pc<K>, pc': Pc<K>) {
    match pc
    case RemNext(k, _, p, _) => pc'.RemStore? && pc'.k == k && pc'.p == p
    case RemStore(k, _, p, _, _) => pc' == SubLen(k, p)
    case SubLen(k, p) => pc' == GiveFlag(k, After.Free(p))
    case FreeLock(k, p) => pc' == FreeItem(k, p)
    case FreeItem(k, _) => pc'.FreeUnlock? && pc'.k == k
    case FreeUnlock(k, v) => pc' == MapUnlock(k, Return(v))
    case _ => false
  }

  /** Outside the map-wide lock and in an iterator. */
  ghost predicate OuterPath<K>(pc: Pc<K>, pc': Pc<K>) {
    match pc
    case Idle => pc'.MapLock? || pc'.IterLock?
    case MapLock(op, k) => pc' == TakeFlag(op, k)
    case GuardRef(_, _) => pc'.Idle?
    case GuardMut(_, _) => pc'.Idle?
    case _ => InIter(pc) && (pc'.Idle? || InIter(pc'))
  }

  /** A client at `pc` can be at `pc'` after one step of its own. */
  ghost predicate Follows<K>(pc: Pc<K>, pc': Pc<K>) {
    pc' == pc || LookupPath(pc, pc') || InsertPath(pc, pc') || RemovePath(pc, pc') || OuterPath(pc, pc')
  }

  lemma WalkFollows<K>(s: State<K>, c: nat, op: Op, k: K, head: nat, prev: nat, cur: nat, i: nat)
    requires c < |s.pcs| && s.pcs[c] == Walk(op, k, head, prev, cur, i)
    ensures var pc' := WalkOn(s, c, op, k, head, prev, cur, i).pcs[c]; pc' == s.pcs[c] || LookupPath(s.pcs[c], pc')
  {
  }

  lemma LookupFollows<K>(home: K -> nat, s: State<K>, c: nat)
    requires c < |s.pcs|
    requires !InInsert(s.pcs[c]) && !InRemove(s.pcs[c]) && !InIter(s.pcs[c]) && !OutsideMap(s.pcs[c])
    ensures var pc' := LookupStep(home, s, c).pcs[c]; pc' == s.pcs[c] || LookupPath(s.pcs[c], pc')
  {
    match s.pcs[c] {
      case TakeFlag(op, k) =>
      case LoadHead(op, k) =>
      case Walk(op, k, head, prev, cur, i) =>
        WalkFollows(s, c, op, k, head, prev, cur, i);
        assert LookupStep(home, s, c) == WalkOn(s, c, op, k, head, prev, cur, i);
      case GuardLock(k, p, i, exclusive) =>
        if exclusive {
          assert LookupStep(home, s, c) == AcquireRef(s, home(k), Event.Lock(c), GiveFlag(k, KeepMut(p)));
        } else {
          assert LookupStep(home, s, c) == AcquireRef(s, home(k), Join(c), GiveFlag(k, KeepRef(p)));
        }
      case GiveFlag(k, after) =>
      case MapUnlock(k, after) =>
        assert LookupStep(home, s, c) == Release(s, Event.Leave(c), AfterMap(k, after));
    }
  }

  lemma InsertFollows<K>(home: K -> nat, s: State<K>, c: nat, at: nat)
    requires c < |s.pcs| && InInsert(s.pcs[c])
    ensures var pc' := InsertStep(home, s, c, at).pcs[c]; pc' == s.pcs[c] || InsertPath(s.pcs[c], pc')
  {
    match s.pcs[c] {
      case InsRef(k, p, i) =>
      case InsDrop(k, p, i) =>
      case InsUnref(k, p, i) =>
      case InsWrite(k, p, i) =>
      case InsAlloc(k, head) =>
      case InsLink(k, p) =>
      case AddLen(k) =>
    }
  }

  lemma RemoveFollows<K>(home: K -> nat, s: State<K>, c: nat)
    requires c < |s.pcs| && InRemove(s.pcs[c])
    ensures var pc' := RemoveStep(home, s, c).pcs[c]; pc' == s.pcs[c] || RemovePath(s.pcs[c], pc')
  {
    match s.pcs[c] {
      case RemNext(k, prev, p, i) =>
      case RemStore(k, prev, p, next, i) =>
      case SubLen(k, p) =>
      case FreeLock(k, p) =>
      case FreeItem(k, p) =>
      case FreeUnlock(k, v) =>
    }
  }

  lemma IterFollows<K>(s: State<K>, c: nat, drop: bool)
    requires c < |s.pcs| && InIter(s.pcs[c])
    ensures var pc' := IterStep(s, c, drop).pcs[c]; pc'.Idle? || InIter(pc')
  {
    match s.pcs[c] {
      case IterLock =>
      case IterAdvance(b, out) =>
      case IterReady(b, cur, i, out) =>
      case IterWait(b, cur, i, out) =>
      case IterRead(b, cur, i, out) =>
    }
  }

  lemma OutsideFollows<K>(home: K -> nat, s: State<K>, c: nat, call: Call<K>, drop: bool, v: nat)
    requires c < |s.pcs| && OutsideMap(s.pcs[c])
    ensures var pc' := OutsideStep(home, s, c, call, drop, v).pcs[c]; pc' == s.pcs[c] || OuterPath(s.pcs[c], pc')
  {
    match s.pcs[c] {
      case Idle =>
      case MapLock(op, k) =>
      case GuardRef(k, p) =>
      case GuardMut(k, p) =>
    }
  }

  lemma StepFollows<K>(home: K -> nat, s: State<K>, a: Act<K>)
    requires a.c < |s.pcs|
    ensures Follows(s.pcs[a.c], Step(home, s, a).pcs[a.c])
  {
    if InInsert(s.pcs[a.c]) {
      InsertFollows(home, s, a.c, a.at);
    } else if InRemove(s.pcs[a.c]) {
      RemoveFollows(home, s, a.c);
    } else if InIter(s.pcs[a.c]) {
      IterFollows(s, a.c, a.drop);
    } else if OutsideMap(s.pcs[a.c]) {
      OutsideFollows(home, s, a.c, a.call, a.drop, a.v);
    } else {
      LookupFollows(home, s, a.c);
    }
  }
}
