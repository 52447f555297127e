/** Three runs of the map that end in a surprise. */
module MapRuns {
  import opened MapMachine
  import opened MapInvariant
  import opened MapSafety
  import opened MapRefinement
  import opened MapRemoval
  import opened RwLock
  import opened Wrappers
  import opened Words

  lemma Two<K>(home: K -> nat, s: State<K>, a: Act<K>, b: Act<K>)
    ensures Exec(home, s, [a, b]) == Step(home, Step(home, s, a), b)
  {
    assert [a, b][1..] == [b] && [b][1..] == [];
    assert Exec(home, s, [a, b]) == Exec(home, Step(home, s, a), [b]);
    assert Exec(home, Step(home, s, a), [b]) == Exec(home, Step(home, Step(home, s, a), b), []);
  }

  lemma Three<K>(home: K -> nat, s: State<K>, a: Act<K>, b: Act<K>, c: Act<K>)
    ensures Exec(home, s, [a, b, c]) == Step(home, Step(home, Step(home, s, a), b), c)
  {
    assert [a, b, c] == [a] + [b, c];
    assert Exec(home, s, [a] + [b, c]) == Exec(home, Step(home, s, a), ([a] + [b, c])[1..]);
    assert ([a] + [b, c])[1..] == [b, c];
    Two(home, Step(home, s, a), b, c);
  }

  // ---- the phases of a call that nobody disturbs ----

  /** The five steps of a call up to its decision at the head of the list. */
  function LookupActs<K>(c: nat, op: Op, k: K, v: nat): seq<Act<K>> {
    var a := Act(c, Do(op, k), 1, false, v);
    [a, a] + [a, a, a]
  }

  lemma Calls<K>(home: K -> nat, s: State<K>, a: Act<K>)
    requires a.c < |s.pcs| && s.pcs[a.c].Idle? && a.call.Do?
    ensures Step(home, s, a) == s.(args := s.args[a.c := a.v], pcs := s.pcs[a.c := MapLock(a.call.op, a.call.k)])
  {
  }

  lemma Joins<K>(home: K -> nat, s: State<K>, a: Act<K>)
    requires a.c < |s.pcs| && s.pcs[a.c].MapLock? && Apply(s.mapLock, Join(a.c)).Some?
    ensures Step(home, s, a) == s.(mapLock := Apply(s.mapLock, Join(a.c)).value,
                                   pcs := s.pcs[a.c := TakeFlag(s.pcs[a.c].op, s.pcs[a.c].k)])
  {
    assert Step(home, s, a) == Acquire(s, Join(a.c), TakeFlag(s.pcs[a.c].op, s.pcs[a.c].k));
  }

  /** Where the decision at the head of the list leads. */
  function Decision<K>(op: Op, k: K, p: nat): Pc<K> {
    if p == NULL then NotFound(op, k, NULL) else Found(op, k, NULL, p, 0)
  }

  lemma LastWrite<T>(items: seq<T>, i: nat, x: T, y: T)
    requires i < |items|
    ensures items[i := x][i := y] == items[i := y]
  {
  }

  lemma Enters<K>(home: K -> nat, s: State<K>, c: nat, op: Op, k: K, v: nat)
    requires c < |s.pcs| && s.pcs[c].Idle? && Apply(s.mapLock, Join(c)).Some?
    ensures var a := Act(c, Do(op, k), 1, false, v);
            Exec(home, s, [a, a])
            == s.(mapLock := Apply(s.mapLock, Join(c)).value, args := s.args[c := v],
                  pcs := s.pcs[c := TakeFlag(op, k)])
  {
    var a := Act(c, Do(op, k), 1, false, v);
    Two(home, s, a, a);
    Calls(home, s, a);
    Joins(home, Step(home, s, a), a);
    LastWrite<Pc<K>>(s.pcs, c, MapLock(op, k), TakeFlag(op, k));
  }

  lemma TakesFlag<K>(home: K -> nat, s: State<K>, a: Act<K>, op: Op, k: K)
    requires a.c < |s.pcs| && s.pcs[a.c] == TakeFlag(op, k) && home(k) < |s.flags| && s.flags[home(k)].None?
    ensures Step(home, s, a) == s.(flags := s.flags[home(k) := Some(a.c)], pcs := s.pcs[a.c := LoadHead(op, k)])
  {
  }

  lemma LoadsHead<K>(home: K -> nat, s: State<K>, a: Act<K>, op: Op, k: K)
    requires a.c < |s.pcs| && s.pcs[a.c] == LoadHead(op, k) && home(k) < |s.heads|
    ensures var p := s.heads[home(k)]; Step(home, s, a) == s.(pcs := s.pcs[a.c := Walk(op, k, p, NULL, p, 0)])
  {
  }

  lemma Compares<K>(home: K -> nat, s: State<K>, a: Act<K>, op: Op, k: K, p: nat)
    requires a.c < |s.pcs| && s.pcs[a.c] == Walk(op, k, p, NULL, p, 0)
    requires p == NULL || (p in s.heap && s.heap[p].key == k)
    ensures var pc := Decision(op, k, p);
            Step(home, s, a) == s.(pcs := s.pcs[a.c := pc])
  {
    assert Step(home, s, a) == WalkOn(s, a.c, op, k, p, NULL, p, 0);
  }

  /** The bucket of `k` is empty or begins with the item of `k`. */
  predicate AtHead<K(==)>(home: K -> nat, s: State<K>, k: K) {
    && home(k) < |s.flags| == |s.heads| && s.flags[home(k)].None?
    && var p := s.heads[home(k)]; p == NULL || (p in s.heap && s.heap[p].key == k)
  }

  lemma ReachesHead<K>(home: K -> nat, s: State<K>, a: Act<K>, op: Op, k: K)
    requires a.c < |s.pcs| && s.pcs[a.c] == TakeFlag(op, k) && AtHead(home, s, k)
    ensures var p := s.heads[home(k)];
            Step(home, Step(home, s, a), a)
            == s.(flags := s.flags[home(k) := Some(a.c)], pcs := s.pcs[a.c := Walk(op, k, p, NULL, p, 0)])
  {
    var p := s.heads[home(k)];
    TakesFlag(home, s, a, op, k);
    LoadsHead(home, Step(home, s, a), a, op, k);
    LastWrite<Pc<K>>(s.pcs, a.c, LoadHead(op, k), Walk(op, k, p, NULL, p, 0));
  }

  lemma Decides<K>(home: K -> nat, s: State<K>, a: Act<K>, op: Op, k: K)
    requires a.c < |s.pcs| && s.pcs[a.c] == TakeFlag(op, k) && AtHead(home, s, k)
    ensures Step(home, Step(home, Step(home, s, a), a), a)
            == s.(flags := s.flags[home(k) := Some(a.c)], pcs := s.pcs[a.c := Decision(op, k, s.heads[home(k)])])
  {
    var p := s.heads[home(k)];
    ReachesHead(home, s, a, op, k);
    Compares(home, Step(home, Step(home, s, a), a), a, op, k, p);
    LastWrite<Pc<K>>(s.pcs, a.c, Walk(op, k, p, NULL, p, 0), Decision(op, k, p));
  }

  lemma LooksUp<K>(home: K -> nat, s: State<K>, c: nat, op: Op, k: K, v: nat)
    requires c < |s.pcs| && s.pcs[c].Idle? && Apply(s.mapLock, Join(c)).Some? && AtHead(home, s, k)
    ensures Exec(home, s, LookupActs(c, op, k, v))
            == s.(mapLock := Apply(s.mapLock, Join(c)).value, args := s.args[c := v],
                  flags := s.flags[home(k) := Some(c)], pcs := s.pcs[c := Decision(op, k, s.heads[home(k)])])
  {
    var a := Act(c, Do(op, k), 1, false, v);
    ExecConcat(home, s, [a, a], [a, a, a]);
    Enters(home, s, c, op, k, v);
    var s' := Exec(home, s, [a, a]);
    Three(home, s', a, a, a);
    Decides(home, s', a, op, k);
    LastWrite<Pc<K>>(s.pcs, c, TakeFlag(op, k), Decision(op, k, s.heads[home(k)]));
  }

  // ---- one item in a map with one bucket ----

  /** Item 1 with key `k` and value `v` is linked; two clients are at `pc0` and `pc1`. */
  function OneItem<K>(k: K, v: nat, lock: Lock, ref: Lock, len: nat, pc0: Pc<K>, pc1: Pc<K>,
                      args: map<nat, nat>): State<K> {
    State(lock, [None], [ref], [1], map[1 := Item(k, NULL, Present, v)], len, [pc0, pc1], args, false, [[1]], [[k]],
          map[])
  }

  /** Client 0 inserts, up to the point where it counts the new item. */
  function LinkActs<K>(k: K, v: nat): seq<Act<K>> {
    var a := Act(0, Do(Insert, k), 1, false, v);
    LookupActs(0, Insert, k, v) + [a, a, a]
  }

  lemma Prepends<K>(home: K -> nat, s: State<K>, a: Act<K>, k: K, v: nat)
    requires home(k) == 0 && a == Act(0, Do(Insert, k), 1, false, v)
    requires s == State(Group({0}), [Some(0)], [Lock.Free], [NULL], map[], 0, [InsAlloc(k, NULL), Idle], map[0 := v],
                        false, [[]], [[]], map[])
    ensures Step(home, Step(home, s, a), a)
            == OneItem(k, v, Group({0}), Lock.Free, 0, GiveFlag(k, Count), Idle, map[0 := v]).(flags := [Some(0)])
  {
    var s1 := Step(home, s, a);
    assert s1 == Alloc(s, 0, k, NULL, 1);
    assert s1 == s.(heap := map[1 := Item(k, NULL, Present, v)], held := map[1 := 0], pcs := [InsLink(k, 1), Idle]);
    assert Step(home, s1, a) == Link(s1, 0, 0, k, 1);
    assert [1] + s1.chains[0] == [1] && [k] + s1.keys[0] == [k] && s1.held - {1} == map[];
  }

  lemma FindsNothing<K>(home: K -> nat, k: K, v: nat)
    requires home(k) == 0
    ensures Exec(home, Init<K>(1, 2), LookupActs(0, Insert, k, v))
            == State(Group({0}), [Some(0)], [Lock.Free], [NULL], map[], 0, [InsAlloc(k, NULL), Idle], map[0 := v],
                     false, [[]], [[]], map[])
  {
    LooksUp(home, Init<K>(1, 2), 0, Insert, k, v);
  }

  lemma LinksIt<K>(home: K -> nat, k: K, v: nat)
    requires home(k) == 0
    ensures Exec(home, Init<K>(1, 2), LinkActs(k, v))
            == OneItem(k, v, Group({0}), Lock.Free, 0, AddLen(k), Idle, map[0 := v])
  {
    var a := Act(0, Do(Insert, k), 1, false, v);
    var s := Init<K>(1, 2);
    FindsNothing(home, k, v);
    ExecConcat(home, s, LookupActs(0, Insert, k, v), [a, a, a]);
    var s5 := Exec(home, s, LookupActs(0, Insert, k, v));
    Three(home, s5, a, a, a);
    Prepends(home, s5, a, k, v);
    GivesFlag(home, k, v);
  }

  lemma GivesFlag<K>(home: K -> nat, k: K, v: nat)
    requires home(k) == 0
    ensures var s := OneItem(k, v, Group({0}), Lock.Free, 0, GiveFlag(k, Count), Idle, map[0 := v]);
            Step(home, s.(flags := [Some(0)]), Act(0, Do(Insert, k), 1, false, v)) == s.(pcs := [AddLen(k), Idle])
  {
  }

  /** Another client removes the new item before it has been counted: `len` wraps. */
  lemma LenWraps<K>(home: K -> nat, k: K, v: nat) returns (sched: seq<Act<K>>)
    requires home(k) == 0
    ensures |sched| == 16
    ensures var s := Run(home, 1, 2, sched); s.chains == [[]] && s.len == USIZE_MAX
  {
    LinksIt(home, k, v);
    var b := Act(1, Do(Remove, k), 1, false, 0);
    var s := OneItem(k, v, Group({0}), Lock.Free, 0, AddLen(k), Idle, map[0 := v]);
    LooksUp(home, s, 1, Remove, k, 0);
    var s5 := Exec(home, s, LookupActs(1, Remove, k, 0));
    assert s5.pcs == [AddLen(k), RemNext(k, NULL, 1, 0)];
    Three(home, s5, b, b, b);
    RemovesUncounted(home, s5, b, k, v);
    ExecConcat(home, s, LookupActs(1, Remove, k, 0), [b, b, b]);
    ExecConcat(home, Init<K>(1, 2), LinkActs(k, v), LookupActs(1, Remove, k, 0) + [b, b, b]);
    sched := LinkActs(k, v) + (LookupActs(1, Remove, k, 0) + [b, b, b]);
  }

  lemma RemovesUncounted<K>(home: K -> nat, s: State<K>, b: Act<K>, k: K, v: nat)
    requires home(k) == 0 && b.c == 1 && s.len == 0 && s.heap == map[1 := Item(k, NULL, Present, v)]
    requires s.pcs == [AddLen(k), RemNext(k, NULL, 1, 0)] && s.heads == [1] && s.chains == [[1]] && s.keys == [[k]]
    ensures var s' := Step(home, Step(home, Step(home, s, b), b), b); s'.chains == [[]] && s'.len == USIZE_MAX
  {
    var s1 := Step(home, s, b);
    assert s1 == s.(pcs := [AddLen(k), RemStore(k, NULL, 1, NULL, 0)]);
    var s2 := Step(home, s1, b);
    assert s2 == Unlink(s1, 1, 0, k, NULL, 1, NULL, 0);
    assert s2.chains == [[]] && s2.len == 0 && s2.pcs[1] == SubLen(k, 1);
  }

  // ---- a remove that returns something else ----

  /** Client 0 has inserted `v`; client 1 has a mutable guard. */
  lemma Guards<K>(home: K -> nat, k: K, v: nat) returns (sched: seq<Act<K>>)
    requires home(k) == 0
    ensures Exec(home, Init<K>(1, 2), sched)
            == OneItem(k, v, Lock.Free, Exclusive(1), 1, Idle, GuardMut(k, 1), map[0 := v, 1 := 0])
  {
    var a, b := Act(0, Do(Insert, k), 1, false, v), Act(1, Do(GetMut, k), 1, false, 0);
    LinksIt(home, k, v);
    var s := OneItem(k, v, Group({0}), Lock.Free, 0, AddLen(k), Idle, map[0 := v]);
    Counts(home, k, v);
    var s1 := OneItem(k, v, Lock.Free, Lock.Free, 1, Idle, Idle, map[0 := v]);
    LooksUp(home, s1, 1, GetMut, k, 0);
    var s2 := Exec(home, s1, LookupActs(1, GetMut, k, 0));
    assert s2 == OneItem(k, v, Group({1}), Lock.Free, 1, Idle, GuardLock(k, 1, 0, true),
                         map[0 := v, 1 := 0]).(flags := [Some(1)]);
    GetsGuard(home, k, v, s2);
    ExecConcat(home, s1, LookupActs(1, GetMut, k, 0), [b, b, b]);
    ExecConcat(home, s, [a, a], LookupActs(1, GetMut, k, 0) + [b, b, b]);
    ExecConcat(home, Init<K>(1, 2), LinkActs(k, v), [a, a] + (LookupActs(1, GetMut, k, 0) + [b, b, b]));
    sched := LinkActs(k, v) + ([a, a] + (LookupActs(1, GetMut, k, 0) + [b, b, b]));
  }

  lemma Counts<K>(home: K -> nat, k: K, v: nat)
    ensures var a := Act(0, Do(Insert, k), 1, false, v);
            Exec(home, OneItem(k, v, Group({0}), Lock.Free, 0, AddLen(k), Idle, map[0 := v]), [a, a])
            == OneItem(k, v, Lock.Free, Lock.Free, 1, Idle, Idle, map[0 := v])
  {
    var a := Act(0, Do(Insert, k), 1, false, v);
    var s := OneItem(k, v, Group({0}), Lock.Free, 0, AddLen(k), Idle, map[0 := v]);
    Two(home, s, a, a);
    assert Step(home, s, a) == s.(len := 1, pcs := [MapUnlock(k, After.Leave), Idle]);
  }

  lemma LocksGuard<K>(home: K -> nat, s: State<K>, b: Act<K>, k: K)
    requires home(k) == 0 && b.c == 1 && s.pcs == [Idle, GuardLock(k, 1, 0, true)] && s.refs == [Lock.Free]
    ensures Step(home, s, b) == s.(refs := [Exclusive(1)], pcs := [Idle, GiveFlag(k, KeepMut(1))])
  {
  }

  lemma GetsGuard<K>(home: K -> nat, k: K, v: nat, s: State<K>)
    requires home(k) == 0
    requires s == OneItem(k, v, Group({1}), Lock.Free, 1, Idle, GuardLock(k, 1, 0, true),
                          map[0 := v, 1 := 0]).(flags := [Some(1)])
    ensures var b := Act(1, Do(GetMut, k), 1, false, 0);
            Exec(home, s, [b, b, b])
            == OneItem(k, v, Lock.Free, Exclusive(1), 1, Idle, GuardMut(k, 1), map[0 := v, 1 := 0])
  {
    var b := Act(1, Do(GetMut, k), 1, false, 0);
    Three(home, s, b, b, b);
    LocksGuard(home, s, b, k);
    var s1 := s.(refs := [Exclusive(1)], pcs := [Idle, GiveFlag(k, KeepMut(1))]);
    assert Step(home, s1, b) == s1.(flags := [None], pcs := [Idle, MapUnlock(k, KeepMut(1))]);
  }

  lemma AboutToUnlink<K>(home: K -> nat, k: K, v: nat) returns (sched: seq<Act<K>>)
    requires home(k) == 0
    ensures var s := Run(home, 1, 2, sched);
            s.pcs == [RemStore(k, NULL, 1, NULL, 0), GuardMut(k, 1)] && s.heap == map[1 := Item(k, NULL, Present, v)]
  {
    var front := Guards(home, k, v);
    var a := Act(0, Do(Remove, k), 1, false, 0);
    var s := OneItem(k, v, Lock.Free, Exclusive(1), 1, Idle, GuardMut(k, 1), map[0 := v, 1 := 0]);
    LooksUp(home, s, 0, Remove, k, 0);
    var s5 := Exec(home, s, LookupActs(0, Remove, k, 0));
    LoadsNext(home, s5, a, k);
    assert Exec(home, s5, [a]) == Exec(home, Step(home, s5, a), [a][1..]);
    ExecConcat(home, s, LookupActs(0, Remove, k, 0), [a]);
    ExecConcat(home, Init<K>(1, 2), front, LookupActs(0, Remove, k, 0) + [a]);
    sched := front + (LookupActs(0, Remove, k, 0) + [a]);
  }

  lemma LoadsNext<K>(home: K -> nat, s: State<K>, a: Act<K>, k: K)
    requires a.c == 0 && s.pcs == [RemNext(k, NULL, 1, 0), GuardMut(k, 1)]
    requires 1 in s.heap && s.heap[1].next == NULL
    ensures Step(home, s, a) == s.(pcs := [RemStore(k, NULL, 1, NULL, 0), GuardMut(k, 1)])
  {
  }

  /** Client 1 has a mutable guard on the entry of `k`, with value `v`, when client 0 unlinks it,
      and writes `w`; the remove returns `w`. */
  lemma RemoveReturnsAnotherValue<K(!new)>(home: K -> nat, k: K, v: nat, w: nat)
      returns (sched: seq<Act<K>>, a: Act<K>, after: seq<Act<K>>)
    requires Homes(home, 1)
    ensures var s, m := Run(home, 1, 2, sched), Built(home, 1, 2, sched);
            && s.pcs == [RemStore(k, NULL, 1, NULL, 0), GuardMut(k, 1)] && k in m && m[k] == v
            && a.c == 0 && Reads(home, Step(home, s, a), after, 0) == Some(w)
  {
    sched := AboutToUnlink(home, k, v);
    a := Act(0, Do(Remove, k), 1, false, 0);
    var s := Run(home, 1, 2, sched);
    RunIsSafe(home, 1, 2, sched);
    RemoveTakesTheEntry(home, 1, 2, sched, 0);
    Unlinks(home, s, a);
    after := ReadsWhatIsWritten(home, Step(home, s, a), 0, 1, k, 1, w);
  }
}
