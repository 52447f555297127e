/** What one call contributes to the map. */
module MapCalls {
  import opened MapMachine
  import opened MapInvariant
  import opened MapMemory
  import opened MapPaths
  import opened MapSafety
  import opened MapRefinement
  import opened MapRemoval
  import opened RwLock
  import opened Wrappers

  /** What one step does to the map, if client `c` makes it. */
  ghost function OwnEvent<K(!new)>(home: K -> nat, s: State<K>, a: Act<K>, c: nat): seq<MapEvent<K>> {
    if a.c == c && EventOf(home, s, a) != Quiet then [EventOf(home, s, a)] else []
  }

  /** What the steps of client `c` do to the map during `sched`. */
  ghost function OwnEvents<K(!new)>(home: K -> nat, s: State<K>, sched: seq<Act<K>>, c: nat): seq<MapEvent<K>>
    decreases sched
  {
    if sched == [] then []
    else OwnEvent(home, s, sched[0], c) + OwnEvents(home, Step(home, s, sched[0]), sched[1..], c)
  }

  /** A call has returned: its client is idle, or has the guard that get and get_mut return. */
  predicate HasReturned<K>(pc: Pc<K>) {
    pc.Idle? || pc.GuardRef? || pc.GuardMut?
  }

  /** Client `c` is in the middle of a call all the time before the end of `sched`. */
  predicate Busy<K(==)>(home: K -> nat, s: State<K>, sched: seq<Act<K>>, c: nat)
    decreases sched
  {
    sched == [] || (c < |s.pcs| && !HasReturned(s.pcs[c]) && Busy(home, Step(home, s, sched[0]), sched[1..], c))
  }

  /** Up to the decision of the lookup. */
  predicate LooksFor<K(==)>(pc: Pc<K>, op: Op, k: K) {
    match pc
    case MapLock(o, q) => o == op && q == k
    case TakeFlag(o, q) => o == op && q == k
    case LoadHead(o, q) => o == op && q == k
    case Walk(o, q, _, _, _, _) => o == op && q == k
    case _ => false
  }

  lemma LooksOn<K>(pc: Pc<K>, pc': Pc<K>, op: Op, k: K)
    requires LooksFor(pc, op, k) && Follows(pc, pc')
    ensures LooksFor(pc', op, k)
            || (pc.Walk? && (pc' == NotFound(op, k, pc.head) || pc' == Found(op, k, pc.prev, pc.cur, pc.i)))
  {
  }

  lemma OthersStep<K(!new)>(home: K -> nat, s: State<K>, a: Act<K>, c: nat)
    requires Inv(home, s) && Homes(home, |s.heads|) && c < |s.pcs| && (a.c == c ==> !s.pcs[c].Idle?)
    ensures var s' := Step(home, s, a); Arg(s', c) == Arg(s, c) && (a.c != c ==> s'.pcs[c] == s.pcs[c])
  {
    if a.c < |s.pcs| {
      StepMovesOne(home, s, a);
    }
  }

  // ---- the lookup that every call begins with ----

  /** The number of steps before the one with which client `c` ends its walk; all, if it does not. */
  function DecisionAt<K(==)>(home: K -> nat, s: State<K>, sched: seq<Act<K>>, c: nat): (i: nat)
    ensures i <= |sched|
    decreases sched
  {
    if sched == [] then 0
    else
      var s1 := Step(home, s, sched[0]);
      if sched[0].c == c && c < |s.pcs| && s.pcs[c].Walk? && !s1.pcs[c].Walk? then 0
      else 1 + DecisionAt(home, s1, sched[1..], c)
  }

  /** With step `a` client `c` ends its walk. */
  predicate Decides<K(==)>(home: K -> nat, s: State<K>, a: Act<K>, c: nat) {
    a.c == c && c < |s.pcs| && s.pcs[c].Walk? && !Step(home, s, a).pcs[c].Walk?
  }

  lemma {:induction false} DecisionSplits<K>(home: K -> nat, s: State<K>, sched: seq<Act<K>>, c: nat)
    requires DecisionAt(home, s, sched, c) < |sched|
    ensures var i := DecisionAt(home, s, sched, c);
            DecisionAt(home, s, sched[..i], c) == i && Decides(home, Exec(home, s, sched[..i]), sched[i], c)
    decreases sched
  {
    var i := DecisionAt(home, s, sched, c);
    if !Decides(home, s, sched[0], c) {
      DecisionSplits(home, Step(home, s, sched[0]), sched[1..], c);
      assert sched[..i][1..] == sched[1..][..i - 1];
    }
  }

  lemma {:induction false} OwnEventsConcat<K(!new)>(home: K -> nat, s: State<K>, first: seq<Act<K>>,
                                                    second: seq<Act<K>>, c: nat)
    ensures OwnEvents(home, s, first + second, c)
            == OwnEvents(home, s, first, c) + OwnEvents(home, Exec(home, s, first), second, c)
    decreases first
  {
    if first == [] {
      assert first + second == second;
    } else {
      assert (first + second)[1..] == first[1..] + second;
      var s1 := Step(home, s, first[0]);
      OwnEventsConcat(home, s1, first[1..], second, c);
      var e, x, y := OwnEvent(home, s, first[0], c), OwnEvents(home, s1, first[1..], c),
                     OwnEvents(home, Exec(home, s, first), second, c);
      assert e + (x + y) == (e + x) + y;
    }
  }

  lemma {:induction false} BusyConcat<K>(home: K -> nat, s: State<K>, first: seq<Act<K>>, second: seq<Act<K>>, c: nat)
    requires Busy(home, s, first + second, c)
    ensures Busy(home, Exec(home, s, first), second, c)
    decreases first
  {
    if first == [] {
      assert first + second == second;
    } else {
      assert (first + second)[1..] == first[1..] + second;
      BusyConcat(home, Step(home, s, first[0]), first[1..], second, c);
    }
  }

  /** What the step that ends the walk has found out about the list at that moment. */
  ghost predicate Decided<K(!new)>(home: K -> nat, d: State<K>, d1: State<K>, c: nat, op: Op, k: K) {
    && c < |d.pcs| && c < |d1.pcs| && d.pcs[c].Walk?
    && var pc := d.pcs[c];
       || (d1.pcs[c] == NotFound(op, k, pc.head) && Absent(home, d, k))
       || (d1.pcs[c] == Found(op, k, pc.prev, pc.cur, pc.i) && Holds(home, d, k, pc.cur, pc.i))
  }

  lemma WalkMoves<K(!new)>(home: K -> nat, s: State<K>, a: Act<K>, op: Op, k: K)
    requires Inv(home, s) && a.c < |s.pcs| && LooksFor(s.pcs[a.c], op, k) && s.pcs[a.c].Walk?
    ensures var s' := Step(home, s, a); s'.pcs[a.c].Walk? || Decided(home, s, s', a.c, op, k)
  {
    var pc := s.pcs[a.c];
    WalkDecides(home, s, a.c, pc);
    assert Step(home, s, a) == WalkOn(s, a.c, op, k, pc.head, pc.prev, pc.cur, pc.i);
  }

  lemma WalkEnds<K(!new)>(home: K -> nat, s: State<K>, a: Act<K>, op: Op, k: K)
    requires Inv(home, s) && Homes(home, |s.heads|) && a.c < |s.pcs| && LooksFor(s.pcs[a.c], op, k)
    ensures var s' := Step(home, s, a);
            && Inv(home, s') && EventOf(home, s, a) == Quiet
            && if Decides(home, s, a, a.c) then Decided(home, s, s', a.c, op, k) else LooksFor(s'.pcs[a.c], op, k)
  {
    StepKeepsInv(home, s, a);
    StepFollows(home, s, a);
    LooksOn(s.pcs[a.c], Step(home, s, a).pcs[a.c], op, k);
    if s.pcs[a.c].Walk? { WalkMoves(home, s, a, op, k); }
  }

  lemma LooksOnward<K(!new)>(home: K -> nat, s: State<K>, a: Act<K>, c: nat, op: Op, k: K)
    requires Inv(home, s) && Homes(home, |s.heads|) && c < |s.pcs| && LooksFor(s.pcs[c], op, k)
    requires !Decides(home, s, a, c)
    ensures Inv(home, Step(home, s, a)) && LooksFor(Step(home, s, a).pcs[c], op, k)
    ensures a.c == c ==> EventOf(home, s, a) == Quiet
  {
    if a.c == c {
      WalkEnds(home, s, a, op, k);
    } else {
      StepKeepsInv(home, s, a);
      OthersStep(home, s, a, c);
    }
  }

  /** A lookup does nothing to the map before it decides. */
  lemma {:induction false} LooksQuietly<K(!new)>(home: K -> nat, s: State<K>, sched: seq<Act<K>>, c: nat, op: Op, k: K)
    requires Inv(home, s) && Homes(home, |s.heads|) && c < |s.pcs| && LooksFor(s.pcs[c], op, k)
    requires DecisionAt(home, s, sched, c) == |sched|
    ensures var s' := Exec(home, s, sched);
            && Inv(home, s') && |s'.heads| == |s.heads| && c < |s'.pcs| && LooksFor(s'.pcs[c], op, k)
            && OwnEvents(home, s, sched, c) == []
    decreases sched
  {
    if sched != [] {
      LooksOnward(home, s, sched[0], c, op, k);
      LooksQuietly(home, Step(home, s, sched[0]), sched[1..], c, op, k);
    }
  }

  lemma {:induction false} LooksUnread<K(!new)>(home: K -> nat, s: State<K>, first: seq<Act<K>>, second: seq<Act<K>>,
                                                c: nat, op: Op, k: K)
    requires Inv(home, s) && Homes(home, |s.heads|) && c < |s.pcs| && LooksFor(s.pcs[c], op, k)
    requires DecisionAt(home, s, first, c) == |first|
    ensures Reads(home, s, first + second, c) == Reads(home, Exec(home, s, first), second, c)
    decreases first
  {
    if first == [] {
      assert first + second == second;
    } else {
      assert (first + second)[1..] == first[1..] + second;
      LooksOnward(home, s, first[0], c, op, k);
      LooksUnread(home, Step(home, s, first[0]), first[1..], second, c, op, k);
    }
  }

  /** What comes after the decision, whose step leads from `d` to `d1`. */
  ghost predicate Afterwards<K(!new)>(home: K -> nat, s: State<K>, sched: seq<Act<K>>, c: nat, d1: State<K>,
                                      rest: seq<Act<K>>) {
    && Busy(home, d1, rest, c) && Exec(home, s, sched) == Exec(home, d1, rest)
    && OwnEvents(home, s, sched, c) == OwnEvents(home, d1, rest, c)
    && Reads(home, s, sched, c) == Reads(home, d1, rest, c)
  }

  /** One step by client `c` that is neither an event nor a return. */
  lemma FirstStep<K(!new)>(home: K -> nat, d: State<K>, sched: seq<Act<K>>, c: nat, op: Op, k: K)
    requires c < |d.pcs| && LooksFor(d.pcs[c], op, k) && sched != [] && Busy(home, d, sched, c)
    ensures Afterwards(home, d, sched, c, Step(home, d, sched[0]), sched[1..])
  {
  }

  lemma Composed<K(!new)>(home: K -> nat, s: State<K>, first: seq<Act<K>>, second: seq<Act<K>>, c: nat, d: State<K>,
                          d1: State<K>, rest: seq<Act<K>>)
    requires d == Exec(home, s, first) && Afterwards(home, d, second, c, d1, rest)
    requires OwnEvents(home, s, first, c) == [] && Reads(home, s, first + second, c) == Reads(home, d, second, c)
    ensures Afterwards(home, s, first + second, c, d1, rest)
  {
    ExecConcat(home, s, first, second);
    OwnEventsConcat(home, s, first, second, c);
  }

  lemma LookupThenRest<K(!new)>(home: K -> nat, s: State<K>, first: seq<Act<K>>, second: seq<Act<K>>, c: nat, op: Op,
                                k: K, d: State<K>)
    requires Inv(home, s) && Homes(home, |s.heads|) && Busy(home, s, first + second, c)
    requires c < |s.pcs| && LooksFor(s.pcs[c], op, k) && second != []
    requires DecisionAt(home, s, first, c) == |first| && d == Exec(home, s, first)
    ensures Inv(home, d) && |d.heads| == |s.heads| && c < |d.pcs| && LooksFor(d.pcs[c], op, k)
    ensures Afterwards(home, s, first + second, c, Step(home, d, second[0]), second[1..])
  {
    LooksQuietly(home, s, first, c, op, k);
    LooksUnread(home, s, first, second, c, op, k);
    BusyConcat(home, s, first, second, c);
    FirstStep(home, d, second, c, op, k);
    Composed(home, s, first, second, c, d, Step(home, d, second[0]), second[1..]);
  }

  lemma LookupThenDecision<K(!new)>(home: K -> nat, s: State<K>, first: seq<Act<K>>, second: seq<Act<K>>, c: nat,
                                    op: Op, k: K, d: State<K>)
    requires Inv(home, s) && Homes(home, |s.heads|) && Busy(home, s, first + second, c)
    requires c < |s.pcs| && LooksFor(s.pcs[c], op, k) && second != []
    requires DecisionAt(home, s, first, c) == |first| && d == Exec(home, s, first) && Decides(home, d, second[0], c)
    ensures var d1 := Step(home, d, second[0]);
            && Inv(home, d) && Inv(home, d1) && |d1.heads| == |s.heads| && Decided(home, d, d1, c, op, k)
            && Afterwards(home, s, first + second, c, d1, second[1..])
  {
    LookupThenRest(home, s, first, second, c, op, k, d);
    WalkEnds(home, d, second[0], op, k);
  }

  /** A call up to its decision: nothing has been done, and the list is as the decision says. */
  lemma LookupSplits<K(!new)>(home: K -> nat, s: State<K>, sched: seq<Act<K>>, c: nat, op: Op, k: K)
      returns (d: State<K>, d1: State<K>, rest: seq<Act<K>>)
    requires Inv(home, s) && Homes(home, |s.heads|) && Busy(home, s, sched, c)
    requires c < |s.pcs| && LooksFor(s.pcs[c], op, k) && DecisionAt(home, s, sched, c) < |sched|
    ensures d == Exec(home, s, sched[..DecisionAt(home, s, sched, c)])
    ensures Inv(home, d) && Inv(home, d1) && |d1.heads| == |s.heads| && Decided(home, d, d1, c, op, k)
    ensures Afterwards(home, s, sched, c, d1, rest)
  {
    var i := DecisionAt(home, s, sched, c);
    DecisionSplits(home, s, sched, c);
    var first, second := sched[..i], sched[i..];
    assert first + second == sched && second[0] == sched[i];
    d := Exec(home, s, first);
    LookupThenDecision(home, s, first, second, c, op, k, d);
    d1, rest := Step(home, d, second[0]), second[1..];
  }

  // ---- insert ----

  /** An insert of `k` that has not put its value yet. */
  predicate ToPut<K(==)>(pc: Pc<K>, k: K) {
    LooksFor(pc, Insert, k) || (InInsert(pc) && !pc.AddLen? && pc.k == k)
  }

  /** One that has, and is leaving or has returned. */
  predicate HasPut<K(==)>(pc: Pc<K>, k: K) {
    match pc
    case GiveFlag(q, after) => q == k && (after.Leave? || after.Count?)
    case AddLen(q) => q == k
    case MapUnlock(q, after) => q == k && after.Leave?
    case Idle => true
    case _ => false
  }

  lemma LinkPutsArg<K(!new)>(home: K -> nat, s: State<K>, a: Act<K>)
    requires Inv(home, s) && Homes(home, |s.heads|) && Fresh(s) && a.c < |s.pcs| && s.pcs[a.c].InsLink?
    ensures var pc := s.pcs[a.c];
            EventOf(home, s, a) == Put(pc.k, Arg(s, a.c)) && Step(home, s, a).pcs[a.c] == GiveFlag(pc.k, Count)
  {
    var pc := s.pcs[a.c];
    assert FreshOk(s, a.c);
    assert Step(home, s, a) == Link(s, a.c, home(pc.k), pc.k, pc.p);
  }

  lemma WritePutsArg<K(!new)>(home: K -> nat, s: State<K>, a: Act<K>)
    requires Inv(home, s) && a.c < |s.pcs| && s.pcs[a.c].InsWrite?
    ensures var pc := s.pcs[a.c];
            EventOf(home, s, a) == Put(pc.k, Arg(s, a.c)) && Step(home, s, a).pcs[a.c] == GiveFlag(pc.k, After.Leave)
  {
    var pc := s.pcs[a.c];
    assert ClientOk(home, s, a.c) && WalkOk(home, s, pc);
    assert Step(home, s, a) == WriteValue(s, a.c, pc.p, GiveFlag(pc.k, After.Leave));
  }

  lemma InsertFollowsPath<K>(pc: Pc<K>, pc': Pc<K>, k: K)
    requires ToPut(pc, k) && !pc.InsLink? && !pc.InsWrite? && Follows(pc, pc')
    ensures ToPut(pc', k)
  {
    if LooksFor(pc, Insert, k) { LooksOn(pc, pc', Insert, k); }
  }

  lemma InsertMoves<K(!new)>(home: K -> nat, s: State<K>, a: Act<K>, k: K)
    requires Inv(home, s) && Homes(home, |s.heads|) && Fresh(s) && a.c < |s.pcs| && ToPut(s.pcs[a.c], k)
    ensures var e, pc' := EventOf(home, s, a), Step(home, s, a).pcs[a.c];
            (ToPut(pc', k) && e == Quiet) || (HasPut(pc', k) && e == Put(k, Arg(s, a.c)))
  {
    if s.pcs[a.c].InsLink? {
      LinkPutsArg(home, s, a);
    } else if s.pcs[a.c].InsWrite? {
      WritePutsArg(home, s, a);
    } else {
      StepFollows(home, s, a);
      InsertFollowsPath(s.pcs[a.c], Step(home, s, a).pcs[a.c], k);
    }
  }

  lemma InsertLeaves<K(!new)>(home: K -> nat, s: State<K>, a: Act<K>, k: K)
    requires a.c < |s.pcs| && HasPut(s.pcs[a.c], k) && !s.pcs[a.c].Idle?
    ensures HasPut(Step(home, s, a).pcs[a.c], k) && EventOf(home, s, a) == Quiet
  {
    StepFollows(home, s, a);
  }

  lemma {:induction false} InsertRuns<K(!new)>(home: K -> nat, s: State<K>, sched: seq<Act<K>>, c: nat, k: K)
    requires Inv(home, s) && Homes(home, |s.heads|) && Fresh(s) && Busy(home, s, sched, c)
    requires c < |s.pcs| && (ToPut(s.pcs[c], k) || HasPut(s.pcs[c], k))
    ensures var s', own := Exec(home, s, sched), OwnEvents(home, s, sched, c);
            && c < |s'.pcs|
            && if HasPut(s.pcs[c], k) then HasPut(s'.pcs[c], k) && own == []
               else if own == [] then ToPut(s'.pcs[c], k)
               else HasPut(s'.pcs[c], k) && own == [Put(k, Arg(s, c))]
    decreases sched
  {
    if sched != [] {
      var s1 := Step(home, s, sched[0]);
      StepKeepsInv(home, s, sched[0]);
      StepStaysFresh(home, s, sched[0]);
      OthersStep(home, s, sched[0], c);
      if sched[0].c == c {
        if HasPut(s.pcs[c], k) {
          InsertLeaves(home, s, sched[0], k);
        } else {
          InsertMoves(home, s, sched[0], k);
        }
      }
      InsertRuns(home, s1, sched[1..], c, k);
    }
  }

  /** Between call and return an insert puts its own value under its own key, exactly once,
      whatever the others do. */
  lemma InsertPutsOnce<K(!new)>(home: K -> nat, buckets: nat, clients: nat, before: seq<Act<K>>, a: Act<K>,
                                sched: seq<Act<K>>)
    requires Homes(home, buckets) && a.call.Do? && a.call.op.Insert?
    requires var s := Run(home, buckets, clients, before); a.c < |s.pcs| && s.pcs[a.c].Idle?
    requires Busy(home, Step(home, Run(home, buckets, clients, before), a), sched, a.c)
    ensures var s := Step(home, Run(home, buckets, clients, before), a);
            var s', own := Exec(home, s, sched), OwnEvents(home, s, sched, a.c);
            && a.c < |s'.pcs| && (own == [] || own == [Put(a.call.k, a.v)])
            && (s'.pcs[a.c].Idle? ==> own == [Put(a.call.k, a.v)])
  {
    CallStarts(home, buckets, clients, before, a);
    InsertRuns(home, Step(home, Run(home, buckets, clients, before), a), sched, a.c, a.call.k);
  }

  lemma CallStarts<K(!new)>(home: K -> nat, buckets: nat, clients: nat, before: seq<Act<K>>, a: Act<K>)
    requires Homes(home, buckets) && a.call.Do?
    requires var s := Run(home, buckets, clients, before); a.c < |s.pcs| && s.pcs[a.c].Idle?
    ensures var s := Step(home, Run(home, buckets, clients, before), a);
            && Inv(home, s) && |s.heads| == buckets && Fresh(s) && a.c < |s.pcs|
            && s.pcs[a.c] == MapLock(a.call.op, a.call.k) && Arg(s, a.c) == a.v
  {
    RunIsSafe(home, buckets, clients, before);
    RunIsFresh(home, buckets, clients, before);
    var s := Run(home, buckets, clients, before);
    StepKeepsInv(home, s, a);
    StepStaysFresh(home, s, a);
  }

  // ---- remove ----

  /** A remove of `k` that has found its item and not unlinked it. */
  predicate ToDelete<K(==)>(pc: Pc<K>, k: K) {
    (pc.RemNext? || pc.RemStore?) && pc.k == k
  }

  /** One that has found nothing. */
  predicate HasMissed<K(==)>(pc: Pc<K>, k: K) {
    (pc.GiveFlag? || pc.MapUnlock?) && pc.k == k && pc.after.Leave?
  }

  /** One that has unlinked the item, before it reads its value. */
  predicate HasDeleted<K(==)>(pc: Pc<K>, k: K) {
    match pc
    case SubLen(q, _) => q == k
    case GiveFlag(q, after) => q == k && after.Free?
    case FreeLock(q, _) => q == k
    case FreeItem(q, _) => q == k
    case _ => false
  }

  /** One that has read the value and returns it. */
  predicate IsReturning<K(==)>(pc: Pc<K>, k: K) {
    (pc.FreeUnlock? && pc.k == k) || (pc.MapUnlock? && pc.k == k && pc.after.Return?)
  }

  lemma UnlinkDeletesKey<K(!new)>(home: K -> nat, s: State<K>, a: Act<K>)
    requires Inv(home, s) && Homes(home, |s.heads|) && a.c < |s.pcs| && s.pcs[a.c].RemStore?
    ensures var pc := s.pcs[a.c];
            EventOf(home, s, a) == Delete(pc.k) && Step(home, s, a).pcs[a.c] == SubLen(pc.k, pc.p)
  {
    Unlinks(home, s, a);
  }

  lemma RemoveMoves<K(!new)>(home: K -> nat, s: State<K>, a: Act<K>, k: K)
    requires Inv(home, s) && Homes(home, |s.heads|) && a.c < |s.pcs| && ToDelete(s.pcs[a.c], k)
    ensures var e, pc' := EventOf(home, s, a), Step(home, s, a).pcs[a.c];
            (ToDelete(pc', k) && e == Quiet) || (HasDeleted(pc', k) && e == Delete(k))
  {
    if s.pcs[a.c].RemStore? {
      UnlinkDeletesKey(home, s, a);
    } else {
      StepFollows(home, s, a);
    }
  }

  lemma MissedFollows<K>(pc: Pc<K>, pc': Pc<K>, k: K)
    requires HasMissed(pc, k) && Follows(pc, pc')
    ensures HasMissed(pc', k) || pc'.Idle?
  {
  }

  lemma DeletedFollows<K>(pc: Pc<K>, pc': Pc<K>, k: K)
    requires HasDeleted(pc, k) && Follows(pc, pc')
    ensures HasDeleted(pc', k) || (pc'.FreeUnlock? && pc'.k == k)
  {
  }

  lemma ReturningFollows<K>(pc: Pc<K>, pc': Pc<K>, k: K)
    requires IsReturning(pc, k) && Follows(pc, pc')
    ensures IsReturning(pc', k) || pc'.Idle?
  {
  }

  lemma {:induction false} ReturnsQuietly<K(!new)>(home: K -> nat, s: State<K>, sched: seq<Act<K>>, c: nat, k: K)
    requires Inv(home, s) && Homes(home, |s.heads|) && Busy(home, s, sched, c)
    requires c < |s.pcs| && (IsReturning(s.pcs[c], k) || s.pcs[c].Idle?)
    ensures var s' := Exec(home, s, sched);
            c < |s'.pcs| && (IsReturning(s'.pcs[c], k) || s'.pcs[c].Idle?) && OwnEvents(home, s, sched, c) == []
    decreases sched
  {
    if sched != [] {
      StepKeepsInv(home, s, sched[0]);
      OthersStep(home, s, sched[0], c);
      if sched[0].c == c {
        StepFollows(home, s, sched[0]);
        ReturningFollows(s.pcs[c], Step(home, s, sched[0]).pcs[c], k);
      }
      ReturnsQuietly(home, Step(home, s, sched[0]), sched[1..], c, k);
    }
  }

  lemma {:induction false} MissesQuietly<K(!new)>(home: K -> nat, s: State<K>, sched: seq<Act<K>>, c: nat, k: K)
    requires Inv(home, s) && Homes(home, |s.heads|) && Busy(home, s, sched, c)
    requires c < |s.pcs| && (HasMissed(s.pcs[c], k) || s.pcs[c].Idle?)
    ensures var s' := Exec(home, s, sched);
            && c < |s'.pcs| && (HasMissed(s'.pcs[c], k) || s'.pcs[c].Idle?)
            && OwnEvents(home, s, sched, c) == [] && Reads(home, s, sched, c).None?
    decreases sched
  {
    if sched != [] {
      StepKeepsInv(home, s, sched[0]);
      OthersStep(home, s, sched[0], c);
      if sched[0].c == c {
        StepFollows(home, s, sched[0]);
        MissedFollows(s.pcs[c], Step(home, s, sched[0]).pcs[c], k);
      }
      MissesQuietly(home, Step(home, s, sched[0]), sched[1..], c, k);
    }
  }

  lemma {:induction false} DeletedRuns<K(!new)>(home: K -> nat, s: State<K>, sched: seq<Act<K>>, c: nat, k: K)
    requires Inv(home, s) && Homes(home, |s.heads|) && Busy(home, s, sched, c)
    requires c < |s.pcs| && (HasDeleted(s.pcs[c], k) || (IsReturning(s.pcs[c], k) && s.pcs[c].FreeUnlock?))
    ensures var s', got := Exec(home, s, sched), Reads(home, s, sched, c);
            && c < |s'.pcs| && OwnEvents(home, s, sched, c) == []
            && if got.None? then HasDeleted(s'.pcs[c], k) else IsReturning(s'.pcs[c], k) || s'.pcs[c].Idle?
    decreases sched
  {
    if s.pcs[c].FreeUnlock? {
      ReturnsQuietly(home, s, sched, c, k);
    } else if sched != [] {
      StepKeepsInv(home, s, sched[0]);
      OthersStep(home, s, sched[0], c);
      if sched[0].c == c {
        StepFollows(home, s, sched[0]);
        DeletedFollows(s.pcs[c], Step(home, s, sched[0]).pcs[c], k);
      }
      DeletedRuns(home, Step(home, s, sched[0]), sched[1..], c, k);
    }
  }

  /** How far a remove of `k` that has found its item has come, from what it has done to the map and
      what it has read. */
  ghost predicate RemoveIsAt<K>(pc: Pc<K>, own: seq<MapEvent<K>>, got: Option<nat>, k: K) {
    || (own == [] && got.None? && ToDelete(pc, k))
    || (own == [Delete(k)] && got.None? && HasDeleted(pc, k))
    || (own == [Delete(k)] && got.Some? && (IsReturning(pc, k) || pc.Idle?))
  }

  lemma {:induction false} RemoveRuns<K(!new)>(home: K -> nat, s: State<K>, sched: seq<Act<K>>, c: nat, k: K)
    requires Inv(home, s) && Homes(home, |s.heads|) && Busy(home, s, sched, c)
    requires c < |s.pcs| && ToDelete(s.pcs[c], k)
    ensures var s' := Exec(home, s, sched);
            && c < |s'.pcs|
            && RemoveIsAt(s'.pcs[c], OwnEvents(home, s, sched, c), Reads(home, s, sched, c), k)
    decreases sched
  {
    if sched != [] {
      var s1 := Step(home, s, sched[0]);
      StepKeepsInv(home, s, sched[0]);
      OthersStep(home, s, sched[0], c);
      if sched[0].c == c { RemoveMoves(home, s, sched[0], k); }
      if HasDeleted(s1.pcs[c], k) {
        DeletedRuns(home, s1, sched[1..], c, k);
      } else {
        RemoveRuns(home, s1, sched[1..], c, k);
      }
    }
  }

  /** What a remove has done by the end of `sched`, with the map as it was at the decision. */
  ghost predicate RemoveOutcome<K>(pc: Pc<K>, own: seq<MapEvent<K>>, got: Option<nat>, k: K, present: bool) {
    && (own == [] || own == [Delete(k)]) && (got.Some? ==> own == [Delete(k)])
    && (!present ==> own == [])
    && (present && pc.Idle? ==> own == [Delete(k)] && got.Some?)
  }

  lemma RemoveEnds<K(!new)>(home: K -> nat, d: State<K>, d1: State<K>, rest: seq<Act<K>>, c: nat, k: K)
    requires Inv(home, d) && Inv(home, d1) && Homes(home, |d1.heads|) && Busy(home, d1, rest, c)
    requires Decided(home, d, d1, c, Remove, k)
    ensures var s' := Exec(home, d1, rest);
            && c < |s'.pcs|
            && RemoveOutcome(s'.pcs[c], OwnEvents(home, d1, rest, c), Reads(home, d1, rest, c), k, !Absent(home, d, k))
  {
    if d1.pcs[c].RemNext? {
      RemoveRuns(home, d1, rest, c, k);
      assert d.keys[home(k)][d.pcs[c].i] == k;
    } else {
      MissesQuietly(home, d1, rest, c, k);
    }
  }

  lemma RemoveDecides<K(!new)>(home: K -> nat, s: State<K>, sched: seq<Act<K>>, c: nat, k: K)
    requires Inv(home, s) && Homes(home, |s.heads|) && Busy(home, s, sched, c)
    requires c < |s.pcs| && LooksFor(s.pcs[c], Remove, k)
    ensures var i, s' := DecisionAt(home, s, sched, c), Exec(home, s, sched);
            var own, got := OwnEvents(home, s, sched, c), Reads(home, s, sched, c);
            && c < |s'.pcs|
            && if i == |sched| then own == [] && !HasReturned(s'.pcs[c])
               else RemoveOutcome(s'.pcs[c], own, got, k, !Absent(home, Exec(home, s, sched[..i]), k))
  {
    if DecisionAt(home, s, sched, c) < |sched| {
      var d, d1, rest := LookupSplits(home, s, sched, c, Remove, k);
      RemoveEnds(home, d, d1, rest, c, k);
    } else {
      LooksQuietly(home, s, sched, c, Remove, k);
    }
  }

  /** The run up to its call, and then `sched`. */
  lemma RunGoesOn<K>(home: K -> nat, buckets: nat, clients: nat, before: seq<Act<K>>, a: Act<K>, sched: seq<Act<K>>)
    ensures Run(home, buckets, clients, before + [a] + sched)
            == Exec(home, Step(home, Run(home, buckets, clients, before), a), sched)
  {
    var s := Run(home, buckets, clients, before);
    ExecConcat(home, Init<K>(buckets, clients), before + [a], sched);
    ExecConcat(home, Init<K>(buckets, clients), before, [a]);
    assert Exec(home, s, [a]) == Exec(home, Step(home, s, a), [a][1..]);
  }

  /** The map at the decision has the key if and only if the list has it. */
  lemma AbsentFromMap<K(!new)>(home: K -> nat, buckets: nat, clients: nat, sched: seq<Act<K>>, k: K)
    requires Homes(home, buckets)
    ensures var s := Run(home, buckets, clients, sched);
            Absent(home, s, k) <==> k !in Built(home, buckets, clients, sched)
  {
    RunIsSafe(home, buckets, clients, sched);
    AtomicHashMapIsAMap(home, buckets, clients, sched);
    var s := Run(home, buckets, clients, sched);
    assert BucketOk(s, home(k));
    if !Absent(home, s, k) {
      var i: nat :| i < |s.keys[home(k)]| && s.keys[home(k)][i] == k;
      HoldsLinked(home, s, k, s.chains[home(k)][i], i);
      LinkedIsEntry(home, s, Built(home, buckets, clients, sched), s.chains[home(k)][i]);
    }
  }

  /** Between call and return a remove deletes its own key at most once and does nothing else to the
      map. When it returns, it has deleted the key, and returns a value, if and only if the map had
      the key when its walk ended. */
  lemma RemoveDeletesOnce<K(!new)>(home: K -> nat, buckets: nat, clients: nat, before: seq<Act<K>>, a: Act<K>,
                                   sched: seq<Act<K>>)
    requires Homes(home, buckets) && a.call.Do? && a.call.op.Remove?
    requires var s := Run(home, buckets, clients, before); a.c < |s.pcs| && s.pcs[a.c].Idle?
    requires Busy(home, Step(home, Run(home, buckets, clients, before), a), sched, a.c)
    ensures var s := Step(home, Run(home, buckets, clients, before), a);
            var s', own := Exec(home, s, sched), OwnEvents(home, s, sched, a.c);
            var i := DecisionAt(home, s, sched, a.c);
            var m := Built(home, buckets, clients, before + [a] + sched[..i]);
            && a.c < |s'.pcs| && (own == [] || own == [Delete(a.call.k)])
            && (s'.pcs[a.c].Idle? ==>
                && i < |sched|
                && (own == [Delete(a.call.k)] <==> a.call.k in m)
                && (Reads(home, s, sched, a.c).Some? <==> a.call.k in m))
  {
    CallStarts(home, buckets, clients, before, a);
    var s := Step(home, Run(home, buckets, clients, before), a);
    RemoveDecides(home, s, sched, a.c, a.call.k);
    var i := DecisionAt(home, s, sched, a.c);
    RunGoesOn(home, buckets, clients, before, a, sched[..i]);
    AbsentFromMap(home, buckets, clients, before + [a] + sched[..i], a.call.k);
  }

  // ---- get and get_mut ----

  /** One that has found item `p`, from taking the guard lock to having the guard. */
  predicate HasFound<K(==)>(pc: Pc<K>, k: K, p: nat, exclusive: bool) {
    match pc
    case GuardLock(q, r, _, x) => q == k && r == p && x == exclusive
    case GiveFlag(q, after) => q == k && after == (if exclusive then KeepMut(p) else KeepRef(p))
    case MapUnlock(q, after) => q == k && after == (if exclusive then KeepMut(p) else KeepRef(p))
    case GuardRef(q, r) => q == k && r == p && !exclusive
    case GuardMut(q, r) => q == k && r == p && exclusive
    case _ => false
  }

  lemma FoundFollows<K>(pc: Pc<K>, pc': Pc<K>, k: K, p: nat, exclusive: bool)
    requires HasFound(pc, k, p, exclusive) && !HasReturned(pc) && Follows(pc, pc')
    ensures HasFound(pc', k, p, exclusive)
  {
  }

  lemma {:induction false} FoundRuns<K(!new)>(home: K -> nat, s: State<K>, sched: seq<Act<K>>, c: nat, k: K, p: nat,
                                              exclusive: bool)
    requires Inv(home, s) && Homes(home, |s.heads|) && Busy(home, s, sched, c)
    requires c < |s.pcs| && HasFound(s.pcs[c], k, p, exclusive)
    ensures var s' := Exec(home, s, sched); c < |s'.pcs| && HasFound(s'.pcs[c], k, p, exclusive)
    ensures OwnEvents(home, s, sched, c) == []
    decreases sched
  {
    if sched != [] {
      StepKeepsInv(home, s, sched[0]);
      OthersStep(home, s, sched[0], c);
      if sched[0].c == c {
        StepFollows(home, s, sched[0]);
        FoundFollows(s.pcs[c], Step(home, s, sched[0]).pcs[c], k, p, exclusive);
      }
      FoundRuns(home, Step(home, s, sched[0]), sched[1..], c, k, p, exclusive);
    }
  }

  /** The item of `k` in the list. */
  ghost predicate Linked<K>(home: K -> nat, s: State<K>, k: K, p: nat) {
    home(k) < |s.chains| && p in s.chains[home(k)] && p in s.heap && s.heap[p].key == k
  }

  /** What a get has come to by the end of `sched`, with the list as it was at the decision. */
  ghost predicate GetOutcome<K(!new)>(home: K -> nat, d: State<K>, pc: Pc<K>, k: K, exclusive: bool) {
    if Absent(home, d, k) then HasMissed(pc, k) || pc.Idle?
    else exists p :: Linked(home, d, k, p) && HasFound(pc, k, p, exclusive)
  }

  lemma GetEnds<K(!new)>(home: K -> nat, d: State<K>, d1: State<K>, rest: seq<Act<K>>, c: nat, exclusive: bool, k: K)
    requires Inv(home, d) && Inv(home, d1) && Homes(home, |d1.heads|) && Busy(home, d1, rest, c)
    requires Decided(home, d, d1, c, if exclusive then GetMut else Get, k)
    ensures var s' := Exec(home, d1, rest);
            c < |s'.pcs| && OwnEvents(home, d1, rest, c) == [] && GetOutcome(home, d, s'.pcs[c], k, exclusive)
  {
    if d1.pcs[c].GuardLock? {
      var p := d.pcs[c].cur;
      HoldsLinked(home, d, k, p, d.pcs[c].i);
      FoundRuns(home, d1, rest, c, k, p, exclusive);
      assert d.keys[home(k)][d.pcs[c].i] == k && Linked(home, d, k, p);
    } else {
      MissesQuietly(home, d1, rest, c, k);
    }
  }

  lemma GetDecides<K(!new)>(home: K -> nat, s: State<K>, sched: seq<Act<K>>, c: nat, exclusive: bool, k: K)
    requires Inv(home, s) && Homes(home, |s.heads|) && Busy(home, s, sched, c)
    requires c < |s.pcs| && LooksFor(s.pcs[c], if exclusive then GetMut else Get, k)
    ensures var i, s' := DecisionAt(home, s, sched, c), Exec(home, s, sched);
            && c < |s'.pcs| && OwnEvents(home, s, sched, c) == []
            && if i == |sched| then !HasReturned(s'.pcs[c])
               else GetOutcome(home, Exec(home, s, sched[..i]), s'.pcs[c], k, exclusive)
  {
    if DecisionAt(home, s, sched, c) < |sched| {
      var d, d1, rest := LookupSplits(home, s, sched, c, if exclusive then GetMut else Get, k);
      GetEnds(home, d, d1, rest, c, exclusive, k);
    } else {
      LooksQuietly(home, s, sched, c, if exclusive then GetMut else Get, k);
    }
  }

  /** The guard of that mode on item `p`, with the guard lock held in that mode. */
  ghost predicate HasGuard<K>(home: K -> nat, s: State<K>, c: nat, k: K, p: nat, exclusive: bool) {
    && c < |s.pcs| && s.pcs[c] == (if exclusive then GuardMut(k, p) else GuardRef(k, p))
    && home(k) < |s.refs|
    && if exclusive then s.refs[home(k)] == Exclusive(c)
       else s.refs[home(k)].Group? && c in s.refs[home(k)].members
  }

  lemma GuardIsLocked<K(!new)>(home: K -> nat, s: State<K>, c: nat, k: K, p: nat, exclusive: bool)
    requires Inv(home, s) && Homes(home, |s.heads|) && c < |s.pcs|
    requires HasFound(s.pcs[c], k, p, exclusive) && HasReturned(s.pcs[c])
    ensures HasGuard(home, s, c, k, p, exclusive)
  {
    assert RefOk(home, s, home(k), c);
  }

  /** When a get or get_mut returns, it has a guard, shared or mutable, on the item that the list had
      for its key when its walk ended, if and only if the map had the key at that moment; otherwise
      it returns None. It does nothing to the map. */
  lemma GetAnswersFromTheMap<K(!new)>(home: K -> nat, buckets: nat, clients: nat, before: seq<Act<K>>, a: Act<K>,
                                      sched: seq<Act<K>>)
    requires Homes(home, buckets) && a.call.Do? && (a.call.op.Get? || a.call.op.GetMut?)
    requires var s := Run(home, buckets, clients, before); a.c < |s.pcs| && s.pcs[a.c].Idle?
    requires Busy(home, Step(home, Run(home, buckets, clients, before), a), sched, a.c)
    ensures var s := Step(home, Run(home, buckets, clients, before), a);
            var s', k, i := Exec(home, s, sched), a.call.k, DecisionAt(home, s, sched, a.c);
            var upTo := before + [a] + sched[..i];
            var d, m := Run(home, buckets, clients, upTo), Built(home, buckets, clients, upTo);
            && a.c < |s'.pcs| && OwnEvents(home, s, sched, a.c) == []
            && (HasReturned(s'.pcs[a.c]) ==>
                && i < |sched|
                && (s'.pcs[a.c].Idle? <==> k !in m)
                && (k in m <==> exists p :: HasGuard(home, s', a.c, k, p, a.call.op.GetMut?)
                                            && Linked(home, d, k, p) && m[k] == d.heap[p].data))
  {
    CallStarts(home, buckets, clients, before, a);
    var s := Step(home, Run(home, buckets, clients, before), a);
    var k, i, exclusive := a.call.k, DecisionAt(home, s, sched, a.c), a.call.op.GetMut?;
    var upTo := before + [a] + sched[..i];
    GetDecides(home, s, sched, a.c, exclusive, k);
    RunGoesOn(home, buckets, clients, before, a, sched[..i]);
    AbsentFromMap(home, buckets, clients, upTo, k);
    RunKeepsInv(home, s, sched);
    var d, s' := Run(home, buckets, clients, upTo), Exec(home, s, sched);
    if HasReturned(s'.pcs[a.c]) && !Absent(home, d, k) {
      var p :| Linked(home, d, k, p) && HasFound(s'.pcs[a.c], k, p, exclusive);
      GuardIsLocked(home, s', a.c, k, p, exclusive);
      LinkedShows(home, buckets, clients, upTo, k, p);
    }
  }

  lemma LinkedShows<K(!new)>(home: K -> nat, buckets: nat, clients: nat, sched: seq<Act<K>>, k: K, p: nat)
    requires Homes(home, buckets) && Linked(home, Run(home, buckets, clients, sched), k, p)
    ensures var s, m := Run(home, buckets, clients, sched), Built(home, buckets, clients, sched);
            k in m && m[k] == s.heap[p].data
  {
    RunIsSafe(home, buckets, clients, sched);
    AtomicHashMapIsAMap(home, buckets, clients, sched);
    var s := Run(home, buckets, clients, sched);
    LinkedIffKept(home, s, p);
    LinkedIsEntry(home, s, Built(home, buckets, clients, sched), p);
  }
}
