/** A downcast guard has the type it claims. */
module DowncastSafety {
  import opened RwLock
  import opened DowncastMachine
  import opened Wrappers

  datatype Mode = Nowhere | Shared | Excl

  function ModeOf(pc: Pc): Mode {
    match pc
    case Look(_, exclusive) => if exclusive then Excl else Shared
    case Undo(_, exclusive) => if exclusive then Excl else Shared
    case Guard(_, _, exclusive) => if exclusive then Excl else Shared
    case FillData(_) => Excl
    case FillId(_) => Excl
    case FillUnlock => Excl
    case _ => Nowhere
  }

  ghost predicate ClientOk(s: State, c: nat) {
    c < |s.pcs| ==>
      && (ModeOf(s.pcs[c]) == Shared <==> s.lock.Group? && c in s.lock.members)
      && (ModeOf(s.pcs[c]) == Excl <==> s.lock == Exclusive(c))
      && (match s.pcs[c]
          case Guard(u, p, _) => p == s.data < |s.types| && s.types[s.data] == u
          case Undo(u, _) => s.data < |s.types| && s.types[s.data] != u
          case FillId(t) => s.data < |s.types| && s.types[s.data] == t
          case _ => true)
  }

  /** The field lags behind the payload only while a fill is between its two stores. */
  ghost predicate TypeOk(s: State) {
    && s.data < |s.types|
    && (s.typeId == s.types[s.data] || exists c: nat :: c < |s.pcs| && s.pcs[c] == FillId(s.types[s.data]))
  }

  ghost predicate Inv(s: State) {
    && !s.crashed
    && (forall c: nat :: ClientOk(s, c))
    && TypeOk(s)
  }

  lemma StepKeepsClients(s: State, a: Act)
    requires Inv(s)
    ensures !Step(s, a).crashed
    ensures forall c: nat :: ClientOk(Step(s, a), c)
  {
    var s' := Step(s, a);
    assert ClientOk(s, a.c);
    forall c: nat ensures ClientOk(s', c) {
      assert ClientOk(s, c);
    }
  }

  lemma StepKeepsType(s: State, a: Act)
    requires Inv(s)
    ensures TypeOk(Step(s, a))
  {
    var s' := Step(s, a);
    assert ClientOk(s, a.c);
    if s.typeId != s.types[s.data] {
      var c: nat :| c < |s.pcs| && s.pcs[c] == FillId(s.types[s.data]);
      assert ClientOk(s, c);
      assert c == a.c || s'.pcs[c] == s.pcs[c];
    }
    if a.c < |s.pcs| && s.pcs[a.c].FillData? {
      assert s'.pcs[a.c] == FillId(s'.types[s'.data]);
    }
  }

  lemma {:induction false} RunKeepsInv(s: State, sched: seq<Act>)
    requires Inv(s)
    ensures Inv(Exec(s, sched))
    decreases sched
  {
    if sched != [] {
      StepKeepsClients(s, sched[0]);
      StepKeepsType(s, sched[0]);
      RunKeepsInv(Step(s, sched[0]), sched[1..]);
    }
  }

  lemma RunIsSafe(first: TypeId, clients: nat, sched: seq<Act>)
    ensures Inv(Exec(Init(first, clients), sched))
  {
    RunKeepsInv(Init(first, clients), sched);
  }

  /** A guard of type `u` is on the payload that is stored now, and that payload has type `u`. */
  lemma GuardsHaveTheirType(first: TypeId, clients: nat, sched: seq<Act>, c: nat)
    requires var s := Exec(Init(first, clients), sched); c < |s.pcs| && s.pcs[c].Guard?
    ensures var s := Exec(Init(first, clients), sched);
            && s.pcs[c].p == s.data < |s.types|
            && s.types[s.data] == s.pcs[c].u == s.typeId
  {
    RunIsSafe(first, clients, sched);
    var s := Exec(Init(first, clients), sched);
    assert ClientOk(s, c);
    forall d: nat | d < |s.pcs| ensures !s.pcs[d].FillId? {
      assert ClientOk(s, d);
    }
  }

  /** Whatever the others do, while a client has the lock in any mode they neither replace nor
      retype the payload. */
  lemma {:induction false} HolderPinsThePayload(s: State, acts: seq<Act>, c: nat)
    requires Inv(s) && c < |s.pcs| && ModeOf(s.pcs[c]) != Nowhere
    requires forall a :: a in acts ==> a.c != c
    ensures var s' := Exec(s, acts);
            && Inv(s') && c < |s'.pcs| && s'.pcs[c] == s.pcs[c]
            && s'.data == s.data && s'.types == s.types && s'.typeId == s.typeId
    decreases acts
  {
    if acts != [] {
      var a := acts[0];
      assert a.c != c;
      StepKeepsClients(s, a);
      StepKeepsType(s, a);
      assert ClientOk(s, c) && ClientOk(s, a.c);
      HolderPinsThePayload(Step(s, a), acts[1..], c);
    }
  }

  /** An exclusive guard is the only guard. */
  lemma ExclusiveGuardsAreAlone(first: TypeId, clients: nat, sched: seq<Act>, c: nat, d: nat)
    requires var s := Exec(Init(first, clients), sched);
             && c < |s.pcs| && d < |s.pcs| && c != d
             && s.pcs[c].Guard? && s.pcs[c].exclusive
    ensures var s := Exec(Init(first, clients), sched); !s.pcs[d].Guard?
  {
    RunIsSafe(first, clients, sched);
    var s := Exec(Init(first, clients), sched);
    assert ClientOk(s, c) && ClientOk(s, d);
  }

  /** A client is among the holders exactly while it inspects, has a guard, or fills: a downcast
      that failed, at either test, has left nothing locked. */
  lemma OnlyGuardsKeepTheLock(first: TypeId, clients: nat, sched: seq<Act>, c: nat)
    requires c < |Exec(Init(first, clients), sched).pcs|
    ensures var s := Exec(Init(first, clients), sched);
            && (c in Holders(s.lock) <==> ModeOf(s.pcs[c]) != Nowhere)
            && (s.pcs[c].Idle? ==> c !in Holders(s.lock))
  {
    RunIsSafe(first, clients, sched);
    assert ClientOk(Exec(Init(first, clients), sched), c);
  }

  /** Under the lock the answer is exact: a guard if the payload has the type, else the way back
      to an unlocked Idle. */
  lemma InspectionIsExact(first: TypeId, clients: nat, sched: seq<Act>, a: Act)
    requires var s := Exec(Init(first, clients), sched); a.c < |s.pcs| && s.pcs[a.c].Look?
    ensures var s := Exec(Init(first, clients), sched);
            var pc, pc' := s.pcs[a.c], Step(s, a).pcs[a.c];
            && s.data < |s.types|
            && (s.types[s.data] == pc.u <==> pc' == Guard(pc.u, s.data, pc.exclusive))
            && (s.types[s.data] != pc.u <==> pc' == Undo(pc.u, pc.exclusive))
            && (pc'.Undo? ==> Step(Step(s, a), a).pcs[a.c] == Idle && a.c !in Holders(Step(Step(s, a), a).lock))
  {
    RunIsSafe(first, clients, sched);
    var s := Exec(Init(first, clients), sched);
    assert ClientOk(s, a.c);
    StepKeepsClients(s, a);
    StepKeepsType(s, a);
    assert ClientOk(Step(s, a), a.c);
  }

  /** The test made before locking tells the type of the payload, unless a fill is between its
      two stores with a type that the field does not have yet. */
  lemma EarlyTestIsRightIff(first: TypeId, clients: nat, sched: seq<Act>)
    ensures var s := Exec(Init(first, clients), sched);
            && s.data < |s.types|
            && (s.typeId == s.types[s.data] <==>
                forall c: nat :: c < |s.pcs| && s.pcs[c].FillId? ==> s.pcs[c].t == s.typeId)
  {
    RunIsSafe(first, clients, sched);
    var s := Exec(Init(first, clients), sched);
    forall c: nat | c < |s.pcs| && s.pcs[c].FillId? ensures s.pcs[c].t == s.types[s.data] {
      assert ClientOk(s, c);
    }
  }

  // ---- when a downcast that has passed the early test succeeds ----

  function StoredBy(s: State, a: Act): Option<TypeId> {
    if a.c < |s.pcs| && s.pcs[a.c].FillData? then Some(s.pcs[a.c].t) else None
  }

  /** The type that the last fill to store its payload during the run has stored. */
  function LastStored(s: State, sched: seq<Act>): Option<TypeId>
    decreases sched
  {
    if sched == [] then None
    else match LastStored(Step(s, sched[0]), sched[1..])
      case Some(t) => Some(t)
      case None => StoredBy(s, sched[0])
  }

  lemma {:induction false} PayloadIsLastStored(s: State, sched: seq<Act>)
    requires Inv(s)
    ensures var s' := Exec(s, sched);
            && Inv(s')
            && s'.types[s'.data] == match LastStored(s, sched) case Some(t) => t case None => s.types[s.data]
    decreases sched
  {
    if sched != [] {
      StepKeepsClients(s, sched[0]);
      StepKeepsType(s, sched[0]);
      PayloadIsLastStored(Step(s, sched[0]), sched[1..]);
    }
  }

  /** What a client that has passed the early test needs for a guard: the last payload stored after
      the test has the type; and if none was stored, no fill was between its two stores with
      another type when the test was made. (Once the client has the lock nothing is stored.) */
  ghost predicate StaysRight(s: State, u: TypeId, sched: seq<Act>) {
    match LastStored(s, sched)
    case Some(t) => t == u
    case None => forall d: nat :: d < |s.pcs| && s.pcs[d].FillId? ==> s.pcs[d].t == u
  }

  /** From the moment the test passes, whatever happens until the client has the lock: the downcast
      gives a guard if and only if that is so, and is refused if and only if it is not. */
  lemma PassedTestSucceedsIff(first: TypeId, clients: nat, before: seq<Act>, c: nat, u: TypeId, exclusive: bool,
                              sched: seq<Act>)
    requires var s := Exec(Init(first, clients), before);
             c < |s.pcs| && s.pcs[c] == Ask(u, exclusive) && s.typeId == u
    requires sched != [] && sched[0].c == c
    ensures var s := Exec(Init(first, clients), before);
            var s' := Exec(s, sched);
            && c < |s'.pcs| && Step(s, sched[0]).pcs[c] == Wait(u, exclusive)
            && (s'.pcs[c] == Look(u, exclusive) ==>
                && (Step(s', sched[0]).pcs[c].Guard? <==> StaysRight(s, u, sched))
                && (Step(s', sched[0]).pcs[c].Undo? <==> !StaysRight(s, u, sched)))
            && (s'.pcs[c].Guard? && s'.pcs[c].u == u ==> StaysRight(s, u, sched))
            && (s'.pcs[c] == Undo(u, exclusive) ==> !StaysRight(s, u, sched))
  {
    RunIsSafe(first, clients, before);
    EarlyTestIsRightIff(first, clients, before);
    var s := Exec(Init(first, clients), before);
    PayloadIsLastStored(s, sched);
    ExecKeepsClients(s, sched);
    assert ClientOk(Exec(s, sched), c);
  }

  /** A refusal is wrong if and only if a fill has stored a payload of the type and not yet its
      type. */
  lemma RefusalIsInVainIff(first: TypeId, clients: nat, sched: seq<Act>, c: nat)
    requires var s := Exec(Init(first, clients), sched);
             c < |s.pcs| && s.pcs[c].Ask? && s.typeId != s.pcs[c].u
    ensures var s := Exec(Init(first, clients), sched);
            && s.data < |s.types|
            && (s.types[s.data] == s.pcs[c].u <==> exists d: nat :: d < |s.pcs| && s.pcs[d] == FillId(s.pcs[c].u))
  {
    RunIsSafe(first, clients, sched);
    var s := Exec(Init(first, clients), sched);
    forall d: nat | d < |s.pcs| && s.pcs[d].FillId? ensures s.pcs[d].t == s.types[s.data] {
      assert ClientOk(s, d);
    }
  }

  /** The early test can pass and the downcast still fail: a fill came in between. */
  lemma EarlyTestCanPassInVain(t: TypeId, u: TypeId) returns (sched: seq<Act>)
    requires t != u
    ensures var s := Exec(Init(t, 2), sched); |s.pcs| == 2 && s.pcs[0] == Undo(t, false)
  {
    sched := seq(9, n requires 0 <= n => Turn(t, u, n));
    var n := 0;
    assert sched[0..] == sched && Init(t, 2) == Reached(t, u, 0);
    while n < 9
      invariant n <= 9 && Exec(Init(t, 2), sched) == Exec(Reached(t, u, n), sched[n..])
    {
      ReachedNext(t, u, n);
      assert sched[n..][1..] == sched[n + 1..];
      n := n + 1;
    }
  }

  function Turn(t: TypeId, u: TypeId, n: nat): Act {
    if n < 2 || n >= 7 then Act(0, Downcast(t, false)) else Act(1, Fill(u))
  }

  lemma ReachedNext(t: TypeId, u: TypeId, n: nat)
    requires n < 9 && t != u
    ensures Step(Reached(t, u, n), Turn(t, u, n)) == Reached(t, u, n + 1)
  {
  }

  /** The states of that run. */
  function Reached(t: TypeId, u: TypeId, n: nat): State {
    var asked := if n == 0 then Idle else if n == 1 then Ask(t, false) else if n <= 7 then Wait(t, false)
                 else if n == 8 then Look(t, false) else Undo(t, false);
    var filled := if n <= 2 || n >= 7 then Idle else if n == 3 then FillWait(u) else if n == 4 then FillData(u)
                  else if n == 5 then FillId(u) else FillUnlock;
    State(if n == 4 || n == 5 || n == 6 then Exclusive(1) else if n >= 8 then Group({0}) else Lock.Free,
          if n >= 5 then 1 else 0, if n >= 5 then [t, u] else [t], if n >= 6 then u else t, [asked, filled], false)
  }

  /** The early test can refuse a type that the payload already has. */
  lemma EarlyTestCanRefuseInVain(t: TypeId, u: TypeId) returns (sched: seq<Act>)
    requires t != u
    ensures var s := Exec(Init(t, 2), sched);
            && |s.pcs| == 2 && s.data < |s.types| && s.types[s.data] == u
            && s.pcs[0] == Ask(u, false) && Step(s, Act(0, Fill(t))).pcs[0] == Idle
  {
    var ask, fill := Act(0, Downcast(u, false)), Act(1, Fill(u));
    sched := [fill, fill, fill, ask];
    var s := Init(t, 2);
    var n := 0;
    while n < 4
      invariant n <= 4 && Exec(Init(t, 2), sched) == Exec(s, sched[n..])
      invariant s == Filling(t, u, n)
    {
      s := Step(s, sched[n]);
      n := n + 1;
    }
  }

  function Filling(t: TypeId, u: TypeId, n: nat): State {
    State(if n >= 2 then Exclusive(1) else Lock.Free, if n >= 3 then 1 else 0, if n >= 3 then [t, u] else [t], t,
          [if n >= 4 then Ask(u, false) else Idle,
           if n == 0 then Idle else if n == 1 then FillWait(u) else if n == 2 then FillData(u) else FillId(u)],
          false)
  }

  /** The early test can pass, nothing be stored after it, and the downcast still fail: a fill had
      stored its payload before the test and stores its type after it. */
  lemma PendingFillDefeatsThePassedTest(t: TypeId, u: TypeId) returns (sched: seq<Act>)
    requires t != u
    ensures |sched| == 9
    ensures var s := Exec(Init(t, 2), sched[..4]);
            && s.pcs == [Ask(t, false), FillId(u)] && s.typeId == t
            && LastStored(s, sched[4..]) == None && Exec(s, sched[4..]).pcs == [Undo(t, false), Idle]
  {
    sched := seq(9, n requires 0 <= n => LateTurn(t, u, n));
    var n := 0;
    assert Init(t, 2) == Late(t, u, 0);
    while n < 4
      invariant n <= 4 && Exec(Init(t, 2), sched[..4]) == Exec(Late(t, u, n), sched[n..4])
    {
      LateNext(t, u, n);
      assert sched[n..4][1..] == sched[n + 1..4];
      n := n + 1;
    }
    LateStoresNothing(t, u, sched, 4);
  }

  function LateTurn(t: TypeId, u: TypeId, n: nat): Act {
    if n < 3 || n == 5 || n == 6 then Act(1, Fill(u)) else Act(0, Downcast(t, false))
  }

  lemma LateNext(t: TypeId, u: TypeId, n: nat)
    requires n < 9 && t != u
    ensures Step(Late(t, u, n), LateTurn(t, u, n)) == Late(t, u, n + 1)
    ensures n >= 4 ==> StoredBy(Late(t, u, n), LateTurn(t, u, n)) == None
  {
  }

  lemma {:induction false} LateStoresNothing(t: TypeId, u: TypeId, sched: seq<Act>, n: nat)
    requires 4 <= n <= 9 == |sched| && t != u
    requires forall i :: 0 <= i < 9 ==> sched[i] == LateTurn(t, u, i)
    ensures LastStored(Late(t, u, n), sched[n..]) == None && Exec(Late(t, u, n), sched[n..]) == Late(t, u, 9)
    decreases 9 - n
  {
    if n < 9 {
      LateNext(t, u, n);
      LateStoresNothing(t, u, sched, n + 1);
      assert sched[n..][1..] == sched[n + 1..];
    }
  }

  function Late(t: TypeId, u: TypeId, n: nat): State {
    var asked := if n <= 3 then Idle else if n == 4 then Ask(t, false) else if n <= 7 then Wait(t, false)
                 else if n == 8 then Look(t, false) else Undo(t, false);
    var filled := if n == 0 then Idle else if n == 1 then FillWait(u) else if n == 2 then FillData(u)
                  else if n <= 5 then FillId(u) else if n == 6 then FillUnlock else Idle;
    State(if 2 <= n <= 6 then Exclusive(1) else if n >= 8 then Group({0}) else Lock.Free,
          if n >= 3 then 1 else 0, if n >= 3 then [t, u] else [t], if n >= 6 then u else t, [asked, filled], false)
  }
}
