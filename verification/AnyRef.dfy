/** The payload of an AnyRef as an object. */
module AnyRefObject {
  import opened RwLock
  import opened DowncastMachine
  import opened DowncastSafety

  datatype Outcome = Blocked | Missing | Found(p: nat)

  /** The operation that client `c` makes next, a test of a downcast to `u`, finds another type. */
  predicate Misses(s: State, c: nat, u: TypeId, exclusive: bool) {
    && c < |s.pcs|
    && ((s.pcs[c] == Ask(u, exclusive) && s.typeId != u)
        || (s.pcs[c] == Look(u, exclusive) && s.data < |s.types| && s.types[s.data] != u))
  }

  /** The methods follow the code, operation by operation, while the other clients run in
      between. `others(n)` is whatever they do before the n-th operation of this call, and
      `rounds` cuts the wait for the lock, so a statement for every `others` and `rounds` covers
      every finite run. */
  class AnyRefInner {
    var lock: Lock
    /** The payload; `types` gives the dynamic type of every payload stored so far. */
    var data: nat
    var types: seq<TypeId>
    var typeId: TypeId
    /** Where the code of each client stands. */
    var pcs: seq<Pc>
    ghost const first: TypeId
    ghost const clients: nat
    ghost var history: seq<Act>

    ghost function View(): State
      reads this
    {
      State(lock, data, types, typeId, pcs, false)
    }

    ghost predicate Valid()
      reads this
    {
      |pcs| == clients && View() == Exec(Init(first, clients), history)
    }

    /** The payload has its type, in the box and in the field, whoever asks. */
    ghost predicate Stores(t: TypeId)
      reads this
    {
      data < |types| && types[data] == t == typeId
    }

    /** The state before operation number `at`, which client `c` made. */
    ghost predicate MadeAt(c: nat, at: nat, s: State)
      reads this
    {
      at < |history| && history[at].c == c && s == Exec(Init(first, clients), history[..at])
    }

    /** A try of client `c` that found the lock taken. */
    ghost predicate RefusedAt(c: nat, at: nat, exclusive: bool)
      reads this
    {
      && at <= |history|
      && Apply(Exec(Init(first, clients), history[..at]).lock, Taking(c, exclusive)).None?
    }

    /** Tries since operation number `start`. */
    ghost predicate AllRefused(c: nat, start: nat, tries: seq<nat>, exclusive: bool)
      reads this
    {
      && (forall i :: 0 <= i < |tries| ==> start <= tries[i] && RefusedAt(c, tries[i], exclusive))
      && (forall i, j :: 0 <= i <= j < |tries| ==> tries[i] <= tries[j])
    }

    /** What has been refused stays so while the history grows. */
    lemma RefusalsStay(c: nat, start: nat, tries: seq<nat>, exclusive: bool, before: seq<Act>)
      requires before <= history
      requires forall i :: 0 <= i < |tries| ==>
                 && start <= tries[i] <= |before|
                 && Apply(Exec(Init(first, clients), before[..tries[i]]).lock, Taking(c, exclusive)).None?
      requires forall i, j :: 0 <= i <= j < |tries| ==> tries[i] <= tries[j]
      ensures AllRefused(c, start, tries, exclusive)
    {
      forall i | 0 <= i < |tries| ensures RefusedAt(c, tries[i], exclusive) {
        assert history[..tries[i]] == before[..tries[i]];
      }
    }

    constructor (t: TypeId, clients: nat)
      ensures Valid() && Stores(t) && history == [] && first == t && this.clients == clients
    {
      lock, data, types, typeId, pcs := Lock.Free, 0, [t], t, seq(clients, _ => Idle);
      first, this.clients := t, clients;
      history := [];
    }

    ghost method Record(before: State, acts: seq<Act>)
      requires |pcs| == clients
      requires before == Exec(Init(first, clients), history) && View() == Exec(before, acts)
      modifies this`history
      ensures Valid() && history == old(history) + acts
    {
      ExecConcat(Init(first, clients), history, acts);
      history := history + acts;
    }

    lemma HistoryIsSafe()
      requires Valid()
      ensures Inv(View())
    {
      RunIsSafe(first, clients, history);
    }

    /** The other clients run. */
    method Interfere(ghost c: nat, acts: seq<Act>)
      requires Valid() && c < clients && forall a :: a in acts ==> a.c != c
      modifies this
      ensures Valid() && old(history) <= history && pcs[c] == old(pcs)[c] && old(types) <= types
    {
      ghost var before := View();
      HistoryIsSafe();
      TypesOnlyGrow(before, acts);
      var s := Exec(State(lock, data, types, typeId, pcs, false), acts);
      StaysPut(before, acts, c);
      RunKeepsInv(before, acts);
      lock, data, types, typeId, pcs := s.lock, s.data, s.types, s.typeId, s.pcs;
      Record(before, acts);
    }

    /** Records that the assignments just made are the step of client `c`. */
    ghost method Stepped(before: State, a: Act)
      requires |pcs| == clients
      requires before == Exec(Init(first, clients), history) && View() == Step(before, a)
      modifies this`history
      ensures Valid() && history == old(history) + [a]
    {
      assert Exec(before, [a]) == Exec(Step(before, a), [a][1..]);
      Record(before, [a]);
    }

    /** lock_group or lock_exclusive; gives up only after `rounds` tries that found the lock taken. */
    method TakeLock(c: nat, exclusive: bool, pc: Pc, ghost a: Act, others: nat -> seq<Act>, start: nat, rounds: nat)
      returns (ok: bool, n: nat, ghost refusals: seq<nat>)
      requires Valid() && c < clients && a.c == c && forall k, o :: o in others(k) ==> o.c != c
      requires pcs[c] == (match pc
                          case Look(u, x) => Wait(u, x)
                          case FillData(t) => FillWait(t)
                          case _ => Idle)
      requires (pc.Look? && pc.exclusive == exclusive) || (pc.FillData? && exclusive)
      modifies this
      ensures Valid() && old(history) <= history && old(types) <= types
      ensures pcs[c] == if ok then pc else old(pcs)[c]
      ensures !ok ==> |refusals| == rounds && AllRefused(c, |old(history)|, refusals, exclusive)
    {
      n := start;
      ok, refusals := false, [];
      var r := 0;
      while r < rounds && !ok
        invariant Valid() && old(history) <= history && old(types) <= types && r <= rounds
        invariant pcs[c] == if ok then pc else old(pcs)[c]
        invariant !ok ==> |refusals| == r && AllRefused(c, |old(history)|, refusals, exclusive)
      {
        ghost var past := history;
        Interfere(c, others(n));
        n := n + 1;
        ghost var before := View();
        var l := Apply(lock, Taking(c, exclusive));
        if l.Some? {
          ok := true;
          lock, pcs := l.value, pcs[c := pc];
          Stepped(before, a);
        } else {
          RefusalsStay(c, |old(history)|, refusals, exclusive, past);
          assert history[..|history|] == history;
          refusals := refusals + [|history|];
        }
        r := r + 1;
      }
    }

    /** unlock_group or unlock_exclusive: of a failed downcast, of a dropped guard, of fill. */
    method GiveLock(c: nat, exclusive: bool)
      requires Valid() && c < clients
      requires match pcs[c]
               case Undo(_, x) => x == exclusive
               case Guard(_, _, x) => x == exclusive
               case FillUnlock => exclusive
               case _ => false
      modifies this
      ensures Valid() && old(history) <= history
      ensures pcs[c] == Idle && c !in Holders(lock)
      ensures data == old(data) && types == old(types) && typeId == old(typeId)
    {
      ghost var before, a := View(), Act(c, Call.Fill(0));
      HistoryIsSafe();
      assert ClientOk(View(), c);
      var l := Apply(lock, Giving(c, exclusive));
      lock, pcs := l.value, pcs[c := Idle];
      Stepped(before, a);
      HistoryIsSafe();
      assert ClientOk(View(), c);
    }

    /** The caller enters one of the operations. */
    method Start(c: nat, call: Call)
      requires Valid() && c < clients && pcs[c] == Idle
      modifies this
      ensures Valid() && old(history) <= history && pcs[c] == DowncastMachine.Begin(call) && types == old(types)
    {
      ghost var before := View();
      pcs := pcs[c := DowncastMachine.Begin(call)];
      Stepped(before, Act(c, call));
    }

    /** The test of type_id, before any lock. */
    method TestType(c: nat, u: TypeId, exclusive: bool) returns (ok: bool)
      requires Valid() && c < clients && pcs[c] == Ask(u, exclusive)
      modifies this
      ensures Valid() && old(history) <= history && MadeAt(c, |old(history)|, old(View()))
      ensures ok <==> old(typeId) == u
      ensures pcs[c] == if ok then Wait(u, exclusive) else Idle
    {
      ghost var before := View();
      ok := typeId == u;
      pcs := pcs[c := if ok then Wait(u, exclusive) else Idle];
      Stepped(before, Act(c, Downcast(u, exclusive)));
      assert history[..|old(history)|] == old(history);
    }

    /** The downcast itself, under the lock. */
    method Inspect(c: nat, u: TypeId, exclusive: bool) returns (ok: bool)
      requires Valid() && c < clients && pcs[c] == Look(u, exclusive)
      modifies this
      ensures Valid() && old(history) <= history && MadeAt(c, |old(history)|, old(View()))
      ensures old(data) < |old(types)| && (ok <==> old(types)[old(data)] == u)
      ensures pcs[c] == if ok then Guard(u, data, exclusive) else Undo(u, exclusive)
    {
      ghost var before := View();
      HistoryIsSafe();
      ok := types[data] == u;
      pcs := pcs[c := if ok then Guard(u, data, exclusive) else Undo(u, exclusive)];
      Stepped(before, Act(c, Downcast(u, exclusive)));
      assert history[..|old(history)|] == old(history);
    }

    /** Operation number `at` of the downcast to `u` found another type: in the field, at the early
        test, or in the payload, under the lock. */
    ghost predicate MissedAt(c: nat, u: TypeId, exclusive: bool, at: nat)
      reads this
    {
      && at < |history| && history[at].c == c
      && Misses(Exec(Init(first, clients), history[..at]), c, u, exclusive)
    }

    /** What holding a guard, or nothing, means. */
    lemma OutcomeMeans(c: nat)
      requires Valid() && c < clients
      ensures pcs[c].Guard? ==> pcs[c].p == data && Stores(pcs[c].u)
      ensures pcs[c].Guard? ==> if pcs[c].exclusive then lock == Exclusive(c) else lock.Group? && c in lock.members
      ensures pcs[c].Idle? ==> c !in Holders(lock)
    {
      HistoryIsSafe();
      assert ClientOk(View(), c);
      if pcs[c].Guard? {
        GuardsHaveTheirType(first, clients, history, c);
      }
    }

    /** Both downcasts; they differ in the mode in which they take the lock. */
    method TryDowncast(c: nat, u: TypeId, exclusive: bool, others: nat -> seq<Act>, rounds: nat)
      returns (r: Outcome, ghost at: nat, ghost refusals: seq<nat>)
      requires Valid() && c < clients && pcs[c] == Idle && forall k, o :: o in others(k) ==> o.c != c
      modifies this
      ensures Valid() && old(history) <= history
      ensures r.Found? ==> pcs[c] == Guard(u, r.p, exclusive) && r.p == data && Stores(u)
      ensures r.Found? ==> if exclusive then lock == Exclusive(c) else lock.Group? && c in lock.members
      ensures r.Missing? ==> pcs[c] == Idle && c !in Holders(lock)
      ensures r.Missing? ==> |old(history)| <= at && MissedAt(c, u, exclusive, at)
      ensures r.Blocked? ==> pcs[c] == Wait(u, exclusive)
      ensures r.Blocked? ==> |refusals| == rounds && AllRefused(c, |old(history)|, refusals, exclusive)
    {
      refusals := [];
      Start(c, Downcast(u, exclusive));
      Interfere(c, others(0));
      at := |history|;
      var ok := TestType(c, u, exclusive);
      if !ok {
        OutcomeMeans(c);
        return Missing, at, refusals;
      }
      var n;
      ok, n, refusals := TakeLock(c, exclusive, Look(u, exclusive), Act(c, Downcast(u, exclusive)), others, 1, rounds);
      if !ok {
        return Blocked, at, refusals;
      }
      r, at := Decide(c, u, exclusive, others, n);
    }

    /** The rest of a downcast, with the lock taken. */
    method Decide(c: nat, u: TypeId, exclusive: bool, others: nat -> seq<Act>, n: nat)
      returns (r: Outcome, ghost at: nat)
      requires Valid() && c < clients && pcs[c] == Look(u, exclusive) && forall k, o :: o in others(k) ==> o.c != c
      modifies this
      ensures Valid() && old(history) <= history && !r.Blocked?
      ensures r.Found? ==> pcs[c] == Guard(u, r.p, exclusive) && r.p == data && Stores(u)
      ensures r.Found? ==> if exclusive then lock == Exclusive(c) else lock.Group? && c in lock.members
      ensures r.Missing? ==> pcs[c] == Idle && c !in Holders(lock)
      ensures r.Missing? ==> |old(history)| <= at && MissedAt(c, u, exclusive, at)
    {
      Interfere(c, others(n));
      at := |history|;
      var ok := Inspect(c, u, exclusive);
      if ok {
        OutcomeMeans(c);
        return Found(data), at;
      }
      ghost var mark := history;
      Interfere(c, others(n + 1));
      GiveLock(c, exclusive);
      assert history[..at] == mark[..at] && history[at] == mark[at];
      r := Missing;
    }

    /** None only if the field had another type at the early test, or the payload under the lock. */
    method TryDowncastRef(c: nat, u: TypeId, others: nat -> seq<Act>, rounds: nat)
      returns (r: Outcome, ghost at: nat, ghost refusals: seq<nat>)
      requires Valid() && c < clients && pcs[c] == Idle && forall k, o :: o in others(k) ==> o.c != c
      modifies this
      ensures Valid() && old(history) <= history
      ensures r.Found? ==> pcs[c] == Guard(u, r.p, false) && r.p == data && Stores(u)
      ensures r.Found? ==> lock.Group? && c in lock.members
      ensures r.Missing? ==> pcs[c] == Idle && c !in Holders(lock)
      ensures r.Missing? ==> |old(history)| <= at && MissedAt(c, u, false, at)
      ensures r.Blocked? ==> |refusals| == rounds && AllRefused(c, |old(history)|, refusals, false)
    {
      r, at, refusals := TryDowncast(c, u, false, others, rounds);
    }

    method TryDowncastMut(c: nat, u: TypeId, others: nat -> seq<Act>, rounds: nat)
      returns (r: Outcome, ghost at: nat, ghost refusals: seq<nat>)
      requires Valid() && c < clients && pcs[c] == Idle && forall k, o :: o in others(k) ==> o.c != c
      modifies this
      ensures Valid() && old(history) <= history
      ensures r.Found? ==> pcs[c] == Guard(u, r.p, true) && r.p == data && Stores(u) && lock == Exclusive(c)
      ensures r.Missing? ==> pcs[c] == Idle && c !in Holders(lock)
      ensures r.Missing? ==> |old(history)| <= at && MissedAt(c, u, true, at)
      ensures r.Blocked? ==> |refusals| == rounds && AllRefused(c, |old(history)|, refusals, true)
    {
      r, at, refusals := TryDowncast(c, u, true, others, rounds);
    }

    /** A guard is used while the others run, then dropped: it has seen one payload of one type. */
    method UseAndDrop(c: nat, acts: seq<Act>)
      requires Valid() && c < clients && pcs[c].Guard? && forall a :: a in acts ==> a.c != c
      modifies this
      ensures Valid() && old(history) <= history
      ensures pcs[c] == Idle && c !in Holders(lock)
      ensures data == old(data) == old(pcs)[c].p && types == old(types) && Stores(old(pcs)[c].u)
    {
      OutcomeMeans(c);
      RunWhileHolding(c, acts);
      GiveLock(c, pcs[c].exclusive);
    }

    method StoreData(c: nat, t: TypeId)
      requires Valid() && c < clients && pcs[c] == FillData(t)
      modifies this
      ensures Valid() && old(history) <= history && pcs[c] == FillId(t)
      ensures data == |old(types)| && types == old(types) + [t]
    {
      ghost var before := View();
      data, types, pcs := |types|, types + [t], pcs[c := FillId(t)];
      Stepped(before, Act(c, Call.Fill(t)));
    }

    method StoreType(c: nat, t: TypeId)
      requires Valid() && c < clients && pcs[c] == FillId(t)
      modifies this
      ensures Valid() && old(history) <= history && pcs[c] == FillUnlock && Stores(t)
      ensures data == old(data) && types == old(types)
    {
      ghost var before := View();
      HistoryIsSafe();
      assert ClientOk(View(), c);
      typeId, pcs := t, pcs[c := FillUnlock];
      Stepped(before, Act(c, Call.Fill(t)));
    }

    /** Writes the box and then the field. When it returns, both say `t`, and the payload is
        none of those that were there before. */
    method Fill(c: nat, t: TypeId, others: nat -> seq<Act>, rounds: nat) returns (done: bool, ghost refusals: seq<nat>)
      requires Valid() && c < clients && pcs[c] == Idle && forall k, o :: o in others(k) ==> o.c != c
      modifies this
      ensures Valid() && old(history) <= history
      ensures done ==> pcs[c] == Idle && c !in Holders(lock) && Stores(t)
      ensures done ==> data >= |old(types)|
      ensures !done ==> pcs[c] == FillWait(t)
      ensures !done ==> |refusals| == rounds && AllRefused(c, |old(history)|, refusals, true)
    {
      Start(c, Call.Fill(t));
      var n;
      done, n, refusals := TakeLock(c, true, FillData(t), Act(c, Call.Fill(t)), others, 0, rounds);
      if done {
        Replace(c, t, others, n);
      }
    }

    /** The rest of fill, with the lock taken. */
    method Replace(c: nat, t: TypeId, others: nat -> seq<Act>, n: nat)
      requires Valid() && c < clients && pcs[c] == FillData(t) && forall k, o :: o in others(k) ==> o.c != c
      modifies this
      ensures Valid() && old(history) <= history
      ensures pcs[c] == Idle && c !in Holders(lock) && Stores(t) && data == |old(types)|
    {
      RunWhileHolding(c, others(n));
      StoreData(c, t);
      RunWhileHolding(c, others(n + 1));
      StoreType(c, t);
      FillEnds(c, t, others(n + 2));
    }

    /** The others run while this client has the lock, and cannot touch the payload. */
    method RunWhileHolding(c: nat, acts: seq<Act>)
      requires Valid() && c < clients && ModeOf(pcs[c]) != Nowhere && forall a :: a in acts ==> a.c != c
      modifies this
      ensures Valid() && old(history) <= history && pcs[c] == old(pcs)[c]
      ensures data == old(data) && types == old(types) && typeId == old(typeId)
    {
      HistoryIsSafe();
      HolderPinsThePayload(View(), acts, c);
      ghost var before := View();
      var s := Exec(State(lock, data, types, typeId, pcs, false), acts);
      StaysPut(before, acts, c);
      lock, data, types, typeId, pcs := s.lock, s.data, s.types, s.typeId, s.pcs;
      Record(before, acts);
    }

    /** The unlock at the end of fill; until then nobody else writes. */
    method FillEnds(c: nat, t: TypeId, acts: seq<Act>)
      requires Valid() && c < clients && pcs[c] == FillUnlock && Stores(t) && forall a :: a in acts ==> a.c != c
      modifies this
      ensures Valid() && old(history) <= history
      ensures pcs[c] == Idle && c !in Holders(lock) && Stores(t)
      ensures data == old(data)
    {
      RunWhileHolding(c, acts);
      GiveLock(c, true);
    }
  }
}
