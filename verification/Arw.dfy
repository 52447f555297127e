/** The counted block as an object. */
module ArwObject {
  import opened Words
  import opened Tally
  import opened CountMachine
  import opened CountInvariant
  import opened CountSteps
  import opened CountSafety
  import opened Wrappers

  /** How a call ends: with a result, with a panic, or not at all because the process has been
      aborted or the run was cut. */
  datatype Outcome<+T> = Done(value: T) | Panic | Aborted | Running

  /** A round of downgrade cannot make a handle: `weak` is hidden by is_unique, or its exchange does
      not match or fails spuriously. */
  predicate RefusesWeak(s: State, c: nat, fails: bool) {
    s.weak == USIZE_MAX || (c < |s.pcs| && s.pcs[c].DownCheck? && (fails || s.weak != s.pcs[c].cur))
  }

  /** A round of upgrade cannot make a handle. */
  predicate RefusesStrong(s: State, c: nat, fails: bool) {
    c < |s.pcs| && s.pcs[c].UpCheck? && (fails || s.strong != s.pcs[c].n)
  }

  /** After the first `at` operations a round of client `c` could not make a handle. */
  ghost predicate RefusedAt(limit: nat, clients: nat, history: seq<Act>, c: nat, at: nat, fails: bool, strongly: bool)
  {
    && at < |history|
    && var s := Exec(limit, Init(clients), history[..at]);
       if strongly then RefusesStrong(s, c, fails) else RefusesWeak(s, c, fails)
  }

  /** All rounds of a call that began with operation number `start` were refused; `flaky(n)` says
      whether the n-th exchange failed spuriously. */
  ghost predicate AllRefused(limit: nat, clients: nat, history: seq<Act>, c: nat, start: nat, rounds: seq<nat>,
                             flaky: nat -> bool, strongly: bool)
  {
    && (forall i :: 0 <= i < |rounds| ==>
          start <= rounds[i] && RefusedAt(limit, clients, history, c, rounds[i], flaky(i + 1), strongly))
    && (forall i, j :: 0 <= i < j < |rounds| ==> rounds[i] < rounds[j])
  }

  lemma RefusedOnceMore(limit: nat, clients: nat, before: seq<Act>, after: seq<Act>, c: nat, start: nat,
                        rounds: seq<nat>, at: nat, flaky: nat -> bool, strongly: bool)
    requires AllRefused(limit, clients, before, c, start, rounds, flaky, strongly)
    requires before <= after && start <= |before| <= at
    requires RefusedAt(limit, clients, after, c, at, flaky(|rounds| + 1), strongly)
    ensures AllRefused(limit, clients, after, c, start, rounds + [at], flaky, strongly)
  {
    forall i | 0 <= i < |rounds| ensures RefusedAt(limit, clients, after, c, rounds[i], flaky(i + 1), strongly) {
      assert RefusedAt(limit, clients, before, c, rounds[i], flaky(i + 1), strongly);
      assert after[..rounds[i]] == before[..rounds[i]];
    }
  }

  /** The operations of Arw, WeakArw, AnyRef and WeakAnyRef on the two counters, following the
      code, with the other clients running in between. As for the Mutex, `others(n)` is what the
      others do before the n-th atomic operation of the call and `rounds` cuts the retry loops,
      which the code leaves unbounded. */
  class Inner {
    const limit: nat
    var strong: nat
    var weak: nat
    /** Everything else: the positions of the clients, the handles, what has been destroyed. */
    var rest: State
    ghost const clients: nat
    ghost var history: seq<Act>

    function View(): State
      reads this
    {
      rest.(strong := strong, weak := weak)
    }

    ghost predicate Valid()
      reads this
    {
      && clients < MAX_REFCOUNT && 0 < limit <= MAX_REFCOUNT + 1
      && |rest.pcs| == clients
      && View() == Exec(limit, Init(clients), history)
    }

    constructor (limit: nat, clients: nat)
      requires clients < MAX_REFCOUNT && 0 < limit <= MAX_REFCOUNT + 1
      ensures Valid() && View() == Init(clients) && this.limit == limit && this.clients == clients
    {
      this.limit, this.clients := limit, clients;
      strong, weak, rest := 1, 1, Init(clients);
      history := [];
    }

    lemma Reached()
      requires Valid()
      ensures Inv(View())
    {
      InitIsSafe(clients);
      RunKeepsInv(limit, Init(clients), history);
    }

    /** Enters an operation, just performed on the two words, into the history. */
    method Record(before: State, a: Act)
      requires clients < MAX_REFCOUNT && 0 < limit <= MAX_REFCOUNT + 1 && |before.pcs| == clients
      requires before == Exec(limit, Init(clients), history)
      requires strong == Step(limit, before, a).strong && weak == Step(limit, before, a).weak
      modifies `rest, `history
      ensures Valid() && View() == Step(limit, before, a) && history == old(history) + [a]
    {
      rest := Step(limit, before, a);
      StepKeepsClients(limit, before, a);
      ExecSnoc(limit, Init(clients), history, a);
      history := history + [a];
    }

    /** The other clients run. */
    method Interfere(ghost c: nat, acts: seq<Act>)
      requires Valid() && c < clients && forall a :: a in acts ==> a.c != c
      modifies this
      ensures Valid() && history == old(history) + acts && rest.pcs[c] == old(rest).pcs[c]
      ensures acts == [] ==> View() == old(View()) && rest.aborted == old(rest).aborted
    {
      ghost var before := View();
      var s := Exec(limit, rest.(strong := strong, weak := weak), acts);
      OthersRun(limit, before, acts, c);
      ExecConcat(limit, Init(clients), history, acts);
      strong, weak, rest := s.strong, s.weak, s;
      history := history + acts;
    }

    // ---- strong handles ----

    method Clone(c: nat, h: nat, others: nat -> seq<Act>) returns (r: Outcome<nat>)
      requires Valid() && c < clients && rest.pcs[c].Idle? && !rest.aborted && h in rest.strongHandles
      requires forall k, a :: a in others(k) ==> a.c != c
      modifies this
      ensures Valid() && old(history) <= history
      ensures r.Done? ==> r.value !in old(rest).strongHandles
      ensures r.Done? ==> rest.strongHandles == old(rest).strongHandles + {r.value}
      ensures r.Done? <==> old(strong) < limit
      ensures !r.Done? ==> rest.aborted && r == Aborted
    {
      var before, a := View(), Act(c, Call.Clone(h), false);
      Reached();
      var found := strong;
      strong := Inc(strong);
      Record(before, a);
      if found >= limit {
        Interfere(c, others(0));
        Record(View(), a);
        return Aborted;
      }
      return Done(before.nextHandle);
    }

    /** Returns whether this was the last strong handle, whose drop destroys the payload. */
    method Drop(c: nat, h: nat, others: nat -> seq<Act>) returns (r: Outcome<bool>)
      requires Valid() && c < clients && rest.pcs[c].Idle? && !rest.aborted && StrongFree(View(), h)
      requires forall k, a :: a in others(k) ==> a.c != c
      modifies this
      ensures Valid() && old(history) <= history
      ensures r.Done? ==> rest.pcs[c].Idle? && (r.value <==> old(rest).strongHandles == {h})
      ensures r == Done(false) ==>
                rest.strongHandles == old(rest).strongHandles - {h} && rest.payloadDrops == old(rest).payloadDrops
      ensures r == Done(true) ==> rest.strongHandles == {} && !rest.implicit && rest.payloadDrops == 1
      ensures !r.Done? ==> r == Aborted && rest.aborted
      ensures (forall k :: others(k) == []) ==> r.Done?
    {
      var before, a := View(), Act(c, Call.Drop(h), false);
      Reached();
      LastHandleIff(before, h);
      var found := strong;
      strong := Dec(strong);
      Record(before, a);
      if found != 1 {
        return Done(false);
      }
      r := TearDown(c, others);
    }

    /** What the last strong drop does to the block. */
    method TearDown(c: nat, others: nat -> seq<Act>) returns (r: Outcome<bool>)
      requires Valid() && c < clients && rest.pcs[c] == DropLock && !rest.aborted
      requires forall k, a :: a in others(k) ==> a.c != c
      modifies this
      ensures Valid() && old(history) <= history
      ensures r.Done? ==> r.value && rest.pcs[c].Idle?
      ensures r.Done? ==> rest.strongHandles == {} && !rest.implicit && rest.payloadDrops == 1
      ensures !r.Done? ==> r == Aborted && rest.aborted
      ensures (forall k :: others(k) == []) ==> r.Done?
    {
      var alive := DestroyPayload(c, others);
      if !alive { return Aborted; }
      var last := SubWeak(c);
      if last {
        Interfere(c, others(3));
        if rest.aborted { return Aborted; }
        FreeBlock(c);
      }
      Reached();
      GoneMeansDead(View());
      r := Done(true);
    }

    method FreeBlock(c: nat)
      requires Valid() && c < clients && !rest.aborted && rest.pcs[c].Dealloc?
      modifies this
      ensures Valid() && history == old(history) + [Act(c, Call.Drop(0), false)]
      ensures rest.pcs[c].Idle? && !rest.implicit && rest.weakHandles == {}
      ensures old(rest).frees == 0 && rest.frees == 1
    {
      Reached();
      FreeingMeansDead(View(), c);
      Present(View(), c);
      Record(View(), Act(c, Call.Drop(0), false));
    }

    /** Destroys the lock and the payload in place; false when the process is aborted meanwhile. */
    method DestroyPayload(c: nat, others: nat -> seq<Act>) returns (alive: bool)
      requires Valid() && c < clients && rest.pcs[c] == DropLock && !rest.aborted
      requires forall k, a :: a in others(k) ==> a.c != c
      modifies this
      ensures Valid() && old(history) <= history
      ensures alive <==> !rest.aborted
      ensures alive ==> rest.pcs[c] == GiveUpImplicit
      ensures (forall k :: others(k) == []) ==> alive
    {
      Interfere(c, others(0));
      if rest.aborted { return false; }
      Advance(c, DropPayload);
      Interfere(c, others(1));
      if rest.aborted { return false; }
      Advance(c, GiveUpImplicit);
      Interfere(c, others(2));
      alive := !rest.aborted;
    }

    /** A step of client `c` that leaves both words alone. */
    method Advance(c: nat, pc: Pc)
      requires Valid() && c < clients && !rest.aborted
      requires Step(limit, View(), Act(c, Call.Drop(0), false)).pcs[c] == pc
      requires rest.pcs[c].DropLock? || rest.pcs[c].DropPayload?
      modifies this
      ensures Valid() && history == old(history) + [Act(c, Call.Drop(0), false)] && rest.pcs[c] == pc
      ensures !rest.aborted
    {
      Record(View(), Act(c, Call.Drop(0), false));
    }

    /** fetch_sub on `weak` that gives up the implicit reference. */
    method SubWeak(c: nat) returns (last: bool)
      requires Valid() && c < clients && !rest.aborted && rest.pcs[c] == GiveUpImplicit
      modifies this
      ensures Valid() && history == old(history) + [Act(c, Call.Drop(0), false)]
      ensures last <==> old(weak) == 1
      ensures rest.pcs[c] == (if last then Dealloc else Idle) && !rest.implicit && !rest.aborted
    {
      var before := View();
      last := weak == 1;
      weak := Dec(weak);
      Record(before, Act(c, Call.Drop(0), false));
    }

    // ---- is_unique ----

    /** The answer is exact in the state after the first `at` operations of the history. */
    method IsUnique(c: nat, h: nat, others: nat -> seq<Act>) returns (r: Outcome<bool>, ghost at: nat)
      requires Valid() && c < clients && rest.pcs[c].Idle? && !rest.aborted && h in rest.strongHandles
      requires forall k, a :: a in others(k) ==> a.c != c
      modifies this
      ensures Valid() && old(history) <= history
      ensures !r.Done? ==> r == Aborted && rest.aborted
      ensures r.Done? ==> rest.pcs[c].Idle? && |rest.answers| > 0 && rest.answers[|rest.answers| - 1] == r.value
      ensures |old(history)| <= at <= |history|
      ensures r.Done? && r.value ==> OnlyHandle(Exec(limit, Init(clients), history[..at]), h)
      ensures r.Done? && !r.value ==> Disturbed(Exec(limit, Init(clients), history[..at]), c, h)
    {
      Record(View(), Act(c, Call.IsUnique(h), false));
      r, at := TrySeal(c, h, others(0));
      if r.Done? && r.value {
        r, at := Judge(c, h, (k: nat) => others(k + 1));
      }
    }

    /** The exchange of is_unique; Done(true) when the weak counter is sealed. */
    method TrySeal(c: nat, h: nat, acts: seq<Act>) returns (r: Outcome<bool>, ghost at: nat)
      requires Valid() && c < clients && !rest.aborted && rest.pcs[c] == UniqueCas(h)
      requires forall a :: a in acts ==> a.c != c
      modifies this
      ensures Valid() && old(history) <= history
      ensures !r.Done? ==> r == Aborted && rest.aborted
      ensures |old(history)| <= at <= |history|
      ensures r.Done? && r.value ==> rest.pcs[c] == UniqueLoad(h) && !rest.aborted
      ensures r.Done? && !r.value ==>
                && rest.pcs[c].Idle? && |rest.answers| > 0 && !rest.answers[|rest.answers| - 1]
                && Disturbed(Exec(limit, Init(clients), history[..at]), c, h)
    {
      at := |history|;
      Interfere(c, acts);
      if rest.aborted { return Aborted, at; }
      at := |history|;
      ghost var mark := history;
      var sealed := Seal(c, h);
      assert history[..at] == mark;
      r := Done(sealed);
    }

    /** The rest of is_unique, with the weak counter sealed. */
    method Judge(c: nat, h: nat, others: nat -> seq<Act>) returns (r: Outcome<bool>, ghost at: nat)
      requires Valid() && c < clients && !rest.aborted && rest.pcs[c] == UniqueLoad(h)
      requires forall k, a :: a in others(k) ==> a.c != c
      modifies this
      ensures Valid() && old(history) <= history
      ensures !r.Done? ==> r == Aborted && rest.aborted
      ensures r.Done? ==> rest.pcs[c].Idle? && |rest.answers| > 0 && rest.answers[|rest.answers| - 1] == r.value
      ensures |old(history)| <= at <= |history|
      ensures r.Done? && r.value ==> OnlyHandle(Exec(limit, Init(clients), history[..at]), h)
      ensures r.Done? && !r.value ==> Disturbed(Exec(limit, Init(clients), history[..at]), c, h)
    {
      at := |history|;
      Interfere(c, others(0));
      if rest.aborted { return Aborted, at; }
      at := |history|;
      assert history[..at] == history;
      ghost var mark := history;
      var unique := LoadUnique(c, h);
      Interfere(c, others(1));
      assert history[..at] == mark;
      if rest.aborted { return Aborted, at; }
      Unseal(c, h, unique);
      assert history[..at] == mark;
      r := Done(unique);
    }

    /** compare_exchange(1, usize::MAX) on `weak` */
    method Seal(c: nat, h: nat) returns (ok: bool)
      requires Valid() && c < clients && !rest.aborted && rest.pcs[c] == UniqueCas(h)
      modifies this
      ensures Valid() && history == old(history) + [Act(c, Call.IsUnique(h), false)] && !rest.aborted
      ensures ok <==> old(weak) == 1
      ensures !ok ==> Disturbed(old(View()), c, h)
      ensures if ok then rest.pcs[c] == UniqueLoad(h)
              else rest.pcs[c].Idle? && rest.answers == old(rest).answers + [false]
    {
      var before := View();
      Reached();
      if weak != 1 { SealFailsWhenDisturbed(before, c, h); }
      ok := weak == 1;
      if ok {
        weak := USIZE_MAX;
      }
      Record(before, Act(c, Call.IsUnique(h), false));
    }

    method LoadUnique(c: nat, h: nat) returns (unique: bool)
      requires Valid() && c < clients && !rest.aborted && rest.pcs[c] == UniqueLoad(h)
      modifies this
      ensures Valid() && old(history) <= history && !rest.aborted
      ensures rest.pcs[c] == UniqueStore(h, unique)
      ensures unique ==> OnlyHandle(old(View()), h)
      ensures !unique ==> Disturbed(old(View()), c, h)
    {
      Reached();
      NotOneWhenDisturbed(View(), c, h);
      unique := strong == 1;
      UniqueAnswerIsExact(limit, View(), Act(c, Call.IsUnique(h), false));
      UniqueIsOurs(View(), c);
      Record(View(), Act(c, Call.IsUnique(h), false));
    }

    method Unseal(c: nat, h: nat, unique: bool)
      requires Valid() && c < clients && !rest.aborted && rest.pcs[c] == UniqueStore(h, unique)
      modifies this
      ensures Valid() && old(history) <= history && !rest.aborted
      ensures weak == 1 == WeakRefs(rest)
      ensures rest.pcs[c].Idle? && rest.answers == old(rest).answers + [unique]
    {
      var before := View();
      Reached();
      SealedWord(before, c);
      weak := 1;
      Record(before, Act(c, Call.IsUnique(h), false));
    }

    // ---- downgrade and upgrade ----

    /** One round of downgrade with the value `cur` of `weak`: waits on the sentinel, else tries. */
    method DowngradeRound(c: nat, h: nat, cur: nat, acts: seq<Act>, fails: bool)
      returns (made: bool, seen: nat, ghost at: nat)
      requires Valid() && c < clients && !rest.aborted && rest.pcs[c] == AfterWeakRead(h, cur)
      requires cur == weak && (cur == USIZE_MAX || cur <= MAX_REFCOUNT)
      requires forall a :: a in acts ==> a.c != c
      modifies this
      ensures Valid() && old(history) <= history
      ensures rest.aborted ==> !made
      ensures made ==> rest.pcs[c].Idle? && rest.nextHandle > 0 && rest.nextHandle - 1 in rest.weakHandles
      ensures !made && !rest.aborted ==> seen == weak && rest.pcs[c] == AfterWeakRead(h, seen)
      ensures |old(history)| <= at
      ensures !made && !rest.aborted ==> RefusedAt(limit, clients, history, c, at, fails, false)
    {
      made, seen, at := false, cur, |history|;
      ghost var mark, met := history, View();
      Interfere(c, acts);
      if rest.aborted { return; }
      if cur == USIZE_MAX {
        seen := weak;
        Record(View(), Act(c, Call.Downgrade(h), false));
      } else {
        at, mark, met := |history|, history, View();
        made, seen := TryNewWeak(c, h, cur, fails);
      }
      assert history[..at] == mark;
      assert !made ==> RefusesWeak(met, c, fails);
    }

    /** `flaky(n)` says whether the n-th compare_exchange_weak fails spuriously. */
    method Downgrade(c: nat, h: nat, others: nat -> seq<Act>, flaky: nat -> bool, rounds: nat)
      returns (r: Outcome<nat>, ghost refusals: seq<nat>)
      requires Valid() && c < clients && rest.pcs[c].Idle? && !rest.aborted && h in rest.strongHandles
      requires forall k, a :: a in others(k) ==> a.c != c
      modifies this
      ensures Valid() && old(history) <= history
      ensures r.Done? ==> rest.pcs[c].Idle? && r.value in rest.weakHandles && r.value + 1 == rest.nextHandle
      ensures r.Panic? ==> rest.pcs[c].Idle? && USIZE_MAX != weak > MAX_REFCOUNT
      ensures r.Aborted? ==> rest.aborted
      ensures r.Running? ==>
                && |refusals| == rounds
                && AllRefused(limit, clients, history, c, |old(history)|, refusals, flaky, false)
    {
      var a := Act(c, Call.Downgrade(h), false);
      refusals := [];
      Record(View(), a);
      Interfere(c, others(0));
      if rest.aborted { return Aborted, refusals; }
      var cur: nat := weak;
      Record(View(), a);
      var n := 1;
      while n <= rounds
        invariant Valid() && old(history) <= history && !rest.aborted
        invariant rest.pcs[c] == AfterWeakRead(h, cur) && cur == weak
        invariant n == |refusals| + 1 <= rounds + 1
        invariant AllRefused(limit, clients, history, c, |old(history)|, refusals, flaky, false)
        decreases rounds + 1 - n
      {
        if USIZE_MAX != cur > MAX_REFCOUNT {
          return Panic, refusals;
        }
        var made;
        ghost var at, past := 0, history;
        made, cur, at := DowngradeRound(c, h, cur, others(n), flaky(n));
        if rest.aborted { return Aborted, refusals; }
        if made { return Done(rest.nextHandle - 1), refusals; }
        RefusedOnceMore(limit, clients, past, history, c, |old(history)|, refusals, at, flaky, false);
        refusals := refusals + [at];
        n := n + 1;
      }
      r := Running;
    }

    /** compare_exchange_weak(cur, cur + 1) on `weak` */
    method TryNewWeak(c: nat, h: nat, cur: nat, fails: bool) returns (made: bool, seen: nat)
      requires Valid() && c < clients && !rest.aborted && rest.pcs[c] == DownCheck(h, cur)
      modifies this
      ensures Valid() && history == old(history) + [Act(c, Call.Downgrade(h), fails)] && !rest.aborted
      ensures made <==> old(weak) == cur && !fails
      ensures made ==> rest.pcs[c].Idle? && rest.weakHandles == old(rest).weakHandles + {old(rest).nextHandle}
      ensures made ==> rest.nextHandle == old(rest).nextHandle + 1
      ensures !made ==> seen == old(weak) == weak && rest.pcs[c] == AfterWeakRead(h, seen)
    {
      var before := View();
      Reached();
      assert PcOk(before, c);
      made, seen := weak == cur && !fails, weak;
      if made {
        weak := cur + 1;
      }
      Record(before, Act(c, Call.Downgrade(h), fails));
    }

    /** None only when no strong handle exists any more. */
    method Upgrade(c: nat, w: nat, others: nat -> seq<Act>, flaky: nat -> bool, rounds: nat)
      returns (r: Outcome<Option<nat>>, ghost refusals: seq<nat>)
      requires Valid() && c < clients && rest.pcs[c].Idle? && !rest.aborted && w in rest.weakHandles
      requires forall k, a :: a in others(k) ==> a.c != c
      modifies this
      ensures Valid() && old(history) <= history
      ensures r == Done(None) ==> rest.pcs[c].Idle? && rest.strongHandles == {}
      ensures r.Done? && r.value.Some? ==>
                rest.pcs[c].Idle? && r.value.value in rest.strongHandles && r.value.value + 1 == rest.nextHandle
      ensures r.Panic? ==> rest.pcs[c].Idle? && strong > MAX_REFCOUNT
      ensures r.Aborted? ==> rest.aborted
      ensures r.Running? ==>
                && |refusals| == rounds
                && AllRefused(limit, clients, history, c, |old(history)|, refusals, flaky, true)
    {
      refusals := [];
      var found: nat := FirstRead(c, w, others(0));
      if rest.aborted { return Aborted, refusals; }
      var n := 1;
      while n <= rounds
        invariant Valid() && old(history) <= history && !rest.aborted
        invariant rest.pcs[c] == AfterStrongRead(w, found)
        invariant found == strong
        invariant n == |refusals| + 1 <= rounds + 1
        invariant AllRefused(limit, clients, history, c, |old(history)|, refusals, flaky, true)
        decreases rounds + 1 - n
      {
        if found == 0 {
          NobodyLeft();
          return Done(None), refusals;
        }
        if found > MAX_REFCOUNT {
          return Panic, refusals;
        }
        ghost var at, past := 0, history;
        var made;
        made, found, at := UpgradeRound(c, w, found, others(n), flaky(n));
        if rest.aborted { return Aborted, refusals; }
        if made { return Done(Some(rest.nextHandle - 1)), refusals; }
        RefusedOnceMore(limit, clients, past, history, c, |old(history)|, refusals, at, flaky, true);
        refusals := refusals + [at];
        n := n + 1;
      }
      r := Running;
    }

    /** One round of upgrade with the value `n` of `strong`. */
    method UpgradeRound(c: nat, w: nat, n: nat, acts: seq<Act>, fails: bool)
      returns (made: bool, seen: nat, ghost at: nat)
      requires Valid() && c < clients && !rest.aborted && rest.pcs[c] == UpCheck(w, n)
      requires forall a :: a in acts ==> a.c != c
      modifies this
      ensures Valid() && old(history) <= history
      ensures rest.aborted ==> !made
      ensures made ==> rest.pcs[c].Idle? && rest.nextHandle > 0 && rest.nextHandle - 1 in rest.strongHandles
      ensures !made && !rest.aborted ==> seen == strong && rest.pcs[c] == AfterStrongRead(w, seen)
      ensures |old(history)| <= at
      ensures !made && !rest.aborted ==> RefusedAt(limit, clients, history, c, at, fails, true)
    {
      made, seen, at := false, n, |history|;
      Interfere(c, acts);
      if rest.aborted { return; }
      at := |history|;
      ghost var mark := history;
      made, seen := TryNewStrong(c, w, n, fails);
      assert history[..at] == mark;
    }

    lemma NobodyLeft()
      requires Valid() && strong == 0
      ensures rest.strongHandles == {}
    {
      Reached();
    }

    /** The load of `strong` that starts fetch_update. */
    method FirstRead(c: nat, w: nat, acts: seq<Act>) returns (found: nat)
      requires Valid() && c < clients && rest.pcs[c].Idle? && !rest.aborted && w in rest.weakHandles
      requires forall a :: a in acts ==> a.c != c
      modifies this
      ensures Valid() && old(history) <= history
      ensures !rest.aborted ==> found == strong && rest.pcs[c] == AfterStrongRead(w, found)
    {
      var a := Act(c, Call.Upgrade(w), false);
      Record(View(), a);
      Interfere(c, acts);
      found := strong;
      Record(View(), a);
    }

    /** compare_exchange_weak(n, n + 1) on `strong`, inside fetch_update */
    method TryNewStrong(c: nat, w: nat, n: nat, fails: bool) returns (made: bool, seen: nat)
      requires Valid() && c < clients && !rest.aborted && rest.pcs[c] == UpCheck(w, n)
      modifies this
      ensures Valid() && history == old(history) + [Act(c, Call.Upgrade(w), fails)] && !rest.aborted
      ensures made <==> old(strong) == n && !fails
      ensures made ==> rest.pcs[c].Idle? && rest.strongHandles == old(rest).strongHandles + {old(rest).nextHandle}
      ensures made ==> rest.nextHandle == old(rest).nextHandle + 1
      ensures !made ==> seen == old(strong) == strong && rest.pcs[c] == AfterStrongRead(w, seen)
    {
      var before := View();
      Reached();
      assert PcOk(before, c);
      made, seen := strong == n && !fails, strong;
      if made {
        strong := n + 1;
      }
      Record(before, Act(c, Call.Upgrade(w), fails));
    }

    // ---- weak handles ----

    method WeakClone(c: nat, w: nat, others: nat -> seq<Act>) returns (r: Outcome<nat>)
      requires Valid() && c < clients && rest.pcs[c].Idle? && !rest.aborted && w in rest.weakHandles
      requires forall k, a :: a in others(k) ==> a.c != c
      modifies this
      ensures Valid() && old(history) <= history
      ensures r.Done? ==> r.value !in old(rest).weakHandles && rest.weakHandles == old(rest).weakHandles + {r.value}
      ensures r.Done? <==> old(weak) <= MAX_REFCOUNT
      ensures !r.Done? ==> rest.aborted && r == Aborted
    {
      var before, a := View(), Act(c, Call.WeakClone(w), false);
      Reached();
      var found := weak;
      weak := Inc(weak);
      Record(before, a);
      if found > MAX_REFCOUNT {
        Interfere(c, others(0));
        Record(View(), a);
        return Aborted;
      }
      return Done(before.nextHandle);
    }

    /** Returns whether the block was freed: this was the last handle and the payload is gone. */
    method WeakDrop(c: nat, w: nat, others: nat -> seq<Act>) returns (r: Outcome<bool>)
      requires Valid() && c < clients && rest.pcs[c].Idle? && !rest.aborted && WeakFree(View(), w)
      requires forall k, a :: a in others(k) ==> a.c != c
      modifies this
      ensures Valid() && old(history) <= history
      ensures r.Done? ==> rest.pcs[c].Idle?
      ensures r.Done? ==> (r.value <==> old(rest).weakHandles == {w} && !old(rest).implicit)
      ensures r == Done(false) ==> rest.weakHandles == old(rest).weakHandles - {w} && rest.frees == old(rest).frees
      ensures r == Done(true) ==> old(rest).frees == 0 && rest.frees == 1
      ensures !r.Done? ==> r == Aborted && rest.aborted
      ensures (forall k :: others(k) == []) ==> r.Done?
    {
      var before, a := View(), Act(c, Call.WeakDrop(w), false);
      Reached();
      LastWeakIff(before, w);
      var found := weak;
      weak := Dec(weak);
      Record(before, a);
      if found != 1 {
        return Done(false);
      }
      Interfere(c, others(0));
      if rest.aborted { return Aborted; }
      FreeBlock(c);
      r := Done(true);
    }
  }

  /** Handle `h` is the only handle there is. */
  ghost predicate OnlyHandle(s: State, h: nat) {
    s.strongHandles == {h} && s.weakHandles == {}
  }

  /** The handle is not the only one, or another call is using the counters in a way that is_unique
      cannot tell from one: another is_unique, or a clone on its way to abort. */
  ghost predicate Disturbed(s: State, c: nat, h: nat) {
    || !OnlyHandle(s, h)
    || exists d: nat :: d < |s.pcs| && d != c && (Sealing(s.pcs[d]) == 1 || OverStrong(s.pcs[d]) == 1)
  }

  lemma SealFailsWhenDisturbed(s: State, c: nat, h: nat)
    requires Inv(s) && c < |s.pcs| && s.pcs[c] == UniqueCas(h) && s.weak != 1
    ensures Disturbed(s, c, h)
  {
    assert PcOk(s, c) && PinsStrong(s.pcs[c], h);
    OverLimitHasHandle(s);
    if OnlyHandle(s, h) {
      var d := SumWitness(Sealing, s.pcs);
    }
  }

  lemma NotOneWhenDisturbed(s: State, c: nat, h: nat)
    requires Inv(s) && c < |s.pcs| && s.pcs[c] == UniqueLoad(h)
    ensures s.strong != 1 ==> Disturbed(s, c, h)
  {
    if s.strong != 1 && OnlyHandle(s, h) {
      var d := SumWitness(OverStrong, s.pcs);
    }
  }

  lemma UniqueIsOurs(s: State, c: nat)
    requires Inv(s) && c < |s.pcs| && s.pcs[c].UniqueLoad?
    ensures |s.strongHandles| == 1 ==> s.strongHandles == {s.pcs[c].h}
  {
    var h := s.pcs[c].h;
    assert PcOk(s, c) && PinsStrong(s.pcs[c], h);
    assert |s.strongHandles - {h}| == |s.strongHandles| - 1;
    if |s.strongHandles| == 1 {
      assert s.strongHandles - {h} == {};
    }
  }

  lemma LastWeakIff(s: State, w: nat)
    requires Inv(s) && WeakFree(s, w)
    ensures s.weak == 1 <==> s.weakHandles == {w} && !s.implicit
  {
    assert |s.weakHandles - {w}| == |s.weakHandles| - 1;
    if |s.weakHandles| == 1 {
      assert s.weakHandles - {w} == {};
      assert s.weakHandles == {w};
      NoWeakPins(s, w);
    }
  }

  lemma LastHandleIff(s: State, h: nat)
    requires Inv(s) && StrongFree(s, h)
    ensures s.strong == 1 <==> s.strongHandles == {h}
  {
    assert |s.strongHandles - {h}| == |s.strongHandles| - 1;
    if |s.strongHandles| == 1 {
      assert s.strongHandles - {h} == {};
      assert s.strongHandles == {h};
      NoPins(s, h);
    }
  }

  lemma FreeingMeansDead(s: State, c: nat)
    requires Inv(s) && c < |s.pcs| && s.pcs[c].Dealloc?
    ensures !s.implicit && s.weakHandles == {}
  {
    Present(s, c);
  }

  lemma GoneMeansDead(s: State)
    requires Inv(s) && !s.implicit
    ensures s.strongHandles == {} && s.payloadDrops == 1
  {
  }

  lemma {:induction false} ExecConcat(limit: nat, s: State, first: seq<Act>, second: seq<Act>)
    ensures Exec(limit, s, first + second) == Exec(limit, Exec(limit, s, first), second)
    decreases first
  {
    if first == [] {
      assert first + second == second;
    } else {
      assert (first + second)[1..] == first[1..] + second;
      ExecConcat(limit, Step(limit, s, first[0]), first[1..], second);
    }
  }

  lemma {:induction false} ExecSnoc(limit: nat, s: State, sched: seq<Act>, a: Act)
    ensures Exec(limit, s, sched + [a]) == Step(limit, Exec(limit, s, sched), a)
    decreases sched
  {
    if sched == [] {
      assert [a][1..] == [];
    } else {
      assert (sched + [a])[1..] == sched[1..] + [a];
      ExecSnoc(limit, Step(limit, s, sched[0]), sched[1..], a);
    }
  }

  lemma {:induction false} OthersRun(limit: nat, s: State, acts: seq<Act>, c: nat)
    requires c < |s.pcs| && forall a :: a in acts ==> a.c != c
    ensures |Exec(limit, s, acts).pcs| == |s.pcs| && Exec(limit, s, acts).pcs[c] == s.pcs[c]
    decreases acts
  {
    if acts != [] {
      assert acts[0].c != c;
      OthersStay(limit, s, acts[0], c);
      OthersRun(limit, Step(limit, s, acts[0]), acts[1..], c);
    }
  }
}
