/** What one call of push or pop does. */
module VecCalls {
  import opened StashQueue
  import opened Tally
  import opened VecInvariant
  import opened VecMachine
  import opened VecOrder
  import opened VecRefinement
  import opened VecSafety
  import opened VecSteps
  import opened Wrappers

  /** Client `c` is in the middle of a call all the time before the end of `sched`. */
  predicate Busy<V>(s: State<V>, sched: seq<Act<V>>, c: nat)
    decreases sched
  {
    sched == [] || (c < |s.pcs| && !s.pcs[c].Idle? && Busy(Step(s, sched[0]), sched[1..], c))
  }

  /** The values that the steps of client `c` take from the front of the line. */
  ghost function OwnTakes<V>(s: State<V>, sched: seq<Act<V>>, c: nat): seq<V>
    decreases sched
  {
    if sched == [] then []
    else
      var e := EventOf(s, sched[0]);
      (if sched[0].c == c && e.Take? then [e.v] else []) + OwnTakes(Step(s, sched[0]), sched[1..], c)
  }

  /** The values that client `c` returns from pop. */
  function Returned<V>(s: State<V>, sched: seq<Act<V>>, c: nat): seq<V>
    decreases sched
  {
    if sched == [] then []
    else (if sched[0].c == c && c < |s.pcs| && s.pcs[c].SubLen? then [s.pcs[c].v] else [])
         + Returned(Step(s, sched[0]), sched[1..], c)
  }

  /** The line of the queue at the first load of `head` by client `c`. */
  ghost function LineSeen<V>(s: State<V>, sched: seq<Act<V>>, c: nat): Option<seq<V>>
    decreases sched
  {
    if sched == [] then None
    else if sched[0].c == c && c < |s.pcs| && s.pcs[c].LoadHead? && Readable(s) then Some(Abs(s).line)
    else LineSeen(Step(s, sched[0]), sched[1..], c)
  }

  // ---- the control flow ----

  ghost predicate LinkLeads<V>(pc: Pc<V>, pc': Pc<V>) {
    match pc
    case LoadTail(p, from) => pc' == StoreTail(p, from) || (pc'.StoreNext? && pc'.p == p && pc'.from == from)
    case StoreNext(p, _, from) => pc' == StoreTail(p, from)
    case StoreTail(p, from) => pc' == CasHead(p, from)
    case CasHead(_, from) => pc' == AddLen(from)
    case AddLen(from) => pc' == AfterLink(from)
    case _ => false
  }

  ghost predicate PopLeads<V>(pc: Pc<V>, pc': Pc<V>) {
    match pc
    case PopLock => pc' == LoadHead
    case LoadHead => pc' == Swap(Empty) || pc'.LoadNext?
    case LoadNext(h) => pc'.StoreHead? && pc'.h == h
    case StoreHead(h, _) => pc'.CheckTail? && pc'.h == h
    case CheckTail(h, r) => pc' == CasTail(h, r) || pc' == Swap(Took(h, r))
    case CasTail(h, r) => pc' == Swap(Took(h, r))
    case ReadValue(h, r) => pc'.FreeBlock? && pc'.h == h && pc'.rank == r
    case FreeBlock(_, r, v) => pc' == SubLen(r, v)
    case SubLen(_, _) => pc'.Idle?
    case _ => false
  }

  ghost predicate SlotLeads<V>(pc: Pc<V>, pc': Pc<V>) {
    match pc
    case PushBusy(p) => pc' == PushLock(p) || pc' == PushStash(p)
    case PushStash(p) => pc' == PushLock(p) || pc'.Idle?
    case PushLock(p) => pc' == LoadTail(p, FromPush)
    case Swap(k) => pc' == Reopen(k) || (pc'.LoadTail? && pc'.from == FromRelease(k))
    case Reopen(k) => pc' == AfterRelease(k)
    case _ => false
  }

  /** A client at `pc`, in the middle of a call, can be at `pc'` after one step of its own. */
  ghost predicate Leads<V>(pc: Pc<V>, pc': Pc<V>) {
    pc' == pc || LinkLeads(pc, pc') || PopLeads(pc, pc') || SlotLeads(pc, pc')
  }

  lemma LinkFollows<V>(s: State<V>, c: nat)
    requires c < |s.pcs| && InLink(s.pcs[c])
    ensures c < |LinkStep(s, c).pcs| && Leads(s.pcs[c], LinkStep(s, c).pcs[c])
  {
    match s.pcs[c]
    case LoadTail(_, _) => case StoreNext(_, _, _) => case StoreTail(_, _) => case CasHead(_, _) => case AddLen(_) =>
  }

  lemma PopFollows<V>(s: State<V>, c: nat)
    requires c < |s.pcs| && !s.pcs[c].Idle?
    requires !InPush(s.pcs[c]) && !InLink(s.pcs[c]) && !InRelease(s.pcs[c])
    ensures c < |PopStep(s, c).pcs| && Leads(s.pcs[c], PopStep(s, c).pcs[c])
  {
    match s.pcs[c]
    case PopLock => case LoadHead => case LoadNext(_) => case StoreHead(_, _) => case CheckTail(_, _) =>
    case CasTail(_, _) => case ReadValue(_, _) => case FreeBlock(_, _, _) => case SubLen(_, _) =>
  }

  lemma StepLeads<V>(s: State<V>, a: Act<V>)
    requires a.c < |s.pcs| && !s.pcs[a.c].Idle?
    ensures a.c < |Step(s, a).pcs| && Leads(s.pcs[a.c], Step(s, a).pcs[a.c])
  {
    if InLink(s.pcs[a.c]) {
      LinkFollows(s, a.c);
    } else if !InPush(s.pcs[a.c]) && !InRelease(s.pcs[a.c]) {
      PopFollows(s, a.c);
    }
  }

  lemma OthersStay<V>(s: State<V>, a: Act<V>, c: nat)
    requires Inv(s) && c < |s.pcs| && a.c != c
    ensures Inv(Step(s, a)) && c < |Step(s, a).pcs| && Step(s, a).pcs[c] == s.pcs[c]
  {
    StepKeepsInv(s, a);
    if a.c < |s.pcs| { OneClientMoves(s, a); }
  }

  // ---- a pop that has taken something ----

  lemma TakenLeads<V>(pc: Pc<V>, pc': Pc<V>, r: nat)
    requires TakesRank(pc, r) && Leads(pc, pc')
    ensures TakesRank(pc', r) || (pc.SubLen? && pc'.Idle?)
  {
    if InLink(pc) {
      assert LinkLeads(pc, pc') || pc' == pc;
    } else if InRelease(pc) {
      assert SlotLeads(pc, pc') || pc' == pc;
    }
  }

  lemma TakenMoves<V>(s: State<V>, a: Act<V>, r: nat)
    requires Inv(s) && a.c < |s.pcs| && TakesRank(s.pcs[a.c], r)
    ensures r < |s.order| && s.order[r] < |s.pushed|
    ensures var s' := Step(s, a);
            && a.c < |s'.pcs|
            && if s.pcs[a.c].SubLen? then
                 s'.pcs[a.c].Idle? && r in s'.delivered && s.pcs[a.c].v == s.pushed[s.order[r]]
               else TakesRank(s'.pcs[a.c], r)
  {
    StepLeads(s, a);
    TakenLeads(s.pcs[a.c], Step(s, a).pcs[a.c], r);
    assert ClientOk(s, a.c) && RankOk(s, r);
    if s.pcs[a.c].SubLen? {
      assert Step(s, a) == Deliver(s, a.c, r, s.pcs[a.c].v);
    }
  }

  /** It returns the value of its rank, and takes nothing more. */
  lemma {:induction false} TakenRuns<V>(s: State<V>, sched: seq<Act<V>>, c: nat, r: nat, v: V)
    requires Inv(s) && Busy(s, sched, c) && c < |s.pcs| && TakesRank(s.pcs[c], r)
    requires r < |s.order| && s.order[r] < |s.pushed| && s.pushed[s.order[r]] == v
    ensures var s', back := Exec(s, sched), Returned(s, sched, c);
            && c < |s'.pcs| && OwnTakes(s, sched, c) == []
            && ((back == [] && TakesRank(s'.pcs[c], r)) || (back == [v] && s'.pcs[c].Idle? && r in s'.delivered))
    decreases sched
  {
    if sched != [] {
      var a, s1 := sched[0], Step(s, sched[0]);
      StepKeepsInv(s, a);
      StepGrowsOrder(s, a);
      if a.c == c {
        TakenMoves(s, a, r);
      } else {
        OthersStay(s, a, c);
      }
      if s1.pcs[c].Idle? {
        assert sched[1..] == [];
      } else {
        TakenRuns(s1, sched[1..], c, r, v);
      }
    }
  }

  // ---- a pop that has found the line empty ----

  predicate EmptyHanded<V>(pc: Pc<V>) {
    (InRelease(pc) && pc.k == Empty) || (InLink(pc) && pc.from == FromRelease(Empty))
  }

  lemma EmptyLeads<V>(pc: Pc<V>, pc': Pc<V>)
    requires EmptyHanded(pc) && Leads(pc, pc')
    ensures EmptyHanded(pc') || pc'.Idle?
  {
  }

  /** It returns nothing. */
  lemma {:induction false} EmptyRuns<V>(s: State<V>, sched: seq<Act<V>>, c: nat)
    requires Inv(s) && Busy(s, sched, c) && c < |s.pcs| && (EmptyHanded(s.pcs[c]) || s.pcs[c].Idle?)
    ensures var s' := Exec(s, sched);
            && c < |s'.pcs| && OwnTakes(s, sched, c) == [] && Returned(s, sched, c) == []
            && (EmptyHanded(s'.pcs[c]) || s'.pcs[c].Idle?)
    decreases sched
  {
    if sched != [] {
      var a := sched[0];
      StepKeepsInv(s, a);
      if a.c != c {
        OthersStay(s, a, c);
      } else {
        StepLeads(s, a);
        EmptyLeads(s.pcs[c], Step(s, a).pcs[c]);
      }
      EmptyRuns(Step(s, a), sched[1..], c);
    }
  }

  // ---- a pop that has found a head ----

  /** The value at the front of the line, by its rank. */
  ghost predicate FrontIs<V>(s: State<V>, v: V) {
    |s.took| < |s.order| && s.order[|s.took|] < |s.pushed| && s.pushed[s.order[|s.took|]] == v
  }

  lemma FrontOfLine<V>(s: State<V>)
    requires Inv(s) && Readable(s) && Abs(s).line != []
    ensures FrontIs(s, Abs(s).line[0]) && s.heap[s.chain[0]].val == Abs(s).line[0]
  {
    assert RankOk(s, |s.took|) && BlockOk(s, s.chain[0]);
  }

  /** As long as a client has the flag nobody else takes anything. */
  lemma FrontStays<V>(s: State<V>, a: Act<V>, c: nat, v: V)
    requires Inv(s) && c < |s.pcs| && Inside(s.pcs[c]) == 1 && FrontIs(s, v)
    requires a.c != c || (!s.pcs[c].StoreHead? && !s.pcs[c].Idle?)
    ensures FrontIs(Step(s, a), v)
  {
    StepGrowsOrder(s, a);
    if a.c < |s.pcs| {
      if s.pcs[a.c].StoreHead? && a.c != c {
        OnlyInside(s, c, a.c);
      } else if !s.pcs[a.c].Idle? {
        TookStays(s, a);
      }
    }
  }

  lemma TookStays<V>(s: State<V>, a: Act<V>)
    requires a.c < |s.pcs| && !s.pcs[a.c].Idle? && !s.pcs[a.c].StoreHead?
    ensures Step(s, a).took == s.took
  {
    if InLink(s.pcs[a.c]) {
      LinkGrowsOrder(s, a.c);
    } else if InPush(s.pcs[a.c]) || InRelease(s.pcs[a.c]) {
      SlotStepsKeepOrder(s, a.c);
    } else {
      PopKeepsTook(s, a.c);
    }
  }

  lemma PopKeepsTook<V>(s: State<V>, c: nat)
    requires c < |s.pcs| && !s.pcs[c].Idle? && !s.pcs[c].StoreHead?
    requires !InPush(s.pcs[c]) && !InLink(s.pcs[c]) && !InRelease(s.pcs[c])
    ensures PopStep(s, c).took == s.took
  {
    match s.pcs[c]
    case PopLock => case LoadHead => case LoadNext(_) => case CheckTail(_, _) => case CasTail(_, _) =>
    case ReadValue(_, _) => case FreeBlock(_, _, _) => case SubLen(_, _) =>
  }

  /** The step that unlinks takes the front. */
  lemma UnlinkTakesFront<V>(s: State<V>, a: Act<V>, v: V)
    requires Inv(s) && a.c < |s.pcs| && s.pcs[a.c].StoreHead? && FrontIs(s, v)
    ensures EventOf(s, a) == Take(v)
    ensures var s' := Step(s, a);
            a.c < |s'.pcs| && TakesRank(s'.pcs[a.c], |s.took|) && |s.took| !in s.delivered
            && |s.took| < |s'.took| && s'.took[|s.took|] == a.c
  {
    var pc := s.pcs[a.c];
    assert ShapeOk(s, a.c) && RankOk(s, |s.took|);
    StoreHeadTakes(s, a.c, pc.h, pc.n);
    FrontOfLine(s);
    assert Step(s, a) == SetHead(s, a.c, pc.h, pc.n);
  }

  /** From the load of a head that is not null a pop takes the front value, whatever the others do,
      and returns it. */
  lemma {:induction false} LoadedRuns<V>(s: State<V>, sched: seq<Act<V>>, c: nat, v: V) returns (r: nat)
    requires Inv(s) && Busy(s, sched, c) && c < |s.pcs| && (s.pcs[c].LoadNext? || s.pcs[c].StoreHead?) && FrontIs(s, v)
    ensures var s', own, back := Exec(s, sched), OwnTakes(s, sched, c), Returned(s, sched, c);
            && c < |s'.pcs|
            && (|| (own == back == [] && (s'.pcs[c].LoadNext? || s'.pcs[c].StoreHead?))
                || (own == [v] && back == [] && TakesRank(s'.pcs[c], r))
                || (own == back == [v] && s'.pcs[c].Idle? && TakenAt(s, s', c, r, v)))
    decreases sched
  {
    r := |s.took|;
    if sched != [] {
      var a, s1 := sched[0], Step(s, sched[0]);
      StepKeepsInv(s, a);
      if a.c == c && s.pcs[c].StoreHead? {
        UnlinkTakesFront(s, a, v);
        StepGrowsOrder(s, a);
        TakenRuns(s1, sched[1..], c, r, v);
        RankIsTaken(s, s1, sched[1..], c, r, v);
      } else {
        FrontStays(s, a, c, v);
        if a.c != c {
          OthersStay(s, a, c);
        } else {
          StepLeads(s, a);
          MemoryForLoad(s, a);
        }
        r := LoadedRuns(s1, sched[1..], c, v);
        DeliveredGrows(s, a);
      }
    }
  }

  /** Rank `r` was not answered in `s`, was taken by client `c`, and is answered with `v` in `s'`. */
  ghost predicate TakenAt<V>(s: State<V>, s': State<V>, c: nat, r: nat, v: V) {
    r !in s.delivered && r < |s'.took| && s'.took[r] == c && r in s'.delivered && s'.delivered[r] == v
  }

  lemma RankIsTaken<V>(s: State<V>, s1: State<V>, sched: seq<Act<V>>, c: nat, r: nat, v: V)
    requires Inv(s1) && r !in s.delivered && r < |s1.took| && s1.took[r] == c
    requires r < |s1.order| && s1.order[r] < |s1.pushed| && s1.pushed[s1.order[r]] == v
    ensures r in Exec(s1, sched).delivered ==> TakenAt(s, Exec(s1, sched), c, r, v)
  {
    OrderOnlyGrows(s1, sched);
    RunKeepsInv(s1, sched);
  }

  lemma MemoryForLoad<V>(s: State<V>, a: Act<V>)
    requires Inv(s) && a.c < |s.pcs| && s.pcs[a.c].LoadNext?
    ensures a.c < |Step(s, a).pcs| && Step(s, a).pcs[a.c].StoreHead?
  {
    LocalsFollow(s, a.c);
  }

  lemma DeliveredGrows<V>(s: State<V>, a: Act<V>)
    ensures s.delivered.Keys <= Step(s, a).delivered.Keys
  {
    if a.c < |s.pcs| && !s.pcs[a.c].Idle? {
      if InLink(s.pcs[a.c]) {
        LinkKeepsAnswers(s, a.c);
      } else if !InPush(s.pcs[a.c]) && !InRelease(s.pcs[a.c]) {
        PopKeepsAnswers(s, a.c);
      }
    }
  }

  lemma LinkKeepsAnswers<V>(s: State<V>, c: nat)
    requires c < |s.pcs| && InLink(s.pcs[c])
    ensures LinkStep(s, c).delivered == s.delivered
  {
    match s.pcs[c]
    case LoadTail(_, _) => case StoreNext(_, _, _) => case StoreTail(_, _) => case CasHead(_, _) => case AddLen(_) =>
  }

  lemma PopKeepsAnswers<V>(s: State<V>, c: nat)
    requires c < |s.pcs| && !s.pcs[c].Idle?
    requires !InPush(s.pcs[c]) && !InLink(s.pcs[c]) && !InRelease(s.pcs[c])
    ensures s.delivered.Keys <= PopStep(s, c).delivered.Keys
  {
    match s.pcs[c]
    case PopLock => case LoadHead => case LoadNext(_) => case StoreHead(_, _) => case CheckTail(_, _) =>
    case CasTail(_, _) => case ReadValue(_, _) => case FreeBlock(_, _, _) => case SubLen(_, _) =>
  }

  // ---- a whole pop ----

  /** How far a pop has come, from what it has seen, taken and returned. */
  ghost predicate PopIsAt<V(!new)>(pc: Pc<V>, seen: Option<seq<V>>, own: seq<V>, back: seq<V>) {
    match seen
    case None => own == back == [] && (pc.PopLock? || pc.LoadHead?)
    case Some(line) =>
      if line == [] then own == back == [] && (EmptyHanded(pc) || pc.Idle?)
      else
        || (own == back == [] && (pc.LoadNext? || pc.StoreHead?))
        || (own == [line[0]] && back == [] && !pc.Idle?)
        || (own == back == [line[0]] && pc.Idle?)
  }

  /** What a pop has done by the end of `sched`. */
  ghost predicate PopOutcome<V(!new)>(s: State<V>, sched: seq<Act<V>>, c: nat, r: nat) {
    var s', own := Exec(s, sched), OwnTakes(s, sched, c);
    && c < |s'.pcs| && PopIsAt(s'.pcs[c], LineSeen(s, sched, c), own, Returned(s, sched, c))
    && (s'.pcs[c].Idle? && own != [] ==> TakenAt(s, s', c, r, own[0]))
  }

  lemma HeadIsLoaded<V>(s: State<V>, a: Act<V>)
    requires Inv(s) && a.c < |s.pcs| && s.pcs[a.c].LoadHead?
    ensures Readable(s)
    ensures var s', line := Step(s, a), Abs(s).line;
            && Inv(s') && a.c < |s'.pcs| && s'.delivered == s.delivered
            && if line == [] then EmptyHanded(s'.pcs[a.c]) else s'.pcs[a.c].LoadNext? && FrontIs(s', line[0])
  {
    StepKeepsInv(s, a);
    PopFailsIffLineEmpty(s, a);
    if Abs(s).line != [] {
      FrontOfLine(s);
      FrontStays(s, a, a.c, Abs(s).line[0]);
    }
  }

  lemma LoadHeadRuns<V(!new)>(s: State<V>, sched: seq<Act<V>>, c: nat) returns (r: nat)
    requires Inv(s) && Busy(s, sched, c) && c < |s.pcs| && s.pcs[c].LoadHead?
    requires sched != [] && sched[0].c == c
    ensures PopOutcome(s, sched, c, r)
  {
    r := 0;
    HeadIsLoaded(s, sched[0]);
    if Abs(s).line == [] {
      EmptyRuns(Step(s, sched[0]), sched[1..], c);
    } else {
      r := LoadedRuns(Step(s, sched[0]), sched[1..], c, Abs(s).line[0]);
    }
  }

  lemma {:induction false} PopRuns<V(!new)>(s: State<V>, sched: seq<Act<V>>, c: nat) returns (r: nat)
    requires Inv(s) && Busy(s, sched, c) && c < |s.pcs| && (s.pcs[c].PopLock? || s.pcs[c].LoadHead?)
    ensures PopOutcome(s, sched, c, r)
    decreases sched
  {
    r := 0;
    if sched != [] {
      if sched[0].c == c && s.pcs[c].LoadHead? {
        r := LoadHeadRuns(s, sched, c);
      } else {
        StepKeepsInv(s, sched[0]);
        if sched[0].c != c { OthersStay(s, sched[0], c); }
        r := PopRuns(Step(s, sched[0]), sched[1..], c);
        DeliveredGrows(s, sched[0]);
      }
    }
  }

  /** Between call and return, whatever the others do, a pop takes the front value of the line that
      it saw at its load of `head`, and nothing else, and returns it; it takes and returns nothing
      only when that line was empty. */
  lemma PopTakesTheFrontOnce<V(!new)>(clients: nat, before: seq<Act<V>>, a: Act<V>, sched: seq<Act<V>>)
      returns (r: nat)
    requires var s := Exec(Init<V>(clients), before); a.c < |s.pcs| && s.pcs[a.c].Idle? && a.call.Pop?
    requires Busy(Step(Exec(Init<V>(clients), before), a), sched, a.c)
    ensures var s := Step(Exec(Init<V>(clients), before), a);
            var s', seen := Exec(s, sched), LineSeen(s, sched, a.c);
            var own, back := OwnTakes(s, sched, a.c), Returned(s, sched, a.c);
            && a.c < |s'.pcs|
            && (own == [] || (seen.Some? && seen.value != [] && own == [seen.value[0]]))
            && (back == [] || back == own)
            && (s'.pcs[a.c].Idle? ==>
                && seen.Some? && own == back == (if seen.value == [] then [] else [seen.value[0]])
                && (own != [] ==> TakenAt(s, s', a.c, r, own[0])))
  {
    InitIsSafe<V>(clients);
    RunKeepsInv(Init<V>(clients), before);
    var s := Exec(Init<V>(clients), before);
    StepKeepsInv(s, a);
    r := PopRuns(Step(s, a), sched, a.c);
  }

  // ---- a whole push ----

  /** The values that the steps of client `c` put where it pushes: into the slot or on the line. What
      its release moves out of the slot is not among them. */
  ghost function OwnPuts<V>(s: State<V>, sched: seq<Act<V>>, c: nat): seq<V>
    decreases sched
  {
    if sched == [] then []
    else
      var e := EventOf(s, sched[0]);
      var own := sched[0].c == c
                 && (e.Stash? || (e.Append? && c < |s.pcs| && s.pcs[c].StoreTail? && s.pcs[c].from.FromPush?));
      (if own then [e.v] else []) + OwnPuts(Step(s, sched[0]), sched[1..], c)
  }

  /** A push that still has its value in its hand, in block `p`. */
  predicate ToPut<V>(pc: Pc<V>, p: nat) {
    (InPush(pc) && pc.p == p) || (Carries(pc) && InLink(pc) && pc.p == p && pc.from.FromPush?)
  }

  /** A push that has put it. */
  predicate HasPut<V>(pc: Pc<V>) {
    || pc.Idle? || ((pc.CasHead? || pc.AddLen?) && pc.from.FromPush?)
    || (InRelease(pc) && pc.k == Pushed) || (InLink(pc) && pc.from == FromRelease(Pushed))
  }

  lemma ValuesStay<V>(s: State<V>, a: Act<V>, p: nat)
    requires Inv(s) && p in s.heap && p in Step(s, a).heap
    ensures Step(s, a).heap[p].val == s.heap[p].val
  {
    if a.c < |s.pcs| {
      if Still(s.pcs[a.c]) {
        StillSteps(s, a);
      } else {
        match s.pcs[a.c]
        case PushStash(q) => assert Step(s, a) == VecMachine.Stash(s, a.c, q);
        case StoreTail(q, from) => assert Step(s, a) == SetTail(s, a.c, q, from);
        case StoreHead(h, n) => assert Step(s, a) == SetHead(s, a.c, h, n);
        case Swap(k) => assert Step(s, a) == TakeSlot(s, a.c, k);
      }
    }
  }

  lemma PutLeads<V>(pc: Pc<V>, pc': Pc<V>, p: nat)
    requires Leads(pc, pc')
    ensures ToPut(pc, p) ==> ToPut(pc', p) || HasPut(pc')
    ensures HasPut(pc) && !pc.Idle? ==> HasPut(pc')
  {
  }

  /** A step of a push that has its value still in hand keeps it there or puts it. */
  lemma PushMoves<V>(s: State<V>, a: Act<V>, p: nat)
    requires Inv(s) && a.c < |s.pcs| && ToPut(s.pcs[a.c], p)
    ensures p in s.heap
    ensures var s', e, pc := Step(s, a), EventOf(s, a), s.pcs[a.c];
            var own := e.Stash? || (e.Append? && pc.StoreTail? && pc.from.FromPush?);
            && a.c < |s'.pcs|
            && (own ==> e.v == s.heap[p].val && HasPut(s'.pcs[a.c]) && !ToPut(s'.pcs[a.c], p))
            && (!own ==> ToPut(s'.pcs[a.c], p))
  {
    assert ClientOk(s, a.c);
    StepLeads(s, a);
    PutLeads(s.pcs[a.c], Step(s, a).pcs[a.c], p);
    if s.pcs[a.c].PushStash? {
      assert Step(s, a) == VecMachine.Stash(s, a.c, p);
    } else if s.pcs[a.c].StoreTail? {
      assert Step(s, a) == SetTail(s, a.c, p, s.pcs[a.c].from);
    }
  }

  lemma {:induction false} PushEnds<V>(s: State<V>, sched: seq<Act<V>>, c: nat)
    requires Inv(s) && Busy(s, sched, c) && c < |s.pcs| && HasPut(s.pcs[c])
    ensures c < |Exec(s, sched).pcs| && HasPut(Exec(s, sched).pcs[c]) && OwnPuts(s, sched, c) == []
    decreases sched
  {
    if sched != [] {
      var a := sched[0];
      StepKeepsInv(s, a);
      if a.c != c {
        OthersStay(s, a, c);
      } else {
        StepLeads(s, a);
        PutLeads(s.pcs[c], Step(s, a).pcs[c], NULL);
      }
      PushEnds(Step(s, a), sched[1..], c);
    }
  }

  lemma {:induction false} PushRuns<V>(s: State<V>, sched: seq<Act<V>>, c: nat, p: nat, v: V)
    requires Inv(s) && Busy(s, sched, c) && c < |s.pcs| && ToPut(s.pcs[c], p) && p in s.heap && s.heap[p].val == v
    ensures var s', own := Exec(s, sched), OwnPuts(s, sched, c);
            && c < |s'.pcs|
            && ((own == [] && ToPut(s'.pcs[c], p)) || (own == [v] && HasPut(s'.pcs[c])))
    decreases sched
  {
    if sched != [] {
      var a, s1 := sched[0], Step(s, sched[0]);
      StepKeepsInv(s, a);
      if a.c != c {
        OthersStay(s, a, c);
      } else {
        PushMoves(s, a, p);
      }
      if ToPut(s1.pcs[c], p) {
        assert ClientOk(s1, c);
        ValuesStay(s, a, p);
        PushRuns(s1, sched[1..], c, p, v);
      } else {
        PushEnds(s1, sched[1..], c);
      }
    }
  }

  /** Between call and return, whatever the others do, a push puts its own value into the slot or on
      the line, exactly once. */
  lemma PushPutsOnce<V>(clients: nat, before: seq<Act<V>>, a: Act<V>, sched: seq<Act<V>>)
    requires StartsPush(Exec(Init<V>(clients), before), a)
    requires Busy(Step(Exec(Init<V>(clients), before), a), sched, a.c)
    ensures var s := Step(Exec(Init<V>(clients), before), a);
            var s', own := Exec(s, sched), OwnPuts(s, sched, a.c);
            && a.c < |s'.pcs| && (own == [] || own == [a.call.v]) && (s'.pcs[a.c].Idle? ==> own == [a.call.v])
  {
    InitIsSafe<V>(clients);
    RunKeepsInv(Init<V>(clients), before);
    var s := Exec(Init<V>(clients), before);
    StepKeepsInv(s, a);
    assert Step(s, a) == BeginPush(s, a.c, a.call.v, a.call.at);
    PushRuns(Step(s, a), sched, a.c, a.call.at, a.call.v);
  }

  // ---- calls that nobody disturbs ----

  /** An upper bound on the operations that a call has still to make. */
  function Cost<V>(pc: Pc<V>): nat {
    match pc
    case PushBusy(_) => 30
    case PushStash(_) => 29
    case PushLock(_) => 28
    case LoadTail(_, from) => if from.FromPush? then 27 else 21
    case StoreNext(_, _, from) => if from.FromPush? then 26 else 20
    case StoreTail(_, from) => if from.FromPush? then 25 else 19
    case CasHead(_, from) => if from.FromPush? then 24 else 18
    case AddLen(from) => if from.FromPush? then 23 else 17
    case PopLock => 28
    case LoadHead => 27
    case LoadNext(_) => 26
    case StoreHead(_, _) => 25
    case CheckTail(_, _) => 24
    case CasTail(_, _) => 23
    case Swap(_) => 22
    case Reopen(_) => 16
    case ReadValue(_, _) => 3
    case FreeBlock(_, _, _) => 2
    case SubLen(_, _) => 1
    case Idle => 0
  }

  lemma LeadsOn<V>(pc: Pc<V>, pc': Pc<V>)
    requires Leads(pc, pc') && pc' != pc && !pc.Idle?
    ensures Cost(pc') < Cost(pc)
  {
  }

  lemma LinkMoves<V>(s: State<V>, c: nat)
    requires c < |s.pcs| && InLink(s.pcs[c])
    ensures c < |LinkStep(s, c).pcs| && (LinkStep(s, c).pcs[c] != s.pcs[c] || LinkStep(s, c).crashed)
  {
    match s.pcs[c]
    case LoadTail(_, _) => case StoreNext(_, _, _) => case StoreTail(_, _) => case CasHead(_, _) => case AddLen(_) =>
  }

  lemma PopMoves<V>(s: State<V>, c: nat)
    requires c < |s.pcs| && !s.pcs[c].Idle? && (s.pcs[c].PopLock? ==> s.available)
    requires !InPush(s.pcs[c]) && !InLink(s.pcs[c]) && !InRelease(s.pcs[c])
    ensures c < |PopStep(s, c).pcs| && (PopStep(s, c).pcs[c] != s.pcs[c] || PopStep(s, c).crashed)
  {
    match s.pcs[c]
    case PopLock => case LoadHead => case LoadNext(_) => case StoreHead(_, _) => case CheckTail(_, _) =>
    case CasTail(_, _) => case ReadValue(_, _) => case FreeBlock(_, _, _) => case SubLen(_, _) =>
  }

  /** The flag is free, or the client's own. */
  ghost predicate Unhindered<V>(s: State<V>, c: nat) {
    c < |s.pcs| && (s.available || Inside(s.pcs[c]) == 1)
  }

  lemma MovesOn<V>(s: State<V>, a: Act<V>)
    requires Inv(s) && Unhindered(s, a.c) && !s.pcs[a.c].Idle?
    ensures Inv(Step(s, a)) && Unhindered(Step(s, a), a.c) && Cost(Step(s, a).pcs[a.c]) < Cost(s.pcs[a.c])
  {
    StepKeepsInv(s, a);
    StepLeads(s, a);
    if InLink(s.pcs[a.c]) {
      LinkMoves(s, a.c);
    } else if !InPush(s.pcs[a.c]) && !InRelease(s.pcs[a.c]) {
      PopMoves(s, a.c);
    }
    LeadsOn(s.pcs[a.c], Step(s, a).pcs[a.c]);
    OneClientMoves(s, a);
    SumUpdate<Pc<V>>(Inside, s.pcs, a.c, Step(s, a).pcs[a.c]);
  }

  lemma {:induction false} ReturnsAlone<V>(s: State<V>, c: nat) returns (sched: seq<Act<V>>)
    requires Inv(s) && Unhindered(s, c)
    ensures forall a :: a in sched ==> a.c == c
    ensures Busy(s, sched, c) && c < |Exec(s, sched).pcs| && Exec(s, sched).pcs[c].Idle?
    decreases if c < |s.pcs| then Cost(s.pcs[c]) else 0
  {
    if s.pcs[c].Idle? {
      sched := [];
    } else {
      var a := Act(c, Pop);
      MovesOn(s, a);
      var rest := ReturnsAlone(Step(s, a), c);
      sched := [a] + rest;
      assert sched[1..] == rest;
    }
  }

  /** A push or a pop that is called while the flag is free, and then runs alone, returns; what the
      others have left half done does not matter. */
  lemma UndisturbedCallReturns<V>(clients: nat, before: seq<Act<V>>, a: Act<V>) returns (sched: seq<Act<V>>)
    requires var s := Exec(Init<V>(clients), before);
             s.available && a.c < |s.pcs| && s.pcs[a.c].Idle? && (a.call.Push? ==> StartsPush(s, a))
    ensures forall x :: x in sched ==> x.c == a.c
    ensures var s := Step(Exec(Init<V>(clients), before), a);
            Busy(s, sched, a.c) && a.c < |Exec(s, sched).pcs| && Exec(s, sched).pcs[a.c].Idle?
  {
    InitIsSafe<V>(clients);
    RunKeepsInv(Init<V>(clients), before);
    var s := Exec(Init<V>(clients), before);
    StepKeepsInv(s, a);
    sched := ReturnsAlone(Step(s, a), a.c);
  }
}
