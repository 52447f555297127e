/** What AtomicVec stands for. */
module StashQueue {
  import opened Wrappers

  // A queue with at most one value waiting beside it.

  /** A queue and at most one value waiting beside it. */
  datatype Queue<V> = Queue(line: seq<V>, stash: Option<V>)

  function Waiting<V>(q: Queue<V>): seq<V> {
    match q.stash
    case None => []
    case Some(v) => [v]
  }

  /** The values in the order in which they will leave if nothing more is pushed. */
  function Everything<V>(q: Queue<V>): seq<V> {
    q.line + Waiting(q)
  }

  /** A push that saw the flag taken and found the slot free leaves its value there; any other
      push links its value, and then the waiting one. */
  function Pushed<V>(q: Queue<V>, busy: bool, v: V): Queue<V> {
    if busy && q.stash.None? then q.(stash := Some(v))
    else Queue(q.line + [v] + Waiting(q), None)
  }

  /** A pop takes the front of the line, and then lets the waiting value in; on an empty line
      it returns None even when a value is waiting. */
  function Popped<V>(q: Queue<V>): (Queue<V>, Option<V>) {
    if q.line == [] then (Queue(Waiting(q), None), None)
    else (Queue(q.line[1..] + Waiting(q), None), Some(q.line[0]))
  }

  lemma PushAddsOne<V>(q: Queue<V>, busy: bool, v: V)
    ensures multiset(Everything(Pushed(q, busy, v))) == multiset(Everything(q)) + multiset{v}
  {
    if !(busy && q.stash.None?) {
      assert Everything(Pushed(q, busy, v)) == q.line + [v] + Waiting(q);
    } else {
      assert Everything(q) == q.line;
    }
  }

  lemma PopTakesTheOldest<V>(q: Queue<V>)
    ensures var (q', r) := Popped(q);
            && q'.stash.None?
            && Everything(q) == (if r.Some? then [r.value] else []) + Everything(q')
            && (r.None? <==> q.line == [])
  {
    var (q', r) := Popped(q);
    if q.line != [] {
      assert q.line == [q.line[0]] + q.line[1..];
    }
  }

  // ---- the small steps the operations consist of ----

  datatype Event<V> = Silent | Append(v: V) | Take(v: V) | Stash(v: V) | Unstash(v: V)

  /** The effect of an event, or None when the queue does not permit it. */
  function Apply<V(==)>(q: Queue<V>, e: Event<V>): Option<Queue<V>> {
    match e
    case Silent => Some(q)
    case Append(v) => Some(q.(line := q.line + [v]))
    case Take(v) => if q.line != [] && q.line[0] == v then Some(q.(line := q.line[1..])) else None
    case Stash(v) => if q.stash.None? then Some(q.(stash := Some(v))) else None
    case Unstash(v) => if q.stash == Some(v) then Some(q.(stash := None)) else None
  }

  function Replay<V(==)>(q: Queue<V>, events: seq<Event<V>>): Option<Queue<V>>
    decreases events
  {
    if events == [] then Some(q)
    else match Apply(q, events[0])
      case None => None
      case Some(q') => Replay(q', events[1..])
  }

  /** What a release does with the waiting value. */
  function Settling<V>(q: Queue<V>): seq<Event<V>> {
    match q.stash
    case None => []
    case Some(w) => [Unstash(w), Append(w)]
  }

  function PushEvents<V>(q: Queue<V>, busy: bool, v: V): seq<Event<V>> {
    if busy && q.stash.None? then [Event.Stash(v)] else [Append(v)] + Settling(q)
  }

  function PopEvents<V>(q: Queue<V>): seq<Event<V>> {
    (if q.line == [] then [] else [Take(q.line[0])]) + Settling(q)
  }

  lemma Settles<V>(q: Queue<V>)
    ensures Replay(q, Settling(q)) == Some(Queue(q.line + Waiting(q), None))
  {
    if q.stash.Some? {
      var w := q.stash.value;
      assert Settling(q)[1..] == [Append(w)];
      assert Replay(Queue(q.line, None), [Append(w)]) == Replay(Queue(q.line + [w], None), [Append(w)][1..]);
    } else {
      assert q.line + Waiting(q) == q.line;
    }
  }

  /** An undisturbed push or pop is the composition of its small steps. */
  lemma OperationsAreTheirEvents<V>(q: Queue<V>, busy: bool, v: V)
    ensures Replay(q, PushEvents(q, busy, v)) == Some(Pushed(q, busy, v))
    ensures Replay(q, PopEvents(q)) == Some(Popped(q).0)
  {
    if busy && q.stash.None? {
      assert Replay(q, [Event.Stash(v)]) == Replay(q.(stash := Some(v)), [Event.Stash(v)][1..]);
    } else {
      var q1 := q.(line := q.line + [v]);
      assert PushEvents(q, busy, v)[1..] == Settling(q1);
      Settles(q1);
    }
    if q.line == [] {
      assert PopEvents(q) == Settling(q);
      Settles(q);
      assert [] + Waiting(q) == Waiting(q);
    } else {
      var q1 := q.(line := q.line[1..]);
      assert PopEvents(q)[1..] == Settling(q1);
      Settles(q1);
    }
  }
}
