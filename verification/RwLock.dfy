/** The reference readers-writer lock: what a lock with an exclusive and a group
    mode is supposed to be. The concrete Mutex is shown to simulate it, and the
    guard protocols built on the Mutex are stated over it. */
module RwLock {
  import opened Wrappers

  datatype Lock = Free | Exclusive(owner: nat) | Group(members: set<nat>)

  datatype Event = Silent | Lock(who: nat) | Unlock(who: nat) | Join(who: nat) | Leave(who: nat)

  /** The effect of an event, or None when the lock does not permit it. */
  function Apply(l: Lock, e: Event): Option<Lock> {
    match e
    case Silent => Some(l)
    case Lock(c) => if l.Free? then Some(Exclusive(c)) else None
    case Unlock(c) => if l == Exclusive(c) then Some(Free) else None
    case Join(c) =>
      if l.Free? then Some(Group({c}))
      else if l.Group? && c !in l.members then Some(Group(l.members + {c}))
      else None
    case Leave(c) =>
      if l.Group? && c in l.members then
        Some(if l.members == {c} then Free else Group(l.members - {c}))
      else None
  }

  function Replay(l: Lock, events: seq<Event>): Option<Lock>
    decreases events
  {
    if events == [] then Some(l)
    else match Apply(l, events[0])
      case None => None
      case Some(l') => Replay(l', events[1..])
  }

  /** Clients that currently hold the lock in some mode. */
  function Holders(l: Lock): set<nat> {
    match l
    case Free => {}
    case Exclusive(c) => {c}
    case Group(m) => m
  }
}
