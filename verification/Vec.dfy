/** AtomicVec as a heap structure. */
module VecObject {
  import opened StashQueue
  import opened Words
  import opened Wrappers

  // src/collections/atomic_vec.rs, one operation at a time, but started on whatever the spin flag
  // showed, so that the side slot `t_tail` comes into play. VecMachine has the interleavings.

  class Item<V> {
    const value: V
    var next: Item?<V>

    constructor (value: V)
      ensures this.value == value && next == null
    {
      this.value, next := value, null;
    }
  }

  function At<V>(chain: seq<Item<V>>, i: nat): Item?<V> {
    if i < |chain| then chain[i] else null
  }

  function LastOf<V>(chain: seq<Item<V>>): Item?<V> {
    if chain == [] then null else chain[|chain| - 1]
  }

  ghost predicate Distinct<V>(chain: seq<Item<V>>) {
    forall i, j :: 0 <= i < j < |chain| ==> chain[i] != chain[j]
  }

  /** `p` is the head of a list that runs through `chain` and ends. */
  ghost predicate Runs<V>(p: Item?<V>, chain: seq<Item<V>>)
    reads chain
  {
    p == At(chain, 0) && forall i {:trigger chain[i].next} :: 0 <= i < |chain| ==> chain[i].next == At(chain, i + 1)
  }

  function ValuesOf<V>(chain: seq<Item<V>>): seq<V> {
    seq(|chain|, i requires 0 <= i < |chain| => chain[i].value)
  }

  class AtomicVec<V> {
    var head: Item?<V>
    var tail: Item?<V>
    var tTail: Item?<V>
    var len: nat
    var refCount: nat
    /** The spin flag. */
    var available: bool
    /** The linked items, from the head. */
    ghost var chain: seq<Item<V>>

    /** Unlinked items that `len` still counts. */
    ghost var pending: nat
    /** The handles that exist. */
    ghost var handles: set<nat>
    ghost var nextHandle: nat

    /** The list is whole; `tTail` is apart from it. */
    ghost predicate Listed()
      reads this, chain, tTail
    {
      && Runs(head, chain) && Distinct(chain) && tail == LastOf(chain)
      && (tTail != null ==> tTail !in chain && tTail.next == null)
    }

    ghost predicate Valid()
      reads this, chain, tTail
    {
      && Listed() && len == (|chain| + pending) % WORD
      && refCount == |handles| % WORD && forall h :: h in handles ==> h < nextHandle
    }

    ghost function Contents(): Queue<V>
      reads this
    {
      Queue(ValuesOf(chain), if tTail == null then None else Some(tTail.value))
    }

    constructor ()
      ensures Valid() && Contents() == Queue([], None) && pending == 0 && available && handles == {0}
    {
      head, tail, tTail, len, refCount, available, chain := null, null, null, 0, 1, true, [];
      pending, handles, nextHandle := 0, {0}, 1;
    }

    /** The compare_exchange on the spin flag that succeeds. */
    method Lock()
      modifies this`available
      ensures !available
    {
      available := false;
    }

    /** update_tail */
    method UpdateTail(item: Item<V>)
      requires Valid() && !available && item !in chain && item.next == null && item != tTail
      modifies this`tail, this`head, this`len, this`chain, Present(tail)
      ensures Valid() && chain == old(chain) + [item]
    {
      ghost var before := chain;
      if tail != null {
        tail.next := item;
      }
      tail := item;
      if head == null {
        head := item;
      }
      len := Inc(len);
      IncWraps(|before| + pending);
      chain := chain + [item];
      forall i | 0 <= i < |chain| ensures chain[i].next == At(chain, i + 1) {
        if i < |before| - 1 {
          assert chain[i] == before[i] && before[i] != before[|before| - 1];
        }
      }
    }

    /** Links what waits in the slot, and gives the flag back. */
    method Release()
      requires Valid() && !available
      modifies this`tail, this`head, this`len, this`chain, this`tTail, this`available, Present(tail)
      ensures Valid() && tTail == null && available
      ensures chain == old(chain) + if old(tTail) == null then [] else [old(tTail)]
    {
      var item := tTail;
      tTail := null;
      if item != null {
        UpdateTail(item);
      }
      available := true;
    }

    /** push, by a caller whose `is_busy` returned `busy`. */
    method Push(value: V, busy: bool)
      requires Valid()
      modifies this`tail, this`head, this`len, this`chain, this`tTail, this`available, Present(tail)
      ensures Valid() && Contents() == Pushed(old(Contents()), busy, value)
      ensures available == if busy && old(tTail) == null then old(available) else true
    {
      var item := new Item(value);
      if busy {
        if tTail == null {
          tTail := item;
          return;
        }
      }
      ghost var added := [item] + if tTail == null then [] else [tTail];
      PushLocked(item);
      assert ValuesOf(chain) == ValuesOf(old(chain)) + ValuesOf(added);
    }

    /** The part of push under the flag. */
    method PushLocked(item: Item<V>)
      requires Valid() && item !in chain && item.next == null && item != tTail
      modifies this`tail, this`head, this`len, this`chain, this`tTail, this`available, Present(tail), item
      ensures Valid() && tTail == null && available
      ensures chain == old(chain) + ([item] + if old(tTail) == null then [] else [old(tTail)])
    {
      Lock();
      UpdateTail(item);
      assert tail == item;
      Release();
    }

    /** `len` is decremented at the very end, long after the flag has been given back. */
    method Pop() returns (r: Option<V>)
      requires Valid()
      modifies this`tail, this`head, this`len, this`chain, this`tTail, this`available, this`pending, Present(tail)
      ensures Valid() && (Contents(), r) == Popped(old(Contents()))
      ensures available && pending == old(pending)
    {
      ghost var waiting := tTail;
      Lock();
      var first := head;
      if first == null {
        Release();
        assert chain == if waiting == null then [] else [waiting];
        assert Contents().line == Waiting(old(Contents()));
        return None;
      }
      Advance(first);
      Release();
      ghost var added := if waiting == null then [] else [waiting];
      assert chain == old(chain)[1..] + added;
      assert ValuesOf(added) == Waiting(old(Contents()));
      assert ValuesOf(chain) == ValuesOf(old(chain))[1..] + ValuesOf(added);
      r := Some(first.value);
      Discount();
    }

    /** Takes the first item out of the list; a null tail goes with an empty list. */
    method Advance(first: Item<V>)
      requires Valid() && !available && head == first
      modifies this`head, this`tail, this`chain, this`pending
      ensures Valid() && chain == old(chain)[1..] && pending == old(pending) + 1
    {
      head := first.next;
      if first == tail {
        tail := null;
      }
      chain, pending := chain[1..], pending + 1;
    }

    /** fetch_sub on `len` */
    method Discount()
      requires Valid() && pending > 0
      modifies this`len, this`pending
      ensures Valid() && pending == old(pending) - 1
    {
      DecWraps(|chain| + pending);
      len, pending := Dec(len), pending - 1;
    }

    /** A new handle on the same vector; the counter follows, modulo the word size. */
    method Clone() returns (ghost h: nat)
      requires Valid()
      modifies this`refCount, this`handles, this`nextHandle
      ensures Valid() && h !in old(handles) && handles == old(handles) + {h}
    {
      h := nextHandle;
      IncWraps(|handles|);
      refCount := Inc(refCount);
      handles, nextHandle := handles + {h}, nextHandle + 1;
    }

    /** Drops a handle. The last one, and no other as long as the handles can be counted in a word,
        frees the items of the list, once each and in order; an item waiting in the slot is not
        freed. */
    method Drop(ghost h: nat) returns (last: bool, freed: seq<Item<V>>)
      requires Valid() && h in handles
      modifies this`refCount, this`handles
      ensures Valid() && handles == old(handles) - {h}
      ensures last <==> |old(handles)| % WORD == 1
      ensures |old(handles)| < WORD ==> (last <==> handles == {})
      ensures freed == if last then chain else []
      ensures Distinct(freed) && tTail !in freed
    {
      DecWraps(|handles|);
      assert |handles - {h}| == |handles| - 1;
      last := refCount == 1;
      refCount := Dec(refCount);
      handles := handles - {h};
      freed := [];
      if last {
        freed := FreeItems();
      }
    }

    /** The loop of the last drop. */
    method FreeItems() returns (freed: seq<Item<V>>)
      requires Listed()
      ensures freed == chain
    {
      freed := [];
      var cur := head;
      ghost var i := 0;
      while cur != null
        invariant 0 <= i <= |chain| && cur == At(chain, i) && freed == chain[..i]
        decreases |chain| - i
      {
        var next := cur.next;
        freed := freed + [cur];
        cur := next;
        i := i + 1;
      }
    }
  }

  function Present<V>(item: Item?<V>): set<Item<V>> {
    if item == null then {} else {item}
  }
}
