/**
 The per-client ring of debug events of bm_client.c: an array of 128 slots and an index
 that wraps lazily, at the next write rather than after the last one.
 */
module DebugRing {

  const SIZE := 128

  datatype Slot<E> = Empty | Filled(event: E)

  function Oldest(n: nat): nat {
    if n <= SIZE then 0 else n - SIZE
  }

  /** Where the wrap-around index stands while it runs through all numbers. */
  lemma Slots(m: nat)
    ensures if m < SIZE then m % SIZE == m else m % SIZE == (m - SIZE) % SIZE
    ensures (m + 1) % SIZE == if m % SIZE + 1 >= SIZE then 0 else m % SIZE + 1
  {
  }

  class Ring<E> {
    const slots: array<Slot<E>>
    var idx: nat
    ghost var history: seq<E>

    /** The newest SIZE events sit at their number modulo SIZE; slots never written are empty. */
    ghost predicate Valid()
      reads this, slots
    {
      && slots.Length == SIZE && idx <= SIZE && idx % SIZE == |history| % SIZE
      && (forall k :: Oldest(|history|) <= k < |history| ==> slots[k % SIZE] == Filled(history[k]))
      && (forall i :: |history| <= i < SIZE ==> slots[i] == Empty)
    }

    constructor ()
      ensures Valid() && history == [] && fresh(slots)
    {
      slots := new Slot<E>[SIZE](_ => Empty);
      idx, history := 0, [];
    }

    /** bm_client_add_dbg_event */
    method Add(event: E)
      requires Valid()
      modifies this, slots
      ensures Valid() && history == old(history) + [event]
    {
      if idx >= SIZE {
        idx := 0;
      }
      slots[idx] := Filled(event);
      idx := idx + 1;
      history := history + [event];
    }

    /** The dump loop of bm_client_dump: exactly the last min(n, 128) events, oldest first. */
    method Dump() returns (events: seq<E>)
      requires Valid()
      ensures events == history[Oldest(|history|)..]
    {
      events := [];
      var at := idx;
      if at >= SIZE {
        at := 0;
      }
      ghost var n := |history|;
      for i := 0 to SIZE
        invariant at == (n + i) % SIZE
        invariant events == if n + i <= SIZE then [] else history[Oldest(n)..n + i - SIZE]
      {
        Slots(n + i);
        assert n + i >= SIZE ==> slots[at] == Filled(history[n + i - SIZE]);
        if slots[at].Filled? {
          events := events + [slots[at].event];
        }
        at := at + 1;
        if at >= SIZE {
          at := 0;
        }
      }
    }

    /** Any run of adds: the dump shows the newest events of everything ever added. */
    method Run(events: seq<E>) returns (shown: seq<E>)
      requires Valid()
      modifies this, slots
      ensures Valid() && history == old(history) + events
      ensures shown == (old(history) + events)[Oldest(|old(history)| + |events|)..]
    {
      for i := 0 to |events|
        invariant Valid() && history == old(history) + events[..i]
      {
        Add(events[i]);
        assert events[..i + 1] == events[..i] + [events[i]];
      }
      assert events[..|events|] == events;
      shown := Dump();
    }
  }
}
