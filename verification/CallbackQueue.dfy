/**
 The queue between the driver's callback threads and the event loop (bm_events.c).
 Every section under the mutex is one method; the steps of producers and of the
 drain callback interleave arbitrarily.
 */
module CallbackQueue {
  import opened Common

  const BM_CB_QUEUE_MAX := 256

  /** Where the event loop stands: outside the callback, before the lock, or with an entry in hand. */
  datatype Phase = Idle | Draining | Handling

  class EventQueue<E> {
    var queue: seq<E>
    var len: int

    /** A wakeup was sent and the callback has not been invoked for it yet. */
    var asyncPending: bool

    /** Producers that have unlocked after enqueueing and not yet sent their wakeup. */
    var sending: nat

    var phase: Phase
    var inHand: Option<E>

    ghost var accepted: seq<E>
    ghost var handled: seq<E>

    ghost predicate Valid()
      reads this
    {
      && len == |queue| <= BM_CB_QUEUE_MAX
      && (inHand.Some? <==> phase == Handling)
      && accepted == handled + (if inHand.Some? then [inHand.value] else []) + queue
      && (queue != [] ==> phase != Idle || asyncPending || sending > 0)
    }

    constructor ()
      ensures Valid() && accepted == []
    {
      queue, len, asyncPending, sending, phase, inHand := [], 0, false, 0, Idle, None;
      accepted, handled := [], [];
    }

    /** The locked part of bm_events_bsal_event_cb: an event is refused exactly when the queue is full. */
    method Enqueue(e: E)
      requires Valid()
      modifies this`queue, this`len, this`sending, this`accepted
      ensures Valid()
      ensures if old(|queue|) < BM_CB_QUEUE_MAX then accepted == old(accepted) + [e] && sending == old(sending) + 1
              else accepted == old(accepted) && sending == old(sending) && queue == old(queue)
    {
      if len >= BM_CB_QUEUE_MAX {
        return;
      }
      queue := queue + [e];
      len := len + 1;
      sending := sending + 1;
      accepted := accepted + [e];
    }

    /** ev_async_send, after the unlock; sends coalesce. */
    method Send()
      requires Valid() && sending > 0
      modifies this`sending, this`asyncPending
      ensures Valid() && asyncPending && sending == old(sending) - 1
    {
      sending := sending - 1;
      asyncPending := true;
    }

    /** The event loop clears the wakeup and enters bm_events_async_cb. */
    method Dispatch()
      requires Valid() && asyncPending && phase == Idle
      modifies this`asyncPending, this`phase
      ensures Valid() && !asyncPending && phase == Draining
    {
      asyncPending := false;
      phase := Draining;
    }

    /** The locked part of the drain loop; on an empty queue the callback returns. */
    method Pop()
      requires Valid() && phase == Draining
      modifies this`queue, this`len, this`phase, this`inHand
      ensures Valid()
      ensures if old(queue) == [] then phase == Idle && queue == []
              else phase == Handling && inHand == Some(old(queue)[0]) && queue == old(queue)[1..]
    {
      if queue == [] {
        phase := Idle;
        return;
      }
      assert queue == [queue[0]] + queue[1..];
      inHand := Some(queue[0]);
      queue := queue[1..];
      len := len - 1;
      phase := Handling;
    }

    method Handle()
      requires Valid() && phase == Handling
      modifies this`phase, this`inHand, this`handled
      ensures Valid() && phase == Draining && handled == old(handled) + [old(inHand).value]
    {
      handled := handled + [inHand.value];
      inHand := None;
      phase := Draining;
    }

    /** Any step of the event loop or of a producer that is past its critical section. */
    method Step()
      requires Valid() && (sending > 0 || phase != Idle || asyncPending)
      modifies this`queue, this`len, this`asyncPending, this`sending, this`phase, this`inHand, this`handled
      ensures Valid()
      ensures sending < old(sending)
              || (sending == old(sending) && |queue| < old(|queue|))
              || (sending == old(sending) && |queue| == old(|queue|) && Work() < old(Work()))
    {
      var producer: bool := *;
      if sending > 0 && (producer || (phase == Idle && !asyncPending)) {
        Send();
      } else if phase == Idle {
        Dispatch();
      } else if phase == Draining {
        Pop();
      } else {
        Handle();
      }
    }

    ghost function Work(): nat
      reads this`asyncPending, this`phase
    {
      (if asyncPending then 2 else 0) + match phase case Idle => 0 case Draining => 1 case Handling => 2
    }

    /** Every run keeps order, count and wakeups. */
    method Run(events: seq<E>)
      requires Valid()
      modifies this
      ensures Valid()
    {
      var i := 0;
      while i < |events|
        invariant 0 <= i <= |events| && Valid()
        decreases |events| - i, sending, |queue|, Work()
      {
        var produce: bool := *;
        if produce || (sending == 0 && phase == Idle && !asyncPending) {
          Enqueue(events[i]);
          i := i + 1;
        } else {
          Step();
        }
      }
    }

    /** No wakeup is lost: once producers stop, every schedule handles all accepted events, in order. */
    method Settle()
      requires Valid()
      modifies this`queue, this`len, this`asyncPending, this`sending, this`phase, this`inHand, this`handled
      ensures Valid()
      ensures handled == accepted && queue == [] && phase == Idle && !asyncPending
    {
      while sending > 0 || phase != Idle || asyncPending
        invariant Valid()
        decreases sending, |queue|, Work()
      {
        Step();
      }
    }
  }
}
