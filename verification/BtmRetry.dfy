/**
 BSS Transition Management requests and their retries (bm_kick.c): one request is
 sent at once, the rest by a task that reschedules itself.
 */
module BtmRetry {
  import opened Common

  /** One number for each of the three parameter sets of a client. */
  datatype PerType = PerType(steering: int, sticky: int, force: int) {
    function Get(t: KickType): int {
      match t case SteeringKick => steering case StickyKick => sticky case ForceKick => force
    }

    function Put(t: KickType, n: int): PerType {
      match t
      case SteeringKick => PerType(n, sticky, force)
      case StickyKick => PerType(steering, n, force)
      case ForceKick => PerType(steering, sticky, n)
    }
  }

  const NONE := PerType(0, 0, 0)

  function Max(a: int, b: int): int {
    if a > b then a else b
  }

  class BtmClient {
    var tries: PerType
    var maxTries: PerType    // configured retries plus one
    var kickType: KickType              // kick_info.kick_type
    var connected: bool
    var cancelBtm: bool

    /** Pending retry tasks of this client, and requests sent so far. */
    var retryTasks: nat
    var sent: nat

    /** No request of any type is being retried. */
    ghost predicate Quiet()
      reads this`retryTasks, this`tries
    {
      retryTasks == 0 && tries == NONE
    }

    /** An episode of kind `t` in which `n` requests were sent, with its retry task pending. */
    ghost predicate Retrying(t: KickType, n: int)
      reads this
    {
      && kickType == t && retryTasks == 1 && connected && !cancelBtm
      && 1 <= n < Max(2, maxTries.Get(t)) && tries == NONE.Put(t, n)
    }

    /** A retry could not be sent: requests are marked as being retried, but no task will do it. */
    ghost predicate Wedged(t: KickType)
      reads this`kickType, this`retryTasks, this`tries
    {
      kickType == t && retryTasks == 0 && tries.Get(t) > 0
    }

    /** bm_kick_issue_bss_tm_req */
    method Issue(ok: bool)
      modifies this`sent
      ensures sent == old(sent) + if ok then 1 else 0
    {
      if ok {
        sent := sent + 1;
      }
    }

    /** bm_kick_cancel_btm_retry_task; a task that is running is no longer pending. */
    method CancelRetry()
      modifies this`tries, this`cancelBtm, this`retryTasks
      ensures tries == old(tries).Put(kickType, 0) && !cancelBtm
      ensures retryTasks == if old(retryTasks) > 0 then old(retryTasks) - 1 else 0
    {
      cancelBtm := false;
      if retryTasks > 0 {
        retryTasks := retryTasks - 1;
      }
      tries := tries.Put(kickType, 0);
    }

    /** bm_kick and bm_kick_handle_bss_tm_req for a kick that asks for a BTM request. */
    method Kick(t: KickType, ok: bool) returns (accepted: bool)
      modifies this`tries, this`cancelBtm, this`retryTasks, this`kickType, this`sent
      ensures old(tries).Get(t) > 0 && old(kickType) == t ==>
                accepted && sent == old(sent) && tries == old(tries) && retryTasks == old(retryTasks) && kickType == t
                    && cancelBtm == old(cancelBtm)
      ensures old(Quiet()) ==> accepted == ok
      ensures old(Quiet()) && ok && connected && (old(kickType) != t || !old(cancelBtm)) ==>
                Retrying(t, 1) && sent == old(sent) + 1
      ensures old(Quiet()) && !ok ==> Quiet() && sent == old(sent)
      ensures forall u: KickType, n: int :: old(Retrying(u, n)) && u != t ==>
                if ok then Retrying(t, 1) && sent == old(sent) + 1 else Quiet() && sent == old(sent)
    {
      if kickType != t {
        CancelRetry();
      }
      if tries.Get(t) > 0 {
        if kickType == t {
          return true;
        }
        CancelRetry();
      }
      Issue(ok);
      if !ok {
        return false;
      }
      tries := tries.Put(t, 1);
      kickType := t;
      retryTasks := retryTasks + 1;
      return true;
    }

    /** bm_kick_btm_retry_task, when it fires. */
    method RetryTask(ok: bool)
      requires retryTasks > 0
      modifies this`tries, this`cancelBtm, this`retryTasks, this`sent
      ensures forall t: KickType, n: int :: old(Retrying(t, n)) ==>
                if !ok then Wedged(t) && sent == old(sent)
                else sent == old(sent) + 1 && if n + 1 >= maxTries.Get(t) then Quiet() else Retrying(t, n + 1)
      ensures old(retryTasks) == 1 && !connected ==> retryTasks == 0 && tries == old(tries) && sent == old(sent)
      ensures connected && old(cancelBtm) ==> tries == old(tries).Put(kickType, 0) && sent == old(sent)
    {
      retryTasks := retryTasks - 1;
      if !connected {
        return;
      }
      if cancelBtm {
        CancelRetry();
        return;
      }
      tries := tries.Put(kickType, tries.Get(kickType) + 1);
      Issue(ok);
      if !ok {
        return;
      }
      if tries.Get(kickType) >= maxTries.Get(kickType) {
        CancelRetry();
        return;
      }
      retryTasks := retryTasks + 1;
    }

    /** All requests of an episode from number `from` on go out. */
    ghost predicate AllSent(t: KickType, answers: nat -> bool, from: nat)
      reads this
    {
      forall k: nat :: from <= k <= Max(2, maxTries.Get(t)) ==> answers(k)
    }

    /**
     One episode: an accepted kick, then the retry task as often as it is pending, with
     at most `more` further kicks of the same type in between. `answers(k)` says whether
     request k can be sent. The episode sends max(2, maxTries) requests and ends quietly
     exactly when all of them can be sent; otherwise it stops before the first that
     cannot and leaves the client wedged.
     */
    method Episode(t: KickType, answers: nat -> bool, more: nat)
      requires Quiet() && connected && !cancelBtm && answers(1)
      modifies this`tries, this`cancelBtm, this`retryTasks, this`kickType, this`sent
      ensures if AllSent(t, answers, 2) then Quiet() && sent == old(sent) + Max(2, maxTries.Get(t))
              else Wedged(t) && old(sent) < sent < old(sent) + Max(2, maxTries.Get(t)) && !answers(sent - old(sent) + 1)
                   && forall k: nat :: 2 <= k <= sent - old(sent) ==> answers(k)
    {
      var _ := Kick(t, true);
      var n, left := 1, more;
      while true
        invariant Retrying(t, n) && sent == old(sent) + n
        invariant forall k: nat :: 2 <= k <= n ==> answers(k)
        decreases Max(2, maxTries.Get(t)) - n, left
      {
        var again: bool := *;
        if again && left > 0 {
          left := left - 1;
          var _ := Kick(t, true);
        } else {
          RetryTask(answers(n + 1));
          if !answers(n + 1) || n + 1 >= maxTries.Get(t) {
            return;
          }
          n := n + 1;
        }
      }
    }

    /** A wedged client ignores every further kick of that type until something cancels the episode. */
    method WedgedRun(t: KickType, kicks: nat)
      requires Wedged(t)
      modifies this`tries, this`cancelBtm, this`retryTasks, this`kickType, this`sent
      ensures Wedged(t) && sent == old(sent)
    {
      for i := 0 to kicks
        invariant Wedged(t) && sent == old(sent)
      {
        var ok: bool := *;
        var accepted := Kick(t, ok);
        assert accepted;
      }
    }
  }
}
