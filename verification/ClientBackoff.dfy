/**
 The pre-association backoff of a steered client (bm_client.c, driven by
 bm_events.c): DISCONNECTED, CONNECTED, STEERING and BACKOFF, with a backoff period
 that grows exponentially while the client keeps joining the wrong band.
 */
module ClientBackoff {

  const MAX_EXPONENT := 10

  type Iface = nat
  type TaskId = nat

  datatype State = Disconnected | ConnectedState | Steering | Backoff
  datatype Policy = UndefinedPolicy | CounterPolicy | TimerPolicy

  /** When a blocked probe counts as a reject. */
  datatype Detection = RejectNone | ProbeAll | ProbeNull | ProbeDirect | AuthBlocked

  predicate ProbeRejected(d: Detection, nullSsid: bool) {
    match d
    case RejectNone => false
    case ProbeAll | AuthBlocked => true
    case ProbeNull => nullSsid
    case ProbeDirect => !nullSsid
  }

  /** What can happen to a client; an expiry names its task. */
  datatype Event = Connect(iface: Iface, reported: bool) | TaskExpired(id: TaskId) | Other(iface: Iface)

  function Pow(b: nat, n: nat): nat {
    if n == 0 then 1 else b * Pow(b, n - 1)
  }

  function Exponent(counter: nat): nat {
    if counter > MAX_EXPONENT then MAX_EXPONENT else counter
  }

  function Period(period: nat, base: nat, counter: nat): nat {
    period * Pow(base, Exponent(counter))
  }

  /**
   One start of a backoff: the connect counter it used, and whether an allowed connect happened since
   the previous start.
   */
  datatype Start = Start(counter: nat, used: nat, allowed: bool)

  /** Without an allowed connect in between, the counter rises by at most one from start to start. */
  ghost predicate Growing(starts: seq<Start>, period: nat, base: nat) {
    && (forall i :: 0 <= i < |starts| ==> starts[i].used == Period(period, base, starts[i].counter))
    && (forall i :: 0 < i < |starts| && !starts[i].allowed ==>
        starts[i - 1].counter <= starts[i].counter <= starts[i - 1].counter + 1)
  }

  function LastCounter(starts: seq<Start>): nat {
    if starts == [] then 0 else starts[|starts| - 1].counter
  }

  lemma StartKeepsGrowth(starts: seq<Start>, s: Start, period: nat, base: nat)
    requires Growing(starts, period, base) && s.used == Period(period, base, s.counter)
    requires !s.allowed ==> LastCounter(starts) <= s.counter <= LastCounter(starts) + 1
    ensures Growing(starts + [s], period, base)
  {
  }

  /**
   What happened since the last start: an allowed connect, a rise of the counter, and a rise after
   the allowed connect.
   */
  datatype Since = Since(allowed: bool, risen: bool, risenAfter: bool)

  /** The counter follows from the last start and what happened since; the flags rule out a second rise. */
  ghost predicate Counted(starts: seq<Start>, since: Since, counter: nat, calculated: bool, backoff: bool) {
    && (since.risen ==> calculated || !backoff)
    && (since.risenAfter ==> since.risen)
    && counter == if since.allowed then (if since.risenAfter then 1 else 0)
        else LastCounter(starts) + (if since.risen then 1 else 0)
  }

  /** BACKOFF means the flag is set and what was scheduled on entry is still pending. */
  ghost predicate Guarded(state: State, backoff: bool, pending: set<TaskId>, task: TaskId, next: TaskId) {
    && (state == Backoff ==> backoff && task in pending)
    && forall t :: t in pending ==> t < next
  }

  predicate Ends(last: Event, own: TaskId, leftOver: set<TaskId>) {
    (last.Connect? && last.reported) || (last.TaskExpired? && (last.id == own || last.id in leftOver))
  }

  class Client {
    const period: nat              // backoff_period
    const base: nat                // backoff_exp_base
    const allowed: set<Iface>      // interfaces with bs_allowed
    const policy: Policy

    var state: State
    var backoff: bool
    var connectCounter: nat
    var connectCalculated: bool
    var periodUsed: nat
    var numRejects: nat
    var connected: bool
    var ifname: Iface
    var hwm: nat
    var clientSteering: bool       // steering_state == CLIENT_STEERING
    var csSteering: bool           // cs_state == CS_STATE_STEERING
    var blockTimer: bool           // pref_5g_pre_assoc_block_timer active

    /** Pending backoff tasks; `backoffTask` is the handle of the last one scheduled. */
    var pending: set<TaskId>
    var backoffTask: TaskId
    var nextTask: TaskId

    ghost var starts: seq<Start>
    ghost var since: Since

    ghost predicate Valid()
      reads this
    {
      && Guarded(state, backoff, pending, backoffTask, nextTask)
      && Growing(starts, period, base)
      && Counted(starts, since, connectCounter, connectCalculated, backoff)
    }

    /** Still in BACKOFF, with the same tasks. */
    twostate predicate Undisturbed()
      reads this`state, this`pending, this`backoffTask
    {
      state == Backoff && pending == old(pending) && backoffTask == old(backoffTask)
    }

    constructor (period: nat, base: nat, allowed: set<Iface>, policy: Policy)
      ensures Valid() && state == Disconnected && starts == []
    {
      this.period, this.base, this.allowed, this.policy := period, base, allowed, policy;
      state, backoff, connectCounter, connectCalculated, periodUsed, numRejects := Disconnected, false, 0, false, 0, 0;
      connected, ifname, hwm, clientSteering, csSteering, blockTimer := false, 0, 0, false, false, false;
      pending, backoffTask, nextTask := {}, 0, 0;
      starts, since := [], Since(false, false, false);
    }

    // ------------------------------------------------------- backoff and state

    /** Leaving the backoff: the flag goes down, and after rejects the last task is cancelled. */
    method DisableBackoff()
      requires Valid() && state != Backoff
      modifies this`backoff, this`numRejects, this`connectCalculated, this`pending, this`blockTimer
      ensures Valid() && !backoff && numRejects == 0
      ensures old(numRejects) != 0 ==> pending == old(pending) - {backoffTask} && !connectCalculated
      ensures old(numRejects) == 0 ==> pending == old(pending) && connectCalculated == old(connectCalculated)
    {
      backoff := false;
      if numRejects != 0 {
        numRejects := 0;
        connectCalculated := false;
        pending := pending - {backoffTask};
        blockTimer := false;
      }
    }

    /**
     bm_client_state_change; a state that is not forced on it leaves BACKOFF only for
     CONNECTED. Entering BACKOFF is a step of `StartBackoff`, which makes it valid.
     */
    method StateChange(next: State, force: bool)
      requires next != Backoff ==> Valid()
      modifies this`state, this`backoff, this`numRejects, this`connectCalculated, this`pending, this`blockTimer
      ensures next != Backoff ==> Valid()
      ensures if !force && old(state) == Backoff && next != ConnectedState then state == Backoff else state == next
      ensures next == ConnectedState && old(state) != ConnectedState && ifname in allowed ==> !backoff
      ensures !(next == ConnectedState && old(state) != ConnectedState && ifname in allowed) ==>
                && backoff == old(backoff) && pending == old(pending) && numRejects == old(numRejects)
                && connectCalculated == old(connectCalculated) && blockTimer == old(blockTimer)
    {
      if !force && state == Backoff && next != ConnectedState {
        return;
      }
      if state != next {
        state := next;
        if state == ConnectedState && ifname in allowed {
          DisableBackoff();
        }
      }
    }

    /** Compute the period of a start from the connect counter; the flag is up already. */
    method BeginPeriod()
      requires Growing(starts, period, base) && Counted(starts, since, connectCounter, connectCalculated, false)
      modifies this`periodUsed, this`starts, this`since
      ensures Growing(starts, period, base) && Counted(starts, since, connectCounter, connectCalculated, true)
      ensures periodUsed == Period(period, base, connectCounter)
      ensures starts == old(starts) + [Start(connectCounter, periodUsed, old(since).allowed)]
      ensures since == Since(false, false, false)
      ensures old(since).allowed && !old(since).risenAfter ==> connectCounter == 0
    {
      periodUsed := Period(period, base, connectCounter);
      ghost var s := Start(connectCounter, periodUsed, since.allowed);
      StartKeepsGrowth(starts, s, period, base);
      starts := starts + [s];
      since := Since(false, false, false);
    }

    method ScheduleBackoffTask()
      requires forall t :: t in pending ==> t < nextTask
      modifies this`pending, this`backoffTask, this`nextTask
      ensures forall t :: t in pending ==> t < nextTask
      ensures backoffTask !in old(pending) && pending == old(pending) + {backoffTask}
    {
      backoffTask := nextTask;
      pending := pending + {nextTask};
      nextTask := nextTask + 1;
    }

    /** The flag and the state, before anything is scheduled. */
    method EnterBackoff()
      modifies this`state, this`backoff, this`numRejects, this`connectCalculated, this`pending, this`blockTimer
      ensures state == Backoff && backoff && pending == old(pending) && numRejects == old(numRejects)
      ensures connectCalculated == old(connectCalculated) && blockTimer == old(blockTimer)
    {
      backoff := true;
      StateChange(Backoff, false);
    }

    method StartBackoff()
      requires Valid() && state != Backoff
      modifies this`state, this`backoff, this`periodUsed, this`pending, this`backoffTask, this`nextTask, this`starts,
               this`since, this`numRejects, this`connectCalculated, this`blockTimer
      ensures Valid() && state == Backoff
      ensures numRejects == old(numRejects) && connectCalculated == old(connectCalculated)
              && blockTimer == old(blockTimer)
      ensures starts == old(starts) + [Start(connectCounter, Period(period, base, connectCounter), old(since).allowed)]
      ensures pending == old(pending) + {backoffTask} && backoffTask !in old(pending)
      ensures old(since).allowed && !old(since).risenAfter ==> connectCounter == 0
    {
      EnterBackoff();
      BeginPeriod();
      ScheduleBackoffTask();
    }

    /** bm_client_backoff(client, true): a start, unless the client is backing off already. */
    method EnableBackoff()
      requires Valid()
      modifies this`state, this`backoff, this`periodUsed, this`pending, this`backoffTask, this`nextTask, this`starts,
               this`since, this`numRejects, this`connectCalculated, this`blockTimer
      ensures Valid() && state == Backoff
      ensures numRejects == old(numRejects) && connectCalculated == old(connectCalculated)
              && blockTimer == old(blockTimer)
      ensures if old(state) == Backoff then Undisturbed() && starts == old(starts) && since == old(since)
              else starts == old(starts) + [Start(connectCounter, Period(period, base, connectCounter),
                  old(since).allowed)]
                   && pending == old(pending) + {backoffTask} && backoffTask !in old(pending)
      ensures old(state) != Backoff && old(since).allowed && !old(since).risenAfter ==> connectCounter == 0
    {
      if state == Backoff {
        backoff := true;
      } else {
        StartBackoff();
      }
    }

    /** bm_client_toggle_backoff; a client without a backoff period is no longer steered at all. */
    method ToggleBackoff()
      requires Valid()
      modifies this`state, this`backoff, this`periodUsed, this`pending, this`backoffTask, this`nextTask, this`starts,
               this`since, this`hwm, this`numRejects, this`connectCalculated, this`blockTimer
      ensures numRejects == old(numRejects) && blockTimer == old(blockTimer)
      ensures Valid() && (old(state) == Backoff ==> Undisturbed()) && old(starts) <= starts
      ensures if period != 0 then state == Backoff else state == old(state) && starts == old(starts) && hwm == 0
      ensures old(state) != Backoff && period != 0 ==>
                |starts| == |old(starts)| + 1 && old(starts) <= starts && backoffTask !in old(pending)
                    && pending == old(pending) + {backoffTask}
    {
      if period != 0 {
        EnableBackoff();
      } else {
        hwm := 0;
      }
    }

    /** bm_client_task_backoff for a pending task, which is no longer pending when it runs. */
    method TaskBackoff(id: TaskId)
      requires Valid() && id in pending
      modifies this`state, this`backoff, this`numRejects, this`connectCalculated, this`pending, this`blockTimer
      ensures Valid() && state == (if old(state) == ConnectedState then ConnectedState else Disconnected)
      ensures !backoff && id !in pending && numRejects == 0
    {
      if state != ConnectedState {
        StateChange(Disconnected, true);
      }
      pending := pending - {id};
      DisableBackoff();
    }

    /** bm_client_state_task: resets a client stuck in STEERING. */
    method StateTask()
      requires Valid()
      modifies this`state, this`backoff, this`numRejects, this`connectCalculated, this`pending, this`blockTimer,
               this`connected, this`ifname
      ensures Valid() && (old(state) == Backoff ==> Undisturbed())
      ensures state == if old(state) == Steering then Disconnected else old(state)
    {
      if state == ConnectedState {
        return;
      }
      connected := false;
      ifname := 0;
      StateChange(Disconnected, false);
    }

    // -------------------------------------------------------------- connecting

    /** bm_client_preassoc_backoff_recalc: one rise per backoff, and an allowed connect clears the counter. */
    method PreassocRecalc(iface: Iface)
      requires Valid()
      modifies this`connectCounter, this`connectCalculated, this`since
      ensures Valid()
      ensures iface in allowed ==> connectCounter == 0 && since == Since(true, old(since).risen, false)
      ensures iface !in allowed ==>
                if backoff && !old(connectCalculated)
                    then connectCounter == old(connectCounter) + 1 && since.risen && !old(since).risen
                else connectCounter == old(connectCounter) && since == old(since)
    {
      if backoff && iface !in allowed && !connectCalculated {
        connectCounter := connectCounter + 1;
        connectCalculated := true;
        since := Since(since.allowed, true, true);
      }
      if iface in allowed {
        connectCounter := 0;
        since := Since(true, since.risen, false);
      }
    }

    /** bm_client_connected; an allowed interface ends the backoff on entry, any other lets the period run out. */
    method Connected(iface: Iface)
      requires Valid()
      modifies this`state, this`backoff, this`numRejects, this`connectCalculated, this`pending, this`blockTimer,
               this`connected, this`ifname
      ensures Valid() && state == ConnectedState && connected && ifname == iface
      ensures iface in allowed && old(state) != ConnectedState ==> !backoff
      ensures iface !in allowed ==> backoff == old(backoff) && pending == old(pending)
    {
      if state != ConnectedState {
        ifname := iface;
        StateChange(ConnectedState, false);
      }
      ifname, connected := iface, true;
    }

    /** bm_client_check_connected; `reported` is the driver's answer that the client is connected on `iface`. */
    method CheckConnected(iface: Iface, reported: bool)
      requires Valid()
      modifies this`connectCounter, this`connectCalculated, this`since, this`state, this`backoff, this`numRejects,
               this`pending, this`blockTimer, this`connected, this`ifname
      ensures Valid()
      ensures if reported then state == ConnectedState && ifname == iface
              else state == old(state) && pending == old(pending)
      ensures reported && iface in allowed ==> connectCounter == 0 && since.allowed && !since.risenAfter
      ensures reported && iface !in allowed ==> backoff == old(backoff) && pending == old(pending)
    {
      if reported {
        PreassocRecalc(iface);
        Connected(iface);
      }
    }

    method Disconnect()
      requires Valid()
      modifies this`state, this`backoff, this`numRejects, this`connectCalculated, this`pending, this`blockTimer,
               this`connected
      ensures Valid() && !connected && pending == old(pending) && numRejects == old(numRejects)
              && blockTimer == old(blockTimer)
      ensures state == if old(state) == ConnectedState then Disconnected else old(state)
    {
      connected := false;
      if state == ConnectedState {
        StateChange(Disconnected, false);
      }
    }

    // --------------------------------------------------------------- rejections

    /** The reject count after one more, which starts again when the counting period is over. */
    static function NextCount(n: nat, expired: bool): nat {
      (if n > 0 && expired then 0 else n) + 1
    }

    /** The effect of a counted reject on a client in state `from`. */
    twostate predicate RejectCounted(from: State, max: nat, expired: bool)
      reads this
    {
      var n := NextCount(old(numRejects), expired);
      if n != max then
        numRejects == n && state == from && clientSteering == old(clientSteering) && csSteering == old(csSteering)
      else if old(clientSteering) then
        numRejects == 0 && !clientSteering && !csSteering && state == from
      else
        numRejects == n && state == (if period != 0 then Backoff else from) && !clientSteering
    }

    /** bm_client_rejected_counter; `max` is the limit in force, `expired` when the counting period is over. */
    method RejectedCounter(max: nat, expired: bool)
      requires Valid()
      modifies this
      ensures Valid() && (old(state) == Backoff ==> Undisturbed()) && old(starts) <= starts
      ensures RejectCounted(old(state), max, expired)
    {
      if numRejects > 0 && expired {
        numRejects := 0;
      }
      numRejects := numRejects + 1;
      if numRejects == max {
        if clientSteering {
          numRejects := 0;
          csSteering, clientSteering := false, false;
        } else {
          ToggleBackoff();
        }
      }
    }

    /** The effect of a reject: counted, or the start of the block timer, as the policy in force says. */
    twostate predicate RejectHandled(from: State, max: nat, expired: bool)
      reads this
    {
      if old(csSteering) || policy == CounterPolicy then RejectCounted(from, max, expired)
      else
        && state == from && clientSteering == old(clientSteering)
        && numRejects == old(numRejects) + (if policy == TimerPolicy then 1 else 0)
        && blockTimer == (old(blockTimer) || policy == TimerPolicy)
    }

    /** bm_client_rejected */
    method Rejected(max: nat, expired: bool)
      requires Valid()
      modifies this
      ensures Valid() && (old(state) == Backoff ==> Undisturbed()) && old(starts) <= starts
      ensures RejectHandled(old(state), max, expired)
    {
      if csSteering || policy == CounterPolicy {
        RejectedCounter(max, expired);
      } else if policy == TimerPolicy {
        numRejects := numRejects + 1;
        if !blockTimer {
          blockTimer := true;
        }
      }
    }

    /** bm_client_pref_5g_reject_pre_assoc_block_timer_cb */
    method BlockTimerExpired()
      requires Valid() && blockTimer
      modifies this
      ensures Valid() && (old(state) == Backoff ==> Undisturbed()) && old(starts) <= starts
    {
      blockTimer := false;
      ToggleBackoff();
    }

    method SteerFrom(iface: Iface)
      requires Valid() && state != Backoff
      modifies this`state, this`backoff, this`numRejects, this`connectCalculated, this`pending, this`blockTimer
      ensures Valid() && numRejects == old(numRejects) && blockTimer == old(blockTimer)
      ensures state == if !clientSteering && iface !in allowed then Steering else old(state)
    {
      if !clientSteering && iface !in allowed {
        StateChange(Steering, false);
      }
    }

    /**
     BSAL_EVENT_PROBE_REQ that the driver blocked: outside CONNECTED and BACKOFF a probe
     on a disallowed interface enters STEERING, and the reject detection in force decides
     whether it counts as a reject.
     */
    method BlockedProbe(iface: Iface, detection: Detection, nullSsid: bool, max: nat, expired: bool)
      requires Valid()
      modifies this
      ensures Valid() && (old(state) == Backoff ==> Undisturbed()) && old(starts) <= starts
      ensures ProbeRejected(detection, nullSsid) <==>
                detection in {ProbeAll, AuthBlocked, if nullSsid then ProbeNull else ProbeDirect}
      ensures var steers := !old(clientSteering) && iface !in allowed;
              var from := if steers then Steering else old(state);
              if old(state) == ConnectedState || old(state) == Backoff then
                state == old(state) && numRejects == old(numRejects) && blockTimer == old(blockTimer)
              else if ProbeRejected(detection, nullSsid) then RejectHandled(from, max, expired)
              else state == from && numRejects == old(numRejects) && blockTimer == old(blockTimer)
    {
      if state == ConnectedState || state == Backoff {
        return;
      }
      SteerFrom(iface);
      if ProbeRejected(detection, nullSsid) {
        Rejected(max, expired);
      }
    }

    /** The second half of the handler: a lost disconnect is made up for, and band steering counts a reject. */
    method AuthLost(max: nat, expired: bool) returns (counted: bool)
      requires Valid()
      modifies this
      ensures Valid() && (old(state) == Backoff ==> Undisturbed()) && old(starts) <= starts
      ensures counted == !old(clientSteering) && state != ConnectedState
      ensures var from := if old(state) == ConnectedState then Disconnected else old(state);
              if counted then RejectHandled(from, max, expired)
              else state == from && numRejects == old(numRejects) && blockTimer == old(blockTimer)
                   && clientSteering && csSteering == old(csSteering)
    {
      if state == ConnectedState {
        Disconnect();
      }
      counted := !clientSteering;
      if counted {
        Rejected(max, expired);
      }
    }

    /**
     BSAL_EVENT_AUTH_FAIL; `csBlocked` when client steering asks for blocked
     authentications and this was one. `first` and `second` tell which of the two rejects
     of the handler happened.
     */
    method AuthFail(csBlocked: bool, max: nat, expired: bool) returns (first: bool, second: bool)
      requires Valid()
      modifies this
      ensures Valid() && (old(state) == Backoff ==> Undisturbed()) && old(starts) <= starts
      ensures state != ConnectedState
      ensures first == csBlocked && (!csBlocked ==> second == !old(clientSteering)) && (!old(clientSteering) ==> second)
      ensures var from := if old(state) == ConnectedState then Disconnected else old(state);
              && (!first && !second ==> state == from && numRejects == old(numRejects) && blockTimer == old(blockTimer))
              && (!first && second ==> RejectHandled(from, max, expired))
              && (first && !second ==> RejectHandled(from, max, expired) && clientSteering)
      ensures (csBlocked && !old(clientSteering) && (old(csSteering) || policy == CounterPolicy)) ==>
                (!expired && old(numRejects) + 2 < max ==> numRejects == old(numRejects) + 2)
    {
      first := csBlocked;
      if csBlocked {
        Rejected(max, expired);
      }
      second := AuthLost(max, expired);
    }

    /** The cloud and the client-steering tasks, which only touch what is not modelled here. */
    method Environment()
      requires Valid()
      modifies this`clientSteering, this`csSteering, this`hwm
      ensures Valid()
    {
      clientSteering, csSteering, hwm := *, *, *;
    }

    /** Every event except a connect and the expiry of a backoff task. */
    method OtherEvent(iface: Iface)
      requires Valid()
      modifies this
      ensures Valid() && (old(state) == Backoff ==> Undisturbed()) && old(starts) <= starts
    {
      var max: nat, flag: bool, expired: bool, detection: Detection := *, *, *, *;
      if {
        case true => Environment();
        case true => StateTask();
        case true => BlockedProbe(iface, detection, flag, max, expired);
        case true => var _, _ := AuthFail(flag, max, expired);
        case state == ConnectedState && ifname == iface => Disconnect();
        case blockTimer => BlockTimerExpired();
      }
    }

    /** One event: BACKOFF is left only by a connect or by the expiry of a backoff task. */
    method Step(e: Event)
      requires Valid() && (e.TaskExpired? ==> e.id in pending)
      modifies this
      ensures Valid() && old(starts) <= starts
      ensures old(state) == Backoff && !((e.Connect? && e.reported) || e.TaskExpired?) ==> Undisturbed()
      ensures (e.Connect? && e.reported) || e.TaskExpired? ==> state != Backoff
    {
      if e.Connect? {
        CheckConnected(e.iface, e.reported);
      } else if e.TaskExpired? {
        TaskBackoff(e.id);
      } else {
        OtherEvent(e.iface);
      }
    }

    /** Any run of events: BACKOFF always has the flag up and its task pending, and all starts so far obey `Growing`. */
    method Run(steps: nat)
      requires Valid()
      modifies this
      ensures Valid() && old(starts) <= starts
    {
      for i := 0 to steps
        invariant Valid() && old(starts) <= starts
      {
        var e: Event := *;
        if !e.TaskExpired? || e.id in pending {
          Step(e);
        }
      }
    }

    /**
     One backoff under any sequence of events. It ends by a connect, by its own task, or by
     a task that was left over at its start; and each task left over does end it when it
     expires first. So a backoff can lose part of its period to the task of another if and
     only if a task is left over when it starts.
     */
    method OneBackoff(events: seq<Event>) returns (own: TaskId, last: Event)
      requires Valid() && state != Backoff && period != 0
      modifies this
      ensures Valid() && own !in old(pending)
      ensures state != Backoff ==>
                (last.Connect? && last.reported) || (last.TaskExpired? && (last.id == own || last.id in old(pending)))
      ensures events != [] && events[0].TaskExpired? && events[0].id in old(pending) ==>
                state != Backoff && last == events[0] && last.id != own
    {
      ToggleBackoff();
      own, last := backoffTask, Other(0);
      var i := 0;
      while i < |events| && state == Backoff
        invariant Valid() && 0 <= i <= |events| && own !in old(pending)
        invariant state == Backoff ==> pending == old(pending) + {own}
        invariant state != Backoff ==> Ends(last, own, old(pending)) && i > 0
        invariant i > 0 && events[0].TaskExpired? && events[0].id in old(pending) ==>
                    state != Backoff && last == events[0]
      {
        var e := events[i];
        if !e.TaskExpired? || e.id in pending {
          Step(e);
          last := e;
        }
        i := i + 1;
      }
    }

    /**
     Tasks are left over in practice: a client that connects on a disallowed interface
     keeps its task, which then ends the next backoff.
     */
    method EarlyEnd(iface: Iface)
      requires Valid() && state == Disconnected && period != 0 && iface !in allowed
      modifies this
      ensures Valid() && state == Disconnected && |starts| == |old(starts)| + 2
    {
      ToggleBackoff();
      var first := backoffTask;
      CheckConnected(iface, true);
      Disconnect();
      assert first in pending;
      ToggleBackoff();
      assert state == Backoff && first in pending && first != backoffTask;
      TaskBackoff(first);
    }
  }

  // ------------------------------------------------------------------- growth

  lemma {:induction false} PowPositive(b: nat, n: nat)
    requires b >= 1
    ensures Pow(b, n) >= 1
  {
    if n > 0 {
      PowPositive(b, n - 1);
      assert b * Pow(b, n - 1) >= 1 * 1;
    }
  }

  /**
   The growth, exactly: the configured period at zero, one more factor of the base per step up to
   ten, and no more.
   */
  lemma PeriodExact(period: nat, base: nat, counter: nat)
    ensures Period(period, base, 0) == period
    ensures counter < MAX_EXPONENT ==> Period(period, base, counter + 1) == base * Period(period, base, counter)
    ensures counter >= MAX_EXPONENT ==> Period(period, base, counter) == Period(period, base, MAX_EXPONENT)
    ensures MAX_EXPONENT == 10
  {
    if counter < MAX_EXPONENT {
      var x := Pow(base, counter);
      assert Pow(base, counter + 1) == base * x;
      assert period * (base * x) == base * (period * x);
    }
  }

  /** Over any one step of the counter the period stays or grows by the base. */
  lemma PeriodStep(period: nat, base: nat, from: nat, to: nat)
    requires base >= 1 && from <= to <= from + 1
    ensures Period(period, base, from) <= Period(period, base, to) <= base * Period(period, base, from)
  {
    var e := Exponent(from);
    PowPositive(base, e);
    Scale(period, Pow(base, e), base);
    if Exponent(to) == e + 1 {
      assert Pow(base, e + 1) == base * Pow(base, e);
    }
  }

  lemma Scale(a: nat, b: nat, c: nat)
    requires c >= 1
    ensures a * b <= a * (c * b) == c * (a * b)
  {
    assert a * (c * b) == c * (a * b);
    var x := a * b;
    assert x <= c * x;
  }

  lemma {:induction false} PowMonotone(b: nat, m: nat, n: nat)
    requires b >= 1 && m <= n
    ensures Pow(b, m) <= Pow(b, n)
    decreases n
  {
    if m < n {
      PowMonotone(b, m, n - 1);
      Scale(1, Pow(b, n - 1), b);
    }
  }

  /** No start multiplies the period by more than ten factors of the base. */
  lemma PeriodCapped(period: nat, base: nat, counter: nat)
    requires base >= 1
    ensures Period(period, base, counter) <= period * Pow(base, MAX_EXPONENT)
  {
    PowMonotone(base, Exponent(counter), MAX_EXPONENT);
    Ordered(period, Pow(base, Exponent(counter)), Pow(base, MAX_EXPONENT));
  }

  lemma Ordered(a: nat, b: nat, c: nat)
    requires b <= c
    ensures a * b <= a * c
  {
    assert a * c == a * b + a * (c - b);
  }

  /**
   Between starts i and j with no allowed connect in between the periods never shrink,
   each is at most base times its predecessor, and none exceeds period * base^10. A start
   whose counter rose, to at most ten, uses exactly base times the period before.
   */
  lemma {:induction false} PeriodsGrow(starts: seq<Start>, period: nat, base: nat, i: nat, j: nat)
    requires base >= 1 && Growing(starts, period, base) && i <= j < |starts|
    requires forall k :: i < k <= j ==> !starts[k].allowed
    ensures starts[i].used <= starts[j].used <= period * Pow(base, MAX_EXPONENT)
    ensures i < j ==> starts[j].used <= base * starts[j - 1].used
    ensures i < j && starts[j].counter > starts[j - 1].counter && starts[j].counter <= MAX_EXPONENT ==>
              starts[j].used == base * starts[j - 1].used
    ensures i < j && (starts[j].counter == starts[j - 1].counter || starts[j].counter > MAX_EXPONENT) ==>
              starts[j].used == starts[j - 1].used
    ensures starts[j].counter <= starts[i].counter + (j - i)
    decreases j
  {
    PeriodCapped(period, base, starts[j].counter);
    if i < j {
      PeriodsGrow(starts, period, base, i, j - 1);
      PeriodStep(period, base, starts[j - 1].counter, starts[j].counter);
      PeriodExact(period, base, starts[j - 1].counter);
    }
  }

  /** After an allowed connect with no rise behind it the next start uses the configured period. */
  lemma AllowedConnectResets(starts: seq<Start>, since: Since, counter: nat, calculated: bool, backoff: bool,
      period: nat, base: nat)
    requires Counted(starts, since, counter, calculated, backoff) && since.allowed && base >= 1
    ensures Period(period, base, counter) == (if since.risenAfter then period * base else period)
  {
    assert Pow(base, 0) == 1 && Pow(base, 1) == base;
  }
}
