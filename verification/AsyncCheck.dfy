/**
 The asynchronous stability checks (cm2_stability.c): at most one child process
 runs a check, a newer request waits behind it or replaces the waiting one, and
 every result is processed with the parameters its child was started with.
 */
module AsyncCheck {

  /** Connectivity options are a bit mask; 0 means "no check". */
  type Mask = nat

  type Options = m: Mask | m != 0 witness 1

  datatype Request = Request(opts: Options, update: bool, repeat: bool)

  /** A forked check, and the arguments a finished check was processed with. */
  datatype Child = Child(opts: Mask, update: bool)

  class Scheduler {
    var optsNow: Mask
    var optsNext: Mask
    var updateNow: bool
    var updateNext: bool
    var repeat: bool

    /** Outstanding children, and the history of forks and of processed results. */
    ghost var children: seq<Child>
    ghost var started: seq<Child>
    ghost var processed: seq<Child>

    /** The parameters of the newest request, while it has not been started. */
    ghost var unserved: seq<Child>

    /**
     Single flight, in every state between two atomic sections: a check is marked as
     running exactly when one child is outstanding, that child has the recorded
     parameters, and every fork is either outstanding or was processed as started.
     */
    ghost predicate SingleFlight()
      reads this
    {
      && children == (if optsNow == 0 then [] else [Child(optsNow, updateNow)])
      && started == processed + children
      && (unserved == [] || (unserved == [Child(optsNext, updateNext)] && optsNext != 0))
    }

    /** No request waits while nothing runs. */
    ghost predicate Settled()
      reads this
    {
      SingleFlight() && (optsNow == 0 ==> optsNext == 0)
    }

    constructor ()
      ensures Settled() && started == [] && unserved == []
    {
      optsNow, optsNext, updateNow, updateNext, repeat := 0, 0, false, false, false;
      children, started, processed, unserved := [], [], [], [];
    }

    /** cm2_util_req_stability_check_recalc */
    method Recalc(forkOk: bool)
      requires SingleFlight()
      modifies this`optsNow, this`optsNext, this`updateNow, this`updateNext, this`children, this`started, this`unserved
      ensures SingleFlight()
      ensures forkOk ==> Settled()
      ensures if old(optsNow) != 0 || old(optsNext) == 0 || !forkOk
              then optsNow == old(optsNow) && updateNow == old(updateNow) && optsNext == old(optsNext)
                   && updateNext == old(updateNext) && started == old(started) && unserved == old(unserved)
              else optsNow == old(optsNext) && updateNow == old(updateNext) && optsNext == 0
                   && started == old(started) + [Child(optsNow, updateNow)] && unserved == []
    {
      if optsNow != 0 || optsNext == 0 || !forkOk {
        return;
      }
      children, started, unserved := [Child(optsNext, updateNext)], started + [Child(optsNext, updateNext)], [];
      optsNow, optsNext := optsNext, 0;
      updateNow, updateNext := updateNext, false;
    }

    /** cm2_connection_req_stability_check_async: the newest request runs at once or is the one that waits. */
    method RequestCheck(r: Request, forkOk: bool)
      requires SingleFlight()
      modifies this`optsNow, this`optsNext, this`updateNow, this`updateNext, this`repeat, this`children, this`started,
               this`unserved
      ensures SingleFlight() && repeat == r.repeat
      ensures forkOk ==> Settled()
      ensures old(optsNow) == 0 && forkOk ==> started == old(started) + [Child(r.opts, r.update)] && unserved == []
      ensures old(optsNow) != 0 ==> unserved == [Child(r.opts, r.update)] && started == old(started)
    {
      optsNext, updateNext, repeat := r.opts, r.update, r.repeat;
      unserved := [Child(r.opts, r.update)];
      Recalc(forkOk);
    }

    /** The newest request of a list was started or is the one that waits. */
    ghost predicate Served(r: Request)
      reads this`started, this`unserved
    {
      Child(r.opts, r.update) in started || unserved == [Child(r.opts, r.update)]
    }

    /** The requests that processing a result makes itself. */
    method NestedRequests(nested: seq<Request>, forkOk: bool)
      requires SingleFlight() && nested != []
      modifies this`optsNow, this`optsNext, this`updateNow, this`updateNext, this`repeat, this`children, this`started,
               this`unserved
      ensures SingleFlight()
      ensures forkOk ==> Settled() && Served(nested[|nested| - 1])
      ensures repeat == nested[|nested| - 1].repeat
    {
      RequestCheck(nested[0], forkOk);
      for i := 1 to |nested|
        invariant SingleFlight() && repeat == nested[i - 1].repeat
        invariant forkOk ==> Settled() && Served(nested[i - 1])
      {
        RequestCheck(nested[i], forkOk);
      }
    }

    /** The end of the callback: a repeated check that failed is asked for again unless another one waits. */
    method Rerun(again: bool, ok: bool, opts: Mask, forkOk: bool)
      requires SingleFlight()
      modifies this`optsNow, this`optsNext, this`updateNow, this`updateNext, this`repeat, this`children, this`started,
               this`unserved
      ensures SingleFlight()
      ensures forkOk ==> Settled()
      ensures old(started) <= started && repeat == (old(repeat) && !(again && ok))
      ensures unserved == old(unserved)
              || (unserved == [] && old(optsNow) == 0 && old(optsNext) != 0
                  && started == old(started) + [Child(old(optsNext), old(updateNext))])
      ensures old(optsNow) == 0 && old(optsNext) != 0 && forkOk ==>
                children == [Child(old(optsNext), old(updateNext))] && unserved == []
      ensures old(optsNow) == 0 && old(optsNext) == 0 ==>
                if again && !ok then forkOk ==> optsNow == opts else optsNow == 0 && optsNext == 0
    {
      if again {
        if ok {
          repeat := false;
        } else if optsNext == 0 {
          optsNext := opts;
        }
      }
      Recalc(forkOk);
    }

    /**
     cm2_util_req_stability_cb: the child ended with status `ok`. Processing its
     result may itself request further checks, `nested`, before the callback goes on. The
     newest of them keeps its repeat flag unless the check that ended was a repeated one
     and succeeded.
     */
    method ChildExited(ok: bool, nested: seq<Request>, forkOk: bool)
      requires SingleFlight() && children != []
      modifies this
      ensures SingleFlight()
      ensures forkOk ==> Settled()
      ensures processed == old(processed) + [old(children)[0]]
      ensures nested == [] ==> (unserved != [] ==> unserved == old(unserved))
      ensures nested == [] && old(optsNext) != 0 && forkOk ==>
                children == [Child(old(optsNext), old(updateNext))] && unserved == []
      ensures nested == [] && old(optsNext) == 0 && old(repeat) && !ok && forkOk ==> optsNow == old(optsNow)
      ensures nested == [] && old(optsNext) == 0 && (ok || !old(repeat)) ==> optsNow == 0 && optsNext == 0
      ensures repeat == ((if nested == [] then old(repeat) else nested[|nested| - 1].repeat) && !(old(repeat) && ok))
      ensures nested != [] && forkOk ==> Served(nested[|nested| - 1])
    {
      var again := repeat;
      var opts, update := optsNow, updateNow;
      optsNow, updateNow := 0, false;
      children := [];
      processed := processed + [Child(opts, update)];
      if nested != [] {
        NestedRequests(nested, forkOk);
      }
      Rerun(again, ok, opts, forkOk);
    }

    /**
     Any run of requests and exits: forks and processed results stay in step and a request is never
     dropped silently.
     */
    method Run(steps: nat)
      requires Settled()
      modifies this
      ensures Settled()
      ensures started == processed || exists c: Child :: started == processed + [c]
    {
      for i := 0 to steps
        invariant Settled()
      {
        var exit: bool, ok: bool, r: Request, nested: seq<Request> := *, *, *, *;
        if exit && optsNow != 0 {
          ChildExited(ok, nested, true);
        } else {
          RequestCheck(r, true);
        }
      }
    }
  }
}
