/**
 The kick queue (bm_kick.c). Clients to be disconnected wait in a queue whose head
 is driven by one of three things: a pending queue-run task, a measurement, or a
 pending kick task for the head. All tasks run on the event loop, in any order.
 */
module KickQueue {
  import opened Common

  type Mac = nat
  type Group = nat
  type Iface = nat
  type Rssi = n: nat | n < 256

  /** The address of a queue entry, as task argument; the allocator may reuse a freed one. */
  type Pointer = nat

  /** bm_client_kick_t */
  datatype Method =
    | NoKick | Disassoc | Deauth | BssTmReq | RrmBrReq | BtmDisassoc | BtmDeauth | RrmDisassoc | RrmDeauth

  datatype Disconnect = ByDisassoc | ByDeauth

  /** map_bsal_kick_type */
  function Mapped(m: Method): Option<Disconnect> {
    match m
    case Disassoc | BtmDisassoc | RrmDisassoc => Some(ByDisassoc)
    case Deauth | BtmDeauth | RrmDeauth => Some(ByDeauth)
    case _ => None
  }

  datatype Client = Client(
    connected: bool, stateConnected: bool, group: Option<Group>, ifname: Iface, lwm: Rssi, hwm: Rssi,
    steering: Method, sticky: Method, force: Method, btm: bool, rrm: bool, ghostDevice: bool)

  function MethodOf(c: Client, t: KickType): Method {
    match t case SteeringKick => c.steering case StickyKick => c.sticky case ForceKick => c.force
  }

  /** A kick that bm_kick hands to the queue rather than to a BTM or RRM request. */
  predicate Queued(c: Client, t: KickType) {
    match MethodOf(c, t)
    case Disassoc | Deauth => true
    case BtmDisassoc | BtmDeauth => !c.btm
    case RrmDisassoc | RrmDeauth => !c.rrm
    case _ => false
  }

  datatype Entry = Entry(ptr: Pointer, mac: Mac, ifname: Iface, group: Group, kind: KickType, rssi: Rssi,
      measuring: bool)

  /** The entry of a client that is kicked again; entries of other clients stay as they are. */
  function Updated(e: Entry, mac: Mac, c: Client, kind: KickType, rssi: Rssi): Entry
    requires c.group.Some?
  {
    if e.mac == mac then e.(kind := kind, rssi := rssi, group := c.group.value, ifname := c.ifname) else e
  }

  datatype Measurement = Unsupported | Refused | Started

  /** A disconnect that was issued, with the client as it was at that moment. */
  datatype Issued = Issued(entry: Entry, client: Client, how: Disconnect)

  /** The client is still connected where the kick was requested. */
  predicate InPlace(clients: map<Mac, Client>, e: Entry) {
    && e.mac in clients
    && clients[e.mac].connected
    && clients[e.mac].group == Some(e.group)
    && clients[e.mac].ifname == e.ifname
  }

  /** The frame a kick method stands for: one of the three that disassociate, or of the three that deauthenticate. */
  predicate Fits(m: Method, how: Disconnect) {
    match how
    case ByDisassoc => m == Disassoc || m == BtmDisassoc || m == RrmDisassoc
    case ByDeauth => m == Deauth || m == BtmDeauth || m == RrmDeauth
  }

  /** A kick is queued exactly when its method disconnects and no request that the client supports goes first. */
  lemma QueuedExactly(c: Client, t: KickType)
    ensures var m := MethodOf(c, t);
            Queued(c, t) <==>
              && (Fits(m, ByDisassoc) || Fits(m, ByDeauth))
              && !(c.btm && (m == BtmDisassoc || m == BtmDeauth)) && !(c.rrm && (m == RrmDisassoc || m == RrmDeauth))
  {
  }

  /** What must hold whenever a client is disconnected. */
  predicate Justified(i: Issued) {
    && i.client.connected && i.client.group == Some(i.entry.group) && i.client.ifname == i.entry.ifname
    && Fits(MethodOf(i.client, i.entry.kind), i.how)
    && match i.entry.kind
       case ForceKick => true
       case StickyKick => 0 < i.entry.rssi <= i.client.lwm
       case SteeringKick => 0 < i.entry.rssi && i.client.hwm < i.entry.rssi
  }

  function Macs(q: seq<Entry>): seq<Mac> {
    seq(|q|, i requires 0 <= i < |q| => q[i].mac)
  }

  ghost predicate Distinct(q: seq<Entry>) {
    forall i, j :: 0 <= i < j < |q| ==> q[i].mac != q[j].mac && q[i].ptr != q[j].ptr
  }

  /** What a cleanup removes: the entries of the group, or the client's entry unless it is being measured. */
  predicate Matches(e: Entry, who: Scope) {
    match who
    case OfGroup(g) => e.group == g
    case OfClient(m) => e.mac == m && !e.measuring
  }

  datatype Scope = OfGroup(group: Group) | OfClient(mac: Mac)

  function Survivors(q: seq<Entry>, who: Scope): seq<Entry> {
    if q == [] then [] else
      var rest := Survivors(q[..|q| - 1], who);
      if Matches(q[|q| - 1], who) then rest else rest + [q[|q| - 1]]
  }

  /** Clients are queued once, only the head is measured, and every entry that came in is queued or has left. */
  ghost predicate Orderly(queue: seq<Entry>, entered: multiset<Mac>, left: multiset<Mac>) {
    && Distinct(queue)
    && (forall i :: 0 < i < |queue| ==> !queue[i].measuring)
    && entered == multiset(Macs(queue)) + left
  }

  lemma RemovalKeepsOrder(q: seq<Entry>, entered: multiset<Mac>, left: multiset<Mac>, i: nat)
    requires Orderly(q, entered, left) && i < |q|
    ensures Orderly(q[..i] + q[i + 1..], entered, left + multiset{q[i].mac})
  {
    var front, back := q[..i], q[i + 1..];
    assert Macs(q) == Macs(front) + [q[i].mac] + Macs(back);
    assert Macs(front + back) == Macs(front) + Macs(back);
  }

  /** Some disconnect of this entry would be justified now. */
  ghost predicate Due(clients: map<Mac, Client>, kick: Entry) {
    kick.mac in clients && exists how :: Justified(Issued(kick, clients[kick.mac], how))
  }

  ghost predicate AllJustified(log: seq<Issued>) {
    forall i :: 0 <= i < |log| ==> Justified(log[i])
  }

  /** A removed, non-measuring head whose own kick task was the only driver leaves entries behind. */
  predicate Strands(q: seq<Entry>, runs: nat, kicks: multiset<Pointer>, who: Scope) {
    var rest := Survivors(q, who);
    && q != [] && Matches(q[0], who) && !q[0].measuring && runs == 0
    && rest != [] && rest[0].ptr !in kicks
  }

  /** Deleting the group of a head that waits for its kick task does strand the entry behind it. */
  lemma StrandingHappens(a: Entry, b: Entry)
    requires a.mac != b.mac && a.ptr != b.ptr && a.group != b.group && !a.measuring && !b.measuring
    ensures Orderly([a, b], multiset{a.mac, b.mac}, multiset{})
    ensures Strands([a, b], 0, multiset{a.ptr}, OfGroup(a.group))
  {
    assert Macs([a, b]) == [a.mac, b.mac];
    assert [a, b][..1] == [a] && [a][..0] == [];
    assert Survivors([a], OfGroup(a.group)) == [];
  }

  lemma LastSurvives(a: Entry, b: Entry)
    requires a.group != b.group
    ensures Survivors([a, b], OfGroup(a.group)) == [b]
  {
    assert [a, b][..1] == [a] && [a][..0] == [];
    assert Survivors([a], OfGroup(a.group)) == [];
  }

  lemma {:induction false} SurvivorsExactly(q: seq<Entry>, who: Scope)
    ensures forall e :: e in Survivors(q, who) <==> e in q && !Matches(e, who)
  {
    if q != [] {
      SurvivorsExactly(q[..|q| - 1], who);
      assert q == q[..|q| - 1] + [q[|q| - 1]];
    }
  }

  /** The first survivor is the first entry that does not match. */
  lemma {:induction false} FirstSurvivor(q: seq<Entry>, who: Scope) returns (j: nat)
    requires Survivors(q, who) != []
    ensures j < |q| && q[j] == Survivors(q, who)[0] && !Matches(q[j], who)
    ensures !Matches(q[0], who) ==> j == 0
  {
    var n := |q| - 1;
    if Survivors(q[..n], who) == [] {
      if n > 0 && !Matches(q[0], who) {
        KeptHeadSurvives(q[..n], who);
      }
      return n;
    }
    j := FirstSurvivor(q[..n], who);
  }

  lemma {:induction false} KeptHeadSurvives(q: seq<Entry>, who: Scope)
    requires q != [] && !Matches(q[0], who)
    ensures Survivors(q, who) != []
  {
    if |q| > 1 {
      KeptHeadSurvives(q[..|q| - 1], who);
    }
  }

  class KickEngine {
    var queue: seq<Entry>
    var clients: map<Mac, Client>

    /** Pending tasks: queue runs, and kick tasks by argument. */
    var runs: nat
    var kicks: multiset<Pointer>

    ghost var log: seq<Issued>
    ghost var entered: multiset<Mac>
    ghost var left: multiset<Mac>

    /** Safety and conservation. */
    ghost predicate Valid()
      reads this`queue, this`log, this`entered, this`left
    {
      Orderly(queue, entered, left) && AllJustified(log)
    }

    /** A non-empty queue has something that will look at its head again. */
    ghost predicate Driven()
      reads this`queue, this`runs, this`kicks
    {
      queue != [] ==> runs > 0 || queue[0].measuring || queue[0].ptr in kicks
    }

    // ---------------------------------------------------------------- helpers

    /** bm_kick_free: cancels at most one task with this argument, if the scheduler finds it. */
    method Cancel(ptr: Pointer, found: bool)
      modifies this`kicks
      ensures forall p :: p != ptr ==> kicks[p] == old(kicks)[p]
      ensures kicks[ptr] <= old(kicks)[ptr] <= kicks[ptr] + 1
    {
      if found && ptr in kicks {
        kicks := kicks - multiset{ptr};
      }
    }

    /** Take the head off the queue and free it. */
    method DropHead(found: bool)
      requires Orderly(queue, entered, left) && queue != []
      modifies this`queue, this`left, this`kicks
      ensures Orderly(queue, entered, left) && queue == old(queue)[1..]
      ensures forall p :: p != old(queue)[0].ptr ==> kicks[p] == old(kicks)[p]
    {
      var e := RemoveHead();
      Cancel(e.ptr, found);
    }

    method RemoveHead() returns (e: Entry)
      requires Orderly(queue, entered, left) && queue != []
      modifies this`queue, this`left
      ensures Orderly(queue, entered, left)
      ensures e == old(queue)[0] && queue == old(queue)[1..] && left == old(left) + multiset{e.mac}
    {
      e := queue[0];
      assert Macs(queue) == [e.mac] + Macs(queue[1..]);
      queue := queue[1..];
      left := left + multiset{e.mac};
    }

    /** bm_kick_find_by_macaddr; the length of the queue stands for "not found". */
    method FindByMac(mac: Mac) returns (i: nat)
      ensures i <= |queue|
      ensures if i < |queue| then queue[i].mac == mac && mac in Macs(queue) else mac !in Macs(queue)
    {
      i := 0;
      while i < |queue| && queue[i].mac != mac
        invariant 0 <= i <= |queue|
        invariant forall j :: 0 <= j < i ==> queue[j].mac != mac
      {
        i := i + 1;
      }
      if i < |queue| {
        assert Macs(queue)[i] == mac;
      }
    }

    /** A client that is queued already keeps its place and its measurement. */
    method Refresh(i: nat, kind: KickType, rssi: Rssi, group: Group, ifname: Iface)
      requires Orderly(queue, entered, left) && i < |queue|
      modifies this`queue
      ensures Orderly(queue, entered, left) && (old(Driven()) ==> Driven())
      ensures queue == old(queue)[i := old(queue)[i].(kind := kind, rssi := rssi, group := group, ifname := ifname)]
      ensures Macs(queue) == Macs(old(queue))
    {
      ghost var before := Macs(queue);
      queue := queue[i := queue[i].(kind := kind, rssi := rssi, group := group, ifname := ifname)];
      assert Macs(queue) == before;
    }

    method Append(e: Entry)
      requires Orderly(queue, entered, left) && !e.measuring && e.mac !in Macs(queue)
      requires forall i :: 0 <= i < |queue| ==> queue[i].ptr != e.ptr
      modifies this`queue, this`runs, this`entered
      ensures Orderly(queue, entered, left) && (old(Driven()) ==> Driven())
      ensures queue == old(queue) + [e] && entered == old(entered) + multiset{e.mac}
      ensures runs == old(runs) + if old(queue) == [] then 1 else 0
    {
      forall i | 0 <= i < |queue| ensures queue[i].mac != e.mac {
        assert Macs(queue)[i] == queue[i].mac;
      }
      assert Macs(queue + [e]) == Macs(queue) + [e.mac];
      queue := queue + [e];
      entered := entered + multiset{e.mac};
      if |queue| == 1 {
        runs := runs + 1;
      }
    }

    // ------------------------------------------------------------------ steps

    /**
     bm_kick, for a client that is known. `checks` and `debounced` are the answers of
     the sticky, steering and debounce tests, `ptr` the address of a new entry.
     */
    method Kick(mac: Mac, kind: KickType, rssi: Rssi, checks: bool, debounced: bool, ptr: Pointer)
        returns (queued: bool)
      requires Valid() && mac in clients
      requires forall i :: 0 <= i < |queue| ==> queue[i].ptr != ptr
      modifies this`queue, this`runs, this`entered
      ensures Valid() && (old(Driven()) ==> Driven())
      ensures var c := clients[mac];
              queued == (c.connected && c.stateConnected && c.group.Some? && checks && Queued(c, kind)
                         && ((kind == ForceKick && c.ghostDevice) || !debounced))
      ensures !queued ==> queue == old(queue) && runs == old(runs) && entered == old(entered)
      ensures old(queue) != [] ==>
                && queue != [] && queue[0].mac == old(queue)[0].mac && queue[0].ptr == old(queue)[0].ptr
                && queue[0].measuring == old(queue)[0].measuring && runs == old(runs)
      ensures queued && mac in Macs(old(queue)) ==>
                && |queue| == |old(queue)| && entered == old(entered) && runs == old(runs)
                && forall i :: 0 <= i < |queue| ==> queue[i] == Updated(old(queue)[i], mac, clients[mac], kind, rssi)
      ensures queued && mac !in Macs(old(queue)) ==>
                var c := clients[mac];
                && queue == old(queue) + [Entry(ptr, mac, c.ifname, c.group.value, kind, rssi, false)]
                && runs == old(runs) + if old(queue) == [] then 1 else 0
    {
      var c := clients[mac];
      if !c.connected || !c.stateConnected || c.group.None? || !checks || !Queued(c, kind) {
        return false;
      }
      if !(kind == ForceKick && c.ghostDevice) && debounced {
        return false;
      }
      var i := FindByMac(mac);
      if i < |queue| {
        Refresh(i, kind, rssi, c.group.value, c.ifname);
      } else {
        Append(Entry(ptr, mac, c.ifname, c.group.value, kind, rssi, false));
      }
      return true;
    }

    /** What a queue run decides about the head; `remove` when the entry is given up. */
    static predicate GivenUp(clients: map<Mac, Client>, head: Entry, answer: Measurement) {
      !InPlace(clients, head) || (head.kind != ForceKick && answer == Refused)
    }

    method ServeHead(answer: Measurement) returns (remove: bool)
      requires Orderly(queue, entered, left) && queue != []
      modifies this`queue, this`kicks
      ensures Orderly(queue, entered, left)
      ensures remove == GivenUp(clients, old(queue)[0], answer)
      ensures queue != [] && queue[1..] == old(queue)[1..]
      ensures if remove then queue == old(queue) && kicks == old(kicks)
              else if old(queue)[0].kind == ForceKick || answer == Unsupported
              then queue == old(queue) && kicks == old(kicks) + multiset{queue[0].ptr}
              else queue[0] == old(queue)[0].(measuring := true) && kicks == old(kicks)
    {
      var head := queue[0];
      if !InPlace(clients, head) {
        return true;
      }
      if head.kind == ForceKick || answer == Unsupported {
        kicks := kicks + multiset{head.ptr};
        return false;
      }
      if answer == Refused {
        return true;
      }
      ghost var before := Macs(queue);
      queue := queue[0 := head.(measuring := true)];
      assert Macs(queue) == before;
      return false;
    }

    /** A queue run that finds a head: give it up and run again, or leave it with a driver of its own. */
    method ServeQueue(answer: Measurement, found: bool)
      requires Orderly(queue, entered, left) && queue != []
      modifies this`queue, this`runs, this`kicks, this`left
      ensures Orderly(queue, entered, left)
      ensures if GivenUp(clients, old(queue)[0], answer) then queue == old(queue)[1..] && runs == old(runs) + 1
              else queue != [] && queue[1..] == old(queue)[1..] && runs == old(runs)
                   && if old(queue)[0].kind == ForceKick || answer == Unsupported then queue[0].ptr in kicks
                      else queue[0] == old(queue)[0].(measuring := true) && kicks == old(kicks)
    {
      var remove := ServeHead(answer);
      if remove {
        DropHead(found);
        runs := runs + 1;
      }
    }

    /** bm_kick_task_queue_run */
    method TaskQueueRun(answer: Measurement, found: bool)
      requires Valid() && runs > 0
      modifies this`queue, this`runs, this`kicks, this`left
      ensures Valid() && Driven()
      ensures old(queue) == [] ==> queue == [] && runs == old(runs) - 1 && kicks == old(kicks)
      ensures old(queue) != [] ==>
                if GivenUp(clients, old(queue)[0], answer) then queue == old(queue)[1..] && runs == old(runs)
                else queue != [] && queue[1..] == old(queue)[1..] && runs == old(runs) - 1
      ensures (old(queue) != [] && !GivenUp(clients, old(queue)[0], answer)
               && old(queue)[0].kind != ForceKick && answer == Started) ==>
                queue[0] == old(queue)[0].(measuring := true) && kicks == old(kicks)
    {
      runs := runs - 1;
      if queue != [] {
        ServeQueue(answer, found);
      }
    }

    /** The tests between taking the head off the queue and the disconnect. */
    static predicate Kickable(clients: map<Mac, Client>, kick: Entry) {
      && InPlace(clients, kick)
      && (kick.kind != ForceKick ==> kick.rssi != 0)
      && Mapped(MethodOf(clients[kick.mac], kick.kind)).Some?
      && (kick.kind == StickyKick ==> !(kick.rssi > clients[kick.mac].lwm))
      && (kick.kind == SteeringKick ==> !(kick.rssi <= clients[kick.mac].hwm))
    }

    /** Every disconnect that is issued is justified. */
    method Disconnect(kick: Entry)
      requires AllJustified(log)
      modifies this`log
      ensures AllJustified(log)
      ensures if Due(clients, kick)
              then && |log| == |old(log)| + 1 && log[..|old(log)|] == old(log)
                   && log[|old(log)|].entry == kick && log[|old(log)|].client == clients[kick.mac]
              else log == old(log)
    {
      if Kickable(clients, kick) {
        var c := clients[kick.mac];
        ghost var how := Mapped(MethodOf(c, kick.kind)).value;
        assert Justified(Issued(kick, c, how));
        log := log + [Issued(kick, c, Mapped(MethodOf(c, kick.kind)).value)];
      }
    }

    method KickHead(found: bool)
      requires Valid() && queue != []
      modifies this`queue, this`runs, this`kicks, this`left, this`log
      ensures Valid() && Driven()
      ensures queue == old(queue)[1..]
      ensures |log| == |old(log)| + if Due(clients, old(queue)[0]) then 1 else 0
    {
      var kick := RemoveHead();
      Disconnect(kick);
      Cancel(kick.ptr, found);
      if queue != [] {
        runs := runs + 1;
      }
    }

    /** bm_kick_task_kick: a task whose entry is not the head does nothing. */
    method TaskKick(ptr: Pointer, found: bool)
      requires Valid() && ptr in kicks
      modifies this`queue, this`runs, this`kicks, this`left, this`log
      ensures Valid() && (old(Driven()) ==> Driven())
      ensures if old(queue) == [] || old(queue)[0].ptr != ptr
              then queue == old(queue) && log == old(log) && runs == old(runs) && kicks == old(kicks) - multiset{ptr}
              else queue == old(queue)[1..] && |log| == |old(log)| + if Due(clients, old(queue)[0]) then 1 else 0
    {
      kicks := kicks - multiset{ptr};
      if queue != [] && queue[0].ptr == ptr {
        KickHead(found);
      }
    }

    /** bm_kick_measurement */
    method Measured(mac: Mac, rssi: Rssi)
      requires Valid()
      modifies this`queue, this`kicks
      ensures Valid() && (old(Driven()) ==> Driven())
      ensures if old(queue) != [] && old(queue)[0].measuring && old(queue)[0].mac == mac
              then queue == old(queue)[0 := old(queue)[0].(measuring := false, rssi := rssi)]
                   && kicks == old(kicks) + multiset{queue[0].ptr}
              else queue == old(queue) && kicks == old(kicks)
    {
      if queue == [] || !queue[0].measuring || queue[0].mac != mac {
        return;
      }
      ghost var before := Macs(queue);
      queue := queue[0 := queue[0].(measuring := false, rssi := rssi)];
      assert Macs(queue) == before;
      kicks := kicks + multiset{queue[0].ptr};
    }

    // ---------------------------------------------------------------- cleanup

    /** Remove entry `i` and free it. */
    method RemoveAt(i: nat)
      requires Orderly(queue, entered, left) && i < |queue|
      modifies this`queue, this`left, this`kicks
      ensures Orderly(queue, entered, left) && queue == old(queue)[..i] + old(queue)[i + 1..]
      ensures left == old(left) + multiset{old(queue)[i].mac}
      ensures forall p :: p != old(queue)[i].ptr ==> kicks[p] == old(kicks)[p]
      ensures kicks[old(queue)[i].ptr] == if old(queue)[i].ptr in old(kicks) then old(kicks)[old(queue)[i].ptr] - 1
              else 0
    {
      var e := queue[i];
      RemovalKeepsOrder(queue, entered, left, i);
      queue := queue[..i] + queue[i + 1..];
      left := left + multiset{e.mac};
      if e.ptr in kicks {
        kicks := kicks - multiset{e.ptr};
      }
    }

    /** One turn of the cleanup loop, at entry `k` of the original queue `q`. */
    method Sweep(i: nat, restart: bool, who: Scope, ghost q: seq<Entry>, ghost k: nat, ghost before: multiset<Pointer>)
      returns (next: nat, again: bool)
      requires Orderly(queue, entered, left) && Swept(q, k, who, queue, i, restart) && i < |queue|
      requires Distinct(q) && (forall j :: 0 < j < |q| ==> !q[j].measuring) && KicksKept(q, k, who, before, kicks)
      modifies this`queue, this`left, this`kicks
      ensures Orderly(queue, entered, left) && Swept(q, k + 1, who, queue, next, again)
      ensures KicksKept(q, k + 1, who, before, kicks)
      ensures |queue| - next < |old(queue)| - i
    {
      next, again := i, restart;
      ghost var were := kicks;
      StepSurvivors(q, k, who, Survivors(q[..k], who));
      if Matches(queue[i], who) {
        again := restart || queue[i].measuring;
        RemoveAt(i);
        StepKicks(q, k, who, before, were, kicks);
      } else {
        next := i + 1;
      }
    }

    /** The loop of both cleanup functions; `restart` when a measuring entry was removed. */
    method RemoveMatching(who: Scope) returns (restart: bool)
      requires Orderly(queue, entered, left)
      modifies this`queue, this`left, this`kicks
      ensures Orderly(queue, entered, left) && queue == Survivors(old(queue), who)
      ensures restart == (old(queue) != [] && old(queue)[0].measuring && Matches(old(queue)[0], who))
      ensures KicksKept(old(queue), |old(queue)|, who, old(kicks), kicks)
    {
      restart := false;
      var i: nat := 0;
      ghost var q, k: nat := queue, 0;
      SweptStart(q, who);
      while i < |queue|
        invariant Orderly(queue, entered, left) && Swept(q, k, who, queue, i, restart)
        invariant KicksKept(q, k, who, old(kicks), kicks)
        decreases |queue| - i
      {
        i, restart := Sweep(i, restart, who, q, k, old(kicks));
        k := k + 1;
      }
      SweptEnd(q, k, who, queue, i, restart);
    }

    /** bm_kick_cleanup_by_group: the queue keeps a driver exactly when the removal does not strand it. */
    method CleanupByGroup(group: Group)
      requires Valid()
      modifies this`queue, this`left, this`kicks, this`runs
      ensures Valid() && queue == Survivors(old(queue), OfGroup(group))
      ensures forall e :: e in queue <==> e in old(queue) && e.group != group
      ensures old(Driven()) ==> (Driven() <==> !Strands(old(queue), old(runs), old(kicks), OfGroup(group)))
    {
      ghost var q, kicks0 := queue, kicks;
      SurvivorsExactly(q, OfGroup(group));
      var restart := RemoveMatching(OfGroup(group));
      if restart && queue != [] {
        runs := runs + 1;
      }
      if queue != [] {
        ghost var j := FirstSurvivor(q, OfGroup(group));
        assert kicks[q[j].ptr] == kicks0[q[j].ptr];
      }
    }

    /** bm_kick_cleanup_by_client: a measuring entry is left alone, so nothing is ever restarted. */
    method CleanupByClient(mac: Mac)
      requires Valid()
      modifies this`queue, this`left, this`kicks
      ensures Valid() && queue == Survivors(old(queue), OfClient(mac))
      ensures forall e :: e in queue <==> e in old(queue) && (e.mac != mac || e.measuring)
      ensures old(Driven()) ==> (Driven() <==> !Strands(old(queue), runs, old(kicks), OfClient(mac)))
    {
      ghost var q, kicks0 := queue, kicks;
      SurvivorsExactly(q, OfClient(mac));
      var _ := RemoveMatching(OfClient(mac));
      if queue != [] {
        ghost var j := FirstSurvivor(q, OfClient(mac));
        assert kicks[q[j].ptr] == kicks0[q[j].ptr];
      }
    }

    // -------------------------------------------------------------- whole runs

    /**
     Any run of kicks, tasks, measurements, client changes and cleanups: the queue stays
     safe and counted, and it stays driven unless some cleanup stranded it.
     */
    method Run(steps: nat) returns (stranded: bool)
      requires Valid() && Driven()
      modifies this
      ensures Valid() && (!stranded ==> Driven())
    {
      stranded := false;
      for i := 0 to steps
        invariant Valid() && (!stranded ==> Driven())
      {
        var choice: int, mac: Mac, group: Group, kind: KickType, rssi: Rssi := *, *, *, *, *;
        var a: bool, b: bool, ptr: Pointer, answer: Measurement := *, *, *, *;
        if choice == 0 && mac in clients && forall i :: 0 <= i < |queue| ==> queue[i].ptr != ptr {
          var _ := Kick(mac, kind, rssi, a, b, ptr);
        } else if choice == 1 && runs > 0 {
          TaskQueueRun(answer, a);
        } else if choice == 2 && ptr in kicks {
          TaskKick(ptr, a);
        } else if choice == 3 {
          Measured(mac, rssi);
        } else if choice == 4 {
          stranded := stranded || Strands(queue, runs, kicks, OfGroup(group));
          CleanupByGroup(group);
        } else if choice == 5 {
          stranded := stranded || Strands(queue, runs, kicks, OfClient(mac));
          CleanupByClient(mac);
        } else {
          clients := *;
        }
      }
    }

    /**
     A queue without a driver stays so: kicks only line up behind a head that nothing
     looks at, tasks left over find another head, and nobody is disconnected any more.
     */
    method StrandedRun(steps: nat)
      requires Valid() && !Driven()
      modifies this
      ensures Valid() && !Driven() && log == old(log)
      ensures queue[0].mac == old(queue)[0].mac && |queue| >= |old(queue)|
    {
      for i := 0 to steps
        invariant Valid() && !Driven() && log == old(log)
        invariant queue[0].mac == old(queue)[0].mac && |queue| >= |old(queue)|
      {
        var choice: int, mac: Mac, kind: KickType, rssi: Rssi, a: bool, b: bool, ptr: Pointer := *, *, *, *, *, *, *;
        if choice == 0 && mac in clients && forall i :: 0 <= i < |queue| ==> queue[i].ptr != ptr {
          var _ := Kick(mac, kind, rssi, a, b, ptr);
        } else if choice == 1 && ptr in kicks {
          TaskKick(ptr, a);
        } else if choice == 2 {
          Measured(mac, rssi);
        } else {
          clients := *;
        }
      }
    }

    /** The first kick into an idle queue, up to its running measurement. */
    method KickAndMeasure(mac: Mac, rssi: Rssi, ptr: Pointer)
      requires Valid() && queue == [] && runs == 0 && kicks == multiset{} && Kicked(clients, mac)
      modifies this`queue, this`runs, this`entered, this`kicks, this`left
      ensures Valid() && runs == 0 && kicks == multiset{}
      ensures queue == [StickyEntry(clients[mac], mac, rssi, ptr).(measuring := true)]
    {
      var queued := Kick(mac, StickyKick, rssi, true, false, ptr);
      assert queue == [StickyEntry(clients[mac], mac, rssi, ptr)];
      TaskQueueRun(Started, true);
    }

    /** A second kick behind a head that is being measured, and the result for the head. */
    method KickBehind(mac: Mac, rssi: Rssi, ptr: Pointer, measured: Rssi)
      requires Valid() && |queue| == 1 && queue[0].measuring && runs == 0 && kicks == multiset{} && Kicked(clients, mac)
      requires queue[0].mac != mac && queue[0].ptr != ptr
      modifies this`queue, this`runs, this`entered, this`kicks
      ensures Valid() && runs == 0 && kicks == multiset{old(queue)[0].ptr}
      ensures queue == [old(queue)[0].(measuring := false, rssi := measured), StickyEntry(clients[mac], mac, rssi, ptr)]
    {
      assert Macs(queue) == [queue[0].mac];
      var queued := Kick(mac, StickyKick, rssi, true, false, ptr);
      Measured(queue[0].mac, measured);
    }

    /**
     A stranded queue is reached from an idle one: kick two clients of different groups,
     measure the first, and delete its group before its kick task runs.
     */
    method Strand(a: Mac, b: Mac, rssi: Rssi, measured: Rssi, pa: Pointer, pb: Pointer)
      requires Valid() && queue == [] && runs == 0 && kicks == multiset{} && a != b && pa != pb
      requires Kicked(clients, a) && Kicked(clients, b) && clients[a].group != clients[b].group
      modifies this`queue, this`runs, this`entered, this`kicks, this`left
      ensures Valid() && !Driven() && queue == [StickyEntry(clients[b], b, rssi, pb)]
    {
      KickAndMeasure(a, rssi, pa);
      KickBehind(b, rssi, pb, measured);
      StrandingHappens(queue[0], queue[1]);
      LastSurvives(queue[0], queue[1]);
      CleanupByGroup(queue[0].group);
    }
  }

  /** A client for which a sticky kick goes to the queue. */
  predicate Kicked(clients: map<Mac, Client>, mac: Mac) {
    && mac in clients && clients[mac].connected && clients[mac].stateConnected && clients[mac].group.Some?
    && clients[mac].sticky == Deauth
  }

  function StickyEntry(c: Client, mac: Mac, rssi: Rssi, ptr: Pointer): Entry
    requires c.group.Some?
  {
    Entry(ptr, mac, c.ifname, c.group.value, StickyKick, rssi, false)
  }

  /** Up to entry `k`, tasks of entries that stay, and beyond `k` all tasks, are as before. */
  ghost predicate KicksKept(q: seq<Entry>, k: nat, who: Scope, before: multiset<Pointer>, after: multiset<Pointer>) {
    forall j :: 0 <= j < |q| && (j >= k || !Matches(q[j], who)) ==> after[q[j].ptr] == before[q[j].ptr]
  }

  lemma StepKicks(q: seq<Entry>, k: nat, who: Scope, k0: multiset<Pointer>, k1: multiset<Pointer>,
      k2: multiset<Pointer>)
    requires Distinct(q) && k < |q| && Matches(q[k], who) && KicksKept(q, k, who, k0, k1)
    requires forall p :: p != q[k].ptr ==> k2[p] == k1[p]
    ensures KicksKept(q, k + 1, who, k0, k2)
  {
  }

  lemma StepSurvivors(q: seq<Entry>, k: nat, who: Scope, kept: seq<Entry>)
    requires k < |q| && kept == Survivors(q[..k], who)
    ensures Survivors(q[..k + 1], who) == if Matches(q[k], who) then kept else kept + [q[k]]
    ensures (kept + q[k..])[..|kept|] + (kept + q[k..])[|kept| + 1..] == kept + q[k + 1..]
    ensures kept + q[k..] == kept + [q[k]] + q[k + 1..]
  {
    assert q[..k + 1][..k] == q[..k];
  }

  /** The cleanup loop has passed `k` entries of `q`: the survivors among them, then the rest. */
  ghost predicate Swept(q: seq<Entry>, k: nat, who: Scope, queue: seq<Entry>, i: nat, restart: bool) {
    && k <= |q| && i == |Survivors(q[..k], who)| && queue == Survivors(q[..k], who) + q[k..]
    && restart == (k > 0 && q[0].measuring && Matches(q[0], who))
  }

  lemma SweptStart(q: seq<Entry>, who: Scope)
    ensures Swept(q, 0, who, q, 0, false)
  {
  }

  lemma SweptEnd(q: seq<Entry>, k: nat, who: Scope, queue: seq<Entry>, i: nat, restart: bool)
    requires Swept(q, k, who, queue, i, restart) && i >= |queue|
    ensures k == |q| && queue == Survivors(q, who) && restart == (q != [] && q[0].measuring && Matches(q[0], who))
  {
    assert k == |q| && q[..k] == q && q[k..] == [];
  }
}
