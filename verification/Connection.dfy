/**
 The connection manager's state machine (cm2_event.c): `g_state` is the object, the
 goto loop of cm2_update_state is `UpdateState`, one round of it is `Pass`.
 OVSDB, the resolver and the connectivity probes are nondeterministic answers; the
 clock is a parameter, frozen for the duration of one call.
 */
module Connection {

  // cm2_event.c:112-124
  const NO_TIMEOUT := -1
  const DEFAULT_TIMEOUT := 60
  const FAST_RECONNECT_TIMEOUT := 20
  const ONBOARD_LINK_SEL_TIMEOUT := 120
  const RESOLVE_TIMEOUT := 180
  const CONNECT_TIMEOUT := 30
  const MAX_DISCONNECTS := 10
  const STABLE_PERIOD := 300
  const RESOLVE_RETRY_THRESHOLD := 10
  const GW_OFFLINE_RETRY_THRESHOLD := 3
  const GW_SKIP_RESTART_THRESHOLD := 360

  type Seconds = x: int | 0 < x witness 1

  datatype State =
    | Init | LinkSel | WanIp | NtpCheck | OvsInit | TryResolve | ReConnect | TryConnect
    | FastReconnect | Connected | Internet | QuiesceOvs

  datatype Reason =
    | Timer | Awlan | Manager | Change | LinkUsed | LinkNotUsed | SetNewVtag | BlockVtag | RestartOvsInit

  datatype Dest = ToRedirector | ToController

  datatype QueryState = NotStarted | InProgress | Finished | Resolved

  /** A resolvable address; `resolved` belongs to the synchronous resolver, `v6` and `v4` to c-ares. */
  datatype Addr = Addr(updated: bool, valid: bool, resolved: bool, v6: QueryState, v4: QueryState)

  datatype VtagState = NotUsed | Pending | Used | Blocked
  datatype Vtag = Vtag(state: VtagState, failure: int, tag: int, blockedTag: int)

  datatype Ip = Ip(isIp: bool, resolveRetry: bool)
  datatype Kind = Wifi | Wired | Unknown
  datatype Device = NoDevice | Router | Bridge | Leaf

  // Answers of the environment
  datatype IpAnswer = IpAnswer(v6Global: bool, v4Found: bool, v4Addr: bool)
  datatype Query = Unanswered | Failed(retry: bool) | Found
  datatype ResolveAnswer = ResolveAnswer(idle: bool, channel: bool, v6: Query, v4: Query, usable: bool)
  datatype GwAnswer = GwAnswer(enabled: bool, active: bool, ready: bool, enableOk: bool)

  /** What a handler asks of the loop: go on, restart the managers and go on, or restart the connection and return. */
  datatype Action = Proceed | RestartManagers | RestartOvs(success: bool)

  function QueryResult(q: Query): QueryState {
    match q case Unanswered => InProgress case Failed(_) => Finished case Found => Resolved
  }

  predicate AsksRetry(q: Query) {
    q.Failed? && q.retry
  }

  predicate SelectingLink(state: State) {
    state == Init || state == LinkSel || state == WanIp || state == NtpCheck
  }

  const MAX_RANK := 111

  /** The address in use was replaced by one that does not parse. */
  predicate Stale(dest: Dest, redirector: Addr, manager: Addr) {
    if dest == ToRedirector then redirector.updated && !redirector.valid else manager.updated && !manager.valid
  }

  ghost function LevelOf(dest: Dest, redirector: Addr, manager: Addr, retry: bool): (n: nat)
    ensures n <= 7
  {
    (if redirector.updated then 4 else 0) + (if manager.updated then 2 else 0)
    + (if retry && ((manager.updated && manager.valid) || Stale(dest, redirector, manager)) then 1 else 0)
  }

  /** Distance of the state from the states in which the machine rests. */
  ghost function PositionOf(state: State, changed: bool, connected: bool, unlinked: bool, stale: bool): (p: nat)
    ensures p <= 13
  {
    match state
    case Init => 13
    case Internet => 13
    case OvsInit => if unlinked then 12 else 8
    case LinkSel => 11
    case WanIp => 10
    case NtpCheck => 9
    case TryResolve => if stale && changed then 4 else 7
    case ReConnect => 6
    case TryConnect => 5
    case Connected => if connected then 1 else 3
    case QuiesceOvs => 2
    case FastReconnect => if connected then 2 else 1
  }

  class ConnectionManager {
    const extender: bool
    const cares: bool            // BUILD_HAVE_LIBCARES
    const fatalThreshold: int    // CONFIG_CM2_CLOUD_FATAL_THRESHOLD
    const vtagThreshold: int     // CONFIG_CM2_STABILITY_THRESH_VTAG

    var state: State
    var dest: Dest
    var stateChanged: bool
    var connected: bool
    var isConStable: bool
    var timestamp: int
    var quiesceTimeout: Seconds
    var disconnects: int
    var redirector: Addr
    var manager: Addr
    var haveAwlan: bool
    var haveManager: bool
    var fastBackoff: bool
    var fastReconnect: bool
    var runStability: bool
    var device: Device

    // g_state.link
    var isUsed: bool
    var kind: Kind
    var ipv4: Ip
    var ipv6: Ip
    var vtag: Vtag

    // g_state.cnts
    var ovsResolve: int
    var ovsResolveFail: int
    var ovsCon: int
    var gwOffline: int
    var skipRestart: int

    /** QUIESCE_OVS timeouts that led to FAST_RECONNECT since `disconnects` was last set to zero. */
    ghost var reconnects: int

    /** Restarts of the connection so far, and the last answer of a synchronous stability check. */
    ghost var ovsRestarts: nat
    ghost var lastCheck: bool

    // ------------------------------------------------------------- invariants

    /**
     Entering QUIESCE_OVS and timing out there each cost one disconnect, and the
     entry is charged once: so five reconnects exhaust the budget of ten.
     */
    ghost predicate Valid()
      reads this`state, this`stateChanged, this`disconnects, this`reconnects, this`gwOffline
    {
      && 0 <= 2 * reconnects
      && 2 * reconnects + (if state == QuiesceOvs && !stateChanged then 1 else 0) <= disconnects
      && reconnects <= MAX_DISCONNECTS / 2
      && 0 <= gwOffline <= GW_OFFLINE_RETRY_THRESHOLD
    }

    function TimeoutOf(): int
      reads this`state, this`quiesceTimeout
    {
      match state
      case Init => NO_TIMEOUT
      case LinkSel => ONBOARD_LINK_SEL_TIMEOUT
      case WanIp => DEFAULT_TIMEOUT
      case NtpCheck => DEFAULT_TIMEOUT
      case OvsInit => NO_TIMEOUT
      case TryResolve => RESOLVE_TIMEOUT
      case ReConnect => CONNECT_TIMEOUT
      case TryConnect => CONNECT_TIMEOUT
      case FastReconnect => FAST_RECONNECT_TIMEOUT
      case Connected => NO_TIMEOUT
      case Internet => DEFAULT_TIMEOUT
      case QuiesceOvs => quiesceTimeout
    }

    predicate TimedOut(now: int)
      reads this`state, this`quiesceTimeout, this`timestamp
    {
      TimeoutOf() != NO_TIMEOUT && now - timestamp >= TimeoutOf()
    }

    function CurrAddr(): Addr
      reads this`dest, this`redirector, this`manager
    {
      if dest == ToRedirector then redirector else manager
    }

    predicate NewRedirector(selecting: bool)
      reads this`state, this`redirector
    {
      state != OvsInit && state != TryResolve && !selecting && redirector.updated && redirector.valid
    }

    predicate NewManager()
      reads this`state, this`dest, this`manager
    {
      !(state == Connected && dest == ToController) && manager.updated && manager.valid
    }

    predicate ResolveRetry()
      reads this`ipv4, this`ipv6
    {
      ipv4.resolveRetry || ipv6.resolveRetry
    }

    predicate AddrResolved()
      reads this`dest, this`redirector, this`manager
    {
      if cares then CurrAddr().v4 != InProgress && CurrAddr().v6 != InProgress else CurrAddr().resolved
    }

    // ------------------------------------------------------- why a call ends

    ghost predicate StaleAddress()
      reads this`dest, this`redirector, this`manager
    {
      Stale(dest, redirector, manager)
    }

    /** The address to be resolved was just replaced. */
    ghost predicate Replaced()
      reads this`dest, this`redirector, this`manager
    {
      StaleAddress() || (dest == ToController && manager.updated)
    }

    /** What can still send the machine back: new addresses, and a resolve retry that hides one of them. */
    ghost function Level(): (n: nat)
      reads this`dest, this`redirector, this`manager, this`ipv4, this`ipv6
    {
      LevelOf(dest, redirector, manager, ipv4.resolveRetry || ipv6.resolveRetry)
    }

    ghost function Position(): (p: nat)
      reads this`state, this`stateChanged, this`connected, this`isUsed, this`dest, this`redirector, this`manager
    {
      PositionOf(state, stateChanged, connected, extender && !isUsed, Stale(dest, redirector, manager))
    }

    ghost function Rank(): (r: nat)
      reads this`state, this`stateChanged, this`connected, this`isUsed, this`dest, this`redirector, this`manager,
            this`ipv4, this`ipv6
      ensures r <= MAX_RANK
    {
      14 * LevelOf(dest, redirector, manager, ipv4.resolveRetry || ipv6.resolveRetry)
      + PositionOf(state, stateChanged, connected, extender && !isUsed, Stale(dest, redirector, manager))
    }

    /** Common to every step: the invariant is kept, and a changed state was entered at `now`. */
    twostate predicate Stepped(now: int)
      reads this
    {
      && Valid()
      && (timestamp == now || (state == old(state) && timestamp == old(timestamp)))
      && (vtag.state == Pending ==> old(vtag.state) == Pending)
    }

    /** A handler run in a state entered at `now`: no timeout fires, and a change of state descends. */
    twostate predicate Settles(now: int, act: Action)
      reads this
    {
      old(timestamp) == now ==>
        && act != RestartManagers
        && (act == Proceed ==>
              && timestamp == now && !TimedOut(now)
              && (state != old(state) ==> Rank() < old(Rank())))
    }

    // ------------------------------------------------------------ where it leads

    /** The successors of the states a round can be sent to before its handler runs. */
    static predicate Follows(from: State, to: State) {
      match from
      case LinkSel => to == WanIp
      case WanIp => to == NtpCheck
      case OvsInit => to == LinkSel || to == TryResolve
      case TryResolve => to == ReConnect
      case _ => to != from
    }

    /** The synchronous probe: only an extender whose link is in use asks the target. */
    predicate StabilityOk(check: bool)
      reads this`isUsed
    {
      !extender || (isUsed && check)
    }

    /**
     Where a round leads from a state that was entered `age` seconds ago, as long as the
     connection is not restarted. A handler stays in the state exactly when this does.
     */
    ghost function NextOf(from: State, age: int): State
      reads this`isUsed, this`ipv4, this`ipv6, this`lastCheck, this`fastReconnect, this`redirector, this`manager,
            this`dest, this`connected, this`quiesceTimeout
    {
      match from
      case Init | Internet => if extender then LinkSel else OvsInit
      case LinkSel => if isUsed then WanIp else LinkSel
      case WanIp => if (ipv4.isIp || ipv6.isIp) && StabilityOk(lastCheck) then NtpCheck else WanIp
      case NtpCheck => if !StabilityOk(lastCheck) then NtpCheck else if fastReconnect then FastReconnect else OvsInit
      case OvsInit => if extender && !isUsed then LinkSel else if redirector.valid then TryResolve else OvsInit
      case TryResolve => if AddrResolved() then ReConnect else TryResolve
      case ReConnect => if connected then ReConnect else TryConnect
      case TryConnect => if CurrAddr().updated then TryResolve else if connected then Connected else TryConnect
      case FastReconnect =>
        if connected then Connected else if age >= FAST_RECONNECT_TIMEOUT then QuiesceOvs else FastReconnect
      case Connected => if connected then Connected else QuiesceOvs
      case QuiesceOvs => if connected then Connected else if age >= quiesceTimeout then FastReconnect else QuiesceOvs
    }

    /** A handler leads where `NextOf` says; asking for a restart of the managers it stays. */
    twostate predicate Led(now: int, act: Action)
      reads this
    {
      && (!act.RestartOvs? ==> state == NextOf(old(state), now - old(timestamp)))
      && (act == RestartManagers ==> state == old(state))
      && (state != old(state) ==> stateChanged)
    }

    /** The states in which a call can end right after entering them, by coming back to where its last round began. */
    static predicate Revisited(s: State) {
      s == WanIp || s == NtpCheck || s == TryResolve || s == ReConnect
    }

    /** The handler of the state has nothing left to do, or its entry is still to be served. */
    ghost predicate Resting(now: int)
      reads this`state, this`stateChanged, this`timestamp, this`isUsed, this`ipv4, this`ipv6, this`lastCheck,
            this`fastReconnect, this`redirector, this`manager, this`dest, this`connected, this`quiesceTimeout
    {
      NextOf(state, now - timestamp) == state || (stateChanged && Revisited(state))
    }

    /**
     The effects of a round in CONNECTED: a connection that lasts clears the disconnects and confirms
     a pending tag.
     */
    twostate predicate ConnectedServed(now: int)
      reads this`isConStable, this`disconnects, this`vtag, this`connected
    {
      if connected && !old(isConStable) && now - old(timestamp) > STABLE_PERIOD then
        && isConStable && disconnects == 0
        && vtag.state == (if old(vtag.state) == Pending then Used else old(vtag.state))
      else
        disconnects == old(disconnects) && vtag == old(vtag)
    }

    /** The effects of a round in QUIESCE_OVS: one disconnect for the entry, one for the timeout, and a limit of ten. */
    twostate predicate QuiesceServed(now: int, act: Action)
      reads this`connected, this`disconnects, this`reconnects, this`quiesceTimeout
    {
      var charged := old(disconnects) + (if old(stateChanged) then 1 else 0);
      if connected || now - old(timestamp) < quiesceTimeout then
        act == Proceed && disconnects == charged && reconnects == old(reconnects)
      else
        && disconnects == charged + 1
        && if disconnects > MAX_DISCONNECTS then act == RestartOvs(false) && reconnects == old(reconnects)
           else act == Proceed && reconnects == old(reconnects) + 1
    }

    /** The effects of a round in LINK_SEL: the entry drops the connection and remembers it for a fast reconnect. */
    twostate predicate LinkSelServed()
      reads this`fastReconnect, this`connected, this`fastBackoff
    {
      if old(stateChanged) then
        && fastReconnect == old(connected) && !connected
        && fastBackoff == (old(fastBackoff) || old(connected))
      else
        fastReconnect == old(fastReconnect) && connected == old(connected) && fastBackoff == old(fastBackoff)
    }

    /** The effects of a round in OVS_INIT: a start with the redirector forgets the controller and the disconnects. */
    twostate predicate OvsInitServed()
      reads this`state, this`dest, this`manager, this`disconnects
    {
      if state == TryResolve then dest == ToRedirector && !manager.valid && !manager.updated && disconnects == 0
      else manager == old(manager) && disconnects == old(disconnects) && dest == old(dest)
    }

    // ---------------------------------------------------------------- helpers

    method SetState(s: State, now: int)
      modifies this`state, this`timestamp, this`stateChanged
      ensures state == s
      ensures if s == old(state) then timestamp == old(timestamp) && stateChanged == old(stateChanged)
              else timestamp == now && stateChanged
    {
      if state == s {
        return;
      }
      state := s;
      timestamp := now;
      stateChanged := true;
    }

    /** A change to a state that is nearer to rest. */
    method Descend(s: State, now: int)
      requires s != TryResolve && s != state
      requires PositionOf(s, true, connected, extender && !isUsed, false) < Position()
      modifies this`state, this`timestamp, this`stateChanged
      ensures state == s && timestamp == now && stateChanged && Rank() < old(Rank())
    {
      SetState(s, now);
    }

    method UpdateMainLinkIp(a: IpAnswer)
      modifies this`ipv4, this`ipv6
      ensures ipv4.resolveRetry == old(ipv4.resolveRetry) && ipv6.resolveRetry == old(ipv6.resolveRetry)
      ensures ipv6.isIp == (old(ipv6.isIp) || a.v6Global)
      ensures ipv4.isIp == if a.v6Global || !a.v4Found then old(ipv4.isIp) else a.v4Addr
    {
      if a.v6Global {
        ipv6 := ipv6.(isIp := true);
      } else if a.v4Found {
        ipv4 := ipv4.(isIp := a.v4Addr);
      }
    }

    // ---------------------------------------------------------------- handlers

    method ExtenderInitState(used: bool, usedKind: Kind)
      modifies this`vtag, this`ipv4, this`ipv6, this`isUsed, this`kind, this`fastBackoff, this`device
      ensures isUsed == used && kind == (if used then usedKind else Unknown)
      ensures vtag.state == NotUsed && ipv4 == ipv6 == Ip(false, false) && fastBackoff && device == NoDevice
    {
      vtag := Vtag(NotUsed, 0, 0, 0);
      ipv4, ipv6 := Ip(false, false), Ip(false, false);
      isUsed, kind := used, if used then usedKind else Unknown;
      fastBackoff, device := true, NoDevice;
    }

    method HandleInit(now: int, used: bool, usedKind: Kind)
      requires Valid() && (state == Init || state == Internet)
      modifies this`state, this`timestamp, this`stateChanged, this`vtag, this`ipv4, this`ipv6, this`isUsed, this`kind,
               this`fastBackoff, this`device, this`ovsResolve, this`ovsResolveFail
      ensures Stepped(now) && Settles(now, Proceed) && Led(now, Proceed)
      ensures extender ==> isUsed == used && vtag.state == NotUsed && !ResolveRetry() && device == NoDevice
    {
      if extender {
        ExtenderInitState(used, usedKind);
        ovsResolve, ovsResolveFail := 0, 0;
      }
      SetState(if extender then LinkSel else OvsInit, now);
    }

    method HandleLinkSel(now: int) returns (act: Action)
      requires Valid() && state == LinkSel
      modifies this`state, this`timestamp, this`stateChanged, this`connected, this`fastReconnect, this`fastBackoff,
               this`runStability
      ensures Stepped(now) && Settles(now, act) && Led(now, act)
      ensures if isUsed then act == Proceed && state == WanIp
              else state == LinkSel && !stateChanged && act == if now - timestamp >= ONBOARD_LINK_SEL_TIMEOUT
                  then RestartManagers else Proceed
      ensures LinkSelServed()
    {
      if stateChanged {
        stateChanged := false;
        runStability := false;
        fastReconnect := connected;
        if fastReconnect {
          fastBackoff := true;
        }
        connected := false;
      }
      if isUsed {
        SetState(WanIp, now);
      } else if TimedOut(now) {
        return RestartManagers;
      }
      return Proceed;
    }

    method EnterWanIp(ip: IpAnswer, check: bool)
      requires state == WanIp
      modifies this`stateChanged, this`ipv4, this`ipv6, this`lastCheck
      ensures !stateChanged && lastCheck == check && Rank() == old(Rank())
      ensures ipv4.resolveRetry == old(ipv4.resolveRetry) && ipv6.resolveRetry == old(ipv6.resolveRetry)
    {
      stateChanged, lastCheck := false, check;
      UpdateMainLinkIp(ip);
    }

    method HandleWanIp(now: int, ip: IpAnswer, check: bool) returns (act: Action)
      requires Valid() && state == WanIp
      modifies this`state, this`timestamp, this`stateChanged, this`ipv4, this`ipv6, this`lastCheck
      ensures Stepped(now) && Settles(now, act) && Led(now, act) && lastCheck == check
      ensures if (ipv4.isIp || ipv6.isIp) && StabilityOk(check) then act == Proceed && state == NtpCheck
              else state == WanIp && !stateChanged && act == if now - timestamp >= DEFAULT_TIMEOUT
                  then RestartManagers else Proceed
      ensures ipv4.resolveRetry == old(ipv4.resolveRetry) && ipv6.resolveRetry == old(ipv6.resolveRetry)
    {
      EnterWanIp(ip, check);
      act := if TimedOut(now) then RestartManagers else Proceed;
      if (ipv4.isIp || ipv6.isIp) && StabilityOk(check) {
        Descend(NtpCheck, now);
        act := Proceed;
      }
    }

    method HandleNtpCheck(now: int, check: bool) returns (act: Action)
      requires Valid() && state == NtpCheck
      modifies this`state, this`timestamp, this`stateChanged, this`lastCheck
      ensures Stepped(now) && Settles(now, act) && Led(now, act) && lastCheck == check
      ensures if StabilityOk(check) then act == Proceed && state == (if fastReconnect then FastReconnect else OvsInit)
              else state == NtpCheck && !stateChanged && act == if now - timestamp >= DEFAULT_TIMEOUT
                  then RestartManagers else Proceed
    {
      stateChanged, lastCheck := false, check;
      if StabilityOk(check) {
        SetState(if fastReconnect then FastReconnect else OvsInit, now);
      } else if TimedOut(now) {
        return RestartManagers;
      }
      return Proceed;
    }

    method HandleOvsInit(now: int)
      requires Valid() && state == OvsInit
      modifies this`state, this`timestamp, this`stateChanged, this`connected, this`isConStable, this`manager,
               this`dest, this`disconnects, this`reconnects
      ensures Stepped(now) && Settles(now, Proceed) && Led(now, Proceed)
      ensures !(extender && !isUsed) ==> !connected && !isConStable
      ensures OvsInitServed()
    {
      if extender && !isUsed {
        SetState(LinkSel, now);
        return;
      }
      connected := false;
      isConStable := false;
      if redirector.valid {
        manager := manager.(updated := false, valid := false, resolved := false);
        dest := ToRedirector;
        SetState(TryResolve, now);
        disconnects, reconnects := 0, 0;
      }
    }

    method SetCurrAddr(addr: Addr)
      modifies this`redirector, this`manager
      ensures CurrAddr() == addr
      ensures if dest == ToRedirector then manager == old(manager) else redirector == old(redirector)
    {
      if dest == ToRedirector {
        redirector := addr;
      } else {
        manager := addr;
      }
    }

    /** A retry of one family is dropped when the other family is already resolved. */
    predicate SkipsRetry()
      reads this`dest, this`redirector, this`manager, this`ipv4, this`ipv6
    {
      cares && ((ipv4.resolveRetry && CurrAddr().v6 == Resolved) || (ipv6.resolveRetry && CurrAddr().v4 == Resolved))
    }

    predicate QueryBusy()
      reads this`dest, this`redirector, this`manager
    {
      cares && (CurrAddr().v4 == InProgress || CurrAddr().v6 == InProgress)
    }

    /** When a resolution can be started, or need not be. */
    predicate Startable(r: ResolveAnswer)
      reads this`dest, this`redirector, this`manager, this`ipv4, this`ipv6
    {
      SkipsRetry() || (!QueryBusy() && CurrAddr().valid && if cares then r.idle && r.channel else r.usable)
    }

    /** A started c-ares query asks for each family that has an address, and keeps the retry it asks for. */
    twostate predicate Asked(r: ResolveAnswer, ok: bool)
      reads this`dest, this`redirector, this`manager, this`ipv4, this`ipv6
    {
      && CurrAddr().v6 == (if ok && ipv6.isIp then QueryResult(r.v6) else old(CurrAddr().v6))
      && CurrAddr().v4 == (if ok && ipv4.isIp then QueryResult(r.v4) else old(CurrAddr().v4))
      && ipv6.resolveRetry == (ok && ipv6.isIp && AsksRetry(r.v6))
      && ipv4.resolveRetry == (ok && ipv4.isIp && AsksRetry(r.v4))
    }

    /** cm2_resolve of either resolver; a c-ares query may be answered while it is being started. */
    method Resolve(r: ResolveAnswer) returns (ok: bool)
      modifies this`redirector, this`manager, this`ipv4, this`ipv6
      ensures CurrAddr().valid == old(CurrAddr().valid)
      ensures if dest == ToRedirector then manager == old(manager) else redirector == old(redirector)
      ensures old(SkipsRetry()) ==> ok && CurrAddr() == old(CurrAddr()) && !ResolveRetry()
      ensures !old(SkipsRetry()) && old(QueryBusy()) ==> !ok && CurrAddr() == old(CurrAddr()) && !ResolveRetry()
      ensures !old(SkipsRetry()) && !old(QueryBusy()) ==>
                && !CurrAddr().updated && ok == (CurrAddr().valid && if cares then r.idle && r.channel else r.usable)
                && if cares then Asked(r, ok) else CurrAddr().resolved == ok
      ensures ipv4.isIp == old(ipv4.isIp) && ipv6.isIp == old(ipv6.isIp)
    {
      if cares {
        ok := ResolveAres(r);
      } else {
        ok := CurrAddr().valid && r.usable;
        SetCurrAddr(CurrAddr().(updated := false, resolved := ok));
      }
    }

    method ResolveAres(r: ResolveAnswer) returns (ok: bool)
      requires cares
      modifies this`redirector, this`manager, this`ipv4, this`ipv6
      ensures CurrAddr().valid == old(CurrAddr().valid)
      ensures if dest == ToRedirector then manager == old(manager) else redirector == old(redirector)
      ensures old(SkipsRetry()) ==> ok && CurrAddr() == old(CurrAddr()) && !ResolveRetry()
      ensures !old(SkipsRetry()) && old(QueryBusy()) ==> !ok && CurrAddr() == old(CurrAddr()) && !ResolveRetry()
      ensures !old(SkipsRetry()) && !old(QueryBusy()) ==>
                !CurrAddr().updated && ok == (CurrAddr().valid && r.idle && r.channel) && Asked(r, ok)
      ensures ipv4.isIp == old(ipv4.isIp) && ipv6.isIp == old(ipv6.isIp)
    {
      var addr := CurrAddr();
      var ask6 := ipv6.isIp && addr.v6 != InProgress;
      var ask4 := ipv4.isIp && addr.v4 != InProgress;
      var skip := SkipsRetry();
      ipv4, ipv6 := ipv4.(resolveRetry := false), ipv6.(resolveRetry := false);
      if skip {
        return true;
      }
      if QueryBusy() {
        return false;
      }
      addr := addr.(updated := false);
      ok := addr.valid && r.idle && r.channel;
      if ok {
        if ask6 {
          addr := addr.(v6 := QueryResult(r.v6));
          ipv6 := ipv6.(resolveRetry := AsksRetry(r.v6));
        }
        if ask4 {
          addr := addr.(v4 := QueryResult(r.v4));
          ipv4 := ipv4.(resolveRetry := AsksRetry(r.v4));
        }
      }
      SetCurrAddr(addr);
    }

    ghost predicate ResolveDue()
      reads this`stateChanged, this`ipv4, this`ipv6
    {
      stateChanged || ResolveRetry()
    }

    /** Resolving drops the level when it concerns an address that was just replaced. */
    method ResolveDown(r: ResolveAnswer) returns (ok: bool)
      requires dest == ToRedirector ==> !(manager.updated && manager.valid)
      modifies this`redirector, this`manager, this`ipv4, this`ipv6
      ensures redirector.updated ==> old(redirector.updated)
      ensures manager.updated ==> old(manager.updated)
      ensures redirector.valid == old(redirector.valid) && manager.valid == old(manager.valid)
      ensures ok == old(Startable(r))
      ensures ok ==> Level() <= old(Level())
      ensures ok && old(Replaced()) ==> Level() < old(Level())
    {
      ok := Resolve(r);
    }

    method PrepareResolve(ip: IpAnswer)
      modifies this`ipv4, this`ipv6, this`ovsResolve
      ensures ipv4.resolveRetry == old(ipv4.resolveRetry) && ipv6.resolveRetry == old(ipv6.resolveRetry)
      ensures ovsResolve == old(ovsResolve) + if old(ResolveRetry()) then 1 else 0
    {
      if extender {
        UpdateMainLinkIp(ip);
      }
      if ResolveRetry() {
        ovsResolve := ovsResolve + 1;
      }
    }

    method StartResolve(ip: IpAnswer, r: ResolveAnswer) returns (ok: bool)
      requires dest == ToRedirector ==> !(manager.updated && manager.valid)
      modifies this`redirector, this`manager, this`ipv4, this`ipv6, this`ovsResolve, this`ovsResolveFail
      ensures redirector.updated ==> old(redirector.updated)
      ensures manager.updated ==> old(manager.updated)
      ensures redirector.valid == old(redirector.valid) && manager.valid == old(manager.valid)
      ensures ok == old(Startable(r))
      ensures ok ==> Level() <= old(Level())
      ensures ok && old(Replaced()) ==> Level() < old(Level())
      ensures ovsResolve == old(ovsResolve) + (if old(ResolveRetry()) then 1 else 0)
      ensures ovsResolveFail == old(ovsResolveFail) + if ok || fatalThreshold == 0 then 0 else 1
    {
      PrepareResolve(ip);
      assert Level() == old(Level()) && Startable(r) == old(Startable(r));
      ok := ResolveDown(r);
      if !ok {
        CountResolveFailure();
      }
    }

    /** A resolution is started on entry and whenever a retry is asked for. */
    method EnterTryResolve(ip: IpAnswer, r: ResolveAnswer) returns (ok: bool)
      requires dest == ToRedirector ==> !(manager.updated && manager.valid)
      modifies this`stateChanged, this`redirector, this`manager, this`ipv4, this`ipv6, this`ovsResolve,
               this`ovsResolveFail
      ensures !stateChanged && ok == !old(ResolveDue() && !Startable(r))
      ensures redirector.updated ==> old(redirector.updated)
      ensures ok ==> Level() <= old(Level())
      ensures ok && old(ResolveDue() && Replaced()) ==> Level() < old(Level())
      ensures ovsResolve == old(ovsResolve) + if old(ResolveRetry()) then 1 else 0
    {
      var due := stateChanged || ResolveRetry();
      stateChanged, ok := false, true;
      if due {
        ok := StartResolve(ip, r);
      }
    }

    method HandleTryResolve(now: int, ip: IpAnswer, r: ResolveAnswer) returns (act: Action)
      requires Valid() && state == TryResolve
      requires dest == ToRedirector ==> !(manager.updated && manager.valid)
      modifies this`state, this`timestamp, this`stateChanged, this`redirector, this`manager, this`ipv4, this`ipv6,
               this`ovsResolve, this`ovsResolveFail
      ensures Stepped(now) && act != RestartManagers && Led(now, act)
      ensures old(timestamp) == now && act == Proceed ==> timestamp == now && !TimedOut(now)
      ensures redirector.updated ==> old(redirector.updated)
      ensures act == Proceed ==> Level() <= old(Level())
      ensures act == Proceed && old(ResolveDue() && Replaced()) ==> Level() < old(Level())
      ensures act == RestartOvs(true) <==> old(ResolveDue() && !Startable(r))
      ensures act == RestartOvs(false) <==>
                && act != RestartOvs(true) && !AddrResolved()
                && old(now - timestamp >= RESOLVE_TIMEOUT
                    || ovsResolve + (if ResolveRetry() then 1 else 0) > RESOLVE_RETRY_THRESHOLD)
    {
      var ok := EnterTryResolve(ip, r);
      if ok {
        act := AwaitResolve(now);
      } else {
        act := RestartOvs(true);
      }
    }

    method CountResolveFailure()
      modifies this`ovsResolveFail
      ensures ovsResolveFail == old(ovsResolveFail) + if fatalThreshold != 0 then 1 else 0
    {
      if fatalThreshold != 0 {
        ovsResolveFail := ovsResolveFail + 1;
      }
    }

    method AwaitResolve(now: int) returns (act: Action)
      requires state == TryResolve
      modifies this`state, this`timestamp, this`stateChanged, this`ovsResolve, this`ovsResolveFail
      ensures if AddrResolved()
              then act == Proceed && state == ReConnect && timestamp == now && stateChanged && ovsResolve == 0
                  && ovsResolveFail == 0
              else state == TryResolve && timestamp == old(timestamp) && stateChanged == old(stateChanged)
                   && act == if old(TimedOut(now) || ovsResolve > RESOLVE_RETRY_THRESHOLD) then RestartOvs(false)
                       else Proceed
    {
      if AddrResolved() {
        ovsResolve, ovsResolveFail := 0, 0;
        SetState(ReConnect, now);
        return Proceed;
      }
      if TimedOut(now) || ovsResolve > RESOLVE_RETRY_THRESHOLD {
        ovsResolve := 0;
        CountResolveFailure();
        return RestartOvs(false);
      }
      return Proceed;
    }

    method HandleReConnect(now: int) returns (act: Action)
      requires Valid() && state == ReConnect
      modifies this`state, this`timestamp, this`stateChanged, this`connected, this`ovsCon
      ensures Stepped(now) && Settles(now, act) && Led(now, act)
      ensures if old(stateChanged) || !old(connected) then act == Proceed && state == TryConnect && !connected
              else state == ReConnect && act == if now - timestamp >= CONNECT_TIMEOUT then RestartOvs(false)
                  else Proceed
    {
      if stateChanged {
        stateChanged := false;
        connected := false;
      }
      if !connected {
        SetState(TryConnect, now);
      } else if TimedOut(now) {
        CountConnectFailure();
        return RestartOvs(false);
      }
      return Proceed;
    }

    method HandleTryConnect(now: int, ip: IpAnswer, ipLate: IpAnswer, current: bool, next: bool) returns (act: Action)
      requires Valid() && state == TryConnect && !NewRedirector(false) && !NewManager()
      modifies this`state, this`timestamp, this`stateChanged, this`ipv4, this`ipv6, this`ovsCon
      ensures Stepped(now) && Settles(now, act) && Led(now, act)
      ensures CurrAddr().updated ==> act == Proceed && state == TryResolve
      ensures !CurrAddr().updated && old(stateChanged) && !current ==> act == RestartOvs(false)
      ensures !CurrAddr().updated && (old(stateChanged) ==> current) ==>
                if connected then act == Proceed && state == Connected
                else
                  && state == TryConnect
                  && if now - old(timestamp) < CONNECT_TIMEOUT then act == Proceed
                     else if next then act == Proceed && timestamp == now
                     else act == RestartOvs(false)
    {
      if CurrAddr().updated {
        SetState(TryResolve, now);
        act := Proceed;
      } else {
        var written := WriteFirst(ip, current);
        if written {
          act := AwaitConnection(now, ipLate, next);
        } else {
          act := RestartOvs(false);
        }
      }
    }

    /** The entry of TRY_CONNECT writes the current address; failing to do so counts as a failure to connect. */
    method WriteFirst(ip: IpAnswer, current: bool) returns (written: bool)
      modifies this`stateChanged, this`ipv4, this`ipv6, this`ovsCon
      ensures written == (old(stateChanged) ==> current) && !stateChanged
      ensures ipv4.resolveRetry == old(ipv4.resolveRetry) && ipv6.resolveRetry == old(ipv6.resolveRetry)
    {
      written := !stateChanged || current;
      if stateChanged {
        stateChanged := false;
        if extender {
          UpdateMainLinkIp(ip);
        }
        if !current {
          CountConnectFailure();
        }
      }
    }

    method CountConnectFailure()
      modifies this`ovsCon
      ensures ovsCon == old(ovsCon) + if fatalThreshold != 0 then 1 else 0
    {
      if fatalThreshold != 0 {
        ovsCon := ovsCon + 1;
      }
    }

    method AwaitConnection(now: int, ip: IpAnswer, next: bool) returns (act: Action)
      requires state == TryConnect
      modifies this`state, this`timestamp, this`stateChanged, this`ipv4, this`ipv6, this`ovsCon
      ensures ipv4.resolveRetry == old(ipv4.resolveRetry) && ipv6.resolveRetry == old(ipv6.resolveRetry)
      ensures if connected then act == Proceed && state == Connected && timestamp == now && stateChanged
              else state == TryConnect && stateChanged == old(stateChanged)
                   && if !old(TimedOut(now)) then act == Proceed && timestamp == old(timestamp)
                      else if next then act == Proceed && timestamp == now
                      else act == RestartOvs(false) && timestamp == old(timestamp)
    {
      if connected {
        SetState(Connected, now);
      } else if TimedOut(now) {
        if extender {
          UpdateMainLinkIp(ip);
        }
        if !next {
          CountConnectFailure();
          return RestartOvs(false);
        }
        timestamp := now;
      }
      return Proceed;
    }

    method HandleFastReconnect(now: int)
      requires Valid() && state == FastReconnect
      modifies this`state, this`timestamp, this`stateChanged, this`connected
      ensures Stepped(now) && Settles(now, Proceed) && Led(now, Proceed)
      ensures connected == (old(connected) && !old(stateChanged))
    {
      if stateChanged {
        stateChanged := false;
        connected := false;
      }
      if connected {
        SetState(Connected, now);
      }
      if TimedOut(now) {
        SetState(QuiesceOvs, now);
      }
    }

    method EnterConnected(newDevice: Device, gwActive: bool, gwDisabled: bool)
      requires 0 <= gwOffline <= GW_OFFLINE_RETRY_THRESHOLD
      modifies this`device, this`skipRestart, this`ovsCon, this`runStability, this`gwOffline
      ensures 0 <= gwOffline <= GW_OFFLINE_RETRY_THRESHOLD
      ensures gwOffline == if extender && old(gwOffline) == GW_OFFLINE_RETRY_THRESHOLD && gwActive && gwDisabled
              then 0 else old(gwOffline)
      ensures extender ==> device == newDevice && skipRestart == 0 && ovsCon == 0 && runStability
      ensures !extender ==>
                device == old(device) && skipRestart == old(skipRestart) && ovsCon == old(ovsCon)
                    && runStability == old(runStability)
    {
      if extender {
        device := newDevice;
        skipRestart, ovsCon := 0, 0;
        runStability := true;
        if gwOffline == GW_OFFLINE_RETRY_THRESHOLD && gwActive && gwDisabled {
          gwOffline := 0;
        }
      }
    }

    method MarkStable()
      modifies this`isConStable, this`disconnects, this`reconnects, this`fastBackoff, this`vtag
      ensures isConStable && disconnects == 0 && reconnects == 0 && !fastBackoff
      ensures vtag == old(vtag).(state := if old(vtag.state) == Pending then Used else old(vtag.state))
    {
      isConStable := true;
      disconnects, reconnects := 0, 0;
      fastBackoff := false;
      if vtag.state == Pending {
        vtag := vtag.(state := Used);
      }
    }

    /** The entry of CONNECTED and, while the connection lasts, the stable period. */
    method WatchConnection(now: int, newDevice: Device, gwActive: bool, gwDisabled: bool)
      requires 0 <= gwOffline <= GW_OFFLINE_RETRY_THRESHOLD
      modifies this`stateChanged, this`device, this`runStability, this`skipRestart, this`ovsCon, this`gwOffline,
               this`isConStable, this`disconnects, this`reconnects, this`fastBackoff, this`vtag
      ensures 0 <= gwOffline <= GW_OFFLINE_RETRY_THRESHOLD && !stateChanged && ConnectedServed(now)
      ensures (disconnects == old(disconnects) && reconnects == old(reconnects)) || disconnects == reconnects == 0
      ensures !connected ==> isConStable == old(isConStable)
    {
      if stateChanged {
        stateChanged := false;
        EnterConnected(newDevice, gwActive, gwDisabled);
      }
      if connected && !isConStable && now - timestamp > STABLE_PERIOD {
        MarkStable();
      }
    }

    method LoseConnection(now: int)
      requires state == Connected && !connected
      modifies this`state, this`timestamp, this`stateChanged, this`isConStable
      ensures state == QuiesceOvs && timestamp == now && stateChanged && !isConStable && Rank() < old(Rank())
    {
      SetState(QuiesceOvs, now);
      isConStable := false;
    }

    method HandleConnected(now: int, newDevice: Device, gwActive: bool, gwDisabled: bool)
      requires Valid() && state == Connected
      modifies this`state, this`timestamp, this`stateChanged, this`device, this`runStability, this`skipRestart,
               this`ovsCon, this`gwOffline, this`isConStable, this`disconnects, this`reconnects, this`fastBackoff,
               this`vtag
      ensures Stepped(now) && Settles(now, Proceed) && Led(now, Proceed)
      ensures ConnectedServed(now)
    {
      WatchConnection(now, newDevice, gwActive, gwDisabled);
      if !connected {
        LoseConnection(now);
      }
    }

    method HandleQuiesceOvs(now: int, backoff: Seconds) returns (act: Action)
      requires Valid() && state == QuiesceOvs
      modifies this`state, this`timestamp, this`stateChanged, this`disconnects, this`reconnects, this`quiesceTimeout,
               this`fastBackoff
      ensures old(timestamp) == now ==> act == Proceed
      ensures act == Proceed ==> Stepped(now)
      ensures Settles(now, act)
      ensures quiesceTimeout == if old(stateChanged) then backoff else old(quiesceTimeout)
      ensures QuiesceServed(now, act)
      ensures Led(now, act) && (act != Proceed ==> state == QuiesceOvs && !stateChanged)
      ensures act != Proceed ==> Valid() && timestamp == old(timestamp) && reconnects == old(reconnects)
    {
      if stateChanged {
        stateChanged := false;
        disconnects := disconnects + 1;
        quiesceTimeout := backoff;
      }
      if connected {
        SetState(Connected, now);
      }
      if TimedOut(now) {
        disconnects := disconnects + 1;
        if disconnects > MAX_DISCONNECTS {
          fastBackoff := false;
          return RestartOvs(false);
        }
        SetState(FastReconnect, now);
        reconnects := reconnects + 1;
      }
      return Proceed;
    }

    // --------------------------------------------- reasons and new addresses

    method NewVtag(trunksOk: bool, tagOk: bool) returns (ok: bool)
      modifies this`vtag
      ensures ok == (!old(vtag.state == Blocked && vtag.tag == vtag.blockedTag) && (kind == Wired ==> trunksOk)
              && tagOk)
      ensures ok ==> vtag == old(vtag).(state := Pending, failure := 0)
      ensures !ok ==> vtag == old(vtag)
    {
      if (vtag.state == Blocked && vtag.tag == vtag.blockedTag) || (kind == Wired && !trunksOk) || !tagOk {
        return false;
      }
      vtag := vtag.(state := Pending, failure := 0);
      return true;
    }

    /** Only a request for a new tag makes one pending, and blocking always ends a pending one. */
    method ApplyReason(reason: Reason, now: int, ip: IpAnswer, trunksOk: bool, tagOk: bool)
      requires Valid()
      modifies this`state, this`timestamp, this`stateChanged, this`ipv4, this`ipv6, this`vtag, this`connected,
               this`fastReconnect
      ensures Valid() && (timestamp == now || (state == old(state) && timestamp == old(timestamp)))
      ensures Nestable() <= old(Budget(reason))
      ensures state == old(state) || state == LinkSel || state == WanIp
      ensures reason == LinkNotUsed ==> state == LinkSel
      ensures reason == LinkUsed ==> state == WanIp
      ensures reason == SetNewVtag ==>
                if old(vtag.state == Blocked && vtag.tag == vtag.blockedTag) || (kind == Wired && !trunksOk) || !tagOk
                then state == old(state) && vtag == old(vtag) else state == WanIp && vtag.state == Pending
      ensures reason == BlockVtag ==>
                vtag.state == Blocked && vtag.blockedTag == vtag.tag == old(vtag.tag) && (tagOk ==> state == WanIp)
      ensures reason == RestartOvsInit && !SelectingLink(old(state)) ==> state == WanIp && !connected && !fastReconnect
      ensures reason == Change ==>
                state == old(state) && stateChanged == old(stateChanged) && timestamp == old(timestamp)
                                   && ipv4 == old(ipv4) && ipv6 == old(ipv6) && vtag == old(vtag)
                                   && connected == old(connected) && fastReconnect == old(fastReconnect)
    {
      match reason
      case LinkNotUsed =>
        SetState(LinkSel, now);
      case LinkUsed =>
        UpdateMainLinkIp(ip);
        SetState(WanIp, now);
      case SetNewVtag =>
        var ok := NewVtag(trunksOk, tagOk);
        if ok {
          SetState(WanIp, now);
        }
      case BlockVtag =>
        vtag := vtag.(state := Blocked, failure := 0, blockedTag := vtag.tag);
        if tagOk {
          SetState(WanIp, now);
        }
      case RestartOvsInit =>
        if state != WanIp && !SelectingLink(state) {
          connected := false;
          fastReconnect := false;
          SetState(WanIp, now);
        }
      case _ =>
    }

    /** `selecting` was computed from the state before the reason was applied. */
    method ApplyAddresses(selecting: bool, now: int)
      requires Valid()
      modifies this`state, this`timestamp, this`stateChanged, this`redirector, this`dest
      ensures Valid() && (timestamp == now || (state == old(state) && timestamp == old(timestamp)))
      ensures old(NewRedirector(selecting)) ==>
                state == OvsInit && redirector == old(redirector).(updated := false) && dest == old(dest)
                    && stateChanged
      ensures !old(NewRedirector(selecting)) && old(NewManager()) ==>
                state == TryResolve && dest == ToController && redirector == old(redirector)
                && stateChanged == (old(stateChanged) || old(state) != TryResolve)
      ensures !old(NewRedirector(selecting)) && !old(NewManager()) ==>
                state == old(state) && stateChanged == old(stateChanged) && timestamp == old(timestamp)
                && redirector == old(redirector) && dest == old(dest)
    {
      if NewRedirector(selecting) {
        SetState(OvsInit, now);
        redirector := redirector.(updated := false);
      } else if NewManager() {
        SetState(TryResolve, now);
        dest := ToController;
      }
    }

    // ------------------------------------------------------- restart and nesting

    /** 1 when a VLAN tag is pending, so that the tag check may call back into the state machine. */
    ghost function Nestable(): nat
      reads this`vtag
    {
      if vtag.state == Pending then 1 else 0
    }

    ghost function Budget(reason: Reason): nat
      reads this`vtag
    {
      if reason == BlockVtag then 0 else if reason == SetNewVtag then 1 else Nestable()
    }

    /** When gateway offline mode takes the place of a restart. */
    predicate GwTakesOver(gw: GwAnswer)
      reads this`state, this`dest, this`kind
    {
      kind != Wifi && !(state == Connected && dest == ToController) && gw.enabled && (gw.active || gw.ready)
    }

    /** The retry counter climbs to its threshold and falls back by one when enabling fails there. */
    static function GwNext(n: int, enableOk: bool): int {
      var m := if n < GW_OFFLINE_RETRY_THRESHOLD then n + 1 else n;
      if m == GW_OFFLINE_RETRY_THRESHOLD && !enableOk then m - 1 else m
    }

    /** cm2_enable_gw_offline */
    method EnableGwOffline(gw: GwAnswer) returns (r: bool)
      requires 0 <= gwOffline <= GW_OFFLINE_RETRY_THRESHOLD
      modifies this`gwOffline
      ensures 0 <= gwOffline <= GW_OFFLINE_RETRY_THRESHOLD
      ensures r == GwTakesOver(gw)
      ensures gwOffline == if r && !gw.active then GwNext(old(gwOffline), gw.enableOk) else old(gwOffline)
    {
      if kind == Wifi || (state == Connected && dest == ToController) || !gw.enabled {
        return false;
      }
      if gw.active {
        return true;
      }
      if !gw.ready {
        return false;
      }
      if gwOffline < GW_OFFLINE_RETRY_THRESHOLD {
        gwOffline := gwOffline + 1;
      }
      if gwOffline == GW_OFFLINE_RETRY_THRESHOLD && !gw.enableOk {
        gwOffline := gwOffline - 1;
      }
      return true;
    }

    /** cm2_vtag_stability_check: too many failures of a pending tag block it through a nested update. */
    method VtagStabilityCheck(now: int) returns (ok: bool, ghost nested: nat)
      requires Valid()
      modifies this
      ensures Stepped(now)
      ensures haveAwlan == old(haveAwlan) && haveManager == old(haveManager)
      ensures ok == (old(vtag.state) != Pending)
      ensures ok ==> unchanged(this)
      ensures nested <= 1 && (haveAwlan && haveManager ==> nested + Nestable() <= old(Nestable()))
      ensures nested == 0 ==> skipRestart == old(skipRestart)
      ensures ovsRestarts >= old(ovsRestarts)
      ensures haveAwlan && haveManager && ovsRestarts == old(ovsRestarts) && old(Resting(now)) ==> Resting(now)
      decreases Nestable(), 0
    {
      nested := 0;
      if vtag.state == Pending {
        vtag := vtag.(failure := vtag.failure + 1);
        if vtag.failure > vtagThreshold {
          ghost var passes, deeper := UpdateState(BlockVtag, now);
          nested := 1 + deeper;
        }
        return false, nested;
      }
      return true, nested;
    }

    /** What speaks against restarting the managers: a pending tag, a router, or gateway offline mode. */
    predicate Spared(gw: GwAnswer)
      reads this`state, this`dest, this`kind, this`vtag, this`device
    {
      kind != Wifi && (vtag.state == Pending || device == Router || GwTakesOver(gw))
    }

    /** Whether the managers are spared; what two-way BLE communication asks for is overwritten. */
    method Spare(now: int, ble: bool, gw: GwAnswer) returns (skip: bool, ghost nested: nat)
      requires Valid() && haveAwlan && haveManager
      modifies this
      ensures Stepped(now)
      ensures haveAwlan && haveManager
      ensures nested + Nestable() <= old(Nestable())
      ensures old(vtag.state) != Pending ==> state == old(state)
      ensures skip == old(Spared(gw)) && (nested == 0 ==> skipRestart == old(skipRestart))
      ensures ovsRestarts >= old(ovsRestarts)
      ensures ovsRestarts == old(ovsRestarts) && old(Resting(now)) ==> Resting(now)
      decreases Nestable(), 1
    {
      skip, nested := false, 0;
      if kind != Wifi {
        var ok;
        ok, nested := VtagStabilityCheck(now);
        if !ok {
          skip := true;
        } else {
          if ble && device == NoDevice {
            skip := true;
          }
          if device == Router {
            skip := true;
          } else {
            skip := EnableGwOffline(gw);
          }
        }
      }
    }

    /** A shorter stay in a state does not bring its timeout about. */
    lemma RearmRests(now: int, age: int)
      requires NextOf(state, age) == state
      ensures NextOf(state, 0) == state
    {
    }

    /**
     cm2_trigger_restart_managers: the managers are spared at most 360 times in a row, and
     a spared restart re-arms the timeout of the current state. Whether two-way BLE
     communication is enabled, `ble`, makes no difference.
     */
    method TriggerRestartManagers(now: int, ble: bool, gw: GwAnswer) returns (restarted: bool, ghost nested: nat)
      requires Valid() && haveAwlan && haveManager
      modifies this
      ensures Stepped(now)
      ensures haveAwlan && haveManager
      ensures nested + Nestable() <= old(Nestable())
      ensures old(vtag.state) != Pending ==> state == old(state)
      ensures restarted <==> !(old(Spared(gw)) && skipRestart <= GW_SKIP_RESTART_THRESHOLD)
      ensures nested == 0 ==> skipRestart == old(skipRestart) + if old(Spared(gw)) then 1 else 0
      ensures !restarted ==> timestamp == now
      ensures ovsRestarts >= old(ovsRestarts)
      ensures ovsRestarts == old(ovsRestarts) && old(Resting(now)) ==> Resting(now)
      decreases Nestable(), 2
    {
      var skip;
      skip, nested := Spare(now, ble, gw);
      restarted := true;
      if skip {
        skipRestart := skipRestart + 1;
        if skipRestart <= GW_SKIP_RESTART_THRESHOLD {
          if NextOf(state, now - timestamp) == state {
            RearmRests(now, now - timestamp);
          }
          timestamp := now;
          restarted := false;
        }
      }
    }

    /** Too many failures to resolve or to connect. */
    predicate Fatal()
      reads this`ovsResolveFail, this`ovsCon
    {
      extender && fatalThreshold != 0 && (ovsResolveFail >= fatalThreshold || ovsCon >= fatalThreshold)
    }

    /** cm2_restart_ovs_connection */
    method RestartOvsConnection(now: int, ble: bool, gw: GwAnswer) returns (restarted: bool, ghost nested: nat)
      requires Valid() && haveAwlan && haveManager
      modifies this
      ensures Stepped(now)
      ensures haveAwlan && haveManager
      ensures nested + Nestable() <= old(Nestable())
      ensures !old(Fatal()) ==> !restarted && nested == 0 && state == if extender then LinkSel else OvsInit
      ensures old(Fatal()) ==>
                && (restarted <==> !(old(Spared(gw)) && skipRestart <= GW_SKIP_RESTART_THRESHOLD))
                && (!restarted ==> timestamp == now)
      ensures ovsRestarts > old(ovsRestarts)
      decreases Nestable(), 3
    {
      restarted, nested, ovsRestarts := false, 0, ovsRestarts + 1;
      if !extender {
        SetState(OvsInit, now);
      } else if fatalThreshold == 0 || (ovsResolveFail < fatalThreshold && ovsCon < fatalThreshold) {
        var _ := EnableGwOffline(gw);
        SetState(LinkSel, now);
      } else {
        restarted, nested := TriggerRestartManagers(now, ble, gw);
      }
    }

    /**
     cm2_stability_handle_fatal_state, with the router failures counted so far and their
     limit. Here two-way BLE communication does come first.
     */
    method HandleFatalState(now: int, counter: int, limit: int, ble: bool, gw: GwAnswer)
        returns (restarted: bool, ghost nested: nat)
      requires Valid()
      modifies this
      ensures Stepped(now)
      ensures restarted <==>
                && counter > 0 && !(ble && old(device == NoDevice && (!isUsed || kind == Wired)))
                && !old(GwTakesOver(gw)) && old(vtag.state) != Pending && old(device) != Router && counter + 1 > limit
    {
      restarted, nested := false, 0;
      if counter <= 0 || (ble && device == NoDevice && (!isUsed || kind == Wired)) {
        return;
      }
      var taken := EnableGwOffline(gw);
      if taken {
        return;
      }
      var ok;
      ok, nested := VtagStabilityCheck(now);
      restarted := ok && device != Router && counter + 1 > limit;
    }

    // ------------------------------------------------------------------ the loop

    /** The cases of the switch up to OVS_INIT; INTERNET has no case of its own and shares the one of INIT. */
    method DispatchLink(now: int) returns (act: Action)
      requires Valid() && (SelectingLink(state) || state == Internet || state == OvsInit)
      modifies this
      ensures Stepped(now) && Settles(now, act) && Led(now, act)
      ensures haveAwlan == old(haveAwlan) && haveManager == old(haveManager) && ovsRestarts == old(ovsRestarts)
      ensures redirector == old(redirector) && !act.RestartOvs?
      ensures old(state) == LinkSel ==> LinkSelServed()
      ensures old(state) == OvsInit ==> OvsInitServed()
    {
      act := Proceed;
      var ip: IpAnswer, check: bool := *, *;
      if state == LinkSel {
        act := HandleLinkSel(now);
      } else if state == WanIp {
        act := HandleWanIp(now, ip, check);
      } else if state == NtpCheck {
        act := HandleNtpCheck(now, check);
      } else if state == OvsInit {
        HandleOvsInit(now);
      } else {
        var used: Kind := *;
        HandleInit(now, check, used);
      }
    }

    /** The cases of the switch from RE_CONNECT on. */
    method DispatchCloud(now: int) returns (act: Action)
      requires Valid() && !SelectingLink(state) && state != Internet && state != OvsInit && state != TryResolve
      requires state == TryConnect ==> !NewRedirector(false) && !NewManager()
      modifies this
      ensures Stepped(now) && Settles(now, act) && Led(now, act)
      ensures haveAwlan == old(haveAwlan) && haveManager == old(haveManager) && ovsRestarts == old(ovsRestarts)
      ensures redirector == old(redirector)
      ensures old(state) == Connected ==> ConnectedServed(now)
      ensures old(state) == QuiesceOvs ==> QuiesceServed(now, act)
    {
      act := Proceed;
      var ip: IpAnswer, ipLate: IpAnswer, current: bool, other: bool := *, *, *, *;
      if state == ReConnect {
        act := HandleReConnect(now);
      } else if state == TryConnect {
        act := HandleTryConnect(now, ip, ipLate, current, other);
      } else if state == FastReconnect {
        HandleFastReconnect(now);
      } else if state == Connected {
        var device: Device := *;
        HandleConnected(now, device, current, other);
      } else {
        var backoff: Seconds := *;
        act := HandleQuiesceOvs(now, backoff);
      }
    }

    /** The switch over the state. */
    method Dispatch(now: int) returns (act: Action)
      requires Valid()
      requires state == TryConnect ==> !NewRedirector(false) && !NewManager()
      requires state == TryResolve && dest == ToRedirector ==> !(manager.updated && manager.valid)
      modifies this
      ensures Stepped(now) && Led(now, act)
      ensures haveAwlan == old(haveAwlan) && haveManager == old(haveManager) && ovsRestarts == old(ovsRestarts)
      ensures redirector.updated ==> old(redirector.updated)
      ensures old(state) == Connected ==> ConnectedServed(now)
      ensures old(state) == QuiesceOvs ==> QuiesceServed(now, act)
      ensures old(state) == LinkSel ==> LinkSelServed()
      ensures old(state) == OvsInit ==> OvsInitServed()
      ensures old(state) != TryResolve ==> Settles(now, act)
      ensures old(state) == TryResolve ==>
                && act != RestartManagers
                && (old(timestamp) == now && act == Proceed ==> timestamp == now && !TimedOut(now))
                && (act == Proceed ==> Level() <= old(Level()) && (state == TryResolve || state == ReConnect))
                && (act == Proceed && old(ResolveDue() && Replaced()) ==> Level() < old(Level()))
    {
      if SelectingLink(state) || state == Internet || state == OvsInit {
        act := DispatchLink(now);
      } else if state == TryResolve {
        var ip: IpAnswer, r: ResolveAnswer := *, *;
        act := HandleTryResolve(now, ip, r);
      } else {
        act := DispatchCloud(now);
      }
    }

    /** Where the new addresses of a round lead before its handler runs. */
    function AfterAddresses(selecting: bool): State
      reads this`state, this`dest, this`redirector, this`manager
    {
      if NewRedirector(selecting) then OvsInit else if NewManager() then TryResolve else state
    }

    /** The handler stayed in the state `from` and has nothing left to do, or left it for a successor. */
    ghost predicate Served(from: State, now: int, act: Action)
      reads this
    {
      && (!act.RestartOvs? && state == from ==> NextOf(state, now - timestamp) == state)
      && (!act.RestartOvs? && state != from ==> stateChanged && Follows(from, state))
      && (act == RestartManagers ==> state == from)
    }

    /** A new redirector address: back to OVS_INIT, and on from there. */
    method ServeRedirector(selecting: bool, now: int) returns (act: Action)
      requires Valid() && NewRedirector(selecting)
      modifies this
      ensures Stepped(now) && Served(OvsInit, now, act)
      ensures haveAwlan == old(haveAwlan) && haveManager == old(haveManager) && ovsRestarts == old(ovsRestarts)
      ensures selecting == SelectingLink(old(state)) ==> Settles(now, act)
    {
      ApplyAddresses(selecting, now);
      act := DispatchLink(now);
    }

    /** A new controller address: back to TRY_RESOLVE. */
    method ServeManager(selecting: bool, now: int) returns (act: Action)
      requires Valid() && !NewRedirector(selecting) && NewManager()
      modifies this
      ensures Stepped(now) && Served(TryResolve, now, act)
      ensures haveAwlan == old(haveAwlan) && haveManager == old(haveManager) && ovsRestarts == old(ovsRestarts)
      ensures Settles(now, act)
    {
      ApplyAddresses(selecting, now);
      act := Dispatch(now);
    }

    /** No new address: the handler of the state. */
    method ServeState(selecting: bool, now: int) returns (act: Action)
      requires Valid() && !NewRedirector(selecting) && !NewManager() && (selecting ==> SelectingLink(state))
      modifies this
      ensures Stepped(now) && Served(old(state), now, act)
      ensures haveAwlan == old(haveAwlan) && haveManager == old(haveManager) && ovsRestarts == old(ovsRestarts)
      ensures selecting == SelectingLink(old(state)) ==> Settles(now, act)
    {
      ApplyAddresses(selecting, now);
      act := Dispatch(now);
    }

    /** Addresses and handler of one round; in a state entered at `now` it descends. */
    method Serve(selecting: bool, now: int) returns (act: Action)
      requires Valid() && (selecting ==> SelectingLink(state))
      modifies this
      ensures Stepped(now) && Served(old(AfterAddresses(selecting)), now, act)
      ensures haveAwlan == old(haveAwlan) && haveManager == old(haveManager) && ovsRestarts == old(ovsRestarts)
      ensures selecting == SelectingLink(old(state)) ==> Settles(now, act)
    {
      if NewRedirector(selecting) {
        act := ServeRedirector(selecting, now);
      } else if NewManager() {
        act := ServeManager(selecting, now);
      } else {
        act := ServeState(selecting, now);
      }
    }

    /** The reason with arbitrary answers, as far as the round depends on it. */
    method HearReason(reason: Reason, now: int)
      requires Valid()
      modifies this`state, this`timestamp, this`stateChanged, this`ipv4, this`ipv6, this`vtag, this`connected,
               this`fastReconnect
      ensures Valid() && (timestamp == now || (state == old(state) && timestamp == old(timestamp)))
      ensures Nestable() <= old(Budget(reason))
      ensures state == old(state) || state == LinkSel || state == WanIp
      ensures reason == Change ==> unchanged(this)
      ensures reason == LinkNotUsed ==> state == LinkSel
      ensures reason == LinkUsed || (reason == RestartOvsInit && !SelectingLink(old(state))) ==> state == WanIp
    {
      if reason != Change {
        var ip: IpAnswer, trunksOk: bool, tagOk: bool := *, *, *;
        ApplyReason(reason, now, ip, trunksOk, tagOk);
      }
    }

    /** Reason, addresses and handler of one round. */
    method Round(reason: Reason, now: int) returns (act: Action)
      requires Valid()
      modifies this
      ensures Valid() && (timestamp == now || (state == old(state) && timestamp == old(timestamp)))
      ensures haveAwlan == old(haveAwlan) && haveManager == old(haveManager) && ovsRestarts == old(ovsRestarts)
      ensures Nestable() <= old(Budget(reason))
      ensures reason == Change ==> Settles(now, act)
      ensures !act.RestartOvs? && (state == old(state) || act == RestartManagers) ==> Resting(now)
      ensures !act.RestartOvs? && !old(redirector.updated || manager.updated) ==>
                && (reason == LinkNotUsed ==> state == LinkSel || state == WanIp)
                && (reason == LinkUsed ==> state == WanIp || state == NtpCheck)
                && (reason == RestartOvsInit && !old(SelectingLink(state)) ==> state == WanIp || state == NtpCheck)
    {
      var selecting := SelectingLink(state);
      HearReason(reason, now);
      ghost var from := AfterAddresses(selecting);
      act := Serve(selecting, now);
      if !act.RestartOvs? && (state == old(state) || act == RestartManagers) {
        ServedRests(old(state), from, now, act);
      }
    }

    /** A round that stays, or comes back to where it began, rests there. */
    lemma ServedRests(began: State, from: State, now: int, act: Action)
      requires Served(from, now, act) && !act.RestartOvs? && (state == began || act == RestartManagers)
      requires from == began || from == LinkSel || from == WanIp || from == TryResolve
               || (from == OvsInit && began != LinkSel)
      ensures Resting(now)
    {
    }

    /** A timeout that no handler dealt with starts the machine over. */
    method Overtime(now: int) returns (ghost nested: nat)
      requires Valid() && haveAwlan && haveManager
      modifies this
      ensures Valid() && haveAwlan && haveManager && nested + Nestable() <= old(Nestable())
      ensures ovsRestarts >= old(ovsRestarts)
      ensures if old(TimedOut(now)) then state == Init && timestamp == now else unchanged(this) && nested == 0
      decreases Nestable(), 3
    {
      nested := 0;
      if TimedOut(now) {
        if extender {
          var ble: bool, gw: GwAnswer, restarted: bool := *, *, *;
          restarted, nested := TriggerRestartManagers(now, ble, gw);
        }
        SetState(Init, now);
      }
    }

    /** One round of cm2_update_state; `again` when it jumps back to its start. */
    method Pass(reason: Reason, now: int) returns (again: bool, ghost nested: nat)
      requires Valid()
      modifies this
      ensures Valid() && (timestamp == now || (state == old(state) && timestamp == old(timestamp)))
      ensures haveAwlan == old(haveAwlan) && haveManager == old(haveManager)
      ensures again ==> haveAwlan && haveManager && timestamp == now
      ensures haveAwlan && haveManager ==> nested + Nestable() <= old(Budget(reason))
      ensures !(haveAwlan && haveManager) ==> nested == 0 && !again && state == old(state) && vtag == old(vtag)
      ensures again && reason == Change && old(timestamp) == now ==> Rank() < old(Rank())
      ensures ovsRestarts >= old(ovsRestarts)
      ensures haveAwlan && haveManager && !again && ovsRestarts == old(ovsRestarts) ==> Resting(now) && !TimedOut(now)
      decreases Budget(reason), 4
    {
      nested := 0;
      if !haveAwlan || !haveManager {
        return false, nested;
      }
      var oldState := state;
      var act := Round(reason, now);
      var ble: bool, gw: GwAnswer, restarted: bool := *, *, *;
      if act.RestartOvs? {
        restarted, nested := RestartOvsConnection(now, ble, gw);
        return false, nested;
      }
      if act == RestartManagers {
        restarted, nested := TriggerRestartManagers(now, ble, gw);
      }
      ghost var more := Overtime(now);
      nested := nested + more;
      again := oldState != state;
    }

    /**
     cm2_update_state. For every state and every answer of the environment the call
     ends after at most 113 rounds and enters itself at most once.
     */
    method UpdateState(reason0: Reason, now: int) returns (ghost passes: nat, ghost nested: nat)
      requires Valid()
      modifies this
      ensures Valid() && (timestamp == now || (state == old(state) && timestamp == old(timestamp)))
      ensures haveAwlan == old(haveAwlan) && haveManager == old(haveManager)
      ensures passes <= MAX_RANK + 2
      ensures nested <= old(Budget(reason0)) <= 1
      ensures haveAwlan && haveManager ==> nested + Nestable() <= old(Budget(reason0))
      ensures !(haveAwlan && haveManager) ==> state == old(state) && vtag == old(vtag)
      ensures ovsRestarts >= old(ovsRestarts)
      ensures haveAwlan && haveManager && ovsRestarts == old(ovsRestarts) ==> Resting(now) && !TimedOut(now)
      decreases Budget(reason0), 5
    {
      var reason := reason0;
      passes, nested := 0, 0;
      while true
        invariant Valid() && (timestamp == now || (state == old(state) && timestamp == old(timestamp)))
        invariant haveAwlan == old(haveAwlan) && haveManager == old(haveManager)
        invariant passes == 0 ==>
                    reason == reason0 && nested == 0 && vtag == old(vtag) && state == old(state)
                        && timestamp == old(timestamp)
        invariant passes > 0 ==>
                    haveAwlan && haveManager && reason == Change && timestamp == now && passes + Rank() <= MAX_RANK + 1
        invariant nested + Budget(reason) <= old(Budget(reason0)) && ovsRestarts >= old(ovsRestarts)
        decreases if passes == 0 then MAX_RANK + 1 else Rank()
      {
        var again;
        ghost var inner;
        again, inner := Pass(reason, now);
        passes := passes + 1;
        nested := nested + inner;
        if !again {
          return;
        }
        reason := Change;
      }
    }

    // ------------------------------------------------------------------ whole runs

    constructor (extender: bool, cares: bool, fatalThreshold: int, vtagThreshold: int, quiesce: Seconds)
      ensures Valid() && state == Init && reconnects == 0
    {
      this.extender, this.cares := extender, cares;
      this.fatalThreshold, this.vtagThreshold := fatalThreshold, vtagThreshold;
      state, dest, stateChanged, connected, isConStable := Init, ToRedirector, false, false, false;
      timestamp, quiesceTimeout, disconnects, reconnects := 0, quiesce, 0, 0;
      ovsRestarts, lastCheck := 0, false;
      redirector := Addr(false, false, false, NotStarted, NotStarted);
      manager := Addr(false, false, false, NotStarted, NotStarted);
      haveAwlan, haveManager, fastBackoff, fastReconnect := false, false, false, false;
      runStability, device := false, NoDevice;
      isUsed, kind, ipv4, ipv6, vtag := false, Unknown, Ip(false, false), Ip(false, false), Vtag(NotUsed, 0, 0, 0);
      ovsResolve, ovsResolveFail, ovsCon, gwOffline, skipRestart := 0, 0, 0, 0, 0;
    }

    /** Table callbacks, resolver callbacks and link events between two calls. */
    method Environment()
      modifies this`connected, this`redirector, this`manager, this`haveAwlan, this`haveManager,
               this`isUsed, this`kind, this`ipv4, this`ipv6, this`vtag, this`device
    {
      connected, redirector, manager, haveAwlan, haveManager := *, *, *, *, *;
      isUsed, kind, ipv4, ipv6, vtag, device := *, *, *, *, *, *;
    }

    /** Any run: updates for any reason at any time, fatal failures of the stability checks, and environment changes. */
    method Run(steps: nat)
      requires Valid()
      modifies this
      ensures Valid()
      ensures reconnects <= 5 && 2 * reconnects <= disconnects
    {
      for i := 0 to steps
        invariant Valid()
      {
        var reason: Reason, now: int, choice: int := *, *, *;
        if choice == 0 {
          Environment();
        } else if choice == 1 {
          var counter: int, limit: int, ble: bool, gw: GwAnswer, restarted: bool := *, *, *, *, *;
          ghost var nested;
          restarted, nested := HandleFatalState(now, counter, limit, ble, gw);
        } else {
          ghost var passes, nested := UpdateState(reason, now);
        }
      }
    }
  }
}
