/**
 The dual-stack blocking automaton of the stability checker (cm2_stability.c): a
 family that keeps failing on a dual-stack link is blocked, never both at once,
 and a blocked family comes back after a bounded number of checks.
 */
module DualStack {

  const BLOCKING_LINK_THRESHOLD := 3
  const UNBLOCKING_LINK_THRESHOLD := 100

  datatype Family = Family(isIp: bool, blocked: bool, router: int, internet: int)
  datatype Stack = Stack(v4: Family, v6: Family)

  /** The bits of target_connectivity_check_option_t that concern a family. */
  datatype Opts = Opts(router: bool, internet: bool, v4: bool, v6: bool)
  datatype Probe = Probe(router4: bool, router6: bool, internet4: bool, internet6: bool)

  // ---------------------------------------------------- the rule of one family

  /** A family without an address, or blocked without an alternative, starts afresh. */
  function Cleared(f: Family, otherIp: bool): Family {
    if !f.isIp || (f.blocked && !otherIp) then Family(f.isIp, false, 0, 0) else f
  }

  function Next(n: int): int {
    if n > 0 then n + 1 else n
  }

  function Aged(f: Family): Family {
    if f.blocked then f.(router := Next(f.router), internet := Next(f.internet)) else f
  }

  function Tally(n: int, checked: bool, ok: bool): int {
    if !checked then n else if ok then 0 else n + 1
  }

  /** Counting one probe, then blocking on reaching the threshold. */
  function Judged(f: Family, router: bool, routerOk: bool, internet: bool, internetOk: bool): Family {
    var r, i := Tally(f.router, router, routerOk), Tally(f.internet, internet, internetOk);
    Family(f.isIp, f.blocked || r == BLOCKING_LINK_THRESHOLD || i == BLOCKING_LINK_THRESHOLD, r, i)
  }

  function Released(f: Family): Family {
    if f.router == UNBLOCKING_LINK_THRESHOLD || f.internet == UNBLOCKING_LINK_THRESHOLD
        then Family(f.isIp, false, 0, 0) else f
  }

  function Judge4(s: Stack, o: Opts, p: Probe): Family {
    Judged(Aged(Cleared(s.v4, s.v6.isIp)), o.router && o.v4, p.router4, o.internet && o.v4, p.internet4)
  }

  function Judge6(s: Stack, o: Opts, p: Probe): Family {
    Judged(Aged(Cleared(s.v6, s.v4.isIp)), o.router && o.v6, p.router6, o.internet && o.v6, p.internet6)
  }

  /** The families evolve on their own, except that two blocked families unblock each other. */
  function Process(s: Stack, o: Opts, p: Probe): Stack {
    if !(s.v4.isIp && s.v6.isIp) then
      Stack(Cleared(s.v4, s.v6.isIp), Cleared(s.v6, s.v4.isIp))
    else
      var f4, f6 := Judge4(s, o, p), Judge6(s, o, p);
      var both := f4.blocked && f6.blocked;
      Stack(Released(f4.(blocked := f4.blocked && !both)), Released(f6.(blocked := f6.blocked && !both)))
  }

  /** cm2_util_add_ip_opts */
  function AddIpOpts(s: Stack, router: bool, internet: bool): Opts {
    Opts(router, internet, !s.v4.blocked && s.v4.isIp, !s.v6.blocked && s.v6.isIp)
  }

  /** The flag tests of cm2_validate_target_addr. */
  predicate Admitted(f: Family) {
    f.isIp && !f.blocked
  }

  // --------------------------------------------------------------- the automaton

  class StabilityChecker {
    var v4Ip: bool
    var v6Ip: bool
    var v4Blocked: bool
    var v6Blocked: bool
    var v4Router: int
    var v6Router: int
    var v4Internet: int
    var v6Internet: int

    function View(): Stack
      reads this
    {
      Stack(Family(v4Ip, v4Blocked, v4Router, v4Internet), Family(v6Ip, v6Blocked, v6Router, v6Internet))
    }

    /** The part that runs on every call, dual-stack or not. */
    method Prepare()
      modifies this
      ensures View().v4 == Aged(Cleared(old(View().v4), old(v6Ip)))
      ensures View().v6 == Aged(Cleared(old(View().v6), old(v4Ip)))
    {
      if !v4Ip || (v4Blocked && !v6Ip) {
        v4Router, v4Internet, v4Blocked := 0, 0, false;
      }
      if !v6Ip || (v6Blocked && !v4Ip) {
        v6Router, v6Internet, v6Blocked := 0, 0, false;
      }
      if v4Blocked {
        if v4Router > 0 { v4Router := v4Router + 1; }
        if v4Internet > 0 { v4Internet := v4Internet + 1; }
      }
      if v6Blocked {
        if v6Router > 0 { v6Router := v6Router + 1; }
        if v6Internet > 0 { v6Internet := v6Internet + 1; }
      }
    }

    method CountProbe(o: Opts, p: Probe)
      modifies this`v4Router, this`v6Router, this`v4Internet, this`v6Internet
      ensures v4Router == Tally(old(v4Router), o.router && o.v4, p.router4)
      ensures v6Router == Tally(old(v6Router), o.router && o.v6, p.router6)
      ensures v4Internet == Tally(old(v4Internet), o.internet && o.v4, p.internet4)
      ensures v6Internet == Tally(old(v6Internet), o.internet && o.v6, p.internet6)
    {
      if o.router && o.v4 { v4Router := if p.router4 then 0 else v4Router + 1; }
      if o.router && o.v6 { v6Router := if p.router6 then 0 else v6Router + 1; }
      if o.internet && o.v4 { v4Internet := if p.internet4 then 0 else v4Internet + 1; }
      if o.internet && o.v6 { v6Internet := if p.internet6 then 0 else v6Internet + 1; }
    }

    method BlockFailing()
      modifies this`v4Blocked, this`v6Blocked
      ensures var b4 := old(v4Blocked) || v4Router == BLOCKING_LINK_THRESHOLD || v4Internet == BLOCKING_LINK_THRESHOLD;
              var b6 := old(v6Blocked) || v6Router == BLOCKING_LINK_THRESHOLD || v6Internet == BLOCKING_LINK_THRESHOLD;
              v4Blocked == (b4 && !b6) && v6Blocked == (b6 && !b4)
    {
      if v4Router == BLOCKING_LINK_THRESHOLD || v4Internet == BLOCKING_LINK_THRESHOLD {
        v4Blocked := true;
      }
      if v6Router == BLOCKING_LINK_THRESHOLD || v6Internet == BLOCKING_LINK_THRESHOLD {
        v6Blocked := true;
      }
      if v4Blocked && v6Blocked {
        v4Blocked, v6Blocked := false, false;
      }
    }

    method ReleaseAged()
      modifies this`v4Blocked, this`v6Blocked, this`v4Router, this`v6Router, this`v4Internet, this`v6Internet
      ensures View() == Stack(Released(old(View()).v4), Released(old(View()).v6))
    {
      if v4Router == UNBLOCKING_LINK_THRESHOLD || v4Internet == UNBLOCKING_LINK_THRESHOLD {
        v4Router, v4Internet, v4Blocked := 0, 0, false;
      }
      if v6Router == UNBLOCKING_LINK_THRESHOLD || v6Internet == UNBLOCKING_LINK_THRESHOLD {
        v6Router, v6Internet, v6Blocked := 0, 0, false;
      }
    }

    /** cm2_util_update_connectivity_failures */
    method UpdateConnectivityFailures(o: Opts, p: Probe)
      modifies this
      ensures View() == Process(old(View()), o, p)
    {
      Prepare();
      if !(v4Ip && v6Ip) {
        return;
      }
      CountProbe(o, p);
      BlockFailing();
      ReleaseAged();
    }
  }

  // ------------------------------------------------------------------- safety

  predicate NeverBoth(s: Stack) {
    && !(s.v4.blocked && s.v6.blocked)
    && (s.v4.blocked || s.v6.blocked ==> s.v4.isIp && s.v6.isIp)
  }

  /** Whatever the state and the options before, the call establishes the safety condition. */
  lemma ProcessEstablishesSafety(s: Stack, o: Opts, p: Probe)
    ensures NeverBoth(Process(s, o, p))
  {
  }

  /** So after every call an addressed link is checked over, and may be connected over, some family. */
  lemma SomeFamilyUsable(s: Stack, o: Opts, p: Probe, router: bool, internet: bool)
    requires s.v4.isIp || s.v6.isIp
    ensures var t := Process(s, o, p);
            var n := AddIpOpts(t, router, internet);
            && (n.v4 || n.v6) && (n.v4 <==> Admitted(t.v4)) && (n.v6 <==> Admitted(t.v6))
            && n.router == router && n.internet == internet
  {
    ProcessEstablishesSafety(s, o, p);
    assert Process(s, o, p).v4.isIp == s.v4.isIp && Process(s, o, p).v6.isIp == s.v6.isIp;
  }

  /**
   Between calls an address may vanish: no family is usable exactly when the only addressed one is
   blocked, and one call cures it.
   */
  lemma LostAlternative(s: Stack, o: Opts, p: Probe)
    requires s.v4.isIp || s.v6.isIp
    requires !(s.v4.blocked && s.v6.blocked)
    ensures !Admitted(s.v4) && !Admitted(s.v6) <==> (s.v4.blocked && !s.v6.isIp) || (s.v6.blocked && !s.v4.isIp)
    ensures var t := Process(s, o, p); Admitted(t.v4) || Admitted(t.v6)
  {
    SomeFamilyUsable(s, o, p, o.router, o.internet);
  }

  // ----------------------------------------------------------- what is counted

  /** The two checks that are counted per family. */
  datatype Counted = RouterCheck | InternetCheck

  function Count(f: Family, k: Counted): int {
    match k case RouterCheck => f.router case InternetCheck => f.internet
  }

  predicate Checked(o: Opts, six: bool, k: Counted) {
    (if k == RouterCheck then o.router else o.internet) && (if six then o.v6 else o.v4)
  }

  predicate Answered(p: Probe, six: bool, k: Counted) {
    match k
    case RouterCheck => if six then p.router6 else p.router4
    case InternetCheck => if six then p.internet6 else p.internet4
  }

  /** The count of a check after a call: a blocked family ages, success clears, failure adds one. */
  function NewCount(s: Stack, o: Opts, p: Probe, six: bool, k: Counted): int {
    var f := FamilyOf(s, six);
    var n := if f.blocked && Count(f, k) > 0 then Count(f, k) + 1 else Count(f, k);
    if !Checked(o, six, k) then n else if Answered(p, six, k) then 0 else n + 1
  }

  predicate Reaches(s: Stack, o: Opts, p: Probe, six: bool, n: int) {
    NewCount(s, o, p, six, RouterCheck) == n || NewCount(s, o, p, six, InternetCheck) == n
  }

  /**
   One call on a dual-stack link, for either family, from any state. Its counts are the
   new counts unless one of them reaches 100, which clears both. It is blocked afterwards
   if and only if it was or a count reaches three, no count reaches 100, and the other
   family neither was blocked nor reaches three.
   */
  lemma CallCounts(s: Stack, o: Opts, p: Probe, six: bool, k: Counted)
    requires s.v4.isIp && s.v6.isIp
    ensures var g := FamilyOf(Process(s, o, p), six);
            && Count(g, k) == (if Reaches(s, o, p, six, UNBLOCKING_LINK_THRESHOLD) then 0
                else NewCount(s, o, p, six, k))
            && (g.blocked <==>
                  && (FamilyOf(s, six).blocked || Reaches(s, o, p, six, BLOCKING_LINK_THRESHOLD))
                  && !(FamilyOf(s, !six).blocked || Reaches(s, o, p, !six, BLOCKING_LINK_THRESHOLD))
                  && !Reaches(s, o, p, six, UNBLOCKING_LINK_THRESHOLD))
  {
  }

  /** A call with any addresses and any options. */
  datatype Call = Call(v4Ip: bool, v6Ip: bool, opts: Opts, probe: Probe)

  function Enter(s: Stack, c: Call): Stack {
    Stack(s.v4.(isIp := c.v4Ip), s.v6.(isIp := c.v6Ip))
  }

  function Runs(s: Stack, cs: seq<Call>): Stack {
    if cs == [] then s
    else
      var n := |cs| - 1;
      Process(Enter(Runs(s, cs[..n]), cs[n]), cs[n].opts, cs[n].probe)
  }

  predicate Probed(c: Call, six: bool, k: Counted) {
    c.v4Ip && c.v6Ip && Checked(c.opts, six, k)
  }

  /** The answers of the checks made of a family, in order. */
  function Answers(cs: seq<Call>, six: bool, k: Counted): seq<bool> {
    if cs == [] then []
    else
      var c := cs[|cs| - 1];
      Answers(cs[..|cs| - 1], six, k) + if Probed(c, six, k) then [Answered(c.probe, six, k)] else []
  }

  /** Failed checks, and calls that aged the count of a blocked family, since the count was last zero. */
  datatype Account = Account(fails: nat, aged: nat)

  function AccountOf(s: Stack, cs: seq<Call>, six: bool, k: Counted): Account {
    if cs == [] then Account(0, 0)
    else
      var front, c := cs[..|cs| - 1], cs[|cs| - 1];
      var a, f := AccountOf(s, front, six, k), FamilyOf(Runs(s, front), six);
      if Count(FamilyOf(Runs(s, cs), six), k) == 0 then Account(0, 0)
      else Account(a.fails + (if Probed(c, six, k) && !Answered(c.probe, six, k) then 1 else 0),
                   a.aged + (if c.v4Ip && c.v6Ip && f.blocked && Count(f, k) > 0 then 1 else 0))
  }

  predicate Zero(s: Stack) {
    && !s.v4.blocked && s.v4.router == 0 && s.v4.internet == 0
    && !s.v6.blocked && s.v6.router == 0 && s.v6.internet == 0
  }

  predicate LastFailed(answers: seq<bool>, n: nat) {
    n <= |answers| && forall i :: |answers| - n <= i < |answers| ==> !answers[i]
  }

  /**
   Over every run from zero, each count is the failures plus the ageings since it was zero, and those
   failures are the latest checks.
   */
  lemma {:induction false} CountsExactly(s: Stack, cs: seq<Call>, six: bool, k: Counted)
    requires Zero(s)
    ensures var a := AccountOf(s, cs, six, k);
            && Count(FamilyOf(Runs(s, cs), six), k) == a.fails + a.aged
            && LastFailed(Answers(cs, six, k), a.fails)
  {
    if cs != [] {
      var n := |cs| - 1;
      var c := cs[n];
      CountsExactly(s, cs[..n], six, k);
      CountStep(Runs(s, cs[..n]), c, six, k);
    }
  }

  lemma CountStep(s: Stack, c: Call, six: bool, k: Counted)
    requires Count(FamilyOf(s, six), k) >= 0
    ensures var f, g := FamilyOf(s, six), FamilyOf(Process(Enter(s, c), c.opts, c.probe), six);
            var dual := c.v4Ip && c.v6Ip;
            Count(g, k) == 0
            || (&& (Probed(c, six, k) ==> !Answered(c.probe, six, k))
                && Count(g, k) == Count(f, k) + (if Probed(c, six, k) then 1 else 0)
                                  + (if dual && f.blocked && Count(f, k) > 0 then 1 else 0))
  {
    if c.v4Ip && c.v6Ip {
      CallCounts(Enter(s, c), c.opts, c.probe, six, k);
    }
  }

  /** The family is blocked by the last call of the run. */
  predicate BecomesBlocked(s: Stack, cs: seq<Call>, six: bool) {
    cs != [] && !FamilyOf(Runs(s, cs[..|cs| - 1]), six).blocked && FamilyOf(Runs(s, cs), six).blocked
  }

  /**
   A run from zero blocks a family only when the failures and ageings of one check since
   its count was zero make three. If none of them is an ageing, the last three checks of
   that kind all failed.
   */
  lemma BlockedByThree(s: Stack, cs: seq<Call>, six: bool) returns (k: Counted)
    requires Zero(s) && BecomesBlocked(s, cs, six)
    ensures var a := AccountOf(s, cs, six, k);
            && a.fails + a.aged == BLOCKING_LINK_THRESHOLD
            && (a.aged == 0 <==> a.fails == BLOCKING_LINK_THRESHOLD)
            && (a.aged == 0 ==> LastFailed(Answers(cs, six, k), BLOCKING_LINK_THRESHOLD))
  {
    var t, c := Runs(s, cs[..|cs| - 1]), cs[|cs| - 1];
    BlockingCount(t, c, six);
    k := if Count(FamilyOf(Runs(s, cs), six), RouterCheck) == BLOCKING_LINK_THRESHOLD then RouterCheck
        else InternetCheck;
    CountsExactly(s, cs, six, k);
  }

  lemma BlockingCount(s: Stack, c: Call, six: bool)
    requires !FamilyOf(s, six).blocked && FamilyOf(Process(Enter(s, c), c.opts, c.probe), six).blocked
    ensures var g := FamilyOf(Process(Enter(s, c), c.opts, c.probe), six);
            g.router == BLOCKING_LINK_THRESHOLD || g.internet == BLOCKING_LINK_THRESHOLD
  {
  }

  /** A family that was released because both failed; until its counts are zero again they hold ageings. */
  predicate Lifted(s: Stack, cs: seq<Call>, six: bool) {
    exists j :: 0 < j <= |cs| && LiftedAt(s, cs, six, j)
  }

  predicate LiftedAt(s: Stack, cs: seq<Call>, six: bool, j: nat)
    requires 0 < j <= |cs|
  {
    && FamilyOf(Runs(s, cs[..j - 1]), six).blocked && !FamilyOf(Runs(s, cs[..j]), six).blocked
    && (FamilyOf(Runs(s, cs[..j]), six).router != 0 || FamilyOf(Runs(s, cs[..j]), six).internet != 0)
  }

  lemma {:induction false} UnblockedHasNoAge(s: Stack, cs: seq<Call>, six: bool, k: Counted)
    requires Zero(s) && !Lifted(s, cs, six) && !FamilyOf(Runs(s, cs), six).blocked
    ensures AccountOf(s, cs, six, k).aged == 0
  {
    if cs != [] {
      var n := |cs| - 1;
      var front := cs[..n];
      assert cs[..n + 1] == cs && !LiftedAt(s, cs, six, n + 1);
      forall j | 0 < j <= n ensures !LiftedAt(s, front, six, j) {
        assert !LiftedAt(s, cs, six, j) && front[..j - 1] == cs[..j - 1] && front[..j] == cs[..j];
      }
      if !FamilyOf(Runs(s, front), six).blocked {
        UnblockedHasNoAge(s, front, six, k);
      }
    }
  }

  /**
   So in a run in which the families never fail together, a family is blocked only after three failed
   checks of one kind in a row.
   */
  lemma BlockedByFailures(s: Stack, cs: seq<Call>, six: bool) returns (k: Counted)
    requires Zero(s) && BecomesBlocked(s, cs, six) && !Lifted(s, cs[..|cs| - 1], six)
    ensures LastFailed(Answers(cs, six, k), BLOCKING_LINK_THRESHOLD)
  {
    k := BlockedByThree(s, cs, six);
    UnblockedHasNoAge(s, cs[..|cs| - 1], six, k);
  }

  lemma Extend(s: Stack, cs: seq<Call>, c: Call)
    ensures Runs(s, cs + [c]) == Process(Enter(Runs(s, cs), c), c.opts, c.probe)
  {
    assert (cs + [c])[..|cs|] == cs;
  }

  /** A check over both families of a healthy stack, and one while IPv4 is blocked; always with fresh options. */
  function Both(router4: bool, internet4: bool, internet6: bool): Call {
    Call(true, true, Opts(true, true, true, true), Probe(router4, true, internet4, internet6))
  }

  function Only6(internet6: bool): Call {
    Call(true, true, Opts(true, true, false, true), Probe(true, true, true, internet6))
  }

  /**
   After both families failed together the counts keep what they aged: here IPv4 is
   blocked again by its second failed router check in a row, with the internet check
   answered.
   */
  lemma AgeBlocksTooEarly(s: Stack)
    requires Zero(s)
    ensures var cs := [Both(true, false, true), Both(true, false, false), Both(false, false, false), Only6(false),
                       Both(false, true, true)];
            && BecomesBlocked(s, cs, false)
            && !LastFailed(Answers(cs, false, RouterCheck), BLOCKING_LINK_THRESHOLD)
            && !LastFailed(Answers(cs, false, InternetCheck), BLOCKING_LINK_THRESHOLD)
  {
    var c0 := [Both(true, false, true)];
    var c1 := c0 + [Both(true, false, false)];
    var c2 := c1 + [Both(false, false, false)];
    var c3 := c2 + [Only6(false)];
    var c4 := c3 + [Both(false, true, true)];
    AgeBlocksRuns(s, c0, c1, c2, c3, c4);
    AgeBlocksAnswers(c0, c1, c2, c3, c4, RouterCheck);
    AgeBlocksAnswers(c0, c1, c2, c3, c4, InternetCheck);
    assert Answers(c4, false, RouterCheck)[1] && Answers(c4, false, InternetCheck)[3];
    assert c4[..4] == c3;
    assert c4 == [Both(true, false, true), Both(true, false, false), Both(false, false, false), Only6(false),
                  Both(false, true, true)];
  }

  lemma AgeBlocksRuns(s: Stack, c0: seq<Call>, c1: seq<Call>, c2: seq<Call>, c3: seq<Call>, c4: seq<Call>)
    requires Zero(s) && c0 == [Both(true, false, true)] && c1 == c0 + [Both(true, false, false)]
    requires c2 == c1 + [Both(false, false, false)] && c3 == c2 + [Only6(false)] && c4 == c3 + [Both(false, true, true)]
    ensures Runs(s, c3).v4 == Family(true, false, 2, 4) && Runs(s, c4).v4 == Family(true, true, 3, 0)
  {
    assert Runs(s, []) == s;
    Extend(s, [], Both(true, false, true));
    assert [] + [Both(true, false, true)] == c0;
    assert Runs(s, c0) == Stack(Family(true, false, 0, 1), Family(true, false, 0, 0));
    Extend(s, c0, Both(true, false, false));
    assert Runs(s, c1) == Stack(Family(true, false, 0, 2), Family(true, false, 0, 1));
    Extend(s, c1, Both(false, false, false));
    assert Runs(s, c2) == Stack(Family(true, true, 1, 3), Family(true, false, 0, 2));
    Extend(s, c2, Only6(false));
    assert Runs(s, c3) == Stack(Family(true, false, 2, 4), Family(true, false, 0, 3));
    Extend(s, c3, Both(false, true, true));
  }

  lemma OneAnswer(cs: seq<Call>, c: Call, k: Counted, before: seq<bool>, answer: bool)
    requires Answers(cs, false, k) == before && Probed(c, false, k) && Answered(c.probe, false, k) == answer
    ensures Answers(cs + [c], false, k) == before + [answer]
  {
    assert (cs + [c])[..|cs|] == cs;
  }

  lemma NoAnswer(cs: seq<Call>, c: Call, k: Counted)
    requires !Probed(c, false, k)
    ensures Answers(cs + [c], false, k) == Answers(cs, false, k)
  {
    assert (cs + [c])[..|cs|] == cs;
  }

  lemma AgeBlocksAnswers(c0: seq<Call>, c1: seq<Call>, c2: seq<Call>, c3: seq<Call>, c4: seq<Call>, k: Counted)
    requires c0 == [Both(true, false, true)] && c1 == c0 + [Both(true, false, false)]
    requires c2 == c1 + [Both(false, false, false)] && c3 == c2 + [Only6(false)] && c4 == c3 + [Both(false, true, true)]
    ensures Answers(c4, false, k) ==
            if k == RouterCheck then [true, true, false, false] else [false, false, false, true]
  {
    var r := k == RouterCheck;
    assert [] + [Both(true, false, true)] == c0;
    OneAnswer([], Both(true, false, true), k, [], r);
    OneAnswer(c0, Both(true, false, false), k, [r], r);
    OneAnswer(c1, Both(false, false, false), k, [r, r], false);
    NoAnswer(c2, Only6(false), k);
    OneAnswer(c3, Both(false, true, true), k, [r, r, false], !r);
  }

  // ----------------------------------------------------------------- recovery

  function Worst(f: Family): int {
    if f.router > f.internet then f.router else f.internet
  }

  predicate InRange(f: Family) {
    && 0 <= f.router < UNBLOCKING_LINK_THRESHOLD
    && 0 <= f.internet < UNBLOCKING_LINK_THRESHOLD
    && (f.blocked ==> Worst(f) >= BLOCKING_LINK_THRESHOLD)
  }

  predicate Regular(s: Stack) {
    NeverBoth(s) && InRange(s.v4) && InRange(s.v6)
  }

  /** What the environment supplies for one call: addresses, which checks are wanted, and the probe's result. */
  datatype Check = Check(v4Ip: bool, v6Ip: bool, router: bool, internet: bool, probe: Probe)

  function Readdressed(s: Stack, c: Check): Stack {
    Stack(s.v4.(isIp := c.v4Ip), s.v6.(isIp := c.v6Ip))
  }

  /** A call whose options are computed from the state at that call. */
  function FreshCall(s: Stack, c: Check): Stack {
    var r := Readdressed(s, c);
    Process(r, AddIpOpts(r, c.router, c.internet), c.probe)
  }

  function Calls(s: Stack, cs: seq<Check>): Stack {
    if cs == [] then s else FreshCall(Calls(s, cs[..|cs| - 1]), cs[|cs| - 1])
  }

  /** A blocked family is not probed, so a counter moves by at most one and cannot step over the threshold. */
  lemma FreshCallKeepsRange(s: Stack, c: Check)
    requires Regular(s)
    ensures Regular(FreshCall(s, c))
  {
    var r := Readdressed(s, c);
    var o := AddIpOpts(r, c.router, c.internet);
    ProcessEstablishesSafety(r, o, c.probe);
    if c.v4Ip && c.v6Ip {
      JudgedInRange(r.v4, o.router && o.v4, c.probe.router4, o.internet && o.v4, c.probe.internet4);
      JudgedInRange(r.v6, o.router && o.v6, c.probe.router6, o.internet && o.v6, c.probe.internet6);
    }
  }

  lemma JudgedInRange(f: Family, router: bool, routerOk: bool, internet: bool, internetOk: bool)
    requires InRange(f)
    requires f.blocked ==> !router && !internet
    ensures var g := Judged(Aged(f), router, routerOk, internet, internetOk);
            && InRange(Released(g)) && InRange(Released(g.(blocked := false)))
            && (f.blocked ==> g.blocked && Worst(g) == Worst(f) + 1)
  {
  }

  /** Over every run each counter stays below the threshold after every call. */
  lemma {:induction false} RunKeepsRange(s: Stack, cs: seq<Check>)
    requires Regular(s)
    ensures Regular(Calls(s, cs))
  {
    if cs != [] {
      RunKeepsRange(s, cs[..|cs| - 1]);
      FreshCallKeepsRange(Calls(s, cs[..|cs| - 1]), cs[|cs| - 1]);
    }
  }

  predicate DualStackAll(cs: seq<Check>) {
    forall k :: 0 <= k < |cs| ==> cs[k].v4Ip && cs[k].v6Ip
  }

  function FamilyOf(s: Stack, six: bool): Family {
    if six then s.v6 else s.v4
  }

  /** The probe of this call brings both families to the blocking threshold. */
  predicate BothFail(s: Stack, c: Check) {
    var r := Readdressed(s, c);
    var o := AddIpOpts(r, c.router, c.internet);
    Judge4(r, o, c.probe).blocked && Judge6(r, o, c.probe).blocked
  }

  /**
   On a dual-stack link a blocked family ages by one per call, and is released exactly at the
   threshold or when the other one fails too.
   */
  lemma BlockedAges(s: Stack, c: Check, six: bool)
    requires Regular(s) && c.v4Ip && c.v6Ip && FamilyOf(s, six).blocked
    ensures var f, g := FamilyOf(s, six), FamilyOf(FreshCall(s, c), six);
            && (!g.blocked <==> Worst(f) == UNBLOCKING_LINK_THRESHOLD - 1 || BothFail(s, c))
            && (g.blocked ==> Worst(g) == Worst(f) + 1)
  {
    var r := Readdressed(s, c);
    var o := AddIpOpts(r, c.router, c.internet);
    JudgedInRange(r.v4, o.router && o.v4, c.probe.router4, o.internet && o.v4, c.probe.internet4);
    JudgedInRange(r.v6, o.router && o.v6, c.probe.router6, o.internet && o.v6, c.probe.internet6);
  }

  lemma {:induction false} StillBlockedMeansAged(s: Stack, cs: seq<Check>, six: bool)
    requires Regular(s) && DualStackAll(cs)
    requires forall k :: 0 <= k <= |cs| ==> FamilyOf(Calls(s, cs[..k]), six).blocked
    ensures Worst(FamilyOf(Calls(s, cs), six)) == Worst(FamilyOf(s, six)) + |cs|
    ensures Worst(FamilyOf(s, six)) + |cs| < UNBLOCKING_LINK_THRESHOLD
  {
    assert cs[..|cs|] == cs;
    if cs == [] {
    } else {
      var front := cs[..|cs| - 1];
      forall k | 0 <= k <= |front| ensures FamilyOf(Calls(s, front[..k]), six).blocked {
        assert front[..k] == cs[..k];
      }
      StillBlockedMeansAged(s, front, six);
      RunKeepsRange(s, front);
      assert front[..|front|] == front;
      BlockedAges(Calls(s, front), cs[|cs| - 1], six);
    }
  }

  /** A blocked family on a link that stays dual-stack is unblocked within 97 further calls. */
  lemma BlockedFamilyRecovers(s: Stack, cs: seq<Check>, six: bool) returns (k: nat)
    requires Regular(s) && FamilyOf(s, six).blocked
    requires DualStackAll(cs) && |cs| >= UNBLOCKING_LINK_THRESHOLD - BLOCKING_LINK_THRESHOLD
    ensures k <= UNBLOCKING_LINK_THRESHOLD - BLOCKING_LINK_THRESHOLD
    ensures !FamilyOf(Calls(s, cs[..k]), six).blocked
  {
    var n := UNBLOCKING_LINK_THRESHOLD - BLOCKING_LINK_THRESHOLD;
    if k0: nat :| k0 <= n && !FamilyOf(Calls(s, cs[..k0]), six).blocked {
      return k0;
    }
    var head := cs[..n];
    forall k | 0 <= k <= |head| ensures FamilyOf(Calls(s, head[..k]), six).blocked {
      assert head[..k] == cs[..k];
    }
    StillBlockedMeansAged(s, head, six);
    assert false;
  }

  // --------------------------------------- options that are older than the state

  /** A repeated check reuses old options and may probe a blocked family, which then moves by two. */
  predicate StepsOver(n: int, checked: bool, ok: bool) {
    checked && !ok && n == UNBLOCKING_LINK_THRESHOLD - 1
  }

  predicate Hits(n: int, checked: bool, ok: bool) {
    Tally(Next(n), checked, ok) == UNBLOCKING_LINK_THRESHOLD
  }

  /**
   With arbitrary options a blocked family leaves the range exactly when a counter steps over and
   none hits the threshold.
   */
  lemma LeavesRangeExactly(f: Family, router: bool, routerOk: bool, internet: bool, internetOk: bool)
    requires InRange(f) && f.blocked
    ensures var g := Released(Judged(Aged(f), router, routerOk, internet, internetOk));
            (0 <= g.router < UNBLOCKING_LINK_THRESHOLD && 0 <= g.internet < UNBLOCKING_LINK_THRESHOLD)
            <==> !((StepsOver(f.router, router, routerOk) || StepsOver(f.internet, internet, internetOk))
                   && !Hits(f.router, router, routerOk) && !Hits(f.internet, internet, internetOk))
  {
  }

  /** The counters that age can still bring to the threshold. */
  predicate Curable(f: Family) {
    0 < f.router < UNBLOCKING_LINK_THRESHOLD || 0 < f.internet < UNBLOCKING_LINK_THRESHOLD
  }

  predicate BlockedAfter(s: Stack, cs: seq<Check>, six: bool, k: nat)
    requires k <= |cs|
  {
    FamilyOf(Calls(s, cs[..k]), six).blocked
  }

  predicate BothFailAt(s: Stack, cs: seq<Check>, k: nat)
    requires k < |cs|
  {
    BothFail(Calls(s, cs[..k]), cs[k])
  }

  /** From any counters: a blocked family only ages, until it is released or both families fail. */
  lemma BlockedStep(s: Stack, c: Check, six: bool)
    requires NeverBoth(s) && c.v4Ip && c.v6Ip && FamilyOf(s, six).blocked
    ensures NeverBoth(FreshCall(s, c))
    ensures var g := FamilyOf(FreshCall(s, c), six);
            if BothFail(s, c) then !g.blocked else g == Released(Aged(FamilyOf(s, six)))
  {
    var r := Readdressed(s, c);
    var o := AddIpOpts(r, c.router, c.internet);
    ProcessEstablishesSafety(r, o, c.probe);
    assert if six then Judge6(r, o, c.probe) == Aged(s.v6) else Judge4(r, o, c.probe) == Aged(s.v4);
  }

  /**
   As long as it stays blocked, every counter that started moves by one per call and stays on its
   side of the threshold.
   */
  lemma {:induction false} BlockedRun(s: Stack, cs: seq<Check>, six: bool)
    requires NeverBoth(s) && DualStackAll(cs)
    requires forall k :: 0 <= k <= |cs| ==> BlockedAfter(s, cs, six, k)
    ensures var f, g := FamilyOf(s, six), FamilyOf(Calls(s, cs), six);
            && NeverBoth(Calls(s, cs)) && g.blocked
            && g.router == (if f.router > 0 then f.router + |cs| else f.router)
            && g.internet == (if f.internet > 0 then f.internet + |cs| else f.internet)
            && (Curable(f) ==> Curable(g))
  {
    assert BlockedAfter(s, cs, six, |cs|) && cs[..|cs|] == cs;
    if cs == [] {
      assert Calls(s, cs) == s;
    } else {
      var n := |cs| - 1;
      var front := cs[..n];
      forall k | 0 <= k <= n ensures BlockedAfter(s, front, six, k) {
        assert BlockedAfter(s, cs, six, k) && front[..k] == cs[..k];
      }
      BlockedRun(s, front, six);
      BlockedStep(Calls(s, front), cs[n], six);
    }
  }

  /** Beyond the reach of age only the failure of both families releases. */
  lemma {:induction false} StaysBlocked(s: Stack, cs: seq<Check>, six: bool)
    requires NeverBoth(s) && FamilyOf(s, six).blocked && !Curable(FamilyOf(s, six)) && DualStackAll(cs)
    requires forall k :: 0 <= k < |cs| ==> !BothFailAt(s, cs, k)
    ensures NeverBoth(Calls(s, cs)) && FamilyOf(Calls(s, cs), six).blocked && !Curable(FamilyOf(Calls(s, cs), six))
  {
    if cs == [] {
      assert Calls(s, cs) == s;
    } else {
      var n := |cs| - 1;
      var front := cs[..n];
      forall k | 0 <= k < n ensures !BothFailAt(s, front, k) {
        assert !BothFailAt(s, cs, k) && front[..k] == cs[..k];
      }
      StaysBlocked(s, front, six);
      assert !BothFailAt(s, cs, n);
      BlockedStep(Calls(s, front), cs[n], six);
    }
  }

  /**
   Recovery from any state, exactly: on a link that stays dual-stack and is checked with
   fresh options, a blocked family is released within any run of at least 99 calls if
   and only if a counter is between the ends of its range or both families fail together.
   */
  lemma RecoversExactly(s: Stack, cs: seq<Check>, six: bool)
    requires NeverBoth(s) && FamilyOf(s, six).blocked
    requires DualStackAll(cs) && |cs| >= UNBLOCKING_LINK_THRESHOLD - 1
    ensures (exists k :: 0 <= k <= |cs| && !BlockedAfter(s, cs, six, k)) <==>
            Curable(FamilyOf(s, six)) || exists k :: 0 <= k < |cs| && BothFailAt(s, cs, k)
  {
    if forall k :: 0 <= k <= |cs| ==> BlockedAfter(s, cs, six, k) {
      BlockedRun(s, cs, six);
      forall k | 0 <= k < |cs| ensures !BothFailAt(s, cs, k) {
        assert BlockedAfter(s, cs, six, k + 1) && BlockedAfter(s, cs, six, k);
        ReleasedByBoth(s, cs, six, k);
      }
    } else if !Curable(FamilyOf(s, six)) && forall k :: 0 <= k < |cs| ==> !BothFailAt(s, cs, k) {
      forall k | 0 <= k <= |cs| ensures BlockedAfter(s, cs, six, k) {
        var front := cs[..k];
        forall j | 0 <= j < k ensures !BothFailAt(s, front, j) {
          assert !BothFailAt(s, cs, j) && front[..j] == cs[..j];
        }
        StaysBlocked(s, front, six);
      }
    }
  }

  lemma {:induction false} CallsKeepSafety(s: Stack, cs: seq<Check>)
    requires NeverBoth(s)
    ensures NeverBoth(Calls(s, cs))
  {
    if cs != [] {
      var t, c := Calls(s, cs[..|cs| - 1]), cs[|cs| - 1];
      var r := Readdressed(t, c);
      ProcessEstablishesSafety(r, AddIpOpts(r, c.router, c.internet), c.probe);
    }
  }

  lemma ReleasedByBoth(s: Stack, cs: seq<Check>, six: bool, k: nat)
    requires NeverBoth(s) && DualStackAll(cs) && k < |cs| && BlockedAfter(s, cs, six, k)
    ensures BothFailAt(s, cs, k) ==> !BlockedAfter(s, cs, six, k + 1)
  {
    CallsKeepSafety(s, cs[..k]);
    BlockedStep(Calls(s, cs[..k]), cs[k], six);
    var next := cs[..k + 1];
    assert next[..|next| - 1] == cs[..k];
  }

  /** The repeated check: it runs with the options of its request until it succeeds. */
  function Repeated(s: Stack, o: Opts, p: Probe, n: nat): Stack {
    if n == 0 then s else Process(Repeated(s, o, p, n - 1), o, p)
  }

  /** IPv4 after n failing runs: blocked at the third, and from then on its counters move by two. */
  function Overrunning(routerOk: bool, n: nat): Stack {
    var count := if n <= BLOCKING_LINK_THRESHOLD then n else 2 * n - BLOCKING_LINK_THRESHOLD;
    Stack(Family(true, n >= BLOCKING_LINK_THRESHOLD, if routerOk then 0 else count, count), Family(true, false, 0, 0))
  }

  lemma OverrunningStep(routerOk: bool, n: nat)
    ensures Process(Overrunning(routerOk, n), Opts(true, true, true, true), Probe(routerOk, true, false, true))
            == Overrunning(routerOk, n + 1)
  {
    if n < BLOCKING_LINK_THRESHOLD {
      assert Aged(Overrunning(routerOk, n).v4) == Overrunning(routerOk, n).v4;
    } else {
      assert Next(2 * n - BLOCKING_LINK_THRESHOLD) == 2 * n - 2;
    }
  }

  /**
   The repeated check asks for router and internet over the families usable when it was
   requested. Requested on a healthy link, with IPv4 internet failing from then on, it
   blocks IPv4 at the third run and then counts by two: 3, 5, ..., 99, 101. No run
   releases the family, and after 52 runs age cannot release it any more.
   */
  lemma {:induction false} RepeatedCheckOverruns(routerOk: bool, n: nat)
    ensures var healthy := Stack(Family(true, false, 0, 0), Family(true, false, 0, 0));
            var t := Repeated(healthy, AddIpOpts(healthy, true, true), Probe(routerOk, true, false, true), n);
            && t == Overrunning(routerOk, n) && NeverBoth(t)
            && (n >= BLOCKING_LINK_THRESHOLD ==> t.v4.blocked)
            && (n >= 52 ==> !Curable(t.v4))
  {
    if n > 0 {
      RepeatedCheckOverruns(routerOk, n - 1);
      OverrunningStep(routerOk, n - 1);
    }
  }
}
