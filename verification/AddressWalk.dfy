/**
 The walk over the resolved addresses of a controller (cm2_resolve_ares.c and
 cm2_resolve_sync.c): the first write on entering TRY_CONNECT, one more per timeout.
 */
module AddressWalk {
  import opened Common

  datatype Family = Inet | Inet6 | OtherFamily
  datatype Target = Target(family: Family, address: nat)

  /** A resolved list keeps the type the resolver reported for it; `Missing` is the null pointer. */
  datatype AddrList = Missing | Listed(kind: Family, addresses: seq<nat>)

  function Targets(kind: Family, addresses: seq<nat>): seq<Target> {
    seq(|addresses|, i requires 0 <= i < |addresses| => Target(kind, addresses[i]))
  }

  // ------------------------------------------------------------ the c-ares walk

  class AresAddress {
    var v6: AddrList
    var v4: AddrList
    var idx6: nat
    var idx4: nat
    var ipv6Cur: bool

    // link.ipv6 and link.ipv4: has an address and is not blocked
    var usable6: bool
    var usable4: bool

    /** The indices point at an address or at the terminating null pointer. */
    ghost predicate InRange()
      reads this
    {
      && (v6.Listed? ==> idx6 <= |v6.addresses|)
      && (v4.Listed? ==> idx4 <= |v4.addresses|)
    }

    /** What one family still has to offer. */
    static function Rest(list: AddrList, idx: nat, usable: bool, kind: Family): seq<Target> {
      if usable && list.Listed? && list.kind == kind && idx <= |list.addresses|
          then Targets(kind, list.addresses[idx..]) else []
    }

    /** The addresses still to be visited: all of IPv6, then all of IPv4. */
    ghost function Remaining(): seq<Target>
      reads this
    {
      Rest(v6, idx6, usable6, Inet6) + Rest(v4, idx4, usable4, Inet)
    }

    /** The last write used the first remaining address. */
    ghost predicate AtHead()
      reads this
    {
      InRange() && Remaining() != [] && (ipv6Cur <==> Remaining()[0].family == Inet6)
    }

    /** cm2_validate_target_addr */
    static predicate Validate(list: AddrList, idx: nat, usable: bool, kind: Family)
      requires list.Listed? ==> idx <= |list.addresses|
    {
      usable && list.Listed? && idx < |list.addresses| && list.kind == kind
    }

    /** cm2_write_target_addr, with the conversion and the table update succeeding. */
    method WriteTarget() returns (target: Option<Target>)
      requires InRange()
      modifies this`ipv6Cur
      ensures Remaining() == old(Remaining())
      ensures target == if Remaining() == [] then None else Some(Remaining()[0])
      ensures target.Some? ==> AtHead()
    {
      if Validate(v6, idx6, usable6, Inet6) {
        ipv6Cur := true;
        return Some(Target(Inet6, v6.addresses[idx6]));
      }
      if Validate(v4, idx4, usable4, Inet) {
        ipv6Cur := false;
        return Some(Target(Inet, v4.addresses[idx4]));
      }
      return None;
    }

    method WriteCurrent() returns (target: Option<Target>)
      requires InRange()
      modifies this`ipv6Cur
      ensures Remaining() == old(Remaining())
      ensures target == if Remaining() == [] then None else Some(Remaining()[0])
      ensures target.Some? ==> AtHead()
    {
      target := WriteTarget();
    }

    /** One step drops the address that was in use; the indices stay in range. */
    method WriteNext() returns (target: Option<Target>)
      requires AtHead()
      modifies this`ipv6Cur, this`idx6, this`idx4
      ensures InRange()
      ensures Remaining() == old(Remaining())[1..]
      ensures target == if Remaining() == [] then None else Some(Remaining()[0])
      ensures target.Some? ==> AtHead()
    {
      ghost var r6, r4 := Rest(v6, idx6, usable6, Inet6), Rest(v4, idx4, usable4, Inet);
      if ipv6Cur {
        DropFirst(v6, idx6, usable6, Inet6);
        assert (r6 + r4)[1..] == r6[1..] + r4;
        idx6 := idx6 + 1;
      } else {
        DropFirst(v4, idx4, usable4, Inet);
        assert (r6 + r4)[1..] == r4[1..];
        idx4 := idx4 + 1;
      }
      target := WriteTarget();
    }

    static lemma DropFirst(list: AddrList, idx: nat, usable: bool, kind: Family)
      requires Rest(list, idx, usable, kind) != []
      ensures idx < |list.addresses|
      ensures Rest(list, idx + 1, usable, kind) == Rest(list, idx, usable, kind)[1..]
    {
      assert list.addresses[idx..][1..] == list.addresses[idx + 1..];
    }

    /** Write the current address, then the next one after every timeout, until none is left. */
    method Walk() returns (visited: seq<Target>)
      requires InRange()
      modifies this`ipv6Cur, this`idx6, this`idx4
      ensures visited == old(Remaining())
      ensures InRange()
    {
      visited := [];
      var target := WriteCurrent();
      ghost var all, rest := Remaining(), Remaining();
      while target.Some?
        invariant InRange() && rest == Remaining() && visited + rest == all
        invariant target == if rest == [] then None else Some(rest[0])
        invariant target.Some? ==> AtHead()
        decreases |rest|
      {
        Shift(visited, rest);
        visited := visited + [target.value];
        rest := rest[1..];
        target := WriteNext();
      }
    }

    static lemma Shift(done: seq<Target>, rest: seq<Target>)
      requires rest != []
      ensures done + rest == done + [rest[0]] + rest[1..]
    {
    }

    /**
     After a resolution both indices are zero and the walk visits each list completely. A
     family that is blocked or has no address, and a missing list, contribute nothing.
     */
    method WalkFresh() returns (visited: seq<Target>)
      requires idx6 == 0 && idx4 == 0
      modifies this`ipv6Cur, this`idx6, this`idx4
      ensures visited == (if usable6 && v6.Listed? && v6.kind == Inet6 then Targets(Inet6, v6.addresses) else [])
                         + (if usable4 && v4.Listed? && v4.kind == Inet then Targets(Inet, v4.addresses) else [])
    {
      assert v6.Listed? ==> v6.addresses[0..] == v6.addresses;
      assert v4.Listed? ==> v4.addresses[0..] == v4.addresses;
      visited := Walk();
    }
  }

  // -------------------------------------------------------- the synchronous walk

  predicate IpTarget(t: Target) {
    t.family == Inet || t.family == Inet6
  }

  /** The usable entries of a resolver list, in order. */
  function IpTargets(list: seq<Target>): seq<Target> {
    if list == [] then [] else (if IpTarget(list[0]) then [list[0]] else []) + IpTargets(list[1..])
  }

  lemma {:induction false} IpTargetsSkip(list: seq<Target>, n: nat)
    requires n <= |list|
    requires forall i :: 0 <= i < n ==> !IpTarget(list[i])
    ensures IpTargets(list) == IpTargets(list[n..])
  {
    if n == 0 {
      assert list[0..] == list;
    } else {
      IpTargetsSkip(list[1..], n - 1);
      assert list[1..][n - 1..] == list[n..];
    }
  }

  class SyncAddress {
    const list: seq<Target>      // ai_list
    var curr: Option<nat>        // ai_curr, as a position in the list

    ghost predicate Valid()
      reads this
    {
      curr.Some? ==> curr.value < |list| && IpTarget(list[curr.value])
    }

    function After(): (i: nat)
      requires curr.Some? ==> curr.value < |list|
      reads this
      ensures i <= |list|
    {
      if curr.Some? then curr.value + 1 else 0
    }

    /** cm2_get_next_addrinfo */
    method GetNext() returns (next: Option<nat>)
      requires Valid()
      modifies this
      ensures Valid()
      ensures next.None? ==> curr == old(curr) && IpTargets(list[old(After())..]) == []
      ensures next.Some? ==> curr == next && old(After()) <= next.value < |list|
                             && IpTargets(list[old(After())..])
                                 == [list[next.value]] + IpTargets(list[next.value + 1..])
    {
      var start := After();
      var ai := start;
      while ai < |list| && !IpTarget(list[ai])
        invariant start <= ai <= |list|
        invariant forall i :: start <= i < ai ==> !IpTarget(list[i])
      {
        ai := ai + 1;
      }
      IpTargetsSkip(list[start..], ai - start);
      assert list[start..][ai - start..] == list[ai..];
      if ai == |list| {
        return None;
      }
      assert list[ai..][1..] == list[ai + 1..];
      curr := Some(ai);
      return curr;
    }

    /** cm2_write_current_target_addr followed by cm2_write_next_target_addr until it fails. */
    method Walk() returns (visited: seq<Target>)
      requires Valid()
      modifies this
      ensures visited == old(if curr.Some? then [list[curr.value]] else []) + old(IpTargets(list[After()..]))
    {
      visited := [];
      var next := curr;
      if next.None? {
        next := GetNext();
      }
      while next.Some?
        invariant Valid() && (next.Some? ==> next == curr)
        invariant visited + (if next.Some? then [list[next.value]] + IpTargets(list[next.value + 1..]) else [])
                  == old(if curr.Some? then [list[curr.value]] else []) + old(IpTargets(list[After()..]))
        decreases |list| - (if next.Some? then next.value else |list|)
      {
        visited := visited + [list[next.value]];
        next := GetNext();
      }
    }
  }
}
