/**
 The radio measurement report parser of bm_ieee80211.c: it walks the elements of an
 action frame and records a neighbor for each beacon report (sections 9.4.2.22 and
 9.4.2.22.7 of IEEE Std 802.11-2016).
 */
module MeasurementReport {
  import opened Elements

  const MEASURE_REPORT: Byte := 39
  const TYPE_BEACON: Byte := 5
  const HEADER := 5                // struct rrm_measurement_report_element, id and length bytes included
  const REPORT := 26               // struct rrm_measurement_beacon_report

  datatype Neighbor = Neighbor(bssid: seq<Byte>, channel: Byte, rcpi: Byte, rsni: Byte)

  /** The number of bytes walked: the payload length less one, kept in eight bits. */
  function Window(plen: nat): Byte {
    (plen - 1) % 256
  }

  /** The walk covers the payload behind the dialog token exactly up to 256 payload bytes. */
  lemma WindowExact(plen: nat)
    ensures Window(plen) == plen - 1 <==> 1 <= plen <= 256
  {
  }

  /** What can be read from the payload on: the payload itself, then whatever follows the frame. */
  type Memory = nat -> Byte

  /** The bytes that are walked: the window behind the dialog token. */
  function Walked(memory: Memory, plen: nat): (bytes: seq<Byte>)
    ensures |bytes| == Window(plen)
  {
    seq(Window(plen), i requires 0 <= i < Window(plen) as int => memory(1 + i))
  }

  predicate Agree(m: Memory, n: Memory, len: nat) {
    forall i :: 0 <= i < len ==> m(i) == n(i)
  }

  /**
   The walk stays inside the payload, so that its bytes alone decide what is walked, if
   and only if there is a payload. An empty one gives a window of 255 bytes.
   */
  lemma InsideExactly(plen: nat)
    ensures 1 + Window(plen) as int <= plen <==> plen >= 1
    ensures (forall m: Memory, n: Memory :: Agree(m, n, plen) ==> Walked(m, plen) == Walked(n, plen)) <==> plen >= 1
    ensures Window(0) == 255
  {
    if plen == 0 {
      var m: Memory, n: Memory := _ => 0, _ => 1;
      assert Walked(m, 0)[0] == 0 && Walked(n, 0)[0] == 1;
      assert Agree(m, n, 0) && Walked(m, 0) != Walked(n, 0);
    } else {
      forall m: Memory, n: Memory | Agree(m, n, plen)
        ensures Walked(m, plen) == Walked(n, plen)
      {
        forall i | 0 <= i < Window(plen) as int
          ensures Walked(m, plen)[i] == Walked(n, plen)[i]
        {
          assert m(1 + i) == n(1 + i);
        }
      }
    }
  }

  /** A measurement report below the first guard; it ends the walk. */
  predicate Short(e: Element) {
    e.id == MEASURE_REPORT && |e.data| < HEADER
  }

  /** A beacon report that passes both guards. */
  predicate Beacon(e: Element) {
    e.id == MEASURE_REPORT && |e.data| >= HEADER && e.data[2] == TYPE_BEACON && |e.data| >= HEADER + REPORT - 2
  }

  function Recorded(e: Element): Neighbor
    requires Beacon(e)
  {
    Neighbor(e.data[18..24], e.data[4], e.data[16], e.data[17])
  }

  /** What is recorded for a list: its beacon reports in order, up to the first short measurement report. */
  function Records(es: seq<Element>): seq<Neighbor> {
    if es == [] || Short(es[0]) then []
    else (if Beacon(es[0]) then [Recorded(es[0])] else []) + Records(es[1..])
  }

  /** The loop body for one element: the neighbor it records, if any, and whether it ends the walk. */
  method Handle(e: Element) returns (found: seq<Neighbor>, stop: bool)
    ensures stop <==> Short(e)
    ensures found == if Beacon(e) then [Recorded(e)] else []
  {
    found, stop := [], false;
    if e.id == MEASURE_REPORT {
      if |e.data| < HEADER {
        return [], true;
      }
      if e.data[2] == TYPE_BEACON && !(|e.data| < HEADER + REPORT - 2) {
        var body := e.data[3..];
        found := [Neighbor(body[15..21], body[1], body[13], body[14])];
        assert body[15..21] == e.data[18..24];
      }
    }
  }

  /** bm_action_frame_radio_measurement_report, for every payload length. */
  method RadioMeasurementReport(memory: Memory, plen: nat) returns (recorded: seq<Neighbor>)
    ensures recorded == Records(Visited(Walked(memory, plen)))
  {
    recorded := RecordReports(Walked(memory, plen));
  }

  /** Its loop over the bytes of the window. */
  method RecordReports(ies: seq<Byte>) returns (recorded: seq<Neighbor>)
    ensures recorded == Records(Visited(ies))
  {
    recorded := [];
    var at := 0;
    ghost var all := Records(Visited(ies));
    ghost var rest := all;
    assert ies[0..] == ies;
    while |ies| - at >= 2 && |ies| - at >= Span(ies[at + 1])
      invariant 0 <= at <= |ies|
      invariant rest == Records(Visited(ies[at..])) && all == recorded + rest
      decreases |ies| - at
    {
      var next := at + Span(ies[at + 1]);
      var e := Element(ies[at], ies[at + 2..next]);
      First(ies, at, next, e);
      var found, stop := Handle(e);
      if stop {
        return;
      }
      rest := Records(Visited(ies[next..]));
      Regroup(recorded, found, rest);
      recorded, at := recorded + found, next;
    }
    NothingLeft(ies[at..]);
  }

  lemma Regroup(p: seq<Neighbor>, q: seq<Neighbor>, r: seq<Neighbor>)
    ensures p + (q + r) == p + q + r
  {
  }

  lemma NothingLeft(bytes: seq<Byte>)
    requires !HasElement(bytes)
    ensures Records(Visited(bytes)) == []
  {
  }

  lemma First(ies: seq<Byte>, at: nat, next: nat, e: Element)
    requires at <= |ies| && HasElement(ies[at..]) && next == at + Span(ies[at + 1]) <= |ies|
             && e == Element(ies[at], ies[at + 2..next])
    ensures Records(Visited(ies[at..])) ==
            if Short(e) then [] else (if Beacon(e) then [Recorded(e)] else []) + Records(Visited(ies[next..]))
  {
    var bytes := ies[at..];
    StepOver(bytes);
    assert bytes[2..Span(bytes[1])] == ies[at + 2..next];
    assert bytes[Span(bytes[1])..] == ies[next..];
    assert Visited(bytes)[1..] == Visited(ies[next..]);
  }

  // ------------------------------------------------------------- beacon reports

  /** The fields of section 9.4.2.22.7 inside a measurement report element. */
  datatype BeaconReport = BeaconReport(
    token: Byte, mode: Byte, opClass: Byte, channel: Byte, start: seq<Byte>, duration: seq<Byte>, info: Byte,
    rcpi: Byte, rsni: Byte, bssid: seq<Byte>, antenna: Byte, parentTsf: seq<Byte>, subelements: seq<Byte>)

  predicate Proper(r: BeaconReport) {
    |r.start| == 8 && |r.duration| == 2 && |r.bssid| == 6 && |r.parentTsf| == 4
        && |r.subelements| <= 255 - (HEADER + REPORT - 2)
  }

  function Fixed(r: BeaconReport): (bytes: seq<Byte>)
    requires Proper(r)
    ensures |bytes| == REPORT && bytes[15..21] == r.bssid && bytes[1] == r.channel && bytes[13] == r.rcpi
            && bytes[14] == r.rsni
  {
    [r.opClass, r.channel] + r.start + r.duration + [r.info, r.rcpi, r.rsni] + r.bssid + [r.antenna] + r.parentTsf
  }

  function Pack(r: BeaconReport): (e: Element)
    requires Proper(r)
    ensures Beacon(e) && |e.data| < 256
  {
    Element(MEASURE_REPORT, [r.token, r.mode, TYPE_BEACON] + Fixed(r) + r.subelements)
  }

  lemma PackRecorded(r: BeaconReport)
    requires Proper(r)
    ensures Recorded(Pack(r)) == Neighbor(r.bssid, r.channel, r.rcpi, r.rsni)
  {
    var data := Pack(r).data;
    assert data[3..29] == Fixed(r);
    assert data[18..24] == data[3..29][15..21];
    assert data[4] == data[3..29][1] && data[16] == data[3..29][13] && data[17] == data[3..29][14];
  }

  /** The guard holds exactly when header and fixed report end inside the element. */
  lemma GuardExact(e: Element)
    requires |e.data| < 256 && e.id == MEASURE_REPORT && |e.data| >= HEADER && e.data[2] == TYPE_BEACON
    ensures Beacon(e) <==> HEADER + REPORT <= |EncodeOne(e)|
    ensures Beacon(e) <==> exists r :: Proper(r) && Pack(r) == e
  {
    if Beacon(e) {
      var d := e.data;
      var r := BeaconReport(d[0], d[1], d[3], d[4], d[5..13], d[13..15], d[15], d[16], d[17], d[18..24], d[24],
          d[25..29], d[29..]);
      assert [d[0], d[1], TYPE_BEACON] + Fixed(r) + d[29..] == d;
      assert Pack(r) == e;
    }
  }

  predicate AllProper(rs: seq<BeaconReport>) {
    forall i :: 0 <= i < |rs| ==> Proper(rs[i])
  }

  function PackAll(rs: seq<BeaconReport>): (es: seq<Element>)
    requires AllProper(rs)
    ensures Encodable(es) && AllBeacons(es)
  {
    if rs == [] then [] else [Pack(rs[0])] + PackAll(rs[1..])
  }

  function Neighbors(rs: seq<BeaconReport>): seq<Neighbor> {
    if rs == [] then [] else [Neighbor(rs[0].bssid, rs[0].channel, rs[0].rcpi, rs[0].rsni)] + Neighbors(rs[1..])
  }

  /** An element of another id, and a measurement report of another type, record nothing and hide nothing. */
  lemma OthersRecordNothing(e: Element, rest: seq<Element>)
    requires e.id != 39 || (|e.data| >= HEADER && e.data[2] != 5)
    ensures Records([e] + rest) == Records(rest)
  {
    assert ([e] + rest)[1..] == rest;
  }

  predicate AllBeacons(es: seq<Element>) {
    forall i :: 0 <= i < |es| ==> Beacon(es[i])
  }

  /** Only a short report has an effect beyond itself. */
  lemma {:induction false} RecordsCompose(es: seq<Element>, rest: seq<Element>)
    requires forall i :: 0 <= i < |es| ==> !Short(es[i])
    ensures Records(es + rest) == Records(es) + Records(rest)
  {
    if es == [] {
      assert es + rest == rest;
    } else {
      RecordsCompose(es[1..], rest);
      assert (es + rest)[1..] == es[1..] + rest;
      Regroup(if Beacon(es[0]) then [Recorded(es[0])] else [], Records(es[1..]), Records(rest));
    }
  }

  lemma {:induction false} PackAllRecorded(rs: seq<BeaconReport>)
    requires AllProper(rs)
    ensures Records(PackAll(rs)) == Neighbors(rs)
  {
    if rs != [] {
      PackRecorded(rs[0]);
      PackAllRecorded(rs[1..]);
      assert PackAll(rs)[1..] == PackAll(rs[1..]);
    }
  }

  /** The memory starts with the dialog token and then the given bytes. */
  predicate Starts(memory: Memory, bytes: seq<Byte>) {
    forall i :: 0 <= i < |bytes| ==> memory(1 + i) == bytes[i]
  }

  lemma WindowIs(memory: Memory, bytes: seq<Byte>)
    requires |bytes| < 256 && Starts(memory, bytes)
    ensures Walked(memory, 1 + |bytes|) == bytes
  {
    forall i | 0 <= i < |bytes|
      ensures Walked(memory, 1 + |bytes|)[i] == bytes[i]
    {
      assert memory(1 + i) == bytes[i];
    }
  }

  /**
   A frame of up to 256 payload bytes that carries beacon reports yields exactly their neighbors,
   whatever follows.
   */
  lemma FrameRoundTrip(rs: seq<BeaconReport>, memory: Memory)
    requires AllProper(rs) && Starts(memory, Encode(PackAll(rs))) && 1 + |Encode(PackAll(rs))| <= 256
    ensures Records(Visited(Walked(memory, 1 + |Encode(PackAll(rs))|))) == Neighbors(rs)
  {
    WindowIs(memory, Encode(PackAll(rs)));
    RoundTrip(PackAll(rs));
    PackAllRecorded(rs);
  }

  /** The first guard asks for two bytes more than the header needs: such a report also hides all that follow it. */
  lemma ShortReportHidesRest(rs: seq<BeaconReport>, short: Element, rest: seq<Element>)
    requires AllProper(rs) && short.id == MEASURE_REPORT && |short.data| < 256
             && HEADER <= |EncodeOne(short)| < HEADER + 2
    ensures Records(PackAll(rs) + [short] + rest) == Neighbors(rs)
  {
    PackAllRecorded(rs);
    RecordsCompose(PackAll(rs), [short] + rest);
    assert PackAll(rs) + [short] + rest == PackAll(rs) + ([short] + rest);
    assert Records([short] + rest) == [];
  }

  /** The neighbors of all beacon reports of a list, short reports or not. */
  function AllBeaconsOf(es: seq<Element>): seq<Neighbor> {
    if es == [] then [] else (if Beacon(es[0]) then [Recorded(es[0])] else []) + AllBeaconsOf(es[1..])
  }

  ghost predicate NoBeacon(es: seq<Element>) {
    forall i :: 0 <= i < |es| ==> !Beacon(es[i])
  }

  ghost predicate NoneAfterShort(es: seq<Element>) {
    forall i, j :: 0 <= i < j < |es| && Short(es[i]) ==> !Beacon(es[j])
  }

  lemma {:induction false} NoBeaconsExactly(es: seq<Element>)
    ensures AllBeaconsOf(es) == [] <==> NoBeacon(es)
  {
    if es != [] {
      NoBeaconsExactly(es[1..]);
      Split(es);
    }
  }

  lemma Split(es: seq<Element>)
    requires es != []
    ensures NoBeacon(es) <==> !Beacon(es[0]) && NoBeacon(es[1..])
    ensures NoneAfterShort(es) <==> (Short(es[0]) ==> NoBeacon(es[1..])) && NoneAfterShort(es[1..])
  {
    var rest := es[1..];
    assert forall i :: 0 < i < |es| ==> es[i] == rest[i - 1];
    assert forall i :: 0 <= i < |rest| ==> rest[i] == es[i + 1];
  }

  lemma SameTail(p: seq<Neighbor>, q: seq<Neighbor>, r: seq<Neighbor>)
    ensures p + q == p + r <==> q == r
  {
    if p + q == p + r {
      assert q == (p + q)[|p|..] == (p + r)[|p|..] == r;
    }
  }

  /** Every beacon report of a list is recorded if and only if none follows a short report. */
  lemma {:induction false} RecordsAllExactly(es: seq<Element>)
    ensures Records(es) == AllBeaconsOf(es) <==> NoneAfterShort(es)
  {
    if es != [] {
      Split(es);
      if Short(es[0]) {
        NoBeaconsExactly(es[1..]);
      } else {
        RecordsAllExactly(es[1..]);
        SameTail(if Beacon(es[0]) then [Recorded(es[0])] else [], Records(es[1..]), AllBeaconsOf(es[1..]));
      }
    }
  }
}
