/**
 The RSSI crossing detector of bm_client.c. The code is lazy: it remembers the sample at
 the last crossing instead of the previous sample, and treats a remembered zero as
 "not known yet".
 */
module Crossing {
  import opened Common

  type Snr = n: nat | n < 256

  datatype Change = Unchanged | Lower | Higher
  datatype Report = Report(rssi: Snr, low: Change, high: Change)

  /** bm_client_recalc_rssi_change */
  function Side(snr: Snr, watermark: Snr): Change {
    if snr < watermark then Lower else Higher
  }

  function Moved(from: Snr, to: Snr, watermark: Snr): Change {
    if Side(from, watermark) == Side(to, watermark) then Unchanged else Side(to, watermark)
  }

  predicate Crosses(from: Snr, to: Snr, lwm: Snr, hwm: Snr) {
    Moved(from, to, lwm) != Unchanged || Moved(from, to, hwm) != Unchanged
  }

  /** The simple detector: every sample against its immediate predecessor. */
  function Naive(prev: Snr, samples: seq<Snr>, lwm: Snr, hwm: Snr): (stream: seq<Option<Report>>)
    ensures |stream| == |samples|
    decreases samples
  {
    if samples == [] then []
    else
      var s := samples[0];
      [if Crosses(prev, s, lwm, hwm) then Some(Report(s, Moved(prev, s, lwm), Moved(prev, s, hwm))) else None]
      + Naive(s, samples[1..], lwm, hwm)
  }

  /** Blank out the report that follows one made on a zero sample; `known` when the start is not such a place. */
  function Mask(stream: seq<Option<Report>>, known: bool): (masked: seq<Option<Report>>)
    ensures |masked| == |stream|
  {
    if stream == [] then []
    else match stream[0]
      case None => [None] + Mask(stream[1..], known)
      case Some(r) => [Some(if known then r else Report(r.rssi, Unchanged, Unchanged))] + Mask(stream[1..], r.rssi != 0)
  }

  /** Samples on the same sides of both watermarks are interchangeable predecessors. */
  lemma SameSides(p: Snr, q: Snr, samples: seq<Snr>, lwm: Snr, hwm: Snr)
    requires !Crosses(p, q, lwm, hwm)
    ensures Naive(p, samples, lwm, hwm) == Naive(q, samples, lwm, hwm)
  {
  }

  /** One sample peeled off the front, seen from a memory that is only as fresh as the last crossing. */
  lemma Peel(prev: Snr, samples: seq<Snr>, i: nat, lwm: Snr, hwm: Snr)
    requires i < |samples|
    ensures var next := if Crosses(prev, samples[i], lwm, hwm) then samples[i] else prev;
            Mask(Naive(prev, samples[i..], lwm, hwm), prev != 0)
            == Mask(Naive(prev, [samples[i]], lwm, hwm), prev != 0)
               + Mask(Naive(next, samples[i + 1..], lwm, hwm), next != 0)
  {
    var s, rest := samples[i], samples[i..];
    assert rest[1..] == samples[i + 1..];
    var stream := Naive(prev, rest, lwm, hwm);
    assert stream[1..] == Naive(s, samples[i + 1..], lwm, hwm);
    assert Naive(prev, [s], lwm, hwm) == [stream[0]];
    if !Crosses(prev, s, lwm, hwm) {
      SameSides(prev, s, samples[i + 1..], lwm, hwm);
    }
  }

  // -------------------------------------------------------------- refinement

  function Before(prev: Snr, samples: seq<Snr>, i: nat): Snr
    requires i < |samples|
  {
    if i == 0 then prev else samples[i - 1]
  }

  predicate CrossesAt(prev: Snr, samples: seq<Snr>, i: nat, lwm: Snr, hwm: Snr)
    requires i < |samples|
  {
    Crosses(Before(prev, samples, i), samples[i], lwm, hwm)
  }

  lemma {:induction false} NaiveAt(prev: Snr, samples: seq<Snr>, i: nat, lwm: Snr, hwm: Snr)
    requires i < |samples|
    ensures var b, s := Before(prev, samples, i), samples[i];
            Naive(prev, samples, lwm, hwm)[i]
            == if CrossesAt(prev, samples, i, lwm, hwm) then Some(Report(s, Moved(b, s, lwm), Moved(b, s, hwm)))
                else None
    decreases i
  {
    if i > 0 {
      NaiveAt(samples[0], samples[1..], i - 1, lwm, hwm);
    }
  }

  /**
   What the reports mean: going from a sample at or above a watermark to one below it is
   LOWER, from below to at or above is HIGHER, and a report is made for either watermark.
   */
  lemma NaiveMeans(prev: Snr, samples: seq<Snr>, i: nat, lwm: Snr, hwm: Snr)
    requires i < |samples|
    ensures var b, s, r := Before(prev, samples, i), samples[i], Naive(prev, samples, lwm, hwm)[i];
            && (r.None? <==> (b < lwm <==> s < lwm) && (b < hwm <==> s < hwm))
            && (r.Some? ==>
                  && r.value.rssi == s
                  && (r.value.low == Lower <==> s < lwm <= b) && (r.value.low == Higher <==> b < lwm <= s)
                  && (r.value.high == Lower <==> s < hwm <= b) && (r.value.high == Higher <==> b < hwm <= s))
  {
    NaiveAt(prev, samples, i, lwm, hwm);
  }

  /** No report follows a place where the memory became zero. */
  ghost predicate Clean(stream: seq<Option<Report>>, known: bool) {
    && (!known ==> forall i :: 0 <= i < |stream| ==> stream[i].None?)
    && (forall i, k :: 0 <= i < k < |stream| && stream[i].Some? && stream[i].value.rssi == 0 ==> stream[k].None?)
  }

  ghost predicate Genuine(stream: seq<Option<Report>>) {
    forall i :: 0 <= i < |stream| && stream[i].Some? ==>
        stream[i].value.low != Unchanged || stream[i].value.high != Unchanged
  }

  lemma {:induction false} MaskedExactly(stream: seq<Option<Report>>, known: bool)
    requires Genuine(stream)
    ensures Mask(stream, known) == stream <==> Clean(stream, known)
  {
    if stream != [] {
      var rest, next := stream[1..], if stream[0].Some? then stream[0].value.rssi != 0 else known;
      MaskedExactly(rest, next);
      assert stream == [stream[0]] + rest;
      assert Mask(stream, known)[1..] == Mask(rest, next);
      assert forall i :: 0 <= i < |rest| ==> rest[i] == stream[i + 1];
      assert forall i :: 0 < i < |stream| ==> stream[i] == rest[i - 1];
    }
  }

  /**
   The lazy stream is the simple stream exactly when no crossing follows one that ended
   on a zero sample, and none at all follows an unknown start.
   */
  lemma RefinesExactly(prev: Snr, samples: seq<Snr>, lwm: Snr, hwm: Snr)
    ensures Mask(Naive(prev, samples, lwm, hwm), prev != 0) == Naive(prev, samples, lwm, hwm) <==>
            && (prev == 0 ==> forall i :: 0 <= i < |samples| ==> !CrossesAt(prev, samples, i, lwm, hwm))
            && (forall i, k :: 0 <= i < k < |samples| && samples[i] == 0 && CrossesAt(prev, samples, i, lwm, hwm)
                               ==> !CrossesAt(prev, samples, k, lwm, hwm))
  {
    var stream := Naive(prev, samples, lwm, hwm);
    forall i | 0 <= i < |samples|
      ensures stream[i].Some? <==> CrossesAt(prev, samples, i, lwm, hwm)
      ensures stream[i].Some? ==> stream[i].value.rssi == samples[i]
      ensures stream[i].Some? ==> stream[i].value.low != Unchanged || stream[i].value.high != Unchanged
    {
      NaiveAt(prev, samples, i, lwm, hwm);
    }
    MaskedExactly(stream, prev != 0);
  }

  /** From a known start and without zero samples the two detectors agree. */
  lemma LazyRefinesNaive(prev: Snr, samples: seq<Snr>, lwm: Snr, hwm: Snr)
    requires prev != 0 && forall i :: 0 <= i < |samples| ==> samples[i] != 0
    ensures Mask(Naive(prev, samples, lwm, hwm), prev != 0) == Naive(prev, samples, lwm, hwm)
  {
    RefinesExactly(prev, samples, lwm, hwm);
  }

  /** The first samples after a connect can hide a real crossing: 5 and then 40 with both watermarks between. */
  lemma CrossingMissedAfterConnect()
    ensures Naive(0, [5, 40], 10, 20)[1] == Some(Report(40, Higher, Higher))
    ensures Mask(Naive(0, [5, 40], 10, 20), false)[1] == Some(Report(40, Unchanged, Unchanged))
  {
    NaiveAt(0, [5, 40], 0, 10, 20);
    NaiveAt(0, [5, 40], 1, 10, 20);
    var stream := Naive(0, [5, 40], 10, 20);
    assert stream == [None, Some(Report(40, Higher, Higher))];
    assert stream[1..] == [Some(Report(40, Higher, Higher))];
  }

  // -------------------------------------------------------------- alternation

  /** The directions in which one watermark is reported crossed. */
  function Directions(stream: seq<Option<Report>>, low: bool): seq<Change> {
    if stream == [] then []
    else
      var rest := Directions(stream[1..], low);
      match stream[0]
      case None => rest
      case Some(r) =>
        var c := if low then r.low else r.high;
        if c == Unchanged then rest else [c] + rest
  }

  ghost predicate Alternates(dirs: seq<Change>) {
    forall i :: 0 < i < |dirs| ==> dirs[i - 1] != dirs[i]
  }

  /** Crossings of either watermark alternate, starting away from the side of the predecessor. */
  lemma {:induction false} CrossingsAlternate(prev: Snr, samples: seq<Snr>, lwm: Snr, hwm: Snr, low: bool)
    ensures var dirs := Directions(Naive(prev, samples, lwm, hwm), low);
            Alternates(dirs) && (dirs != [] ==> dirs[0] != Side(prev, if low then lwm else hwm))
    decreases samples
  {
    if samples != [] {
      var s := samples[0];
      var stream := Naive(prev, samples, lwm, hwm);
      assert stream[1..] == Naive(s, samples[1..], lwm, hwm);
      CrossingsAlternate(s, samples[1..], lwm, hwm, low);
    }
  }

  class Detector {
    const lwm: Snr       // rssi_low_xing
    const hwm: Snr       // rssi_high_xing
    var prev: Snr        // prev_xing_snr

    constructor (lwm: Snr, hwm: Snr)
      ensures this.lwm == lwm && this.hwm == hwm && prev == 0
    {
      this.lwm, this.hwm, prev := lwm, hwm, 0;
    }

    /** bm_client_xing_recalc; the report is what bm_events_handle_rssi_xing receives. */
    method Recalc(snr: Snr) returns (report: Option<Report>)
      modifies this
      ensures [report] == Mask(Naive(old(prev), [snr], lwm, hwm), old(prev) != 0)
      ensures report.Some? <==> Crosses(old(prev), snr, lwm, hwm)
      ensures prev == if report.Some? then snr else old(prev)
    {
      var newLow, newHigh := Side(snr, lwm), Side(snr, hwm);
      var prevLow, prevHigh := Side(prev, lwm), Side(prev, hwm);
      if newLow == prevLow && newHigh == prevHigh {
        return None;
      }
      var low := if newLow == prevLow then Unchanged else newLow;
      var high := if newHigh == prevHigh then Unchanged else newHigh;
      if prev == 0 {
        low, high := Unchanged, Unchanged;
      }
      prev := snr;
      return Some(Report(snr, low, high));
    }

    /**
     A whole run between two connects: for all samples the lazy detector emits the
     stream of the simple one, blanked where its memory was zero.
     */
    method Run(samples: seq<Snr>) returns (stream: seq<Option<Report>>)
      modifies this
      ensures stream == Mask(Naive(old(prev), samples, lwm, hwm), old(prev) != 0)
      ensures old(prev) != 0 && (forall i :: 0 <= i < |samples| ==> samples[i] != 0) ==>
                && stream == Naive(old(prev), samples, lwm, hwm)
                && Alternates(Directions(stream, true)) && Alternates(Directions(stream, false))
    {
      stream := [];
      ghost var whole := Mask(Naive(prev, samples, lwm, hwm), prev != 0);
      var i := 0;
      while i < |samples|
        invariant 0 <= i <= |samples|
        invariant whole == stream + Mask(Naive(prev, samples[i..], lwm, hwm), prev != 0)
      {
        Peel(prev, samples, i, lwm, hwm);
        var report := Recalc(samples[i]);
        ghost var rest := Mask(Naive(prev, samples[i + 1..], lwm, hwm), prev != 0);
        assert stream + ([report] + rest) == stream + [report] + rest;
        stream := stream + [report];
        i := i + 1;
      }
      if old(prev) != 0 && forall i :: 0 <= i < |samples| ==> samples[i] != 0 {
        LazyRefinesNaive(old(prev), samples, lwm, hwm);
        CrossingsAlternate(old(prev), samples, lwm, hwm, true);
        CrossingsAlternate(old(prev), samples, lwm, hwm, false);
      }
    }
  }
}
