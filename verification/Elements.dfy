/**
 The walk over 802.11 elements (bm_ieee80211.h). An element is an id byte, a length byte
 and that many bytes of data, section 9.4.2.1 of IEEE Std 802.11-2016.
 */
module Elements {

  type Byte = n: nat | n < 256

  datatype Element = Element(id: Byte, data: seq<Byte>)

  ghost predicate Encodable(es: seq<Element>) {
    forall i :: 0 <= i < |es| ==> |es[i].data| < 256
  }

  function EncodeOne(e: Element): (bytes: seq<Byte>)
    requires |e.data| < 256
  {
    [e.id, |e.data|] + e.data
  }

  function Encode(es: seq<Element>): seq<Byte>
    requires forall i :: 0 <= i < |es| ==> |es[i].data| < 256
  {
    if es == [] then [] else EncodeOne(es[0]) + Encode(es[1..])
  }

  /** The bytes an element with the given length byte takes. */
  function Span(length: Byte): nat {
    2 + (length as int)
  }

  /** Whether `bytes` starts with a whole element: the two loop conditions of for_each_element. */
  predicate HasElement(bytes: seq<Byte>) {
    |bytes| >= 2 && |bytes| >= Span(bytes[1])
  }

  /** The elements the walk visits. */
  function Visited(bytes: seq<Byte>): (es: seq<Element>)
    ensures Encodable(es)
  {
    if !HasElement(bytes) then []
    else [Element(bytes[0], bytes[2..Span(bytes[1])])] + Visited(bytes[Span(bytes[1])..])
  }

  /** for_each_element, run over the first `len` bytes of `data`. */
  method Walk(data: seq<Byte>, len: nat) returns (es: seq<Element>)
    requires len <= |data|
    ensures es == Visited(data[..len])
  {
    es := [];
    var at := 0;
    assert data[..len] == data[0..len];
    while len - at >= 2 && len - at >= Span(data[at + 1])
      invariant 0 <= at <= len
      invariant Visited(data[..len]) == es + Visited(data[at..len])
      decreases len - at
    {
      var next := at + Span(data[at + 1]);
      StepOver(data[at..len]);
      assert data[at..len][2..Span(data[at + 1])] == data[at + 2..next];
      assert data[at..len][Span(data[at + 1])..] == data[next..len];
      es := es + [Element(data[at], data[at + 2..next])];
      at := next;
    }
  }

  lemma StepOver(bytes: seq<Byte>)
    requires HasElement(bytes)
    ensures Visited(bytes) == [Element(bytes[0], bytes[2..Span(bytes[1])])] + Visited(bytes[Span(bytes[1])..])
  {
  }

  // ------------------------------------------------ what the walk visits exactly

  /**
   The visited elements lie inside the bound, one after the other from the start, and the rest holds
   no whole element.
   */
  lemma {:induction false} VisitedInside(bytes: seq<Byte>)
    ensures Encode(Visited(bytes)) <= bytes
    ensures !HasElement(bytes[|Encode(Visited(bytes))|..])
  {
    if HasElement(bytes) {
      var k := Span(bytes[1]);
      var rest := bytes[k..];
      VisitedInside(rest);
      var es := Visited(bytes);
      assert es[1..] == Visited(rest);
      assert EncodeOne(es[0]) == bytes[..k];
      assert Encode(es) == bytes[..k] + Encode(Visited(rest));
      assert bytes[|Encode(es)|..] == rest[|Encode(Visited(rest))|..];
    }
  }

  /** It is the longest such list: every other list encoded at the start of the bytes is a prefix of it. */
  lemma {:induction false} VisitedMaximal(es: seq<Element>, bytes: seq<Byte>)
    requires Encodable(es) && Encode(es) <= bytes
    ensures es <= Visited(bytes)
  {
    if es != [] {
      var one, k := EncodeOne(es[0]), 2 + |es[0].data|;
      assert one <= bytes by {
        assert one <= Encode(es);
      }
      assert bytes[0] == one[0] && bytes[1] == one[1];
      assert bytes[..k] == one;
      assert bytes[2..k] == es[0].data;
      assert Encode(es[1..]) == Encode(es)[k..] <= bytes[k..];
      VisitedMaximal(es[1..], bytes[k..]);
      assert es == [es[0]] + es[1..];
    }
  }

  /** Walking the encoding of a list returns the list. */
  lemma RoundTrip(es: seq<Element>)
    requires Encodable(es)
    ensures Visited(Encode(es)) == es
  {
    var bytes := Encode(es);
    VisitedMaximal(es, bytes);
    VisitedInside(bytes);
    SameEncoding(es, Visited(bytes));
  }

  /** A list is no longer than another one that it starts and whose encoding is not longer. */
  lemma {:induction false} SameEncoding(es: seq<Element>, fs: seq<Element>)
    requires Encodable(es) && Encodable(fs) && es <= fs && |Encode(fs)| <= |Encode(es)|
    ensures es == fs
  {
    if es != [] {
      SameEncoding(es[1..], fs[1..]);
      assert es == [es[0]] + es[1..] && fs == [fs[0]] + fs[1..];
    }
  }
}
