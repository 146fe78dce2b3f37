/** What the wire decoders say about input they do not accept, and the numbers on the wire themselves. */
module WireAnswers {
  import opened Basics
  import opened Wire
  import opened Delivery
  import opened ControlBody
  import opened Framing

  // ---------------------------------------------------------------- varints

  /** The octet count in the two top bits: 1, 2, 4 or 8. */
  function Announced(first: u8): nat {
    [1, 2, 4, 8][first / 64]
  }

  /** An input is incomplete exactly if it has fewer octets than its first one announces, and says how many are
      needed; a complete one is refused exactly if its octets are not the shortest encoding of any value. */
  lemma VarintAnswers(input: seq<u8>)
    ensures var r := DecodeVarint(input);
            var needed := if input == [] then 1 else Announced(input[0]);
            && (r == Err(Incomplete(needed, |input|)) <==> |input| < needed)
            && (r.Err? && r.error.Incomplete? ==> |input| < needed)
            && (r == Err(NonMinimal) <==> |input| >= needed && forall v: nat :: v <= MAX_VARINT ==> Varint(v) != input[..needed])
            && (r.Ok? ==> r.value.1 == needed && input[..needed] == Varint(r.value.0))
  {
    hide Varint, VarintPayload;
    if input != [] && |input| >= Announced(input[0]) {
      var n := Announced(input[0]);
      if DecodeVarint(input).Ok? {
        var (v, m) := DecodeVarint(input).value;
        DecodeVarintExactly(input, v, m);
      } else {
        forall v: nat | v <= MAX_VARINT ensures Varint(v) != input[..n] {
          if Varint(v) == input[..n] {
            DecodeVarintExactly(input, v, n);
            assert false;
          }
        }
      }
    }
  }

  /** The four encodings in appendix A.1 of RFC 9000, and the two-octet form of 37, which is refused here. */
  lemma PublishedExamples()
    ensures DecodeVarint([0xC2, 0x19, 0x7C, 0x5E, 0xFF, 0x14, 0xE8, 0x8C]) == Ok((151288809941952652, 8))
    ensures DecodeVarint([0x9D, 0x7F, 0x3E, 0x7D]) == Ok((494878333, 4))
    ensures DecodeVarint([0x7B, 0xBD]) == Ok((15293, 2))
    ensures DecodeVarint([0x25]) == Ok((37, 1))
    ensures DecodeVarint([0x40, 0x25]) == Err(NonMinimal)
  {
    EightOctets();
    Numbers(0x1D, 0x7F, 0x3E, 0x7D);
    Numbers(0, 0, 0x3B, 0xBD);
    Numbers(0, 0, 0, 0x25);
    Numbers(0, 0, 0x00, 0x25);
    Read([0x9D, 0x7F, 0x3E, 0x7D], [0x1D, 0x7F, 0x3E, 0x7D]);
    Read([0x7B, 0xBD], [0x3B, 0xBD]);
    Read([0x25], [0x25]);
    Read([0x40, 0x25], [0x00, 0x25]);
  }

  lemma EightOctets()
    ensures DecodeVarint([0xC2, 0x19, 0x7C, 0x5E, 0xFF, 0x14, 0xE8, 0x8C]) == Ok((151288809941952652, 8))
  {
    Numbers(0x02, 0x19, 0x7C, 0x5E);
    OneMore([0x02, 0x19, 0x7C, 0x5E], 0xFF);
    OneMore([0x02, 0x19, 0x7C, 0x5E, 0xFF], 0x14);
    OneMore([0x02, 0x19, 0x7C, 0x5E, 0xFF, 0x14], 0xE8);
    OneMore([0x02, 0x19, 0x7C, 0x5E, 0xFF, 0x14, 0xE8], 0x8C);
    assert [0x02, 0x19, 0x7C, 0x5E] + [0xFF] == [0x02, 0x19, 0x7C, 0x5E, 0xFF];
    assert [0x02, 0x19, 0x7C, 0x5E, 0xFF] + [0x14] == [0x02, 0x19, 0x7C, 0x5E, 0xFF, 0x14];
    assert [0x02, 0x19, 0x7C, 0x5E, 0xFF, 0x14] + [0xE8] == [0x02, 0x19, 0x7C, 0x5E, 0xFF, 0x14, 0xE8];
    assert [0x02, 0x19, 0x7C, 0x5E, 0xFF, 0x14, 0xE8] + [0x8C] == [0x02, 0x19, 0x7C, 0x5E, 0xFF, 0x14, 0xE8, 0x8C];
    Read([0xC2, 0x19, 0x7C, 0x5E, 0xFF, 0x14, 0xE8, 0x8C], [0x02, 0x19, 0x7C, 0x5E, 0xFF, 0x14, 0xE8, 0x8C]);
  }

  lemma OneMore(s: seq<u8>, last: u8)
    ensures FromBigEndian(s + [last]) == FromBigEndian(s) * 256 + last
  {
    assert (s + [last])[..|s|] == s;
  }

  lemma Numbers(a: u8, b: u8, c: u8, d: u8)
    ensures FromBigEndian([d]) == d && FromBigEndian([c, d]) == c * 256 + d
    ensures FromBigEndian([a, b, c, d]) == ((a * 256 + b) * 256 + c) * 256 + d
  {
    hide FromBigEndian;
    Empty();
    OneMore([], a);
    OneMore([], c);
    OneMore([], d);
    OneMore([a], b);
    OneMore([c], d);
    OneMore([a, b], c);
    OneMore([a, b, c], d);
    assert [] + [a] == [a] && [] + [c] == [c] && [] + [d] == [d];
    assert [a] + [b] == [a, b] && [c] + [d] == [c, d] && [a, b] + [c] == [a, b, c] && [a, b, c] + [d] == [a, b, c, d];
  }

  lemma Empty()
    ensures FromBigEndian([]) == 0
  {
  }

  /** A whole varint and its octets without the two top bits. */
  lemma Read(input: seq<u8>, digits: seq<u8>)
    requires input != [] && |input| == Announced(input[0]) && digits == [input[0] % 64] + input[1..]
    ensures var v := FromBigEndian(digits);
            DecodeVarint(input) == if VarintLen(v) == Some(|input|) then Ok((v, |input|)) else Err(NonMinimal)
  {
    hide FromBigEndian;
    assert input[..|input|] == input;
  }

  // ---------------------------------------------------------------- control bodies

  /** The numbers that stand for modes and reasons. */
  lemma CodesOnTheWire(id: FlowId, max: nat)
    requires 1 <= max < 64
    ensures BodyOf(Open(id, ReliableOrdered, max)) == Varint(id) + [0] + [max]
    ensures BodyOf(Open(id, UnreliableUnordered, max)) == Varint(id) + [1] + [max]
    ensures BodyOf(Open(id, UnreliableSequenced, max)) == Varint(id) + [2] + [max]
    ensures BodyOf(Reject(id, ResourceLimit)) == Varint(id) + [0] && BodyOf(Reject(id, MessageLimit)) == Varint(id) + [1]
    ensures BodyOf(ControlMsg.Terminate(id, Normal)) == Varint(id) + [0]
    ensures BodyOf(ControlMsg.Terminate(id, ResourceFailure)) == Varint(id) + [1]
    ensures BodyOf(ControlMsg.Terminate(id, ProtocolFailure)) == Varint(id) + [2]
    ensures BodyOf(ControlMsg.Terminate(id, ReliableDeliveryFailure)) == Varint(id) + [3]
  {
    hide Varint;
    OneOctet(0);
    OneOctet(1);
    OneOctet(2);
    OneOctet(3);
    OneOctet(max);
  }

  lemma OneOctet(v: u8)
    requires v < 64
    ensures Varint(v) == [v]
  {
    assert BigEndian(v, 1) == BigEndian(v / 256, 0) + [v % 256];
  }

  /** An OPEN whose three numbers can be read is refused, in this order, for an unknown mode, a maximum of zero
      and octets left over. */
  lemma OpenBodyAnswers(id: FlowId, code: nat, max: nat, rest: seq<u8>)
    requires code <= MAX_VARINT && max <= MAX_VARINT
    ensures var r := DecodeBody(OpenFlow, Varint(id) + Varint(code) + Varint(max) + rest);
            && (r == Err(UnknownDeliveryMode(code)) <==> code > 2)
            && (r == Err(ZeroMaxMessageBytes) <==> code <= 2 && max == 0)
            && (r == Err(BodyError.TrailingBytes) <==> code <= 2 && max > 0 && rest != [])
            && (r.Ok? <==> code <= 2 && max > 0 && rest == [])
  {
    hide ReadVarint, Varint;
    var body := Varint(id) + Varint(code) + Varint(max) + rest;
    assert body == Varint(id) + (Varint(code) + (Varint(max) + rest));
    ReadVarintExactly(body, id, Varint(code) + (Varint(max) + rest));
    ReadVarintExactly(Varint(code) + (Varint(max) + rest), code, Varint(max) + rest);
    ReadVarintExactly(Varint(max) + rest, max, rest);
  }

  lemma ReasonBodyAnswers(id: FlowId, code: nat, rest: seq<u8>)
    requires code <= MAX_VARINT
    ensures var r := DecodeBody(FlowReject, Varint(id) + Varint(code) + rest);
            && (r == Err(UnknownRejectReason(code)) <==> code > 1)
            && (r == Err(BodyError.TrailingBytes) <==> code <= 1 && rest != []) && (r.Ok? <==> code <= 1 && rest == [])
    ensures var r := DecodeBody(FlowTerminate, Varint(id) + Varint(code) + rest);
            && (r == Err(UnknownTerminateReason(code)) <==> code > 3)
            && (r == Err(BodyError.TrailingBytes) <==> code <= 3 && rest != []) && (r.Ok? <==> code <= 3 && rest == [])
    ensures var r := DecodeBody(FlowAccept, Varint(id) + rest);
            (r == Err(BodyError.TrailingBytes) <==> rest != []) && (r.Ok? <==> rest == [])
  {
    hide ReadVarint, Varint;
    var body := Varint(id) + Varint(code) + rest;
    assert body == Varint(id) + (Varint(code) + rest);
    ReadVarintExactly(body, id, Varint(code) + rest);
    ReadVarintExactly(Varint(code) + rest, code, rest);
    ReadVarintExactly(Varint(id) + rest, id, rest);
  }

  // ---------------------------------------------------------------- frames

  /** A stream stops at a frame exactly if its length cannot be read, or exceeds the message limit, or else the
      staging limit; it is never stopped for want of octets. */
  lemma FrameAnswers(s: seq<u8>, lim: FrameLimits)
    ensures var h := FirstFrame(s, lim);
            match DecodeVarint(s)
            case Err(e) => if e.NonMinimal? then h == Malformed(BadLength(NonMinimal)) else h == Partial
            case Ok((claimed, n)) =>
              && (h == Malformed(FrameError.MessageTooLarge(claimed, lim.maxMessage)) <==> claimed > lim.maxMessage)
              && (h == Malformed(StagingLimitExceeded(claimed, lim.maxStaging)) <==> lim.maxStaging < claimed <= lim.maxMessage)
              && (h == Partial <==> lim.Admits(claimed) && |s| - n < claimed)
              && (h == Whole(s[n..][..claimed], n + claimed) <== lim.Admits(claimed) && |s| - n >= claimed)
  {
    hide DecodeVarint;
    if DecodeVarint(s).Ok? {
      var (claimed, n) := DecodeVarint(s).value;
      if |s| - n >= claimed {
        assert s[n..][..claimed] == s[n..n + claimed];
      }
    }
  }
}
