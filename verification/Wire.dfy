/** Minimal QUIC variable-length integers (section 16 of RFC 9000) and the FlowId space.
    Bit operations on disjoint bits are written as arithmetic: `x >> 6` is `x / 64`,
    `x & 0x3f` is `x % 64`, and OR-ing the two length bits is an addition. */
module Wire {
  import opened Basics

  const MAX_VARINT: int := 0x3FFF_FFFF_FFFF_FFFF

  // ---------------------------------------------------------------- big-endian

  function Power256(n: nat): (p: int)
    ensures p >= 1
  {
    if n == 0 then 1 else 256 * Power256(n - 1)
  }

  function BigEndian(v: nat, n: nat): (s: seq<u8>)
    ensures |s| == n
  {
    if n == 0 then [] else BigEndian(v / 256, n - 1) + [v % 256]
  }

  function FromBigEndian(s: seq<u8>): (v: nat)
    ensures v < Power256(|s|)
  {
    if s == [] then 0 else FromBigEndian(s[..|s| - 1]) * 256 + s[|s| - 1]
  }

  lemma {:induction false} BigEndianDecodes(v: nat, n: nat)
    requires v < Power256(n)
    ensures FromBigEndian(BigEndian(v, n)) == v
  {
    if n > 0 {
      BigEndianDecodes(v / 256, n - 1);
      assert BigEndian(v, n)[..n - 1] == BigEndian(v / 256, n - 1);
    }
  }

  lemma {:induction false} BigEndianEncodes(s: seq<u8>)
    ensures BigEndian(FromBigEndian(s), |s|) == s
  {
    if s != [] {
      BigEndianEncodes(s[..|s| - 1]);
      assert s == s[..|s| - 1] + [s[|s| - 1]];
    }
  }

  /** Adding `c` to the most significant octet adds `c * 256^(n-1)` to the number. */
  lemma {:induction false} FromBigEndianHead(s: seq<u8>, c: int)
    requires s != [] && 0 <= s[0] + c < 256
    ensures FromBigEndian([s[0] + c] + s[1..]) == FromBigEndian(s) + c * Power256(|s| - 1)
  {
    var t: seq<u8> := [s[0] + c] + s[1..];
    var n := |s| - 1;
    if n > 0 {
      FromBigEndianHead(s[..n], c);
      assert t[..n] == [s[0] + c] + s[..n][1..];
      ScaleDigit(c, Power256(n - 1));
    } else {
      assert s[..0] == [] && t[..0] == [];
    }
  }

  // ---------------------------------------------------------------- varints

  datatype VarintError = Incomplete(needed: nat, available: nat) | NonMinimal

  /** The minimal octet count of `v`, when it is representable at all. */
  function VarintLen(v: nat): Option<nat> {
    if v < 0x40 then Some(1)
    else if v < 0x4000 then Some(2)
    else if v < 0x4000_0000 then Some(4)
    else if v <= MAX_VARINT then Some(8)
    else None
  }

  /** The octet count announced by the two most significant bits of the first octet. */
  function AnnouncedLen(first: u8): (n: nat)
    ensures n == 1 || n == 2 || n == 4 || n == 8
  {
    if first < 0x40 then 1 else if first < 0x80 then 2 else if first < 0xC0 then 4 else 8
  }

  /** The length marker OR-ed into the big-endian form. */
  function LengthMark(n: nat): nat {
    if n == 8 then 0xC000_0000_0000_0000
    else if n == 4 then 0x8000_0000
    else if n == 2 then 0x4000
    else 0
  }

  function Varint(v: nat): (s: seq<u8>)
    requires v <= MAX_VARINT
    ensures 1 <= |s| <= 8 && VarintLen(v) == Some(|s|)
  {
    var n := VarintLen(v).value;
    BigEndian(v + LengthMark(n), n)
  }

  function EncodeVarint(v: nat): Option<seq<u8>> {
    if v <= MAX_VARINT then Some(Varint(v)) else None
  }

  /** The value carried by an `n`-octet encoding: its octets without the length marker. */
  function VarintPayload(s: seq<u8>): nat
    requires s != []
  {
    FromBigEndian([s[0] % 64] + s[1..])
  }

  function DecodeVarint(input: seq<u8>): (r: Result<(nat, nat), VarintError>)
    ensures r.Ok? ==> 1 <= r.value.1 <= |input| && r.value.0 <= MAX_VARINT && VarintLen(r.value.0) == Some(r.value.1)
  {
    if input == [] then Err(Incomplete(1, 0))
    else
      var n := AnnouncedLen(input[0]);
      if |input| < n then Err(Incomplete(n, |input|))
      else
        var v := VarintPayload(input[..n]);
        if VarintLen(v) != Some(n) then Err(NonMinimal) else Ok((v, n))
  }

  /** The decoder as written: an accumulator loop over the announced octets. */
  method DecodeVarintLoop(input: seq<u8>) returns (r: Result<(nat, nat), VarintError>)
    ensures r == DecodeVarint(input)
  {
    if input == [] {
      return Err(Incomplete(1, 0));
    }
    var n := AnnouncedLen(input[0]);
    if |input| < n {
      return Err(Incomplete(n, |input|));
    }
    var value: nat := input[0] % 64;
    ghost var digits: seq<u8> := [input[0] % 64] + input[1..n];
    assert forall j :: 1 <= j < n ==> digits[j] == input[j];
    for i := 1 to n
      invariant value == FromBigEndian(digits[..i])
    {
      var grown := digits[..i + 1];
      assert grown[..i] == digits[..i] && grown[i] == digits[i];
      value := value * 256 + input[i];
    }
    assert digits[..n] == digits && [input[..n][0] % 64] + input[..n][1..] == digits;
    if VarintLen(value) != Some(n) {
      return Err(NonMinimal);
    }
    return Ok((value, n));
  }

  /** The marker is a multiple of the top digit's weight, so it only changes the first octet. */
  lemma {:induction false} LengthMarkWeight(n: nat)
    requires n == 1 || n == 2 || n == 4 || n == 8
    ensures LengthMark(n) == MarkDigit(n) * Power256(n - 1)
    ensures 64 * Power256(n - 1) == (if n == 8 then MAX_VARINT + 1 else if n == 4 then 0x4000_0000 else if n == 2 then 0x4000 else 0x40)
  {
    assert Power256(0) == 1 && Power256(1) == 256;
    assert Power256(2) == 0x1_0000 && Power256(3) == 0x100_0000;
    assert Power256(4) == 0x1_0000_0000 && Power256(5) == 0x100_0000_0000;
    assert Power256(6) == 0x1_0000_0000_0000 && Power256(7) == 0x100_0000_0000_0000;
  }

  lemma {:induction false} TopDigit(s: seq<u8>)
    requires s != []
    ensures s[0] * Power256(|s| - 1) <= FromBigEndian(s) < (s[0] + 1) * Power256(|s| - 1)
  {
    var n := |s| - 1;
    if n > 0 {
      TopDigit(s[..n]);
      ScaleDigit(s[0], Power256(n - 1));
      ScaleDigit(1 + s[0] as int, Power256(n - 1));
    } else {
      assert s[..0] == [];
    }
  }

  lemma ScaleDigit(c: int, p: int)
    ensures (c * p) * 256 == c * (256 * p)
  {
  }

  lemma ScaleMonotone(a: int, b: int, p: int)
    requires p > 0 && a <= b
    ensures a * p <= b * p
  {
  }

  lemma CancelWeight(a: int, b: int, p: int)
    requires p > 0 && a * p < b * p
    ensures a < b
  {
    if b <= a {
      ScaleMonotone(b, a, p);
    }
  }

  function MarkDigit(n: nat): nat {
    if n == 8 then 192 else if n == 4 then 128 else if n == 2 then 64 else 0
  }

  lemma MarkedOctet(first: u8)
    ensures first % 64 + MarkDigit(AnnouncedLen(first)) == first
  {
  }

  lemma StripMarker(s: seq<u8>, c: int)
    requires s != [] && s[0] % 64 + c == s[0]
    ensures FromBigEndian(s) == VarintPayload(s) + c * Power256(|s| - 1)
  {
    hide FromBigEndian, Power256;
    var t: seq<u8> := [s[0] % 64] + s[1..];
    FromBigEndianHead(t, c);
    assert [t[0] + c] + t[1..] == s;
  }

  /** Shape of an encoding: the announced length is its own length and stripping the marker recovers `v`. */
  lemma {:induction false} VarintShape(v: nat)
    requires v <= MAX_VARINT
    ensures AnnouncedLen(Varint(v)[0]) == |Varint(v)| && VarintPayload(Varint(v)) == v
  {
    MarkedRange(v);
    BigEndianDecodes(v + LengthMark(VarintLen(v).value), VarintLen(v).value);
    MarkedShape(Varint(v), v);
  }

  lemma MarkedShape(s: seq<u8>, v: nat)
    requires |s| == 1 || |s| == 2 || |s| == 4 || |s| == 8
    requires FromBigEndian(s) == v + MarkDigit(|s|) * Power256(|s| - 1) && v < 64 * Power256(|s| - 1)
    ensures AnnouncedLen(s[0]) == |s| && VarintPayload(s) == v
  {
    hide FromBigEndian, Power256, VarintPayload;
    VarintHead(s, MarkDigit(|s|));
    MarkedDigit(s[0], |s|);
    StripMarker(s, MarkDigit(|s|));
  }

  lemma MarkedDigit(first: u8, n: nat)
    requires n == 1 || n == 2 || n == 4 || n == 8
    requires MarkDigit(n) <= first < MarkDigit(n) + 64
    ensures AnnouncedLen(first) == n && first % 64 + MarkDigit(n) == first
  {
  }

  lemma MarkedRange(v: nat)
    requires v <= MAX_VARINT
    ensures var n := VarintLen(v).value;
            var p := Power256(n - 1);
            && v + LengthMark(n) < Power256(n)
            && LengthMark(n) == MarkDigit(n) * p
            && v < 64 * p
  {
    var n := VarintLen(v).value;
    LengthMarkWeight(n);
    assert Power256(n) == 256 * Power256(n - 1);
  }

  /** A number between `c` and `c + 64` times the top weight has its first octet in that range. */
  lemma VarintHead(s: seq<u8>, c: int)
    requires s != []
    requires c * Power256(|s| - 1) <= FromBigEndian(s) < c * Power256(|s| - 1) + 64 * Power256(|s| - 1)
    ensures c <= s[0] < c + 64
  {
    TopDigit(s);
    DigitRange(s[0], c, Power256(|s| - 1), FromBigEndian(s));
  }

  lemma DigitRange(top: int, c: int, p: int, x: int)
    requires p > 0 && top * p <= x < (top + 1) * p && c * p <= x < c * p + 64 * p
    ensures c <= top < c + 64
  {
    CancelWeight(c, top + 1, p);
    assert c * p + 64 * p == (c + 64) * p;
    CancelWeight(top, c + 64, p);
  }

  /** Putting the marker back on the payload of a complete encoding gives its octets' number. */
  lemma UnmarkedDigits(s: seq<u8>)
    requires s != [] && |s| == AnnouncedLen(s[0])
    ensures FromBigEndian(s) == VarintPayload(s) + LengthMark(|s|)
  {
    MarkedOctet(s[0]);
    LengthMarkWeight(|s|);
    StripMarker(s, MarkDigit(|s|));
  }

  /** Decoding is exactly inversion of the minimal encoding: it succeeds with `(v, n)` on the
      inputs that begin with the `n`-octet encoding of `v`, and on no others. */
  lemma DecodeVarintExactly(input: seq<u8>, v: nat, n: nat)
    ensures DecodeVarint(input) == Ok((v, n)) <==>
            v <= MAX_VARINT && n == |Varint(v)| && n <= |input| && input[..n] == Varint(v)
  {
    hide *;
    if v <= MAX_VARINT && n == |Varint(v)| && n <= |input| && input[..n] == Varint(v) {
      VarintIsDecoded(input, v, n);
    }
    if DecodeVarint(input) == Ok((v, n)) {
      DecodedIsVarint(input, v, n);
    }
  }

  lemma VarintIsDecoded(input: seq<u8>, v: nat, n: nat)
    requires v <= MAX_VARINT && n == |Varint(v)| && n <= |input| && input[..n] == Varint(v)
    ensures DecodeVarint(input) == Ok((v, n))
  {
    hide BigEndian, FromBigEndian, Power256;
    VarintShape(v);
    assert input[0] == input[..n][0];
  }

  lemma DecodedIsVarint(input: seq<u8>, v: nat, n: nat)
    requires DecodeVarint(input) == Ok((v, n))
    ensures v <= MAX_VARINT && n == |Varint(v)| && n <= |input| && input[..n] == Varint(v)
  {
    hide BigEndian, FromBigEndian, Power256;
    UnmarkedDigits(input[..n]);
    BigEndianEncodes(input[..n]);
  }

  lemma DecodeVarintAppend(v: nat, rest: seq<u8>)
    requires v <= MAX_VARINT
    ensures DecodeVarint(Varint(v) + rest) == Ok((v, |Varint(v)|))
  {
    assert (Varint(v) + rest)[..|Varint(v)|] == Varint(v);
    DecodeVarintExactly(Varint(v) + rest, v, |Varint(v)|);
  }

  /** A proper prefix of an encoding is never mistaken for a complete one. */
  lemma VarintPrefixIncomplete(v: nat, k: nat)
    requires v <= MAX_VARINT && k < |Varint(v)|
    ensures DecodeVarint(Varint(v)[..k]) == Err(Incomplete(if k == 0 then 1 else |Varint(v)|, k))
  {
    VarintShape(v);
  }

  // ---------------------------------------------------------------- FlowIds

  const MAX_FLOW_SEQUENCE: int := 0x1FFF_FFFF_FFFF_FFFF

  datatype Side = Client | Server

  function Opposite(side: Side): Side {
    match side case Client => Server case Server => Client
  }

  function SideBit(side: Side): nat {
    match side case Client => 0 case Server => 1
  }

  type FlowId = v: int | 0 <= v <= 0x3FFF_FFFF_FFFF_FFFF

  function FlowIdOf(side: Side, sequence: nat): FlowId
    requires sequence <= MAX_FLOW_SEQUENCE
  {
    2 * sequence + SideBit(side)
  }

  function SideOf(id: FlowId): Side {
    if id % 2 == 0 then Client else Server
  }

  function SequenceOf(id: FlowId): nat {
    id / 2
  }

  datatype CursorError =
    | Exhausted
    | WrongSide(expectedSide: Side, receivedSide: Side)
    | UnexpectedSequence(expected: nat, received: nat)

  type CursorNext = o: Option<nat> | o.Some? ==> o.value <= MAX_FLOW_SEQUENCE witness None

  function AfterSequence(sequence: nat): CursorNext
    requires sequence <= MAX_FLOW_SEQUENCE
  {
    if sequence == MAX_FLOW_SEQUENCE then None else Some(sequence + 1)
  }

  /** How many FlowIds a cursor has handed out or consumed. */
  function Issued(next: CursorNext): nat {
    match next case None => MAX_FLOW_SEQUENCE + 1 case Some(s) => s
  }

  /** The one FlowId a peer cursor admits next. */
  function AdmitId(side: Side, next: CursorNext, id: FlowId): Result<CursorNext, CursorError> {
    match next
    case None => Err(Exhausted)
    case Some(expected) =>
      if SideOf(id) != side then Err(WrongSide(side, SideOf(id)))
      else if SequenceOf(id) != expected then Err(UnexpectedSequence(expected, SequenceOf(id)))
      else Ok(AfterSequence(expected))
  }

  class FlowIdCursor {
    const side: Side
    var next: CursorNext

    constructor (side: Side)
      ensures this.side == side && next == Some(0)
    {
      this.side := side;
      next := Some(0);
    }

    method Allocate() returns (r: Result<FlowId, CursorError>)
      modifies this
      ensures match old(next)
              case None => r == Err(Exhausted) && next == None
              case Some(s) => r == Ok(FlowIdOf(side, s)) && next == AfterSequence(s)
    {
      match next {
        case None => r := Err(Exhausted);
        case Some(s) =>
          r := Ok(FlowIdOf(side, s));
          next := AfterSequence(s);
      }
    }

    method ValidateAndConsume(id: FlowId) returns (r: Result<(), CursorError>)
      modifies this
      ensures match AdmitId(side, old(next), id)
              case Err(e) => r == Err(e) && next == old(next)
              case Ok(n) => r == Ok(()) && next == n
    {
      match next {
        case None => return Err(Exhausted);
        case Some(expected) =>
          if SideOf(id) != side {
            return Err(WrongSide(side, SideOf(id)));
          }
          if SequenceOf(id) != expected {
            return Err(UnexpectedSequence(expected, SequenceOf(id)));
          }
          next := AfterSequence(expected);
          return Ok(());
      }
    }
  }

  /** A peer cursor admits exactly the next FlowId its peer's own cursor would allocate. */
  lemma AdmitExactlyAllocated(side: Side, next: CursorNext, id: FlowId)
    ensures AdmitId(side, next, id).Ok? <==> next.Some? && id == FlowIdOf(side, next.value)
    ensures AdmitId(side, next, id).Ok? ==> Issued(AdmitId(side, next, id).value) == Issued(next) + 1
  {
  }
}
