/** Length-prefixed reliable frames: the grammar of a whole stream, and the incremental decoders
    that see it in arbitrary chunks. */
module Framing {
  import opened Basics
  import opened Wire

  datatype FrameError =
    | InvalidLimit
    | LengthOutOfProfileRange
    | MessageTooLarge(claimed: nat, max: nat)
    | StagingLimitExceeded(claimed: nat, max: nat)
    | BadLength(error: VarintError)
    | TruncatedFrame

  datatype FrameLimits = FrameLimits(maxMessage: nat, maxStaging: nat) {
    predicate Valid() {
      1 <= maxMessage <= MAX_VARINT && 1 <= maxStaging <= MAX_VARINT
    }

    predicate Admits(n: nat) {
      n <= maxMessage && n <= maxStaging
    }
  }

  function EncodePayloadLength(len: nat, max: nat): Result<seq<u8>, FrameError> {
    if max == 0 then Err(InvalidLimit)
    else if len > MAX_VARINT || max > MAX_VARINT then Err(LengthOutOfProfileRange)
    else if len > max then Err(MessageTooLarge(len, max))
    else Ok(Varint(len))
  }

  // ---------------------------------------------------------------- the stream grammar

  function Frame(payload: seq<u8>): seq<u8>
    requires |payload| <= MAX_VARINT
  {
    Varint(|payload|) + payload
  }

  predicate AllAdmitted(payloads: seq<seq<u8>>, lim: FrameLimits) {
    forall i :: 0 <= i < |payloads| ==> lim.Admits(|payloads[i]|)
  }

  function Frames(payloads: seq<seq<u8>>): seq<u8>
    requires forall i :: 0 <= i < |payloads| ==> |payloads[i]| <= MAX_VARINT
  {
    if payloads == [] then [] else Frame(payloads[0]) + Frames(payloads[1..])
  }

  /** What the first octets of a stream amount to. */
  datatype Head = Partial | Whole(payload: seq<u8>, size: nat) | Malformed(error: FrameError)

  function FirstFrame(s: seq<u8>, lim: FrameLimits): (h: Head)
    ensures h.Whole? ==> 1 <= h.size <= |s| && lim.Admits(|h.payload|)
    ensures h.Malformed? ==> s != []
  {
    match DecodeVarint(s)
    case Err(Incomplete(_, _)) => Partial
    case Err(NonMinimal) => Malformed(BadLength(NonMinimal))
    case Ok((claimed, n)) =>
      if claimed > lim.maxMessage then Malformed(MessageTooLarge(claimed, lim.maxMessage))
      else if claimed > lim.maxStaging then Malformed(StagingLimitExceeded(claimed, lim.maxStaging))
      else if |s| < n + claimed then Partial
      else Whole(s[n..n + claimed], n + claimed)
  }

  /** A whole stream read at once: its messages, the octets after the last complete frame, and the
      error that stopped the reading. */
  datatype Parsed = Parsed(messages: seq<seq<u8>>, rest: seq<u8>, error: Option<FrameError>)

  function Parse(s: seq<u8>, lim: FrameLimits): Parsed
    decreases |s|
  {
    match FirstFrame(s, lim)
    case Partial => Parsed([], s, None)
    case Malformed(e) => Parsed([], s, Some(e))
    case Whole(payload, size) =>
      var r := Parse(s[size..], lim);
      Parsed([payload] + r.messages, r.rest, r.error)
  }

  /** More input never revises a decision already taken. */
  lemma DecodeVarintStable(s: seq<u8>, t: seq<u8>)
    ensures !(DecodeVarint(s).Err? && DecodeVarint(s).error.Incomplete?) ==> DecodeVarint(s + t) == DecodeVarint(s)
  {
    if s != [] && AnnouncedLen(s[0]) <= |s| {
      assert (s + t)[..AnnouncedLen(s[0])] == s[..AnnouncedLen(s[0])];
    }
  }

  lemma FirstFrameStable(s: seq<u8>, t: seq<u8>, lim: FrameLimits)
    ensures !FirstFrame(s, lim).Partial? ==> FirstFrame(s + t, lim) == FirstFrame(s, lim)
  {
    DecodeVarintStable(s, t);
    var h := FirstFrame(s, lim);
    if h.Whole? {
      var n := DecodeVarint(s).value.1;
      assert (s + t)[n..h.size] == s[n..h.size];
    }
  }

  function Resume(p: Parsed, t: seq<u8>, lim: FrameLimits): Parsed {
    if p.error.Some? then Parsed(p.messages, p.rest + t, p.error)
    else
      var q := Parse(p.rest + t, lim);
      Parsed(p.messages + q.messages, q.rest, q.error)
  }

  /** Reading `s + t` at once is reading `s` and resuming with `t`. */
  lemma {:induction false} ParseAppend(s: seq<u8>, t: seq<u8>, lim: FrameLimits)
    ensures Parse(s + t, lim) == Resume(Parse(s, lim), t, lim)
    decreases |s|
  {
    hide FirstFrame;
    FirstFrameStable(s, t, lim);
    match FirstFrame(s, lim)
    case Partial =>
      assert Parse(s, lim).messages + Parse(s + t, lim).messages == Parse(s + t, lim).messages;
    case Malformed(_) =>
    case Whole(payload, size) =>
      assert (s + t)[size..] == s[size..] + t;
      ParseAppend(s[size..], t, lim);
      var r := Parse(s[size..], lim);
      if r.error.None? {
        var q := Parse(r.rest + t, lim);
        assert ([payload] + r.messages) + q.messages == [payload] + (r.messages + q.messages);
      }
  }

  lemma FirstOfFrame(payload: seq<u8>, t: seq<u8>, lim: FrameLimits)
    requires lim.Valid() && lim.Admits(|payload|)
    ensures FirstFrame(Frame(payload) + t, lim) == Whole(payload, |Frame(payload)|)
  {
    var s := Frame(payload) + t;
    assert s == Varint(|payload|) + (payload + t);
    DecodeVarintAppend(|payload|, payload + t);
    var n := |Varint(|payload|)|;
    assert s[n..n + |payload|] == payload;
  }

  /** Reading concatenated frames returns exactly their payloads, in order. */
  lemma {:induction false} ParseFrames(payloads: seq<seq<u8>>, lim: FrameLimits)
    requires lim.Valid() && AllAdmitted(payloads, lim)
    ensures Parse(Frames(payloads), lim) == Parsed(payloads, [], None)
  {
    if payloads != [] {
      var head, tail := payloads[0], Frames(payloads[1..]);
      FirstOfFrame(head, tail, lim);
      assert (Frame(head) + tail)[|Frame(head)|..] == tail;
      ParseFrames(payloads[1..], lim);
      assert [payloads[0]] + payloads[1..] == payloads;
    }
  }

  lemma {:induction false} FramesAppend(a: seq<seq<u8>>, b: seq<seq<u8>>)
    requires forall i :: 0 <= i < |a| ==> |a[i]| <= MAX_VARINT
    requires forall i :: 0 <= i < |b| ==> |b[i]| <= MAX_VARINT
    ensures Frames(a + b) == Frames(a) + Frames(b)
  {
    if a == [] {
      assert a + b == b;
    } else {
      assert (a + b)[0] == a[0] && (a + b)[1..] == a[1..] + b;
      FramesAppend(a[1..], b);
    }
  }

  lemma WholeIsFrame(s: seq<u8>, lim: FrameLimits)
    requires lim.Valid() && FirstFrame(s, lim).Whole?
    ensures s == Frame(FirstFrame(s, lim).payload) + s[FirstFrame(s, lim).size..]
  {
    var (claimed, n) := DecodeVarint(s).value;
    DecodeVarintExactly(s, claimed, n);
    assert s == s[..n] + s[n..n + claimed] + s[n + claimed..];
  }

  lemma FramesCons(payload: seq<u8>, ms: seq<seq<u8>>, rest: seq<u8>)
    requires |payload| <= MAX_VARINT && forall i :: 0 <= i < |ms| ==> |ms[i]| <= MAX_VARINT
    ensures Frames([payload] + ms) + rest == Frame(payload) + (Frames(ms) + rest)
  {
    hide Frame;
    assert ([payload] + ms)[1..] == ms;
  }

  lemma {:induction false} ParseAdmits(s: seq<u8>, lim: FrameLimits)
    ensures AllAdmitted(Parse(s, lim).messages, lim)
    ensures !FirstFrame(Parse(s, lim).rest, lim).Whole?
    decreases |s|
  {
    hide DecodeVarint;
    var h := FirstFrame(s, lim);
    if h.Whole? {
      ParseAdmits(s[h.size..], lim);
    }
  }

  /** Nothing is lost or invented: without an error the stream is the frames read plus the rest. */
  lemma {:induction false} ParseIsLossless(s: seq<u8>, lim: FrameLimits)
    requires lim.Valid()
    ensures AllAdmitted(Parse(s, lim).messages, lim)
    ensures s == Frames(Parse(s, lim).messages) + Parse(s, lim).rest
    decreases |s|
  {
    hide FirstFrame, Frame;
    ParseAdmits(s, lim);
    var h := FirstFrame(s, lim);
    if h.Whole? {
      WholeIsFrame(s, lim);
      ParseIsLossless(s[h.size..], lim);
      var r := Parse(s[h.size..], lim);
      FramesCons(h.payload, r.messages, r.rest);
    }
  }

  lemma {:induction false} RestIsPartial(s: seq<u8>, lim: FrameLimits)
    requires Parse(s, lim).error == None
    ensures FirstFrame(Parse(s, lim).rest, lim).Partial?
    decreases |s|
  {
    hide DecodeVarint;
    if FirstFrame(s, lim).Whole? {
      RestIsPartial(s[FirstFrame(s, lim).size..], lim);
    }
  }

  /** Every prefix of a stream of admitted frames reads without error, as a prefix of the payloads. */
  lemma ParsePrefix(payloads: seq<seq<u8>>, cut: seq<u8>, lim: FrameLimits)
    requires lim.Valid() && AllAdmitted(payloads, lim)
    requires cut <= Frames(payloads)
    ensures Parse(cut, lim).error == None && Parse(cut, lim).messages <= payloads
  {
    var t := Frames(payloads)[|cut|..];
    assert cut + t == Frames(payloads);
    ParseFrames(payloads, lim);
    ParseAppend(cut, t, lim);
  }

  // ---------------------------------------------------------------- arbitrary chunking

  function Concat(chunks: seq<seq<u8>>): seq<u8> {
    if chunks == [] then [] else Concat(chunks[..|chunks| - 1]) + chunks[|chunks| - 1]
  }

  /** Feeding the chunks one by one, each time resuming where the previous chunk stopped. */
  function FeedChunks(chunks: seq<seq<u8>>, lim: FrameLimits): Parsed {
    if chunks == [] then Parsed([], [], None)
    else Resume(FeedChunks(chunks[..|chunks| - 1], lim), chunks[|chunks| - 1], lim)
  }

  /** Any partition of a stream gives the messages, the leftover and the error of the whole stream. */
  lemma {:induction false} ChunkingIndependence(chunks: seq<seq<u8>>, lim: FrameLimits)
    ensures FeedChunks(chunks, lim) == Parse(Concat(chunks), lim)
  {
    if chunks != [] {
      ChunkingIndependence(chunks[..|chunks| - 1], lim);
      ParseAppend(Concat(chunks[..|chunks| - 1]), chunks[|chunks| - 1], lim);
    }
  }

  /** The stream so far ends on a frame boundary exactly when nothing is left over. */
  lemma BoundaryExactly(s: seq<u8>, lim: FrameLimits)
    requires lim.Valid()
    ensures Parse(s, lim).rest == [] <==>
            exists payloads :: AllAdmitted(payloads, lim) && s == Frames(payloads)
  {
    ParseIsLossless(s, lim);
    if Parse(s, lim).rest == [] {
      assert s == Frames(Parse(s, lim).messages);
    }
    forall payloads | AllAdmitted(payloads, lim) && s == Frames(payloads)
      ensures Parse(s, lim).rest == []
    {
      ParseFrames(payloads, lim);
    }
  }

  // ---------------------------------------------------------------- the incremental frame decoder

  datatype FrameState =
    | Length(octets: seq<u8>, filled: nat, needed: nat)
    | Payload(expected: nat, bytes: seq<u8>)

  /** Outcome of the length phase of one call. */
  datatype LengthStep = NeedMore | EmptyFrame | LengthReady | Bad(error: FrameError)

  datatype FrameConsume = FrameConsume(consumed: nat, message: Option<seq<u8>>)

  const EmptyLength: FrameState := Length([0, 0, 0, 0, 0, 0, 0, 0], 0, 0)

  class ReliableFrameDecoder {
    const limits: FrameLimits
    var state: FrameState

    /** The octets taken in since the last frame boundary. */
    ghost function Pending(): seq<u8>
      requires Valid()
      reads this
    {
      match state
      case Length(octets, filled, _) => octets[..filled]
      case Payload(expected, bytes) => Varint(expected) + bytes
    }

    ghost predicate Valid()
      reads this
    {
      && limits.Valid()
      && match state
         case Length(octets, filled, needed) =>
           && |octets| == 8 && filled <= 8
           && (filled > 0 ==> needed == AnnouncedLen(octets[0]) && filled <= needed)
           && (filled > 0 && filled == needed ==> FirstFrame(octets[..filled], limits).Malformed?)
         case Payload(expected, bytes) =>
           1 <= expected && |bytes| < expected && limits.Admits(expected)
    }

    constructor (limits: FrameLimits)
      requires limits.Valid()
      ensures Valid() && this.limits == limits && Pending() == []
    {
      this.limits := limits;
      state := EmptyLength;
    }

    static method Create(maxMessage: nat, maxStaging: nat) returns (r: Result<ReliableFrameDecoder, FrameError>)
      ensures r.Err? <==> !FrameLimits(maxMessage, maxStaging).Valid()
      ensures r.Err? ==> r.error == if maxMessage == 0 || maxStaging == 0 then InvalidLimit else LengthOutOfProfileRange
      ensures r.Ok? ==> fresh(r.value) && r.value.Valid() && r.value.Pending() == []
      ensures r.Ok? ==> r.value.limits == FrameLimits(maxMessage, maxStaging)
    {
      if maxMessage == 0 || maxStaging == 0 {
        return Err(InvalidLimit);
      }
      if maxMessage > MAX_VARINT || maxStaging > MAX_VARINT {
        return Err(LengthOutOfProfileRange);
      }
      var d := new ReliableFrameDecoder(FrameLimits(maxMessage, maxStaging));
      return Ok(d);
    }

    /** Takes octets until one frame completes, the input runs out, or the stream is malformed.
        A malformed stream stays malformed: its pending octets are kept. */
    method Consume(input: seq<u8>) returns (r: Result<FrameConsume, FrameError>)
      requires Valid()
      modifies this
      ensures Valid()
      ensures match FirstFrame(old(Pending()) + input, limits)
              case Partial => r == Ok(FrameConsume(|input|, None)) && Pending() == old(Pending()) + input
              case Whole(payload, size) =>
                && |old(Pending())| <= size
                && r == Ok(FrameConsume(size - |old(Pending())|, Some(payload))) && Pending() == []
              case Malformed(e) =>
                && r == Err(e) && FirstFrame(Pending(), limits) == Malformed(e)
                && Pending() <= old(Pending()) + input
      ensures r.Ok? && input != [] ==> r.value.consumed > 0
    {
      hide FirstFrame;
      ghost var before := Pending();
      var consumed := 0;
      if state.Length? {
        var take, step := FillLength(input);
        match step {
          case Bad(e) => return Err(e);
          case EmptyFrame => return Ok(FrameConsume(take, Some([])));
          case NeedMore => return Ok(FrameConsume(take, None));
          case LengthReady => consumed := take;
        }
      }
      assert Pending() + input[consumed..] == before + input;
      var more, message := FillPayload(input[consumed..]);
      return Ok(FrameConsume(consumed + more, message));
    }

    /** The length phase: take the missing prefix octets and, once complete, judge the length. */
    method FillLength(input: seq<u8>) returns (take: nat, step: LengthStep)
      requires Valid() && state.Length?
      modifies this
      ensures Valid() && take <= |input|
      ensures match step
              case Bad(e) =>
                && FirstFrame(old(Pending()) + input, limits) == Malformed(e)
                && FirstFrame(Pending(), limits) == Malformed(e) && Pending() <= old(Pending()) + input
              case EmptyFrame => Pending() == [] && FirstFrame(old(Pending()) + input, limits) == Whole([], |old(Pending())| + take)
              case NeedMore => Pending() == old(Pending()) + input && take == |input| && FirstFrame(Pending(), limits).Partial?
              case LengthReady => Pending() == old(Pending()) + input[..take] && state.Payload?
      ensures input != [] && !step.Bad? ==> take > 0
    {
      hide VarintPayload, VarintLen;
      var Length(octets, filled, needed) := state;
      if filled == 0 {
        if input == [] {
          return 0, NeedMore;
        }
        needed := AnnouncedLen(input[0]);
      }
      ghost var before := octets[..filled];
      take := Min(|input|, needed - filled);
      octets := octets[..filled] + input[..take] + octets[filled + take..];
      filled := filled + take;
      assert octets[..filled] == before + input[..take];
      if filled != needed {
        state := Length(octets, filled, needed);
        assert input[..take] == input;
        return take, NeedMore;
      }
      ghost var s, t := before + input[..take], input[take..];
      assert s + t == before + input && octets[..needed] == s;
      var error := JudgeLength(octets[..needed]);
      match error {
        case Some(e) =>
          FirstFrameStable(s, t, limits);
          state := Length(octets, filled, needed);
          return take, Bad(e);
        case None =>
      }
      var (claimed, n) := DecodeVarint(octets[..needed]).value;
      if claimed == 0 {
        ZeroFrame(s, t, limits);
        state := EmptyLength;
        return take, EmptyFrame;
      }
      DecodeVarintExactly(octets[..needed], claimed, n);
      assert s[..n] == s;
      state := Payload(claimed, []);
      return take, LengthReady;
    }

    /** The checks on a complete length prefix, before any payload is stored. */
    method JudgeLength(prefix: seq<u8>) returns (error: Option<FrameError>)
      requires prefix != [] && |prefix| == AnnouncedLen(prefix[0])
      ensures match error
              case Some(e) => FirstFrame(prefix, limits) == Malformed(e)
              case None => DecodeVarint(prefix).Ok? && DecodeVarint(prefix).value.1 == |prefix| && limits.Admits(DecodeVarint(prefix).value.0)
    {
      var decoded := DecodeVarintLoop(prefix);
      match decoded {
        case Err(e) => return Some(BadLength(e));
        case Ok((claimed, _)) =>
          if claimed > limits.maxMessage {
            return Some(MessageTooLarge(claimed, limits.maxMessage));
          }
          if claimed > limits.maxStaging {
            return Some(StagingLimitExceeded(claimed, limits.maxStaging));
          }
          return None;
      }
    }

    method FillPayload(input: seq<u8>) returns (take: nat, message: Option<seq<u8>>)
      requires Valid() && state.Payload?
      modifies this
      ensures Valid() && take <= |input|
      ensures match FirstFrame(old(Pending()) + input, limits)
              case Partial => take == |input| && message == None && Pending() == old(Pending()) + input
              case Whole(payload, size) => size == |old(Pending())| + take && message == Some(payload) && Pending() == []
              case Malformed(_) => false
      ensures input != [] ==> take > 0
    {
      var Payload(expected, bytes) := state;
      take := Min(|input|, expected - |bytes|);
      ghost var s := Varint(expected) + bytes + input;
      assert s == Varint(expected) + (bytes + input);
      DecodeVarintAppend(expected, bytes + input);
      assert bytes + input == (bytes + input[..take]) + input[take..];
      bytes := bytes + input[..take];
      if |bytes| == expected {
        state := EmptyLength;
        assert s == Varint(expected) + (bytes + input[take..]);
        MiddleSlice(Varint(expected), bytes, input[take..]);
        return take, Some(bytes);
      }
      state := Payload(expected, bytes);
      assert input[..take] == input;
      return take, None;
    }

    /** End of stream: clean exactly on a frame boundary. */
    method Finish() returns (r: Result<(), FrameError>)
      requires Valid()
      ensures r == if Pending() == [] then Ok(()) else Err(TruncatedFrame)
    {
      match state {
        case Length(_, filled, _) => r := if filled == 0 then Ok(()) else Err(TruncatedFrame);
        case Payload(_, _) => r := Err(TruncatedFrame);
      }
    }
  }

  lemma MiddleSlice(a: seq<u8>, b: seq<u8>, c: seq<u8>)
    ensures (a + (b + c))[|a|..|a| + |b|] == b
  {
  }

  lemma ZeroFrame(s: seq<u8>, t: seq<u8>, lim: FrameLimits)
    requires DecodeVarint(s) == Ok((0, |s|))
    ensures FirstFrame(s + t, lim) == Whole([], |s|)
  {
    DecodeVarintStable(s, t);
    assert (s + t)[|s|..|s|] == [];
  }

  // ---------------------------------------------------------------- the FlowId prefix

  datatype PrefixConsume = PrefixConsume(consumed: nat, flowId: Option<FlowId>)

  class FlowIdPrefix {
    var octets: seq<u8>
    var filled: nat
    var needed: nat

    ghost predicate Valid()
      reads this
    {
      && |octets| == 8 && filled <= 8
      && (filled > 0 ==> needed == AnnouncedLen(octets[0]) && filled <= needed)
    }

    ghost function Pending(): seq<u8>
      requires Valid()
      reads this
    {
      octets[..filled]
    }

    constructor ()
      ensures Valid() && Pending() == []
    {
      octets := [0, 0, 0, 0, 0, 0, 0, 0];
      filled := 0;
      needed := 0;
    }

    method Consume(input: seq<u8>) returns (r: Result<PrefixConsume, VarintError>)
      requires Valid()
      modifies this
      ensures Valid()
      ensures match DecodeVarint(old(Pending()) + input)
              case Err(Incomplete(_, _)) => r == Ok(PrefixConsume(|input|, None)) && Pending() == old(Pending()) + input
              case Err(NonMinimal) => r == Err(NonMinimal)
              case Ok((v, n)) =>
                && n >= |old(Pending())| && Pending() == (old(Pending()) + input)[..n]
                && r == Ok(PrefixConsume(n - |old(Pending())|, Some(v)))
    {
      if filled == 0 {
        if input == [] {
          return Ok(PrefixConsume(0, None));
        }
        needed := AnnouncedLen(input[0]);
      }
      hide VarintPayload, VarintLen;
      ghost var before := octets[..filled];
      ghost var whole := before + input;
      var take := Min(|input|, needed - filled);
      octets := octets[..filled] + input[..take] + octets[filled + take..];
      filled := filled + take;
      assert octets[..filled] == whole[..filled];
      assert whole[0] == octets[0];
      if filled != needed {
        return Ok(PrefixConsume(take, None));
      }
      var decoded := DecodeVarint(octets[..needed]);
      DecodeVarintStable(octets[..needed], whole[needed..]);
      assert octets[..needed] + whole[needed..] == whole;
      match decoded {
        case Err(e) => return Err(e);
        case Ok((v, _)) => return Ok(PrefixConsume(take, Some(v)));
      }
    }
  }
}
