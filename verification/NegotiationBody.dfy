/** Reading negotiation bodies under a budget: fixed-width identities, flags, counts, and lists whose
    size is charged before their entries are read. */
module NegotiationBody {
  import opened Basics
  import opened Wire
  import opened Offers

  datatype WireFault =
    | BadVarint(varintError: VarintError)
    | Truncated
    | TrailingBytes
    | UnknownRequirement(flag: u8)
    | UnknownOutcome(value: nat)

  datatype DecodeError = Malformed(fault: WireFault) | Failure(outcome: NegotiationOutcome)

  /** What is left to read, and what has been charged so far. */
  datatype Cursor = Cursor(rest: seq<u8>, used: nat)

  type Parsed<T> = Result<(T, Cursor), DecodeError>

  datatype Budget = Budget(limit: usize, exceeded: NegotiationOutcome)

  // ---------------------------------------------------------------- fields

  function IdBytes(id: u128): (s: seq<u8>)
    ensures |s| == 16
  {
    BigEndian(id, 16)
  }

  function ReadId(c: Cursor): Parsed<u128> {
    if |c.rest| < 16 then Err(Malformed(Truncated))
    else
      WideIsPower();
      Ok((FromBigEndian(c.rest[..16]), c.(rest := c.rest[16..])))
  }

  lemma WideIsPower()
    ensures Power256(16) == 0x1_0000_0000_0000_0000_0000_0000_0000_0000
  {
    assert Power256(4) == 0x1_0000_0000;
    assert Power256(8) == 0x1_0000_0000_0000_0000;
    assert Power256(12) == 0x1_0000_0000_0000_0000_0000_0000;
  }

  function Flag(r: Requirement): u8 {
    match r case Optional => 0 case Required => 1
  }

  function ReadRequirement(c: Cursor): Parsed<Requirement> {
    if c.rest == [] then Err(Malformed(Truncated))
    else if c.rest[0] == 0 then Ok((Optional, c.(rest := c.rest[1..])))
    else if c.rest[0] == 1 then Ok((Required, c.(rest := c.rest[1..])))
    else Err(Malformed(UnknownRequirement(c.rest[0])))
  }

  function ReadVarint(c: Cursor): Parsed<nat> {
    match DecodeVarint(c.rest)
    case Err(e) => Err(Malformed(BadVarint(e)))
    case Ok((v, n)) => Ok((v, c.(rest := c.rest[n..])))
  }

  function ReadCount(c: Cursor, max: usize, exceeded: NegotiationOutcome): Parsed<nat> {
    var r :- ReadVarint(c);
    if r.0 > max then Err(Failure(exceeded)) else Ok(r)
  }

  function Charge(c: Cursor, bytes: nat, b: Budget): (r: Result<Cursor, DecodeError>)
    ensures r.Ok? ==> r.value.used <= b.limit
  {
    if c.used + bytes > b.limit then Err(Failure(b.exceeded)) else Ok(c.(used := c.used + bytes))
  }

  lemma IdReads(id: u128, rest: seq<u8>, used: nat)
    ensures ReadId(Cursor(IdBytes(id) + rest, used)) == Ok((id, Cursor(rest, used)))
  {
    WideIsPower();
    BigEndianDecodes(id, 16);
    assert (IdBytes(id) + rest)[..16] == IdBytes(id);
    assert (IdBytes(id) + rest)[16..] == rest;
  }

  lemma IdWasWritten(c: Cursor)
    requires ReadId(c).Ok?
    ensures var (id, after) := ReadId(c).value; c.rest == IdBytes(id) + after.rest && after.used == c.used
  {
    BigEndianEncodes(c.rest[..16]);
  }

  lemma RequirementReads(r: Requirement, rest: seq<u8>, used: nat)
    ensures ReadRequirement(Cursor([Flag(r)] + rest, used)) == Ok((r, Cursor(rest, used)))
  {
  }

  lemma RequirementWasWritten(c: Cursor)
    requires ReadRequirement(c).Ok?
    ensures var (r, after) := ReadRequirement(c).value; c.rest == [Flag(r)] + after.rest && after.used == c.used
  {
  }

  lemma CountReads(n: nat, rest: seq<u8>, used: nat, max: usize, exceeded: NegotiationOutcome)
    requires n <= max && n <= MAX_VARINT
    ensures ReadCount(Cursor(Varint(n) + rest, used), max, exceeded) == Ok((n, Cursor(rest, used)))
  {
    DecodeVarintAppend(n, rest);
    assert (Varint(n) + rest)[|Varint(n)|..] == rest;
  }

  lemma CountWasWritten(c: Cursor, max: usize, exceeded: NegotiationOutcome)
    requires ReadCount(c, max, exceeded).Ok?
    ensures var (n, after) := ReadCount(c, max, exceeded).value;
            n <= max && n <= MAX_VARINT && c.rest == Varint(n) + after.rest && after.used == c.used
  {
    var (n, size) := DecodeVarint(c.rest).value;
    DecodeVarintExactly(c.rest, n, size);
    assert c.rest == c.rest[..size] + c.rest[size..];
  }

  // ---------------------------------------------------------------- lists

  function ReadMany<T>(item: Cursor -> Parsed<T>, n: nat, c: Cursor): Parsed<seq<T>> {
    if n == 0 then Ok(([], c))
    else
      var first :- item(c);
      var more :- ReadMany(item, n - 1, first.1);
      Ok(([first.0] + more.0, more.1))
  }

  /** A bounded count, the charge for that many entries, then the entries. */
  function ReadList<T>(item: Cursor -> Parsed<T>, max: usize, width: nat, b: Budget, c: Cursor): Parsed<seq<T>> {
    var count :- ReadCount(c, max, b.exceeded);
    var charged :- Charge(count.1, count.0 * width, b);
    ReadMany(item, count.0, charged)
  }

  function WriteMany<T>(write: T -> seq<u8>, xs: seq<T>): seq<u8> {
    if xs == [] then [] else write(xs[0]) + WriteMany(write, xs[1..])
  }

  function WriteList<T>(write: T -> seq<u8>, xs: seq<T>): seq<u8>
    requires |xs| <= MAX_VARINT
  {
    Varint(|xs|) + WriteMany(write, xs)
  }

  function SumOf<T>(cost: T -> nat, xs: seq<T>): nat {
    if xs == [] then 0 else cost(xs[0]) + SumOf(cost, xs[1..])
  }

  /** `item` reads back what `write` wrote of a fitting value, charges its cost, and accepts nothing else. */
  ghost predicate Reads<T(!new)>(item: Cursor -> Parsed<T>, write: T -> seq<u8>, cost: T -> nat, fits: T -> bool, b: Budget) {
    && (forall x, rest, used: nat :: fits(x) && used + cost(x) <= b.limit ==>
          item(Cursor(write(x) + rest, used)) == Ok((x, Cursor(rest, used + cost(x)))))
    && (forall c: Cursor :: c.used <= b.limit && item(c).Ok? ==>
          && fits(item(c).value.0)
          && c.rest == write(item(c).value.0) + item(c).value.1.rest
          && item(c).value.1.used == c.used + cost(item(c).value.0) <= b.limit)
  }

  lemma OneReads<T(!new)>(item: Cursor -> Parsed<T>, write: T -> seq<u8>, cost: T -> nat, fits: T -> bool, b: Budget, x: T, rest: seq<u8>, used: nat)
    requires Reads(item, write, cost, fits, b) && fits(x) && used + cost(x) <= b.limit
    ensures item(Cursor(write(x) + rest, used)) == Ok((x, Cursor(rest, used + cost(x))))
  {
  }

  lemma OneWasWritten<T(!new)>(item: Cursor -> Parsed<T>, write: T -> seq<u8>, cost: T -> nat, fits: T -> bool, b: Budget, c: Cursor)
    requires Reads(item, write, cost, fits, b) && c.used <= b.limit && item(c).Ok?
    ensures var (x, after) := item(c).value;
            fits(x) && c.rest == write(x) + after.rest && after.used == c.used + cost(x) <= b.limit
  {
  }

  lemma {:induction false} ManyReads<T(!new)>(item: Cursor -> Parsed<T>, write: T -> seq<u8>, cost: T -> nat, fits: T -> bool, b: Budget,
                                              xs: seq<T>, rest: seq<u8>, used: nat)
    requires Reads(item, write, cost, fits, b) && (forall x :: x in xs ==> fits(x)) && used + SumOf(cost, xs) <= b.limit
    ensures ReadMany(item, |xs|, Cursor(WriteMany(write, xs) + rest, used)) == Ok((xs, Cursor(rest, used + SumOf(cost, xs))))
  {
    hide Reads;
    if xs == [] {
      assert WriteMany(write, xs) + rest == rest;
    } else {
      var tail := WriteMany(write, xs[1..]) + rest;
      assert WriteMany(write, xs) + rest == write(xs[0]) + tail;
      OneReads(item, write, cost, fits, b, xs[0], tail, used);
      ManyReads(item, write, cost, fits, b, xs[1..], rest, used + cost(xs[0]));
      assert xs == [xs[0]] + xs[1..];
    }
  }

  lemma {:induction false} ManyWereWritten<T(!new)>(item: Cursor -> Parsed<T>, write: T -> seq<u8>, cost: T -> nat, fits: T -> bool, b: Budget,
                                                    n: nat, c: Cursor)
    requires Reads(item, write, cost, fits, b) && c.used <= b.limit && ReadMany(item, n, c).Ok?
    ensures var (xs, after) := ReadMany(item, n, c).value;
            && |xs| == n && (forall x :: x in xs ==> fits(x))
            && c.rest == WriteMany(write, xs) + after.rest && after.used == c.used + SumOf(cost, xs) <= b.limit
  {
    hide Reads;
    if n == 0 {
      assert c.rest == WriteMany(write, []) + c.rest;
    } else {
      var first := item(c).value;
      OneWasWritten(item, write, cost, fits, b, c);
      ManyWereWritten(item, write, cost, fits, b, n - 1, first.1);
      var more := ReadMany(item, n - 1, first.1).value;
      var xs := [first.0] + more.0;
      assert xs[1..] == more.0;
      assert c.rest == write(first.0) + (WriteMany(write, more.0) + more.1.rest);
    }
  }

  lemma ListReads<T(!new)>(item: Cursor -> Parsed<T>, write: T -> seq<u8>, cost: T -> nat, fits: T -> bool, b: Budget, max: usize, width: nat,
                           xs: seq<T>, rest: seq<u8>, used: nat)
    requires Reads(item, write, cost, fits, b)
    requires |xs| <= max && |xs| <= MAX_VARINT && (forall x :: x in xs ==> fits(x)) && used + |xs| * width + SumOf(cost, xs) <= b.limit
    ensures ReadList(item, max, width, b, Cursor(WriteList(write, xs) + rest, used))
            == Ok((xs, Cursor(rest, used + |xs| * width + SumOf(cost, xs))))
  {
    hide Reads, ReadCount, ReadMany, WriteMany, SumOf, Varint;
    var tail := WriteMany(write, xs) + rest;
    assert WriteList(write, xs) + rest == Varint(|xs|) + tail;
    CountReads(|xs|, tail, used, max, b.exceeded);
    ManyReads(item, write, cost, fits, b, xs, rest, used + |xs| * width);
  }

  lemma ListWasWritten<T(!new)>(item: Cursor -> Parsed<T>, write: T -> seq<u8>, cost: T -> nat, fits: T -> bool, b: Budget, max: usize, width: nat,
                                c: Cursor)
    requires Reads(item, write, cost, fits, b) && c.used <= b.limit && ReadList(item, max, width, b, c).Ok?
    ensures var (xs, after) := ReadList(item, max, width, b, c).value;
            && |xs| <= max && |xs| <= MAX_VARINT && (forall x :: x in xs ==> fits(x))
            && c.rest == WriteList(write, xs) + after.rest
            && after.used == c.used + |xs| * width + SumOf(cost, xs) <= b.limit
  {
    hide Reads, ReadCount, ReadMany, WriteMany, SumOf, Varint;
    CountWasWritten(c, max, b.exceeded);
    var count := ReadCount(c, max, b.exceeded).value;
    var charged := Charge(count.1, count.0 * width, b).value;
    ManyWereWritten(item, write, cost, fits, b, count.0, charged);
    var (xs, after) := ReadMany(item, count.0, charged).value;
    assert c.rest == Varint(|xs|) + (WriteMany(write, xs) + after.rest);
  }
}
