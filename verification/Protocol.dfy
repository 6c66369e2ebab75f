/**
 The Minecraft framing of the acceptance probe: VarInts, length-prefixed strings and
 packets. What the writers produce is read back exactly, up to the size the readers accept.
 */
module Protocol {
  import opened Octets

  const MAX_PACKET := 0x10_0000
  const TWO32 := 0x1_0000_0000

  type uint32 = x: int | 0 <= x < TWO32
  type int32 = x: int | -0x8000_0000 <= x < 0x8000_0000

  datatype Error = EndOfInput | VarIntTooLong | InvalidLength(length: int32)
  datatype Result<+T> = Ok(value: T) | Err(error: Error)

  /** Go's conversion uint32(v). */
  function Unsigned(v: int32): uint32 {
    if v < 0 then v + TWO32 else v
  }

  /** Go's conversion int32(u). */
  function Signed(u: uint32): int32 {
    if u < 0x8000_0000 then u else u - TWO32
  }

  /** Go's conversion int32(n) of a length. */
  function Wrapped(n: nat): int32 {
    Signed(n % TWO32)
  }

  // ---- VarInt ---------------------------------------------------------------

  function VarInt(u: uint32): seq<byte> {
    if u < 128 then [u] else [128 + u % 128] + VarInt(u / 128)
  }

  method AppendVarInt(destination: seq<byte>, value: int32) returns (out: seq<byte>)
    ensures out == destination + VarInt(Unsigned(value))
  {
    var remaining: uint32 := Unsigned(value);
    out := destination;
    while true
      invariant out + VarInt(remaining) == destination + VarInt(Unsigned(value))
      decreases remaining
    {
      var current: byte := remaining % 128;
      ghost var before, was := out, remaining;
      remaining := remaining / 128;
      if remaining != 0 { current := current + 128; }
      out := out + [current];
      if remaining == 0 {
        return;
      }
      assert before + VarInt(was) == out + VarInt(remaining);
    }
  }

  /** Index of the first byte without the continuation bit, or the length. */
  function Last(s: seq<byte>): (n: nat)
    ensures n <= |s|
  {
    if s == [] || s[0] < 128 then 0 else 1 + Last(s[1..])
  }

  lemma {:induction false} LastEnds(s: seq<byte>)
    ensures Last(s) < |s| ==> s[Last(s)] < 128
    ensures forall m :: 0 <= m < Last(s) ==> s[m] >= 128
  {
    if s != [] && s[0] >= 128 {
      LastEnds(s[1..]);
      assert forall m :: 0 < m < Last(s) ==> s[m] == s[1..][m - 1];
    }
  }

  /** Little-endian value of the seven-bit groups. */
  function Weight(s: seq<byte>): nat {
    if s == [] then 0 else s[0] % 128 + 128 * Weight(s[1..])
  }

  /** What reading a VarInt from s yields, and what is left of s. */
  function ReadVarIntFrom(s: seq<byte>): (Result<int32>, seq<byte>) {
    var n := Last(s);
    if n >= 5 then (Err(VarIntTooLong), s[5..])
    else if n == |s| then (Err(EndOfInput), [])
    else (Ok(Wrapped(Weight(s[..n + 1]))), s[n + 1..])
  }

  function Pow128(n: nat): nat {
    if n == 0 then 1 else 128 * Pow128(n - 1)
  }

  lemma {:induction false} WeightAppends(s: seq<byte>, b: byte)
    ensures Weight(s + [b]) == Weight(s) + b % 128 * Pow128(|s|)
  {
    if s == [] {
      assert s + [b] == [b];
    } else {
      assert (s + [b])[1..] == s[1..] + [b];
      WeightAppends(s[1..], b);
      assert 128 * (b % 128 * Pow128(|s| - 1)) == b % 128 * (128 * Pow128(|s| - 1)) by {
        Rearrange(b % 128, Pow128(|s| - 1));
      }
    }
  }

  lemma Rearrange(x: int, y: int)
    ensures 128 * (x * y) == x * (128 * y)
  {
  }

  lemma {:induction false} WeightBound(s: seq<byte>)
    ensures Weight(s) < Pow128(|s|)
  {
    if s != [] { WeightBound(s[1..]); }
  }

  function Pow2(n: nat): nat {
    if n == 0 then 1 else 2 * Pow2(n - 1)
  }

  /** Bitwise or. */
  function Or(a: nat, b: nat): nat {
    if a == 0 && b == 0 then 0 else 2 * Or(a / 2, b / 2) + if a % 2 == 1 || b % 2 == 1 then 1 else 0
  }

  /** Setting bits above all bits of a number is adding them. */
  lemma {:induction false} OrIsSum(a: nat, b: nat, n: nat)
    requires a < Pow2(n)
    ensures Or(a, b * Pow2(n)) == a + b * Pow2(n)
    decreases n
  {
    if n == 0 {
      OrZero(b);
      assert a == 0 && b * Pow2(0) == b;
    } else {
      var c := b * Pow2(n - 1);
      DoublePow(b, n);
      OrIsSum(a / 2, b, n - 1);
    }
  }

  lemma DoublePow(b: nat, n: nat)
    requires n > 0
    ensures b * Pow2(n) == 2 * (b * Pow2(n - 1))
  {
  }

  lemma {:induction false} OrZero(b: nat)
    ensures Or(0, b) == b
  {
    if b > 0 { OrZero(b / 2); }
  }

  /** Go's shift of a uint32, which drops what leaves the 32 bits. */
  function Shifted(u: uint32, n: nat): uint32 {
    u * Pow2(n) % TWO32
  }

  lemma Weights()
    ensures Pow2(0) == 1 && Pow2(7) == 0x80 && Pow2(14) == 0x4000 && Pow2(21) == 0x20_0000 && Pow2(28) == 0x1000_0000
    ensures Pow128(0) == 1 && Pow128(1) == 0x80 && Pow128(2) == 0x4000 && Pow128(3) == 0x20_0000
    ensures Pow128(4) == 0x1000_0000
  {
    assert Pow2(7) == 0x80;
    assert Pow2(14) == 0x4000;
    assert Pow2(21) == 0x20_0000;
  }

  /** A group whose weight leaves room for seven more bits is added without loss. */
  lemma OrAddsLowGroup(value: uint32, group: uint32, position: nat, sum: nat)
    requires position < 4 && value < Pow128(position) && Pow2(7 * position) == Pow128(position)
    requires sum == group * Pow128(position) && value + sum < TWO32
    ensures Or(value, Shifted(group, 7 * position)) == value + sum
  {
    hide Or, Pow2, Pow128;
    OrIsSum(value, group, 7 * position);
  }

  lemma OrAddsTopGroup(value: uint32, group: uint32)
    requires value < 0x1000_0000
    ensures Or(value, Shifted(group, 28)) == (value + group * 0x1000_0000) % TWO32
  {
    hide Or, Pow2, Pow128;
    Weights();
    OrIsSum(value, group % 16, 28);
    assert group * 0x1000_0000 % TWO32 == group % 16 * 0x1000_0000;
  }

  /** The reader's `value |= group << (7 * position)` adds the group at its weight, modulo 32 bits. */
  lemma OrAddsGroup(value: uint32, group: uint32, position: nat)
    requires position < 5 && group < 128 && value < Pow128(position)
    ensures Or(value, Shifted(group, 7 * position)) == (value + group * Pow128(position)) % TWO32
  {
    hide Or, Pow2, Pow128, Shifted;
    Weights();
    match position {
      case 0 => OrAddsLowGroup(value, group, 0, group);
      case 1 => OrAddsLowGroup(value, group, 1, 0x80 * group);
      case 2 => OrAddsLowGroup(value, group, 2, 0x4000 * group);
      case 3 => OrAddsLowGroup(value, group, 3, 0x20_0000 * group);
      case _ => OrAddsTopGroup(value, group);
    }
  }

  /** A reader of bytes already received. */
  class ByteReader {
    var rest: seq<byte>

    constructor (input: seq<byte>)
      ensures rest == input
    {
      rest := input;
    }

    method ReadByte() returns (r: Result<byte>)
      modifies this
      ensures if old(rest) == [] then r == Err(EndOfInput) && rest == []
              else r == Ok(old(rest)[0]) && rest == old(rest)[1..]
    {
      if rest == [] { return Err(EndOfInput); }
      r := Ok(rest[0]);
      rest := rest[1..];
    }

    method ReadFull(n: nat) returns (r: Result<seq<byte>>)
      modifies this
      ensures if n <= |old(rest)| then r == Ok(old(rest)[..n]) && rest == old(rest)[n..]
              else r == Err(EndOfInput) && rest == []
    {
      if n > |rest| {
        rest := [];
        return Err(EndOfInput);
      }
      r := Ok(rest[..n]);
      rest := rest[n..];
    }
  }

  /** One more group brings the value from the weight of the bytes so far to the weight with the next byte. */
  lemma GroupRead(s: seq<byte>, position: nat, value: uint32)
    requires position < 5 && position < |s| && value == Weight(s[..position]) % TWO32 && value < Pow128(position)
    ensures var next := Or(value, Shifted(s[position] % 128, 7 * position));
            next == Weight(s[..position + 1]) % TWO32 && next < Pow128(position + 1)
  {
    hide Or, Shifted, Weight, Pow128;
    var group := s[position] % 128;
    assert s[..position + 1] == s[..position] + [s[position]];
    WeightAppends(s[..position], s[position]);
    OrAddsGroup(value, group, position);
    SumOfRemainders(Weight(s[..position]), group * Pow128(position));
    WeightBound(s[..position + 1]);
  }

  method ReadVarInt(reader: ByteReader) returns (r: Result<int32>)
    modifies reader
    ensures (r, reader.rest) == ReadVarIntFrom(old(reader.rest))
  {
    assert Weight([]) == 0 && Pow128(0) == 1;
    hide Or, Shifted, Weight, Pow128;
    ghost var s := reader.rest;
    var value: uint32 := 0;
    var position := 0;
    while position < 5
      invariant 0 <= position <= 5 && position <= |s| && reader.rest == s[position..]
      invariant forall m :: 0 <= m < position ==> s[m] >= 128
      invariant value == Weight(s[..position]) % TWO32 && value < Pow128(position)
    {
      var next := reader.ReadByte();
      if next.Err? {
        LastIs(s, position);
        return Err(next.error);
      }
      var current := next.value;
      GroupRead(s, position, value);
      value := Or(value, Shifted(current % 128, 7 * position));
      if current < 128 {
        LastIs(s, position);
        return Ok(Signed(value));
      }
      position := position + 1;
    }
    LastIsBeyond(s, 5);
    return Err(VarIntTooLong);
  }

  lemma SumOfRemainders(a: nat, b: nat)
    ensures (a % TWO32 + b) % TWO32 == (a + b) % TWO32
  {
  }

  lemma {:induction false} LastIs(s: seq<byte>, n: nat)
    requires n <= |s| && (forall m :: 0 <= m < n ==> s[m] >= 128) && (n < |s| ==> s[n] < 128)
    ensures Last(s) == n
  {
    LastEnds(s);
  }

  lemma LastIsBeyond(s: seq<byte>, n: nat)
    requires n <= |s| && (forall m :: 0 <= m < n ==> s[m] >= 128)
    ensures Last(s) >= n
  {
    LastEnds(s);
  }

  // ---- What was appended is read back ------------------------------------------

  lemma OneMoreByte(b: byte, rest: seq<byte>)
    ensures b >= 128 ==> Last([b] + rest) == 1 + Last(rest)
    ensures Weight([b] + rest) == b % 128 + 128 * Weight(rest)
  {
    assert ([b] + rest)[1..] == rest;
  }

  lemma VarIntUnfolds(u: uint32) returns (low: byte, high: uint32)
    requires u >= 128
    ensures high < u && low >= 128 && low % 128 + 128 * high == u && VarInt(u) == [low] + VarInt(high)
  {
    low, high := 128 + u % 128, u / 128;
  }

  /** Only the last byte of a VarInt has no continuation bit, and together the bytes weigh its value. */
  lemma {:induction false} VarIntReads(u: uint32, tail: seq<byte>)
    ensures Last(VarInt(u) + tail) == |VarInt(u)| - 1
    ensures Weight(VarInt(u)) == u
  {
    if u < 128 {
    } else {
      hide Last, Weight, VarInt;
      var low, high := VarIntUnfolds(u);
      var rest := VarInt(high);
      VarIntReads(high, tail);
      OneMoreByte(low, rest);
      OneMoreByte(low, rest + tail);
      assert VarInt(u) + tail == [low] + (rest + tail);
    }
  }

  lemma {:induction false} VarIntLength(u: uint32, n: nat)
    requires u < Pow128(n + 1)
    ensures 1 <= |VarInt(u)| <= n + 1
  {
    if u >= 128 {
      assert n > 0 && u / 128 < Pow128(n);
      VarIntLength(u / 128, n - 1);
    }
  }

  /** Reading inverts appending for every int32, in at most five bytes, and leaves what follows. */
  lemma ReadInvertsAppend(v: int32, tail: seq<byte>)
    ensures 1 <= |VarInt(Unsigned(v))| <= 5
    ensures ReadVarIntFrom(VarInt(Unsigned(v)) + tail) == (Ok(v), tail)
  {
    var s := VarInt(Unsigned(v));
    assert Pow128(5) == 128 * (128 * (128 * (128 * (128 * Pow128(0)))));
    hide VarInt, Weight, Last, Pow128;
    VarIntLength(Unsigned(v), 4);
    VarIntReads(Unsigned(v), tail);
    assert (s + tail)[..|s|] == s && (s + tail)[|s|..] == tail;
  }

  /**
   The reader accepts longer encodings too; appending gives back exactly those without a zero or overflowing last
   byte.
   */
  lemma AppendInvertsRead(s: seq<byte>)
    requires Last(s) == |s| - 1 && 1 <= |s| <= 5
    ensures ReadVarIntFrom(s).0.Ok?
    ensures VarInt(Unsigned(ReadVarIntFrom(s).0.value)) == s <==>
            (|s| == 1 || s[|s| - 1] != 0) && (|s| == 5 ==> s[4] < 16)
  {
    hide VarInt, Weight, Last, Pow128;
    LastEnds(s);
    assert s[..|s|] == s;
    var u := Unsigned(ReadVarIntFrom(s).0.value);
    assert u == Weight(s) % TWO32;
    Weighs(s);
    if Weight(s) < TWO32 {
      Minimal(s);
    } else {
      VarIntReads(u, []);
    }
  }

  /** Five groups fit in 32 bits exactly if the last is below sixteen. */
  lemma Weighs(s: seq<byte>)
    requires 1 <= |s| <= 5 && s[|s| - 1] < 128
    ensures Weight(s) < TWO32 <==> (|s| == 5 ==> s[4] < 16)
  {
    var front := s[..|s| - 1];
    assert s == front + [s[|s| - 1]];
    WeightAppends(front, s[|s| - 1]);
    WeightBound(front);
    assert Pow128(0) == 1 && Pow128(1) == 128 && Pow128(2) == 0x4000 && Pow128(3) == 0x20_0000 &&
           Pow128(4) == 0x1000_0000;
  }

  lemma {:induction false} Minimal(s: seq<byte>)
    requires s != [] && Last(s) == |s| - 1 && Weight(s) < TWO32
    ensures VarInt(Weight(s)) == s <==> |s| == 1 || s[|s| - 1] != 0
  {
    if |s| == 1 {
    } else {
      var rest := s[1..];
      var w := Weight(rest);
      assert Last(rest) == |rest| - 1 && Weight(s) == s[0] - 128 + 128 * w;
      Minimal(rest);
      NonZero(rest);
      if w > 0 {
        assert VarInt(Weight(s)) == [s[0]] + VarInt(w) && s == [s[0]] + rest;
      }
    }
  }

  lemma {:induction false} NonZero(s: seq<byte>)
    requires s != [] && Last(s) == |s| - 1
    ensures s[|s| - 1] != 0 ==> Weight(s) > 0
  {
    if |s| > 1 { NonZero(s[1..]); }
  }

  // ---- Packets --------------------------------------------------------------------

  datatype Packet = Packet(id: int32, payload: seq<byte>)

  function Body(p: Packet): seq<byte> {
    VarInt(Unsigned(p.id)) + p.payload
  }

  function Framed(p: Packet): seq<byte> {
    VarInt(Unsigned(Wrapped(|Body(p)|))) + Body(p)
  }

  class ByteWriter {
    var written: seq<byte>

    constructor ()
      ensures written == []
    {
      written := [];
    }

    method WritePacket(id: int32, payload: seq<byte>)
      modifies this
      ensures written == old(written) + Framed(Packet(id, payload))
    {
      var body := AppendVarInt([], id);
      body := body + payload;
      var frame := AppendVarInt([], Wrapped(|body|));
      frame := frame + body;
      written := written + frame;
    }
  }

  function ReadPacketFrom(s: seq<byte>): (Result<Packet>, seq<byte>) {
    var (length, rest) := ReadVarIntFrom(s);
    if length.Err? then (Err(length.error), rest)
    else if length.value < 1 || length.value > MAX_PACKET then (Err(InvalidLength(length.value)), rest)
    else if length.value > |rest| then (Err(EndOfInput), [])
    else
      var (id, payload) := ReadVarIntFrom(rest[..length.value]);
      (if id.Ok? then Ok(Packet(id.value, payload)) else Err(id.error), rest[length.value..])
  }

  method ReadPacket(reader: ByteReader) returns (r: Result<Packet>)
    modifies reader
    ensures (r, reader.rest) == ReadPacketFrom(old(reader.rest))
  {
    var length := ReadVarInt(reader);
    if length.Err? { return Err(length.error); }
    if length.value < 1 || length.value > MAX_PACKET { return Err(InvalidLength(length.value)); }
    var payload := reader.ReadFull(length.value);
    if payload.Err? { return Err(payload.error); }
    var buffer := new ByteReader(payload.value);
    var id := ReadVarInt(buffer);
    if id.Err? { return Err(id.error); }
    return Ok(Packet(id.value, buffer.rest));
  }

  predicate Fits(p: Packet) {
    |Body(p)| <= MAX_PACKET
  }

  lemma FitsReadsBack(p: Packet, tail: seq<byte>)
    requires Fits(p)
    ensures ReadPacketFrom(Framed(p) + tail) == (Ok(p), tail)
  {
    hide ReadVarIntFrom, VarInt;
    var n := |Body(p)|;
    ReadInvertsAppend(p.id, p.payload);
    ReadInvertsAppend(Wrapped(n), Body(p) + tail);
    assert Framed(p) + tail == VarInt(Unsigned(Wrapped(n))) + (Body(p) + tail);
    assert (Body(p) + tail)[..n] == Body(p) && (Body(p) + tail)[n..] == tail;
  }

  lemma OversizedIsLost(p: Packet, tail: seq<byte>)
    requires !Fits(p)
    ensures ReadPacketFrom(Framed(p) + tail).0 != Ok(p)
  {
    hide ReadVarIntFrom, VarInt;
    var n := Wrapped(|Body(p)|);
    ReadInvertsAppend(n, Body(p) + tail);
    assert Framed(p) + tail == VarInt(Unsigned(n)) + (Body(p) + tail);
    if 1 <= n <= MAX_PACKET {
      ReadInvertsAppend(p.id, []);
      ReadShrinks((Body(p) + tail)[..n]);
    }
  }

  lemma ReadShrinks(s: seq<byte>)
    ensures |ReadVarIntFrom(s).1| <= |s|
  {
  }

  /** A packet is read back, with the rest of the stream untouched, if and only if its body is at most 1 MiB. */
  lemma PacketReadsBack(p: Packet, tail: seq<byte>)
    ensures ReadPacketFrom(Framed(p) + tail).0 == Ok(p) <==> |Body(p)| <= MAX_PACKET
    ensures |Body(p)| <= MAX_PACKET ==> ReadPacketFrom(Framed(p) + tail).1 == tail
  {
    if Fits(p) { FitsReadsBack(p, tail); } else { OversizedIsLost(p, tail); }
  }

  function Stream(packets: seq<Packet>): seq<byte> {
    if packets == [] then [] else Framed(packets[0]) + Stream(packets[1..])
  }

  /** Reads packets one after another until one fails. */
  function ReadPackets(s: seq<byte>, count: nat): (Result<seq<Packet>>, seq<byte>) {
    if count == 0 then (Ok([]), s)
    else
      var (first, rest) := ReadPacketFrom(s);
      if first.Err? then (Err(first.error), rest)
      else
        var (others, after) := ReadPackets(rest, count - 1);
        (if others.Ok? then Ok([first.value] + others.value) else Err(others.error), after)
  }

  predicate AllFit(packets: seq<Packet>) {
    forall p :: p in packets ==> Fits(p)
  }

  lemma ReadOne(p: Packet, rest: seq<byte>, count: nat)
    ensures Fits(p) ==>
              ReadPackets(Framed(p) + rest, count + 1) ==
              var (others, after) := ReadPackets(rest, count);
              (if others.Ok? then Ok([p] + others.value) else others, after)
    ensures !Fits(p) ==> ReadPackets(Framed(p) + rest, count + 1).0.Err? ||
                         ReadPackets(Framed(p) + rest, count + 1).0.value[..1] != [p]
  {
    hide Framed, ReadPacketFrom;
    PacketReadsBack(p, rest);
  }

  lemma StreamSplits(p: Packet, others: seq<Packet>, tail: seq<byte>)
    ensures Stream([p] + others) + tail == Framed(p) + (Stream(others) + tail)
    ensures AllFit([p] + others) <==> Fits(p) && AllFit(others)
  {
    hide Framed, Fits;
    assert ([p] + others)[1..] == others;
  }

  /** Any concatenation of packets is read back exactly, and what follows it stays, if and only if all bodies fit. */
  lemma {:induction false} StreamReadsBack(packets: seq<Packet>, tail: seq<byte>)
    ensures ReadPackets(Stream(packets) + tail, |packets|).0 == Ok(packets) <==> AllFit(packets)
    ensures AllFit(packets) ==> ReadPackets(Stream(packets) + tail, |packets|).1 == tail
  {
    if packets == [] {
      assert Stream(packets) + tail == tail;
    } else {
      hide Framed, Fits, AllFit, Stream, ReadPackets;
      assert [packets[0]] + packets[1..] == packets;
      ReadOne(packets[0], Stream(packets[1..]) + tail, |packets[1..]|);
      StreamSplits(packets[0], packets[1..], tail);
      StreamReadsBack(packets[1..], tail);
      assert packets[..1] == [packets[0]];
    }
  }

  // ---- Strings -----------------------------------------------------------------------

  function Prefixed(value: seq<byte>): seq<byte> {
    VarInt(Unsigned(Wrapped(|value|))) + value
  }

  method AppendString(destination: seq<byte>, value: seq<byte>) returns (out: seq<byte>)
    ensures out == destination + Prefixed(value)
  {
    out := AppendVarInt(destination, Wrapped(|value|));
    out := out + value;
  }

  function ConsumeStringFrom(payload: seq<byte>): Result<(seq<byte>, seq<byte>)> {
    var (length, rest) := ReadVarIntFrom(payload);
    if length.Err? then Err(length.error)
    else if length.value < 0 || length.value > MAX_PACKET || length.value > |rest| then Err(InvalidLength(length.value))
    else Ok((rest[..length.value], rest[length.value..]))
  }

  method ConsumeString(payload: seq<byte>) returns (r: Result<(seq<byte>, seq<byte>)>)
    ensures r == ConsumeStringFrom(payload)
  {
    var reader := new ByteReader(payload);
    var length := ReadVarInt(reader);
    if length.Err? { return Err(length.error); }
    if length.value < 0 || length.value > MAX_PACKET || length.value > |reader.rest| {
      return Err(InvalidLength(length.value));
    }
    // The length was checked against what is left, so this read is complete.
    var value := reader.ReadFull(length.value);
    return Ok((value.value, reader.rest));
  }

  /** A string is consumed whole, leaving exactly what follows, if and only if it has at most 1 MiB. */
  lemma StringReadsBack(value: seq<byte>, tail: seq<byte>)
    ensures ConsumeStringFrom(Prefixed(value) + tail) == Ok((value, tail)) <==> |value| <= MAX_PACKET
  {
    hide ReadVarIntFrom, VarInt;
    var n := Wrapped(|value|);
    ReadInvertsAppend(n, value + tail);
    assert Prefixed(value) + tail == VarInt(Unsigned(n)) + (value + tail);
    if |value| <= MAX_PACKET {
      assert (value + tail)[..n] == value && (value + tail)[n..] == tail;
    }
  }

  function Joined(values: seq<seq<byte>>): seq<byte> {
    if values == [] then [] else Prefixed(values[0]) + Joined(values[1..])
  }

  function ConsumeStrings(payload: seq<byte>, count: nat): Result<(seq<seq<byte>>, seq<byte>)> {
    if count == 0 then Ok(([], payload))
    else
      var first := ConsumeStringFrom(payload);
      if first.Err? then Err(first.error)
      else
        var others := ConsumeStrings(first.value.1, count - 1);
        if others.Err? then Err(others.error) else Ok(([first.value.0] + others.value.0, others.value.1))
  }

  predicate Short(value: seq<byte>) {
    |value| <= MAX_PACKET
  }

  /** A longer string is refused or cut: what is consumed then is never the string itself. */
  lemma LongIsCut(value: seq<byte>, tail: seq<byte>)
    requires !Short(value)
    ensures ConsumeStringFrom(Prefixed(value) + tail).Ok? ==> ConsumeStringFrom(Prefixed(value) + tail).value.0 != value
  {
    hide ReadVarIntFrom, VarInt;
    var n := Wrapped(|value|);
    ReadInvertsAppend(n, value + tail);
    assert Prefixed(value) + tail == VarInt(Unsigned(n)) + (value + tail);
  }

  lemma ConsumeOne(value: seq<byte>, rest: seq<byte>, count: nat)
    ensures Short(value) ==>
              ConsumeStrings(Prefixed(value) + rest, count + 1) ==
              match ConsumeStrings(rest, count)
              case Ok((others, after)) => Ok(([value] + others, after))
              case Err(error) => Err(error)
    ensures !Short(value) ==>
              var all := ConsumeStrings(Prefixed(value) + rest, count + 1);
              all.Ok? ==> all.value.0[..1] != [value]
  {
    hide Prefixed, ConsumeStringFrom;
    StringReadsBack(value, rest);
    if !Short(value) { LongIsCut(value, rest); }
  }

  predicate AllShort(values: seq<seq<byte>>) {
    forall value :: value in values ==> Short(value)
  }

  lemma JoinedSplits(first: seq<byte>, others: seq<seq<byte>>, tail: seq<byte>)
    ensures Joined([first] + others) + tail == Prefixed(first) + (Joined(others) + tail)
    ensures AllShort([first] + others) <==> Short(first) && AllShort(others)
  {
    hide Prefixed, Short;
    assert ([first] + others)[1..] == others;
  }

  /** Any concatenation of strings is consumed exactly, leaving what follows, if and only if each has at most 1 MiB. */
  lemma {:induction false} StringsReadBack(values: seq<seq<byte>>, tail: seq<byte>)
    ensures ConsumeStrings(Joined(values) + tail, |values|) == Ok((values, tail)) <==> AllShort(values)
  {
    if values == [] {
      assert Joined(values) + tail == tail;
    } else {
      hide Joined, Prefixed, ConsumeStrings, Short, AllShort;
      assert [values[0]] + values[1..] == values && values[..1] == [values[0]];
      ConsumeOne(values[0], Joined(values[1..]) + tail, |values[1..]|);
      JoinedSplits(values[0], values[1..], tail);
      StringsReadBack(values[1..], tail);
    }
  }
}
