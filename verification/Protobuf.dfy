/**
 The wire form of the two messages that travel between channeld and its peers,
 after the Protocol Buffers encoding guide, sections "Base 128 Varints" and
 "Length-Delimited Records".
 */
module Protobuf {
  import opened Prelude

  type Byte = b: int | 0 <= b < 256
  type Bytes = seq<Byte>

  const UINT32_RANGE := 0x1_0000_0000
  const UINT64_RANGE := 0x1_0000_0000_0000_0000
  type UInt32 = n: int | 0 <= n < UINT32_RANGE

  datatype MessagePack = MessagePack(
    channelId: UInt32,
    broadcast: UInt32,
    stubId: UInt32,
    msgType: UInt32,
    msgBody: Bytes)

  const EMPTY_PACK := MessagePack(0, 0, 0, 0, [])

  // ------------------------------------------------------------------ varints

  const MAX_VARINT_LENGTH := 10

  function Varint(n: nat): (bs: Bytes)
    ensures bs != []
  {
    if n < 128 then [n] else [n % 128 + 128] + Varint(n / 128)
  }

  /** Reads at most `fuel` bytes; the pair is the value and what follows it. */
  function ReadVarint(bs: Bytes, fuel: nat): (r: Option<(nat, Bytes)>)
    ensures r.Some? ==> |r.value.1| < |bs|
  {
    if fuel == 0 || bs == [] then None
    else if bs[0] < 128 then Some((bs[0], bs[1..]))
    else
      match ReadVarint(bs[1..], fuel - 1)
      case None => None
      case Some((high, rest)) => Some((bs[0] - 128 + 128 * high, rest))
  }

  function Pow128(k: nat): nat {
    if k == 0 then 1 else 128 * Pow128(k - 1)
  }

  lemma {:induction false} VarintRoundTrip(n: nat, fuel: nat, rest: Bytes)
    requires fuel >= 1 && n < Pow128(fuel)
    ensures ReadVarint(Varint(n) + rest, fuel) == Some((n, rest))
    ensures |Varint(n)| <= fuel
  {
    var bs := Varint(n) + rest;
    if n < 128 {
      assert bs[1..] == rest;
    } else {
      VarintRoundTrip(n / 128, fuel - 1, rest);
      assert bs[1..] == Varint(n / 128) + rest;
    }
  }

  lemma UInt32VarintRoundTrip(n: nat, rest: Bytes)
    requires n < UINT32_RANGE
    ensures ReadVarint(Varint(n) + rest, MAX_VARINT_LENGTH) == Some((n, rest))
  {
    assert Pow128(5) == 128 * Pow128(4) && Pow128(4) == 128 * Pow128(3) && Pow128(3) == 128 * Pow128(2);
    assert Pow128(10) == 128 * Pow128(9) && Pow128(9) == 128 * Pow128(8) && Pow128(8) == 128 * Pow128(7);
    assert Pow128(7) == 128 * Pow128(6) && Pow128(6) == 128 * Pow128(5);
    VarintRoundTrip(n, MAX_VARINT_LENGTH, rest);
  }

  // ------------------------------------------------------------------- fields

  datatype FieldValue = Number(n: nat) | Fixed | Delimited(payload: Bytes)

  datatype Field = Field(number: nat, value: FieldValue, rest: Bytes)

  const MAX_FIELD_NUMBER := 0x1fff_ffff

  /** One field from the front of a message: its number, its value and the rest. */
  function ReadField(bs: Bytes): (f: Option<Field>)
    ensures f.Some? ==> |f.value.rest| < |bs|
  {
    match ReadVarint(bs, MAX_VARINT_LENGTH)
    case None => None
    case Some((tag, body)) =>
      var number, wireType := tag / 8, tag % 8;
      if tag >= UINT64_RANGE || number < 1 || number > MAX_FIELD_NUMBER then None
      else if wireType == 0 then
        match ReadVarint(body, MAX_VARINT_LENGTH)
        case None => None
        case Some((n, rest)) =>
          if n >= UINT64_RANGE then None else Some(Field(number, Number(n), rest))
      else if wireType == 1 then
        if |body| < 8 then None else Some(Field(number, Fixed, body[8..]))
      else if wireType == 2 then
        match ReadVarint(body, MAX_VARINT_LENGTH)
        case None => None
        case Some((length, rest)) =>
          if |rest| < length then None
          else Some(Field(number, Delimited(rest[..length]), rest[length..]))
      else if wireType == 5 then
        if |body| < 4 then None else Some(Field(number, Fixed, body[4..]))
      else None
  }

  function NumberField(number: nat, n: UInt32): Bytes
    requires 1 <= number < 16
  {
    if n == 0 then [] else [8 * number] + Varint(n)
  }

  function DelimitedRecord(number: nat, payload: Bytes): (bs: Bytes)
    requires 1 <= number < 16
  {
    [8 * number + 2] + Varint(|payload|) + payload
  }

  lemma ReadTag(tag: Byte, rest: Bytes)
    requires tag < 128
    ensures ReadVarint([tag] + rest, MAX_VARINT_LENGTH) == Some((tag, rest))
  {
    assert ([tag] + rest)[1..] == rest;
  }

  lemma ReadNumberField(number: nat, n: UInt32, rest: Bytes)
    requires 1 <= number < 16 && n != 0
    ensures ReadField(NumberField(number, n) + rest) == Some(Field(number, Number(n), rest))
  {
    hide ReadVarint, Varint;
    assert NumberField(number, n) + rest == [8 * number] + (Varint(n) + rest);
    ReadTag(8 * number, Varint(n) + rest);
    UInt32VarintRoundTrip(n, rest);
  }

  lemma ReadDelimitedRecord(number: nat, payload: Bytes, rest: Bytes)
    requires 1 <= number < 16 && |payload| < UINT32_RANGE
    ensures ReadField(DelimitedRecord(number, payload) + rest)
         == Some(Field(number, Delimited(payload), rest))
  {
    hide ReadVarint, Varint;
    var body := Varint(|payload|) + (payload + rest);
    assert DelimitedRecord(number, payload) + rest == [8 * number + 2] + body;
    ReadTag(8 * number + 2, body);
    UInt32VarintRoundTrip(|payload|, payload + rest);
    assert (payload + rest)[..|payload|] == payload;
    assert (payload + rest)[|payload|..] == rest;
  }

  // ----------------------------------------------------------------- messages

  function MarshalPack(m: MessagePack): Bytes {
    NumberField(1, m.channelId) + (NumberField(2, m.broadcast) + (NumberField(3, m.stubId)
    + (NumberField(4, m.msgType) + BodyField(m.msgBody))))
  }

  function SetField(m: MessagePack, number: nat, value: FieldValue): MessagePack {
    match value
    case Number(n) =>
      var v := n % UINT32_RANGE;
      if number == 1 then m.(channelId := v)
      else if number == 2 then m.(broadcast := v)
      else if number == 3 then m.(stubId := v)
      else if number == 4 then m.(msgType := v)
      else m
    case Fixed => m
    case Delimited(payload) => if number == 5 then m.(msgBody := payload) else m
  }

  /** Unmarshals into `m`: the last occurrence of a field wins, unknown fields are skipped. */
  function MergePack(bs: Bytes, m: MessagePack): Option<MessagePack>
    decreases |bs|
  {
    if bs == [] then Some(m)
    else
      match ReadField(bs)
      case None => None
      case Some(Field(number, value, rest)) => MergePack(rest, SetField(m, number, value))
  }

  /** A number field that `m` has not set yet is set, also when zero leaves it out of the bytes. */
  lemma MergeNumberField(number: nat, n: UInt32, rest: Bytes, m: MessagePack)
    requires 1 <= number < 16
    requires SetField(m, number, Number(0)) == m
    ensures MergePack(NumberField(number, n) + rest, m) == MergePack(rest, SetField(m, number, Number(n)))
  {
    if n == 0 {
      assert NumberField(number, n) + rest == rest;
    } else {
      ReadNumberField(number, n, rest);
    }
  }

  function BodyField(body: Bytes): Bytes {
    if body == [] then [] else DelimitedRecord(5, body)
  }

  lemma MergeBodyField(m: MessagePack, body: Bytes)
    requires m.msgBody == [] && |body| < UINT32_RANGE
    ensures MergePack(BodyField(body), m) == Some(m.(msgBody := body))
  {
    if body != [] {
      ReadDelimitedRecord(5, body, []);
      assert DelimitedRecord(5, body) + [] == DelimitedRecord(5, body);
      assert MergePack([], m.(msgBody := body)) == Some(m.(msgBody := body));
    }
  }

  lemma MergeLastFields(m: MessagePack, stubId: UInt32, msgType: UInt32, body: Bytes)
    requires m.stubId == m.msgType == 0 && m.msgBody == [] && |body| < UINT32_RANGE
    ensures MergePack(NumberField(3, stubId) + (NumberField(4, msgType) + BodyField(body)), m)
         == Some(m.(stubId := stubId, msgType := msgType, msgBody := body))
  {
    hide MergePack, NumberField, BodyField;
    var m3 := SetField(m, 3, Number(stubId));
    var m4 := SetField(m3, 4, Number(msgType));
    MergeNumberField(3, stubId, NumberField(4, msgType) + BodyField(body), m);
    MergeNumberField(4, msgType, BodyField(body), m3);
    MergeBodyField(m4, body);
  }

  lemma PackRoundTrip(m: MessagePack)
    requires |m.msgBody| < UINT32_RANGE
    ensures MergePack(MarshalPack(m), EMPTY_PACK) == Some(m)
  {
    hide MergePack, NumberField, BodyField;
    var from3 := NumberField(3, m.stubId) + (NumberField(4, m.msgType) + BodyField(m.msgBody));
    var m1 := SetField(EMPTY_PACK, 1, Number(m.channelId));
    var m2 := SetField(m1, 2, Number(m.broadcast));
    MergeNumberField(1, m.channelId, NumberField(2, m.broadcast) + from3, EMPTY_PACK);
    MergeNumberField(2, m.broadcast, from3, m1);
    MergeLastFields(m2, m.stubId, m.msgType, m.msgBody);
  }

  function MarshalPacket(ms: seq<MessagePack>): Bytes {
    if ms == [] then [] else DelimitedRecord(1, MarshalPack(ms[0])) + MarshalPacket(ms[1..])
  }

  /** Unmarshals a packet onto the messages read so far. */
  function MergePacket(bs: Bytes, ms: seq<MessagePack>): Option<seq<MessagePack>>
    decreases |bs|
  {
    if bs == [] then Some(ms)
    else
      match ReadField(bs)
      case None => None
      case Some(Field(number, value, rest)) =>
        if number == 1 && value.Delimited? then
          match MergePack(value.payload, EMPTY_PACK)
          case None => None
          case Some(m) => MergePacket(rest, ms + [m])
        else MergePacket(rest, ms)
  }

  function UnmarshalPacket(bs: Bytes): Option<seq<MessagePack>> {
    MergePacket(bs, [])
  }

  predicate Marshallable(m: MessagePack) {
    |m.msgBody| < UINT32_RANGE && |MarshalPack(m)| < UINT32_RANGE
  }

  lemma MergePacketRecord(m: MessagePack, rest: Bytes, before: seq<MessagePack>)
    requires Marshallable(m)
    ensures MergePacket(DelimitedRecord(1, MarshalPack(m)) + rest, before) == MergePacket(rest, before + [m])
  {
    ReadDelimitedRecord(1, MarshalPack(m), rest);
    PackRoundTrip(m);
  }

  lemma MergeEmptyPacket(before: seq<MessagePack>)
    ensures MergePacket([], before) == Some(before)
  {
  }

  lemma {:induction false} MergePacketRoundTrip(ms: seq<MessagePack>, before: seq<MessagePack>)
    requires forall m <- ms :: Marshallable(m)
    ensures MergePacket(MarshalPacket(ms), before) == Some(before + ms)
    decreases ms
  {
    hide MergePacket, MarshalPack, DelimitedRecord, Marshallable;
    if ms == [] {
      assert before + ms == before;
      MergeEmptyPacket(before);
    } else {
      assert ms[0] in ms;
      MergePacketRecord(ms[0], MarshalPacket(ms[1..]), before);
      MergePacketRoundTrip(ms[1..], before + [ms[0]]);
      assert before + [ms[0]] + ms[1..] == before + ms;
    }
  }

  lemma PacketRoundTrip(ms: seq<MessagePack>)
    requires forall m <- ms :: Marshallable(m)
    ensures UnmarshalPacket(MarshalPacket(ms)) == Some(ms)
  {
    MergePacketRoundTrip(ms, []);
    assert [] + ms == ms;
  }

  // -------------------------------------------------------------------- sizes

  /** A packet of one message adds at most four bytes to a message below 2^21 bytes. */
  lemma SinglePacketSize(m: MessagePack)
    requires |MarshalPack(m)| < 0x20_0000
    ensures |MarshalPacket([m])| <= |MarshalPack(m)| + 4
  {
    assert Pow128(3) == 128 * Pow128(2) && Pow128(2) == 128 * Pow128(1) && Pow128(1) == 128;
    VarintRoundTrip(|MarshalPack(m)|, 3, []);
    assert MarshalPacket([m]) == DelimitedRecord(1, MarshalPack(m)) + MarshalPacket([]);
  }

  // ----------------------------------------------------------------- examples

  /** Field numbers and wire types, and a number that takes two bytes. */
  lemma PackOnTheWire()
    ensures MarshalPack(MessagePack(300, 2, 3, 4, [5, 6])) == [8, 172, 2, 16, 2, 24, 3, 32, 4, 42, 2, 5, 6]
    ensures MarshalPack(MessagePack(0, 0, 0, 0, [])) == []
    ensures MarshalPacket([MessagePack(0, 0, 0, 9, [])]) == [10, 2, 32, 9]
  {
  }
}
