/**
 The packet frames of a connection's byte stream: a five-byte header ('C', 'H', the size
 high byte first, the compression type) in front of each marshalled packet.
 `Parse` is the meaning of a whole stream, read from left to right at once; the
 connection has to agree with it while the stream arrives in pieces.
 */
module Framing {
  import opened Prelude
  import opened Protobuf

  const MAX_PACKET_SIZE := 0x00ffff
  const PACKET_HEADER_SIZE := 5

  const NO_COMPRESSION: Byte := 0
  const SNAPPY: Byte := 1

  type Decompressor = Bytes -> Option<Bytes>
  type Compressor = Bytes -> Bytes

  /** The size in a header, or 0 when the header does not start with "CH". */
  function ReadSize(tag: Bytes): nat
    requires |tag| == PACKET_HEADER_SIZE
  {
    if tag[0] != 67 || tag[1] != 72 then 0 else tag[3] as int + 256 * tag[2] as int
  }

  datatype Decoded = Packet(messages: seq<MessagePack>) | Corrupt | Undecodable

  /** A frame that does not decompress is an error; one that does not unmarshal is not. */
  function Decode(compression: Byte, payload: Bytes, decompress: Decompressor): Decoded {
    var plain := if compression == SNAPPY then decompress(payload) else Some(payload);
    match plain
    case None => Corrupt
    case Some(bytes) =>
      match UnmarshalPacket(bytes)
      case None => Undecodable
      case Some(ms) => Packet(ms)
  }

  datatype FirstFrame = Incomplete | BadHeader | Frame(fullSize: nat, compression: Byte, decoded: Decoded)

  function ReadFrame(s: Bytes, decompress: Decompressor): (f: FirstFrame)
    ensures f.Frame? ==> PACKET_HEADER_SIZE < f.fullSize <= |s|
  {
    if |s| < PACKET_HEADER_SIZE then Incomplete
    else
      var size := ReadSize(s[..PACKET_HEADER_SIZE]);
      if size == 0 then BadHeader
      else if |s| < PACKET_HEADER_SIZE + size then Incomplete
      else Frame(PACKET_HEADER_SIZE + size, s[4],
                 Decode(s[4], s[PACKET_HEADER_SIZE..PACKET_HEADER_SIZE + size], decompress))
  }

  /** Why parsing stopped: out of bytes, at an error, or at a frame that does not unmarshal. */
  datatype Status = NeedMore | Closed | Stuck

  datatype Parsed = Parsed(messages: seq<MessagePack>, rest: Bytes, status: Status, compression: Byte) {
    function After(before: seq<MessagePack>): Parsed {
      this.(messages := before + messages)
    }
  }

  /** The peer's last compression type is kept for the connection's own packets. */
  function Adopt(current: Byte, frame: Byte): Byte {
    if frame == SNAPPY then SNAPPY else current
  }

  function Parse(s: Bytes, compression: Byte, decompress: Decompressor): Parsed
    decreases |s|
  {
    match ReadFrame(s, decompress)
    case Incomplete => Parsed([], s, NeedMore, compression)
    case BadHeader => Parsed([], s, Closed, compression)
    case Frame(fullSize, c, decoded) =>
      match decoded
      case Corrupt => Parsed([], s, Closed, Adopt(compression, c))
      case Undecodable => Parsed([], s, Stuck, Adopt(compression, c))
      case Packet(ms) => Parse(From(s, fullSize), Adopt(compression, c), decompress).After(ms)
  }

  /** What a connection keeps between two reads. */
  datatype Inbound = Inbound(buffer: Bytes, received: seq<MessagePack>, compression: Byte, closed: bool)

  /**
   From `start`, the stream parses to what has been received on top of `before`, and then to
   what parsing goes on to find behind `pos`.
   */
  ghost predicate HandledUpTo(stream: Bytes, start: Inbound, pos: nat, compression: Byte,
                              received: seq<MessagePack>, decompress: Decompressor)
  {
    && pos <= |stream|
    && Parse(stream, start.compression, decompress).After(start.received)
       == Parse(From(stream, pos), compression, decompress).After(received)
  }

  function StatusOf(f: FirstFrame): Status {
    if f.Incomplete? then NeedMore
    else if f.BadHeader? || f.decoded.Corrupt? then Closed
    else Stuck
  }

  lemma NothingHandled(stream: Bytes, start: Inbound, decompress: Decompressor)
    ensures HandledUpTo(stream, start, 0, start.compression, start.received, decompress)
  {
    assert stream[0..] == stream;
  }

  lemma HandleFrame(stream: Bytes, start: Inbound, pos: nat, compression: Byte,
                    received: seq<MessagePack>, decompress: Decompressor)
    requires HandledUpTo(stream, start, pos, compression, received, decompress)
    ensures var f := ReadFrame(From(stream, pos), decompress);
            var c := if f.Frame? then Adopt(compression, f.compression) else compression;
            if f.Frame? && f.decoded.Packet? then
              HandledUpTo(stream, start, pos + f.fullSize, c, received + f.decoded.messages, decompress)
            else
              Parse(stream, start.compression, decompress).After(start.received)
              == Parsed(received, From(stream, pos), StatusOf(f), c)
  {
    hide ReadFrame, From;
    var rest := From(stream, pos);
    var f := ReadFrame(rest, decompress);
    if f.Frame? && f.decoded.Packet? {
      FromFrom(stream, pos, f.fullSize);
      var later := Parse(From(rest, f.fullSize), Adopt(compression, f.compression), decompress);
      AfterAfter(later, f.decoded.messages, received);
    } else {
      assert received + [] == received;
    }
  }

  lemma NoFrameAtEnd(stream: Bytes, decompress: Decompressor)
    ensures ReadFrame(From(stream, |stream|), decompress).Incomplete?
  {
  }

  lemma AfterAfter(p: Parsed, ms: seq<MessagePack>, before: seq<MessagePack>)
    ensures p.After(ms).After(before) == p.After(before + ms)
  {
    assert before + (ms + p.messages) == (before + ms) + p.messages;
  }

  // ------------------------------------------------------- chunk independence

  lemma ReadFrameExtends(a: Bytes, b: Bytes, decompress: Decompressor)
    requires !ReadFrame(a, decompress).Incomplete?
    ensures ReadFrame(a + b, decompress) == ReadFrame(a, decompress)
  {
    assert (a + b)[..PACKET_HEADER_SIZE] == a[..PACKET_HEADER_SIZE];
    var size := ReadSize(a[..PACKET_HEADER_SIZE]);
    if size != 0 {
      assert (a + b)[PACKET_HEADER_SIZE..PACKET_HEADER_SIZE + size] == a[PACKET_HEADER_SIZE..PACKET_HEADER_SIZE + size];
    }
  }

  /** Parsing a stream equals parsing its front, then what that left together with the back. */
  lemma {:induction false} ParseAppend(a: Bytes, b: Bytes, compression: Byte, decompress: Decompressor)
    ensures var p := Parse(a, compression, decompress);
            var whole := Parse(a + b, compression, decompress);
            match p.status
            case NeedMore => whole == Parse(p.rest + b, p.compression, decompress).After(p.messages)
            case Closed => whole.status.Closed? && whole.messages == p.messages
            case Stuck => whole == p.(rest := p.rest + b)
    decreases |a|
  {
    hide ReadFrame;
    var f := ReadFrame(a, decompress);
    if f.Incomplete? {
      var later := Parse(a + b, compression, decompress);
      assert later.After([]) == later;
    } else {
      ReadFrameExtends(a, b, decompress);
      if f.Frame? && f.decoded.Packet? {
        var c, ms := Adopt(compression, f.compression), f.decoded.messages;
        ParseAppend(a[f.fullSize..], b, c, decompress);
        assert (a + b)[f.fullSize..] == a[f.fullSize..] + b;
        var p := Parse(a[f.fullSize..], c, decompress);
        var later := Parse(p.rest + b, p.compression, decompress);
        assert ms + (p.messages + later.messages) == (ms + p.messages) + later.messages;
      }
    }
  }

  function Feed(st: Inbound, chunk: Bytes, decompress: Decompressor): Inbound {
    if st.closed then st
    else
      var p := Parse(st.buffer + chunk, st.compression, decompress);
      Inbound(p.rest, st.received + p.messages, p.compression, p.status.Closed?)
  }

  function FeedAll(st: Inbound, chunks: seq<Bytes>, decompress: Decompressor): Inbound
    decreases |chunks|
  {
    if chunks == [] then st else FeedAll(Feed(st, chunks[0], decompress), chunks[1..], decompress)
  }

  lemma {:induction false} FeedAllClosed(st: Inbound, chunks: seq<Bytes>, decompress: Decompressor)
    requires st.closed
    ensures FeedAll(st, chunks, decompress) == st
  {
    if chunks != [] {
      FeedAllClosed(st, chunks[1..], decompress);
    }
  }

  lemma {:induction false} FeedAllSnoc(st: Inbound, chunks: seq<Bytes>, last: Bytes, decompress: Decompressor)
    ensures FeedAll(st, chunks + [last], decompress) == Feed(FeedAll(st, chunks, decompress), last, decompress)
    decreases |chunks|
  {
    hide Feed;
    if chunks == [] {
      assert ([] + [last])[1..] == [];
    } else {
      assert (chunks + [last])[1..] == chunks[1..] + [last];
      FeedAllSnoc(Feed(st, chunks[0], decompress), chunks[1..], last, decompress);
    }
  }

  lemma ParseOfStuck(buffer: Bytes, more: Bytes, compression: Byte, decompress: Decompressor)
    requires var p := Parse(buffer, compression, decompress);
             p.messages == [] && p.rest == buffer && p.compression == compression
    ensures var p := Parse(buffer, compression, decompress);
            var whole := Parse(buffer + more, compression, decompress);
            p.status.Stuck? ==> whole == Parsed([], buffer + more, Stuck, compression)
  {
    ParseAppend(buffer, more, compression, decompress);
  }

  /** What parsing leaves over parses to nothing more, until bytes are added. */
  lemma {:induction false} ParseRest(s: Bytes, compression: Byte, decompress: Decompressor)
    ensures var p := Parse(s, compression, decompress);
            !p.status.Closed? ==>
              Parse(p.rest, p.compression, decompress) == Parsed([], p.rest, p.status, p.compression)
    decreases |s|
  {
    var f := ReadFrame(s, decompress);
    if f.Frame? && f.decoded.Packet? {
      ParseRest(s[f.fullSize..], Adopt(compression, f.compression), decompress);
    }
  }

  lemma {:induction false} FeedAllIsParse(st: Inbound, chunks: seq<Bytes>, decompress: Decompressor)
    requires !st.closed
    requires var p := Parse(st.buffer, st.compression, decompress);
             p.messages == [] && p.rest == st.buffer && p.compression == st.compression && !p.status.Closed?
    ensures var whole := Parse(st.buffer + Concat(chunks), st.compression, decompress);
            var end := FeedAll(st, chunks, decompress);
            && end.received == st.received + whole.messages
            && end.closed == whole.status.Closed?
            && (!end.closed ==> end.buffer == whole.rest && end.compression == whole.compression)
    decreases |chunks|
  {
    hide Parse;
    if chunks == [] {
      assert st.buffer + Concat(chunks) == st.buffer;
    } else {
      var first := st.buffer + chunks[0];
      var p := Parse(first, st.compression, decompress);
      var next := Feed(st, chunks[0], decompress);
      ParseAppend(first, Concat(chunks[1..]), st.compression, decompress);
      assert first + Concat(chunks[1..]) == st.buffer + Concat(chunks);
      if p.status.Closed? {
        FeedAllClosed(next, chunks[1..], decompress);
      } else {
        ParseRest(first, st.compression, decompress);
        FeedAllIsParse(next, chunks[1..], decompress);
        var later := Parse(p.rest + Concat(chunks[1..]), p.compression, decompress);
        if p.status.Stuck? {
          ParseOfStuck(p.rest, Concat(chunks[1..]), p.compression, decompress);
        }
        assert (st.received + p.messages) + later.messages == st.received + (p.messages + later.messages);
      }
    }
  }

  lemma ParseOfNothing(compression: Byte, decompress: Decompressor)
    ensures Parse([], compression, decompress) == Parsed([], [], NeedMore, compression)
  {
  }

  /** However a stream is cut into reads, a fresh connection handles what `Parse` finds in it. */
  lemma ChunkIndependence(chunks: seq<Bytes>, decompress: Decompressor)
    ensures var whole := Parse(Concat(chunks), NO_COMPRESSION, decompress);
            var end := FeedAll(Inbound([], [], NO_COMPRESSION, false), chunks, decompress);
            && end.received == whole.messages
            && end.closed == whole.status.Closed?
            && (!end.closed ==> end.buffer == whole.rest && end.compression == whole.compression)
  {
    hide Parse, FeedAll, Concat;
    ParseOfNothing(NO_COMPRESSION, decompress);
    FeedAllIsParse(Inbound([], [], NO_COMPRESSION, false), chunks, decompress);
    assert [] + Concat(chunks) == Concat(chunks);
  }

  // ------------------------------------------------------------------- stalls

  /** Bytes that only wait for more never fill a buffer that holds one largest packet. */
  lemma {:induction false} WaitingBytesBound(s: Bytes, compression: Byte, decompress: Decompressor)
    ensures var p := Parse(s, compression, decompress);
            p.status.NeedMore? ==> |p.rest| < MAX_PACKET_SIZE + PACKET_HEADER_SIZE
    decreases |s|
  {
    var f := ReadFrame(s, decompress);
    if f.Frame? && f.decoded.Packet? {
      WaitingBytesBound(s[f.fullSize..], Adopt(compression, f.compression), decompress);
    }
  }

  /**
   A complete frame that does not unmarshal is never consumed: from then on nothing is
   handled, the connection is not closed, and every byte read stays in the buffer.
   */
  lemma UndecodableFrameStalls(s: Bytes, more: Bytes, compression: Byte, decompress: Decompressor)
    requires Parse(s, compression, decompress).status.Stuck?
    ensures var whole := Parse(s + more, compression, decompress);
            && whole.messages == Parse(s, compression, decompress).messages
            && whole.status.Stuck?
            && |whole.rest| == |Parse(s, compression, decompress).rest| + |more|
  {
    ParseAppend(s, more, compression, decompress);
  }

  /** One byte that is no field's tag, in a frame of its own. */
  lemma UndecodableFrameExample(decompress: Decompressor)
    ensures Parse([67, 72, 0, 1, 0, 255], NO_COMPRESSION, decompress).status.Stuck?
  {
  }

  lemma ReadCorruptFrame(s: Bytes, size: nat, decompress: Decompressor)
    requires size > 0 && PACKET_HEADER_SIZE + size <= |s|
    requires s[..PACKET_HEADER_SIZE] == [67, 72, size / 256, size % 256, SNAPPY]
    requires decompress(s[PACKET_HEADER_SIZE..PACKET_HEADER_SIZE + size]).None?
    ensures ReadFrame(s, decompress) == Frame(PACKET_HEADER_SIZE + size, SNAPPY, Corrupt)
  {
    assert s[4] == s[..PACKET_HEADER_SIZE][4];
    assert ReadSize(s[..PACKET_HEADER_SIZE]) == size;
    hide ReadSize;
  }

  /** A complete frame marked as compressed that does not decompress closes the connection. */
  lemma CorruptFrameCloses(s: Bytes, size: nat, received: seq<MessagePack>, compression: Byte, decompress: Decompressor)
    requires size > 0 && PACKET_HEADER_SIZE + size <= |s|
    requires s[..PACKET_HEADER_SIZE] == [67, 72, size / 256, size % 256, SNAPPY]
    requires decompress(s[PACKET_HEADER_SIZE..PACKET_HEADER_SIZE + size]).None?
    ensures var after := Feed(Inbound([], received, compression, false), s, decompress);
            after.closed && after.received == received && after.compression == SNAPPY
  {
    hide ReadFrame;
    ReadCorruptFrame(s, size, decompress);
    assert [] + s == s && received + [] == received;
  }

  /** One compressed byte, in a frame of its own. */
  lemma CompressedFrameExample(m: MessagePack, decompress: Decompressor)
    requires Marshallable(m) && decompress([255]) == Some(MarshalPacket([m]))
    ensures Parse([67, 72, 0, 1, 1, 255], NO_COMPRESSION, decompress) == Parsed([m], [], NeedMore, SNAPPY)
  {
    PacketRoundTrip([m]);
    hide MarshalPacket, UnmarshalPacket;
    var s: Bytes := [67, 72, 0, 1, 1, 255];
    assert ReadFrame(s, decompress) == Frame(6, SNAPPY, Packet([m])) by {
      assert s[5..6] == [255];
    }
    assert From(s, 6) == [] && [m] + [] == [m];
    ParseOfNothing(SNAPPY, decompress);
    hide ReadFrame, From;
  }

  // --------------------------------------------------------------- round trip

  function FrameOf(payload: Bytes, compression: Byte): Bytes
    requires |payload| <= MAX_PACKET_SIZE
  {
    [67, 72, |payload| / 256, |payload| % 256, compression] + payload
  }

  predicate Writable(packet: seq<MessagePack>) {
    && packet != []
    && |MarshalPacket(packet)| <= MAX_PACKET_SIZE
  }

  /** A packet as it was written: its messages and the compression type at that time. */
  datatype Sent = Sent(messages: seq<MessagePack>, compression: Byte)

  function PayloadOf(p: Sent, compress: Compressor): Bytes {
    if p.compression == SNAPPY then compress(MarshalPacket(p.messages)) else MarshalPacket(p.messages)
  }

  predicate Fits(p: Sent, compress: Compressor) {
    Writable(p.messages) && |PayloadOf(p, compress)| <= MAX_PACKET_SIZE
  }

  function FrameAll(packets: seq<Sent>, compress: Compressor): Bytes
    requires forall p <- packets :: Fits(p, compress)
  {
    if packets == [] then []
    else
      assert Fits(packets[0], compress);
      FrameOf(PayloadOf(packets[0], compress), packets[0].compression) + FrameAll(packets[1..], compress)
  }

  function MessagesOf(packets: seq<Sent>): seq<MessagePack> {
    if packets == [] then [] else packets[0].messages + MessagesOf(packets[1..])
  }

  predicate AnyCompressed(packets: seq<Sent>) {
    exists p <- packets :: p.compression == SNAPPY
  }

  /** What is compressed is not nothing, and decompresses to what it was. */
  ghost predicate Undoes(decompress: Decompressor, compress: Compressor) {
    forall b: Bytes :: compress(b) != [] && decompress(compress(b)) == Some(b)
  }

  /** The peer can read these packets. */
  ghost predicate Legible(packets: seq<Sent>, compress: Compressor, decompress: Decompressor) {
    && (forall p <- packets :: Fits(p, compress))
    && (AnyCompressed(packets) ==> Undoes(decompress, compress))
  }

  lemma {:induction false} FrameAllSnoc(packets: seq<Sent>, last: Sent, compress: Compressor)
    requires forall p <- packets :: Fits(p, compress)
    requires Fits(last, compress)
    ensures FrameAll(packets + [last], compress)
         == FrameAll(packets, compress) + FrameOf(PayloadOf(last, compress), last.compression)
    ensures MessagesOf(packets + [last]) == MessagesOf(packets) + last.messages
  {
    hide FrameOf, MarshalPacket, Fits, PayloadOf;
    OneFrame(last, compress);
    if packets == [] {
      assert [] + [last] == [last];
    } else {
      FrameAllSnoc(packets[1..], last, compress);
      FrontFrame(packets, compress);
      FrontFrame(packets + [last], compress);
      assert (packets + [last])[1..] == packets[1..] + [last];
      var x := FrameOf(PayloadOf(last, compress), last.compression);
      var p := packets[0];
      var front := FrameOf(PayloadOf(p, compress), p.compression);
      Associates(front, FrameAll(packets[1..], compress), x);
      Associates(p.messages, MessagesOf(packets[1..]), last.messages);
      hide FrameAll, MessagesOf;
    }
  }

  lemma Associates<T>(a: seq<T>, b: seq<T>, c: seq<T>)
    ensures a + (b + c) == (a + b) + c
  {
  }

  lemma FrontFrame(packets: seq<Sent>, compress: Compressor)
    requires packets != [] && forall p <- packets :: Fits(p, compress)
    ensures Fits(packets[0], compress) && |PayloadOf(packets[0], compress)| <= MAX_PACKET_SIZE
    ensures FrameAll(packets, compress) ==
              FrameOf(PayloadOf(packets[0], compress), packets[0].compression) + FrameAll(packets[1..], compress)
    ensures MessagesOf(packets) == packets[0].messages + MessagesOf(packets[1..])
  {
  }

  lemma OneFrame(p: Sent, compress: Compressor)
    requires Fits(p, compress)
    ensures |PayloadOf(p, compress)| <= MAX_PACKET_SIZE
    ensures FrameAll([p], compress) == FrameOf(PayloadOf(p, compress), p.compression)
    ensures MessagesOf([p]) == p.messages && FrameAll([], compress) == [] && MessagesOf([]) == []
  {
    FrontFrame([p], compress);
    assert [p][1..] == [];
    hide PayloadOf, FrameOf;
  }

  lemma {:induction false} WritablePacketParts(packet: seq<MessagePack>, m: MessagePack)
    requires m in packet
    ensures |m.msgBody| <= |MarshalPack(m)| <= |MarshalPacket(packet)|
  {
    if packet[0] != m {
      WritablePacketParts(packet[1..], m);
    }
  }

  lemma UnmarshalWritten(packet: seq<MessagePack>)
    requires Writable(packet)
    ensures UnmarshalPacket(MarshalPacket(packet)) == Some(packet) && MarshalPacket(packet) != []
  {
    forall m | m in packet ensures Marshallable(m) { WritablePacketParts(packet, m); }
    PacketRoundTrip(packet);
  }

  lemma ReadWrittenFrame(p: Sent, rest: Bytes, compress: Compressor, decompress: Decompressor)
    requires Fits(p, compress) && (p.compression == SNAPPY ==> Undoes(decompress, compress))
    ensures var payload := PayloadOf(p, compress);
            ReadFrame(FrameOf(payload, p.compression) + rest, decompress)
            == Frame(PACKET_HEADER_SIZE + |payload|, p.compression, Packet(p.messages))
  {
    UnmarshalWritten(p.messages);
    var payload := PayloadOf(p, compress);
    hide MarshalPacket, UnmarshalPacket;
    assert payload != [];
    var s := FrameOf(payload, p.compression) + rest;
    assert ReadSize(s[..PACKET_HEADER_SIZE]) == |payload| by {
      assert s[2] == |payload| / 256 && s[3] == |payload| % 256;
    }
    assert s[PACKET_HEADER_SIZE..PACKET_HEADER_SIZE + |payload|] == payload;
  }

  /** Compressed or not, written packets parse to their messages; a compressed one tells the reader's own type. */
  lemma {:induction false} ParseWrittenPackets(packets: seq<Sent>, compression: Byte, compress: Compressor,
                                               decompress: Decompressor)
    requires Legible(packets, compress, decompress)
    ensures Parse(FrameAll(packets, compress), compression, decompress)
         == Parsed(MessagesOf(packets), [], NeedMore, if AnyCompressed(packets) then SNAPPY else compression)
    decreases packets
  {
    hide PayloadOf, FrameOf, Fits, ReadFrame, Undoes;
    if packets == [] {
      ParseOfNothing(compression, decompress);
    } else {
      var p := packets[0];
      assert Fits(p, compress) && packets == [p] + packets[1..];
      ReadWrittenFrame(p, FrameAll(packets[1..], compress), compress, decompress);
      BehindFrame(p, FrameAll(packets[1..], compress), compress);
      ParseWrittenPackets(packets[1..], Adopt(compression, p.compression), compress, decompress);
    }
  }

  lemma BehindFrame(p: Sent, rest: Bytes, compress: Compressor)
    requires Fits(p, compress)
    ensures var frame := FrameOf(PayloadOf(p, compress), p.compression);
            && |frame| == PACKET_HEADER_SIZE + |PayloadOf(p, compress)| && From(frame + rest, |frame|) == rest
  {
  }

  /**
   Whatever part of the written stream has arrived, cut into reads in any way: the messages
   handled are the first ones written, in order, and all of them once the stream is complete.
   */
  lemma StreamRoundTrip(packets: seq<Sent>, chunks: seq<Bytes>, compress: Compressor, decompress: Decompressor)
    requires Legible(packets, compress, decompress)
    requires Concat(chunks) <= FrameAll(packets, compress)
    ensures var end := FeedAll(Inbound([], [], NO_COMPRESSION, false), chunks, decompress);
            && !end.closed
            && end.received <= MessagesOf(packets)
            && (Concat(chunks) == FrameAll(packets, compress) ==>
                  && end.received == MessagesOf(packets) && end.buffer == []
                  && end.compression == if AnyCompressed(packets) then SNAPPY else NO_COMPRESSION)
  {
    var arrived := Concat(chunks);
    var missing := FrameAll(packets, compress)[|arrived|..];
    assert arrived + missing == FrameAll(packets, compress);
    hide Parse, FeedAll, Concat, FrameAll, AnyCompressed;
    ChunkIndependence(chunks, decompress);
    ParseWrittenPackets(packets, NO_COMPRESSION, compress, decompress);
    ParseAppend(arrived, missing, NO_COMPRESSION, decompress);
  }
}
