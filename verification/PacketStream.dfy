/** A connection's two byte streams: batching messages into packets, and taking them out again. */
module PacketStream {
  import opened Prelude
  import opened Protobuf
  import opened Framing

  /** The messages `Send` accepts; one of them always fits into a packet of its own. */
  predicate Sendable(m: MessagePack) {
    |MarshalPack(m)| < MAX_PACKET_SIZE - PACKET_HEADER_SIZE
  }

  lemma SendableFitsAlone(m: MessagePack)
    requires Sendable(m)
    ensures |MarshalPacket([m])| <= MAX_PACKET_SIZE
  {
    SinglePacketSize(m);
  }

  lemma Regroup<T>(front: seq<T>, a: seq<T>, b: seq<T>, c: seq<T>, d: seq<T>, e: seq<T>)
    requires a + b == c + d + e
    ensures front + a + b == front + c + d + e
  {
    assert front + a + b == front + (a + b);
    assert front + c + d + e == front + (c + d + e);
  }

  /** The batching loop of a flush, on the carried-over message and the queue. */
  method TakePacket(oversized: Option<MessagePack>, queue: seq<MessagePack>)
    returns (p: seq<MessagePack>, carry: Option<MessagePack>, rest: seq<MessagePack>)
    requires queue != []
    requires forall m <- queue :: Sendable(m)
    requires oversized.Some? ==> Sendable(oversized.value)
    ensures Writable(p)
    ensures OptSeq(oversized) + queue == p + OptSeq(carry) + rest
    ensures carry.Some? ==> !Writable(p + [carry.value])
    ensures carry.None? ==> rest == []
    ensures (forall m <- rest :: Sendable(m)) && (carry.Some? ==> Sendable(carry.value))
  {
    assert MarshalPacket([]) == [];
    hide MarshalPacket, Sendable;
    p, carry, rest := [], None, queue;
    ghost var pending := OptSeq(oversized) + queue;
    assert [] + queue == queue;
    if oversized.Some? {
      SendableFitsAlone(oversized.value);
      p := [oversized.value];
    }
    while |rest| > 0
      invariant forall m <- rest :: Sendable(m)
      invariant pending == p + rest
      invariant |MarshalPacket(p)| <= MAX_PACKET_SIZE
      invariant p != [] || |rest| > 0
    {
      var m := rest[0];
      ghost var fitting := p;
      MoveOne(p, rest);
      rest := rest[1..];
      p := p + [m];
      var size := |MarshalPacket(p)|;
      if size > MAX_PACKET_SIZE {
        p := p[..|p| - 1];
        carry := Some(m);
        if p == [] {
          SendableFitsAlone(m);
          assert false;
        }
        return;
      }
    }
    assert p + [] == p;
  }

  /** One message goes from the front of the queue to the end of the packet. */
  lemma MoveOne<T>(p: seq<T>, rest: seq<T>)
    requires rest != []
    ensures (p + [rest[0]]) + rest[1..] == p + rest
    ensures (p + [rest[0]])[..|p|] == p
    ensures p == [] ==> p + [rest[0]] == [rest[0]]
  {
  }

  class Connection {
    const readBuffer: array<Byte>
    const compress: Compressor
    const decompress: Decompressor
    var readPos: nat
    var sendQueue: seq<MessagePack>
    var oversizedMsgPack: Option<MessagePack>
    var compressionType: Byte
    var closing: bool

    // What has left the connection: messages handled, and bytes given to the network.
    var received: seq<MessagePack>
    var written: Bytes

    // History: the messages Send has accepted, and the packets behind `written`.
    ghost var accepted: seq<MessagePack>
    ghost var packets: seq<Sent>

    ghost predicate Valid()
      reads this
    {
      && MAX_PACKET_SIZE + PACKET_HEADER_SIZE <= readBuffer.Length
      && readPos <= readBuffer.Length
      && (forall m <- sendQueue :: Sendable(m))
      && (oversizedMsgPack.Some? ==> Sendable(oversizedMsgPack.value))
      && (forall p <- packets :: Fits(p, compress))
    }

    /** Every accepted message is written, carried over or queued: once each and in order. */
    ghost predicate Conserved()
      requires Valid()
      reads this
    {
      && accepted == MessagesOf(packets) + OptSeq(oversizedMsgPack) + sendQueue
      && written == FrameAll(packets, compress)
    }

    ghost function Inbox(): Inbound
      requires Valid()
      reads this, readBuffer
    {
      Inbound(readBuffer[..readPos], received, compressionType, closing)
    }

    constructor (readBufferSize: nat, compress: Compressor, decompress: Decompressor)
      ensures Valid() && Conserved() && fresh(readBuffer)
      ensures Inbox() == Inbound([], [], NO_COMPRESSION, false)
      ensures accepted == [] && packets == []
      ensures this.compress == compress && this.decompress == decompress
    {
      var readerSize := readBufferSize;
      if readerSize < MAX_PACKET_SIZE + PACKET_HEADER_SIZE {
        readerSize := MAX_PACKET_SIZE + PACKET_HEADER_SIZE;
      }
      readBuffer := new Byte[readerSize];
      this.compress := compress;
      this.decompress := decompress;
      readPos := 0;
      sendQueue, oversizedMsgPack := [], None;
      compressionType := NO_COMPRESSION;
      closing := false;
      received, written := [], [];
      accepted, packets := [], [];
    }

    method Send(m: MessagePack) returns (queued: bool)
      requires Valid()
      modifies this`sendQueue, this`accepted
      ensures Valid()
      ensures queued <==> |MarshalPack(m)| < 65_530 && !closing
      ensures queued ==> sendQueue == old(sendQueue) + [m] && accepted == old(accepted) + [m]
      ensures !queued ==> sendQueue == old(sendQueue) && accepted == old(accepted)
      ensures old(Conserved()) ==> Conserved()
    {
      hide FrameAll, MessagesOf, MarshalPack;
      var size := |MarshalPack(m)|;
      if size >= MAX_PACKET_SIZE - PACKET_HEADER_SIZE {
        return false;
      }
      if closing {
        return false;
      }
      sendQueue := sendQueue + [m];
      accepted := accepted + [m];
      return true;
    }

    /**
     Writes the longest front of the carried-over and queued messages that fits into one
     packet. A carried-over message waits until something else is queued. A packet that
     compression makes too large is lost.
     */
    method Flush() returns (ghost packet: seq<MessagePack>)
      requires Valid()
      modifies this`sendQueue, this`oversizedMsgPack, this`written, this`packets
      ensures Valid()
      ensures old(sendQueue) == [] ==>
                && packet == []
                && sendQueue == [] && oversizedMsgPack == old(oversizedMsgPack)
                && written == old(written) && packets == old(packets)
      ensures old(sendQueue) != [] ==>
                && OptSeq(old(oversizedMsgPack)) + old(sendQueue) == packet + OptSeq(oversizedMsgPack) + sendQueue
                && Writable(packet)
                && (oversizedMsgPack.Some? ==> !Writable(packet + [oversizedMsgPack.value]))
                && (oversizedMsgPack.None? ==> sendQueue == [])
                && var payload := Payload(packet);
                   if |payload| <= MAX_PACKET_SIZE then
                     && written == old(written) + FrameOf(payload, compressionType)
                     && packets == old(packets) + [Sent(packet, compressionType)]
                   else written == old(written) && packets == old(packets)
      ensures old(Conserved()) && (packet == [] || |Payload(packet)| <= MAX_PACKET_SIZE) ==> Conserved()
      ensures old(Conserved()) && compressionType != SNAPPY ==> Conserved()
    {
      packet := [];
      if |sendQueue| == 0 {
        return;
      }
      hide MarshalPacket, FrameOf, FrameAll, MessagesOf, Sendable;
      ghost var before := MessagesOf(packets);
      var p, carry, rest := TakePacket(oversizedMsgPack, sendQueue);
      oversizedMsgPack, sendQueue := carry, rest;
      packet := p;
      WritePacket(p);
      Regroup(before, OptSeq(old(oversizedMsgPack)), old(sendQueue), p, OptSeq(oversizedMsgPack), sendQueue);
    }

    method WritePacket(p: seq<MessagePack>)
      requires Valid() && Writable(p)
      modifies this`written, this`packets
      ensures Valid()
      ensures var payload := Payload(p);
              if |payload| <= MAX_PACKET_SIZE then
                && written == old(written) + FrameOf(payload, compressionType)
                && packets == old(packets) + [Sent(p, compressionType)]
                && MessagesOf(packets) == MessagesOf(old(packets)) + p
                && (old(written == FrameAll(packets, compress)) ==> written == FrameAll(packets, compress))
              else written == old(written) && packets == old(packets)
    {
      hide MarshalPacket, FrameOf, FrameAll, MessagesOf, Sendable;
      var bytes := MarshalPacket(p);
      if compressionType == SNAPPY {
        bytes := compress(bytes);
      }
      if |bytes| > MAX_PACKET_SIZE {
        return;
      }
      FrameAllSnoc(packets, Sent(p, compressionType), compress);
      written := written + FrameOf(bytes, compressionType);
      packets := packets + [Sent(p, compressionType)];
    }

    ghost function Payload(packet: seq<MessagePack>): Bytes
      reads this
    {
      if compressionType == SNAPPY then compress(MarshalPacket(packet)) else MarshalPacket(packet)
    }

    /** The bytes that are waiting in the buffer, and those of them behind `bufPos`. */
    ghost function Kept(): (kept: Bytes)
      requires readPos <= readBuffer.Length
      reads this, readBuffer
      ensures |kept| == readPos
    {
      readBuffer[..readPos]
    }

    ghost function Unread(bufPos: nat): Bytes
      requires bufPos <= readPos <= readBuffer.Length
      reads this, readBuffer
    {
      readBuffer[bufPos..readPos]
    }

    lemma UnreadOfStream(stream: Bytes, bufPos: nat)
      requires bufPos <= readPos <= readBuffer.Length
      requires Kept() == stream
      ensures Unread(bufPos) == From(stream, bufPos)
    {
    }

    method ReadPacket(bufPos: nat) returns (next: nat, packet: Option<seq<MessagePack>>, error: bool)
      requires bufPos <= readPos <= readBuffer.Length
      modifies this`readPos, this`received, this`compressionType
      ensures readPos <= readBuffer.Length
      ensures var f := old(ReadFrame(Unread(bufPos), decompress));
              && (error <==> f.BadHeader? || (f.Frame? && f.decoded.Corrupt?))
              && (packet.Some? <==> f.Frame? && f.decoded.Packet?)
              && (packet.Some? ==> packet.value == f.decoded.messages)
              && next == (if packet.Some? then bufPos + f.fullSize else bufPos)
              && compressionType ==
                   (if f.Frame? then Adopt(old(compressionType), f.compression) else old(compressionType))
      ensures packet.Some? ==> received == old(received) + packet.value
      ensures packet.None? ==> received == old(received)
      ensures !error ==> readPos == old(readPos) && Kept() == old(Kept())
    {
      ghost var s := readBuffer[bufPos..readPos];
      ghost var all := readBuffer[..];
      assert s == all[bufPos..readPos];
      next, packet, error := bufPos, None, false;
      if readPos - bufPos < PACKET_HEADER_SIZE {
        return;
      }
      var tag := readBuffer[bufPos..bufPos + PACKET_HEADER_SIZE];
      assert s[..PACKET_HEADER_SIZE] == tag;
      var packetSize := ReadSize(tag);
      if packetSize == 0 {
        readPos := 0;
        error := true;
        return;
      }
      if packetSize > MAX_PACKET_SIZE {
        assert false;
      }
      var fullSize := PACKET_HEADER_SIZE + packetSize;
      if readPos < bufPos + fullSize {
        return;
      }
      var bytes := readBuffer[bufPos + PACKET_HEADER_SIZE..bufPos + fullSize];
      SliceOfSlice(all, bufPos, readPos, PACKET_HEADER_SIZE, fullSize);
      assert bytes == all[bufPos + PACKET_HEADER_SIZE..bufPos + fullSize];
      if tag[4] == SNAPPY {
        compressionType := SNAPPY;
        var plain := decompress(bytes);
        if plain.None? {
          error := true;
          return;
        }
        bytes := plain.value;
      }
      var p := UnmarshalPacket(bytes);
      if p.None? {
        return;
      }
      received := received + p.value;
      next := bufPos + fullSize;
      packet := p;
    }

    /**
     One read of `chunk` from the network. The messages handled, the bytes kept and the
     decision to close are those of parsing the kept bytes followed by the chunk.
     */
    method Receive(chunk: Bytes)
      requires Valid() && !closing
      requires |chunk| <= readBuffer.Length - readPos
      modifies this`readPos, this`received, this`compressionType, this`closing, readBuffer
      ensures Valid() && IsAt(Feed(old(Inbox()), chunk, decompress))
      ensures !closing && !Parse(old(Inbox()).buffer + chunk, old(compressionType), decompress).status.Stuck?
              ==> readPos < readBuffer.Length
    {
      ghost var stream := readBuffer[..readPos] + chunk;
      ghost var compression := compressionType;
      ReadIntoBuffer(chunk);
      WaitingBytesBound(stream, compression, decompress);
      if readPos < PACKET_HEADER_SIZE {
        return;
      }

      var bufPos, error := HandlePackets();
      if error {
        closing := true;
        return;
      }

      if bufPos < readPos {
        MoveToFront(bufPos);
      }
      readPos := readPos - bufPos;
    }

    /** The connection is as `st`, but that a closed one's buffer does not matter. */
    ghost predicate IsAt(st: Inbound)
      requires Valid()
      reads this, readBuffer
    {
      if st.closed then closing && received == st.received && compressionType == st.compression else Inbox() == st
    }

    /**
     Reads while the connection is open: the k-th read takes as many bytes of the stream as have
     arrived by then and fit. What it does is what feeding the parser those chunks does; so a new
     connection handles what parsing their concatenation finds, and closes iff that meets an error.
     */
    method ReceiveAll(stream: Bytes, arrivals: seq<nat>) returns (ghost chunks: seq<Bytes>)
      requires Valid()
      modifies this`readPos, this`received, this`compressionType, this`closing, readBuffer
      ensures Valid() && Concat(chunks) <= stream
      ensures IsAt(FeedAll(old(Inbox()), chunks, decompress))
      ensures old(Inbox()) == Inbound([], [], NO_COMPRESSION, false) ==>
                var whole := Parse(Concat(chunks), NO_COMPRESSION, decompress);
                received == whole.messages && closing == whole.status.Closed?
    {
      hide Parse, Feed, FeedAll, Concat;
      ghost var start := Inbox();
      var pos: nat := 0;
      chunks := [];
      NothingFed(start, decompress);
      for k := 0 to |arrivals|
        modifies this`readPos, this`received, this`compressionType, this`closing, readBuffer
        invariant Valid() && pos <= |stream| && Concat(chunks) == stream[..pos]
        invariant IsAt(FeedAll(start, chunks, decompress))
      {
        if closing {
          break;
        }
        var n := arrivals[k];
        if n > |stream| - pos {
          n := |stream| - pos;
        }
        if n > readBuffer.Length - readPos {
          n := readBuffer.Length - readPos;
        }
        var chunk := stream[pos..pos + n];
        FeedAllSnoc(start, chunks, chunk, decompress);
        ConcatSnoc(chunks, chunk);
        assert stream[..pos] + chunk == stream[..pos + n];
        Receive(chunk);
        chunks := chunks + [chunk];
        pos := pos + n;
      }
      ChunkIndependence(chunks, decompress);
    }

    lemma NothingFed(st: Inbound, decompress: Decompressor)
      ensures FeedAll(st, [], decompress) == st && Concat<Byte>([]) == []
    {
    }

    /** Handles the complete packets in the buffer; `bufPos` is where they end. */
    method HandlePackets() returns (bufPos: nat, error: bool)
      requires readPos <= readBuffer.Length
      modifies this`readPos, this`received, this`compressionType
      ensures readPos <= readBuffer.Length
      ensures var stream := old(Kept());
              var whole := Parse(stream, old(compressionType), decompress).After(old(received));
              && error == whole.status.Closed?
              && received == whole.messages
              && compressionType == whole.compression
              && (!error ==> readPos == old(readPos) && bufPos <= readPos && whole.rest == From(stream, bufPos))
    {
      hide ReadFrame, Parse, Adopt, HandledUpTo, From, Unread, Kept;
      ghost var stream := Kept();
      ghost var start := Inbound([], received, compressionType, false);
      NothingHandled(stream, start, decompress);
      bufPos, error := 0, false;
      while bufPos < readPos
        modifies this`readPos, this`received, this`compressionType
        invariant readPos == old(readPos) <= readBuffer.Length && |stream| == readPos && bufPos <= readPos && !error
        invariant Kept() == stream
        invariant HandledUpTo(stream, start, bufPos, compressionType, received, decompress)
        decreases readPos - bufPos
      {
        UnreadOfStream(stream, bufPos);
        HandleFrame(stream, start, bufPos, compressionType, received, decompress);
        var next, packet, failed := ReadPacket(bufPos);
        if failed {
          return bufPos, true;
        }
        if packet.None? {
          return;
        }
        bufPos := next;
      }
      NoFrameAtEnd(stream, decompress);
      HandleFrame(stream, start, bufPos, compressionType, received, decompress);
    }

    /** The network read: `chunk` lands behind the bytes already kept. */
    method ReadIntoBuffer(chunk: Bytes)
      requires readPos <= readBuffer.Length && |chunk| <= readBuffer.Length - readPos
      modifies this`readPos, readBuffer
      ensures readPos <= readBuffer.Length
      ensures readPos == old(readPos) + |chunk|
      ensures readBuffer[..readPos] == old(readBuffer[..readPos]) + chunk
    {
      for i := 0 to |chunk|
        modifies readBuffer
        invariant readBuffer[..readPos + i] == old(readBuffer[..readPos]) + chunk[..i]
      {
        readBuffer[readPos + i] := chunk[i];
      }
      readPos := readPos + |chunk|;
    }

    /** Copies the unread bytes to the front of the buffer, where the two may overlap. */
    method MoveToFront(bufPos: nat)
      requires bufPos <= readPos <= readBuffer.Length
      modifies readBuffer
      ensures readBuffer[..readPos - bufPos] == old(readBuffer[bufPos..readPos])
    {
      for i := 0 to readPos - bufPos
        invariant readBuffer[..i] == old(readBuffer[bufPos..bufPos + i])
        invariant readBuffer[bufPos + i..readPos] == old(readBuffer[bufPos + i..readPos])
      {
        assert readBuffer[bufPos + i..readPos][0] == old(readBuffer[bufPos + i..readPos])[0];
        readBuffer[i] := readBuffer[bufPos + i];
      }
    }
  }

  /**
   From one connection to another: after any run of `Send` and `Flush` in which no packet has become too large
   by compression, with the written bytes cut into reads in any way, the receiver has handled the first
   messages accepted, and together with those still unsent they are all of them.
   */
  lemma EndToEnd(sender: Connection, chunks: seq<Bytes>, decompress: Decompressor)
    requires sender.Valid() && sender.Conserved()
    requires AnyCompressed(sender.packets) ==> Undoes(decompress, sender.compress)
    requires Concat(chunks) <= sender.written
    ensures var end := FeedAll(Inbound([], [], NO_COMPRESSION, false), chunks, decompress);
            && !end.closed
            && end.received <= sender.accepted
            && (Concat(chunks) == sender.written ==>
                  && end.received + OptSeq(sender.oversizedMsgPack) + sender.sendQueue == sender.accepted
                  && end.buffer == [])
  {
    hide FeedAll, FrameAll, Concat, Fits, Undoes, AnyCompressed;
    StreamRoundTrip(sender.packets, chunks, sender.compress, decompress);
    assert MessagesOf(sender.packets) <= sender.accepted;
  }
}
