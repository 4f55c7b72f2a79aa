/** Packets over a TCP byte stream: a segmented buffer, and the framer that takes packets out of it. */
module Framing {
  import opened Bytes
  import opened Collections

  const HEADER := 8

  // ----- packets in a byte string

  /** The Length field, little-endian, at the start of a header. */
  function LengthOf(c: seq<byte>): nat
    requires |c| >= 4
  {
    c[0] as int + 0x100 * c[1] as int + 0x1_0000 * c[2] as int + 0x100_0000 * c[3] as int
  }

  /** A packet in memory: its Length is its size, header included. */
  predicate WellFormed(p: seq<byte>) {
    |p| >= HEADER && LengthOf(p) == |p|
  }

  /** A whole packet is there. */
  predicate Complete(c: seq<byte>) {
    |c| >= HEADER && LengthOf(c) <= |c|
  }

  /** All packets in front, and what is left over. */
  function Extracted(c: seq<byte>): (r: (seq<seq<byte>>, seq<byte>))
    ensures |r.1| <= |c|
  {
    if Complete(c) && LengthOf(c) > 0 then
      var (packets, rest) := Extracted(c[LengthOf(c)..]);
      ([c[..LengthOf(c)]] + packets, rest)
    else ([], c)
  }

  /** No packet in front says it has no length: otherwise the framer finds it again and again. */
  predicate Progressing(c: seq<byte>) {
    Complete(c) ==> LengthOf(c) > 0 && Progressing(c[LengthOf(c)..])
  }

  lemma LengthOfPrefix(c: seq<byte>, d: seq<byte>)
    requires |c| >= 4 && c <= d
    ensures LengthOf(c) == LengthOf(d)
  {
  }

  lemma CompleteMore(c: seq<byte>, more: seq<byte>)
    requires Complete(c)
    ensures Complete(c + more) && LengthOf(c + more) == LengthOf(c)
    ensures (c + more)[..LengthOf(c)] == c[..LengthOf(c)] && (c + more)[LengthOf(c)..] == c[LengthOf(c)..] + more
  {
    LengthOfPrefix(c, c + more);
  }

  /** Whatever is found first is found again when more has arrived: reads may cut the stream anywhere. */
  lemma {:induction false} ExtractedMore(c: seq<byte>, more: seq<byte>)
    requires Progressing(c)
    ensures var (packets, rest) := Extracted(c); var (packets', rest') := Extracted(rest + more);
            Extracted(c + more) == (packets + packets', rest')
    ensures Progressing(c + more) <==> Progressing(Extracted(c).1 + more)
    decreases |c|
  {
    if Complete(c) {
      hide Complete, LengthOf;
      assert LengthOf(c) > 0;
      CompleteMore(c, more);
      var d := c[LengthOf(c)..];
      ExtractedMore(d, more);
      Regroup([c[..LengthOf(c)]], Extracted(d).0, Extracted(Extracted(d).1 + more).0);
    } else {
      assert Extracted(c) == ([], c);
      assert [] + Extracted(c + more).0 == Extracted(c + more).0;
    }
  }

  ghost predicate AllWellFormed(packets: seq<seq<byte>>) {
    forall i :: 0 <= i < |packets| ==> WellFormed(packets[i])
  }

  /** The first k packets were taken from c, and what is left of it is a proper prefix of the next. */
  ghost predicate TakenUpTo(packets: seq<seq<byte>>, c: seq<byte>, k: nat) {
    && k <= |packets| && Progressing(c)
    && Extracted(c).0 == packets[..k] && c == Joined(packets[..k]) + Extracted(c).1
    && if k < |packets| then Extracted(c).1 < packets[k] else Extracted(c).1 == []
  }

  lemma FirstPacketTaken(packets: seq<seq<byte>>, c: seq<byte>)
    requires packets != [] && WellFormed(packets[0]) && c <= Joined(packets) && |packets[0]| <= |c|
    ensures Complete(c) && LengthOf(c) == |packets[0]| && c[..LengthOf(c)] == packets[0]
    ensures c[LengthOf(c)..] <= Joined(packets[1..])
  {
    var p := packets[0];
    assert p <= c;
    LengthOfPrefix(p, c);
  }

  lemma TakenOneMore(packets: seq<seq<byte>>, c: seq<byte>, k: nat)
    requires packets != [] && WellFormed(packets[0])
    requires Complete(c) && LengthOf(c) == |packets[0]| && c[..LengthOf(c)] == packets[0]
    requires TakenUpTo(packets[1..], c[LengthOf(c)..], k)
    ensures TakenUpTo(packets, c, k + 1)
  {
    var p, d := packets[0], c[LengthOf(c)..];
    assert packets[..k + 1] == [p] + packets[1..][..k];
    assert packets[..k + 1][1..] == packets[1..][..k];
    assert c == p + d;
    assert p + (Joined(packets[1..][..k]) + Extracted(d).1) == p + Joined(packets[1..][..k]) + Extracted(d).1;
  }

  /** From any part of a stream of well-formed packets the framer takes exactly the packets that are complete in it;
      what is left over is a proper prefix of the next. */
  lemma {:induction false} ExtractedIsSent(packets: seq<seq<byte>>, c: seq<byte>) returns (k: nat)
    requires AllWellFormed(packets) && c <= Joined(packets)
    ensures TakenUpTo(packets, c, k)
    decreases |packets|
  {
    if packets == [] {
      k := 0;
    } else if |packets[0]| <= |c| {
      hide Extracted, Progressing, TakenUpTo, Complete, Joined;
      FirstPacketTaken(packets, c);
      k := ExtractedIsSent(packets[1..], c[LengthOf(c)..]);
      TakenOneMore(packets, c, k);
      k := k + 1;
    } else {
      k := 0;
      assert c < packets[0];
      if |c| >= HEADER { LengthOfPrefix(c, packets[0]); }
    }
  }

  /** What the buffer holds after n searches for a packet. */
  function After(c: seq<byte>, n: nat): seq<byte> {
    if n == 0 || !Complete(c) then c else After(c[LengthOf(c)..], n - 1)
  }

  lemma {:induction false} SearchEnds(c: seq<byte>) returns (n: nat)
    requires Progressing(c)
    ensures !Complete(After(c, n))
    decreases |c|
  {
    if Complete(c) {
      n := SearchEnds(c[LengthOf(c)..]);
      n := n + 1;
    } else {
      n := 0;
    }
  }

  lemma {:induction false} SearchNeverEnds(c: seq<byte>, n: nat)
    requires !Progressing(c)
    ensures Complete(After(c, n))
    decreases n
  {
    if n > 0 {
      var d := c[LengthOf(c)..];
      if LengthOf(c) == 0 { assert d == c; }
      SearchNeverEnds(d, n - 1);
    }
  }

  /** The receive loop ends exactly when no packet it comes to says its length is 0. */
  lemma EndsExactly(c: seq<byte>)
    ensures Progressing(c) <==> exists n :: !Complete(After(c, n))
  {
    if Progressing(c) {
      var n := SearchEnds(c);
    } else {
      forall n: nat ensures Complete(After(c, n)) { SearchNeverEnds(c, n); }
    }
  }

  /** Eight bytes are enough to keep the receive loop from ending. */
  lemma EightZeroBytes()
    ensures !Progressing([0, 0, 0, 0, 0, 0, 0, 0])
  {
    var c: seq<byte> := [0, 0, 0, 0, 0, 0, 0, 0];
    assert Complete(c) && LengthOf(c) == 0;
  }

  /** The lowest byte of the length comes first, and the length counts the eight bytes of the header: one packet of two
      bytes, and half a header. */
  lemma OnePacketAndAHalf()
    ensures Extracted([10, 0, 0, 0, 1, 0, 0, 0, 65, 66, 8, 0, 0, 0]) ==
      ([[10, 0, 0, 0, 1, 0, 0, 0, 65, 66]], [8, 0, 0, 0])
    ensures LengthOf([1, 2, 3, 4]) == 0x0403_0201
  {
    var c: seq<byte> := [10, 0, 0, 0, 1, 0, 0, 0, 65, 66, 8, 0, 0, 0];
    assert LengthOf(c) == 10;
    assert c[..10] == [10, 0, 0, 0, 1, 0, 0, 0, 65, 66] && c[10..] == [8, 0, 0, 0];
    hide Extracted;
    ExtractedOnce(c);
    TooShort([8, 0, 0, 0]);
    assert [c[..10]] + [] == [c[..10]];
  }

  lemma ExtractedOnce(c: seq<byte>)
    requires Complete(c) && LengthOf(c) > 0
    ensures var rest := c[LengthOf(c)..]; Extracted(c) == ([c[..LengthOf(c)]] + Extracted(rest).0, Extracted(rest).1)
  {
  }

  lemma TooShort(c: seq<byte>)
    requires |c| < 8
    ensures Extracted(c) == ([], c)
  {
  }

  // ----- the socket

  /** What the socket does when it is asked to write again and again: it takes so many of the bytes, or fails where the
      number is 0, and where there is none. */
  type Takes = seq<nat>

  /** How many bytes it takes before it fails. */
  function Taken(takes: Takes): nat {
    if takes == [] || takes[0] == 0 then 0 else takes[0] + Taken(takes[1..])
  }

  // ----- the buffer

  /** A block of received bytes, of which the first `idx` were read. */
  datatype Block = Block(buffer: seq<byte>, idx: nat)

  /** No block has been read to its end. */
  ghost predicate AllLeft(blocks: seq<Block>) {
    forall i :: 0 <= i < |blocks| ==> blocks[i].idx < |blocks[i].buffer|
  }

  ghost function Unread(blocks: seq<Block>): seq<byte>
    requires AllLeft(blocks)
  {
    if blocks == [] then [] else blocks[0].buffer[blocks[0].idx..] + Unread(blocks[1..])
  }

  lemma {:induction false} UnreadMore(blocks: seq<Block>, b: Block)
    requires AllLeft(blocks) && b.idx == 0 && b.buffer != []
    ensures AllLeft(blocks + [b]) && Unread(blocks + [b]) == Unread(blocks) + b.buffer
  {
    if blocks != [] {
      UnreadMore(blocks[1..], b);
      assert (blocks + [b])[1..] == blocks[1..] + [b];
      var head := blocks[0].buffer[blocks[0].idx..];
      assert head + (Unread(blocks[1..]) + b.buffer) == head + Unread(blocks[1..]) + b.buffer;
    } else {
      assert blocks + [b] == [b] && [b][1..] == [];
    }
  }

  lemma BlockRead(b: seq<byte>, i: nat, n: nat)
    requires i + n <= |b|
    ensures b[i..] == b[i..i + n] + b[i + n..]
  {
  }

  lemma FirstLeft(blocks: seq<Block>)
    requires AllLeft(blocks)
    ensures if blocks == [] then Unread(blocks) == [] else blocks[0].idx < |blocks[0].buffer|
  {
  }

  /** Reading n bytes of the first block, and no more than it has, moves them from the unread bytes to those read. */
  lemma ReadFront(blocks: seq<Block>, n: nat, data: seq<byte>)
    requires blocks != [] && AllLeft(blocks) && blocks[0].idx + n <= |blocks[0].buffer|
    ensures var block := blocks[0].(idx := blocks[0].idx + n);
            var now := if block.idx >= |block.buffer| then blocks[1..] else blocks[0 := block];
            AllLeft(now) && data + Unread(blocks) == data + blocks[0].buffer[blocks[0].idx..block.idx] + Unread(now)
  {
    var b, i := blocks[0].buffer, blocks[0].idx;
    var rest := Unread(blocks[1..]);
    BlockRead(b, i, n);
    Regroup(b[i..i + n], b[i + n..], rest);
    Regroup(data, b[i..i + n], b[i + n..] + rest);
    if i + n < |b| {
      assert blocks[0 := Block(b, i + n)][1..] == blocks[1..];
    } else {
      assert b[i + n..] == [] && [] + rest == rest;
    }
  }

  class StreamBuffer {
    var blocks: seq<Block>
    var totalSize: nat

    /** Every block has bytes left, and m_dwTotalSize is their sum. */
    ghost predicate Valid()
      reads this
    {
      AllLeft(blocks) && totalSize == |Unread(blocks)|
    }

    ghost function Content(): seq<byte>
      reads this
      requires Valid()
    {
      Unread(blocks)
    }

    constructor ()
      ensures Valid() && Content() == []
    {
      blocks, totalSize := [], 0;
    }

    method AddData(data: seq<byte>)
      requires Valid()
      modifies this
      ensures Valid() && Content() == old(Content()) + data
    {
      if |data| == 0 { return; }
      UnreadMore(blocks, Block(data, 0));
      totalSize := totalSize + |data|;
      blocks := blocks + [Block(data, 0)];
    }

    method AddDataFront(data: seq<byte>)
      requires Valid()
      modifies this
      ensures Valid() && Content() == data + old(Content())
    {
      if |data| == 0 { return; }
      totalSize := totalSize + |data|;
      assert ([Block(data, 0)] + blocks)[1..] == blocks;
      blocks := [Block(data, 0)] + blocks;
    }

    /** One turn of the loop in GetDataCore: up to `wantRead` bytes of the first block, which goes when it is empty. */
    method ReadBlock(wantRead: nat, ghost data: seq<byte>) returns (piece: seq<byte>, more: bool)
      requires blocks != [] && AllLeft(blocks)
      modifies this`blocks
      ensures AllLeft(blocks) && data + old(Unread(blocks)) == data + piece + Unread(blocks)
      ensures |piece| <= wantRead && if more then |blocks| < |old(blocks)| else |piece| == wantRead
    {
      hide AllLeft, Unread;
      FirstLeft(blocks);
      var block := blocks[0];
      var left := |block.buffer| - block.idx;
      var curRead := if left < wantRead then left else wantRead;
      ReadFront(blocks, curRead, data);
      piece := block.buffer[block.idx..block.idx + curRead];
      block := block.(idx := block.idx + curRead);
      more := block.idx >= |block.buffer|;
      blocks := if more then blocks[1..] else blocks[0 := block];
    }

    /** GetDataCore: as many bytes as were asked for, or all there are. */
    method GetData(size: nat) returns (data: seq<byte>)
      requires Valid()
      modifies this
      ensures Valid() && data + Content() == old(Content())
      ensures |data| == if size < |old(Content())| then size else |old(Content())|
    {
      hide AllLeft, Unread;
      var wantRead: nat := size;
      data := [];
      ghost var all := Content();
      assert data + Unread(blocks) == all;
      while blocks != [] && wantRead > 0
        invariant AllLeft(blocks) && data + Unread(blocks) == all && wantRead + |data| == size && totalSize == |all|
        decreases |blocks|
      {
        var piece, more := ReadBlock(wantRead, data);
        data := data + piece;
        wantRead := wantRead - |piece|;
        if !more { break; }
      }
      FirstLeft(blocks);
      assert |data| + |Unread(blocks)| == |all|;
      totalSize := totalSize - |data|;
    }

    method GetCurrentDataSize() returns (size: nat)
      requires Valid()
      ensures size == |Content()|
    {
      size := totalSize;
    }

    /** GetPacketFromBuffer: look at the header, put it back, and take the packet when all of it is there.  Neither
        read comes up short, so the branches that undo a short read are never taken. */
    method GetPacket() returns (packet: Option<seq<byte>>)
      requires Valid()
      modifies this
      ensures Valid()
      ensures var c := old(Content());
        if Complete(c) then packet == Some(c[..LengthOf(c)]) && Content() == c[LengthOf(c)..]
        else packet == None && Content() == c
    {
      packet := None;
      ghost var c := Content();
      var currentSize := GetCurrentDataSize();
      if currentSize >= HEADER {
        var header := GetData(HEADER);
        AddDataFront(header);
        assert Content() == c;
        assert |header| == HEADER;
        assert header <= c;
        LengthOfPrefix(header, c);
        var length := LengthOf(header);
        if length <= currentSize {
          var data := GetData(length);
          assert |data| == length;
          packet := Some(data);
        }
      }
    }
  }

  // ----- the connection

  /** What the callback was given, and what the buffer holds, after a sequence of reads. */
  function Replayed(chunks: seq<seq<byte>>): (r: (seq<seq<byte>>, seq<byte>)) {
    if chunks == [] then ([], [])
    else
      var (packets, rest) := Replayed(chunks[..|chunks| - 1]);
      var (more, rest') := Extracted(rest + chunks[|chunks| - 1]);
      (packets + more, rest')
  }

  /** `sent` holds all packets that were given to SendPacket, and `chunks` what each read returned. */
  class Connection {
    var sendList: seq<seq<byte>>
    /** What was written to the socket. */
    var wire: seq<byte>
    const buffer: StreamBuffer
    /** What the receive callback was given. */
    var received: seq<seq<byte>>
    ghost var sent: seq<seq<byte>>
    ghost var failed: bool
    ghost var chunks: seq<seq<byte>>

    /** The socket has got what was sent, up to the packets still in the list, or up to a failed write. */
    ghost predicate Sending()
      reads this
    {
      && AllWellFormed(sendList) && AllWellFormed(sent)
      && if failed then wire <= Joined(sent) else wire + Joined(sendList) == Joined(sent)
    }

    ghost predicate Valid()
      reads this, buffer
    {
      buffer.Valid() && Sending() && (received, buffer.Content()) == Replayed(chunks)
    }

    constructor ()
      ensures Valid() && fresh(buffer) && sent == [] && wire == [] && chunks == []
    {
      sendList, wire, received, sent, chunks, failed := [], [], [], [], [], false;
      buffer := new StreamBuffer();
    }

    method SendPacket(packet: seq<byte>)
      requires Valid() && WellFormed(packet)
      modifies this`sendList, this`sent
      ensures Valid() && sendList == old(sendList) + [packet] && sent == old(sent) + [packet]
    {
      JoinedAdd(sendList, packet);
      JoinedAdd(sent, packet);
      Regroup(wire, Joined(sendList), packet);
      sendList := sendList + [packet];
      sent := sent + [packet];
    }

    /** SendProcess: the first packet of the list is written as far as the socket takes it.  If that is not all of it,
        it has failed, and the sending thread ends. */
    method SendProcess(takes: Takes) returns (sendOK: bool)
      requires Valid() && !failed
      modifies this`sendList, this`wire, this`failed
      ensures Valid() && failed == !sendOK
      ensures if old(sendList) == [] then sendOK && wire == old(wire) && sendList == []
              else
                && sendList == old(sendList)[1..] && (sendOK <==> Taken(takes) >= |old(sendList)[0]|)
                && wire == old(wire) + if sendOK then old(sendList)[0] else old(sendList)[0][..Taken(takes)]
    {
      hide Taken;
      sendOK := true;
      if sendList != [] {
        var packet := sendList[0];
        ghost var later := Joined(sendList[1..]);
        Regroup(wire, packet, later);
        sendList := sendList[1..];
        ghost var before := wire;
        sendOK := WritePacket(packet, takes);
        failed := !sendOK;
        if failed { assert wire <= before + packet; }
      }
    }

    method WritePacket(packet: seq<byte>, takes: Takes) returns (sendOK: bool)
      requires WellFormed(packet)
      modifies this`wire
      ensures sendOK <==> Taken(takes) >= |packet|
      ensures wire == old(wire) + if sendOK then packet else packet[..Taken(takes)]
    {
      sendOK := true;
      var length, data, calls: nat := LengthOf(packet), 0, 0;
      while length > 0
        invariant sendOK && 0 <= data && 0 <= length && data + length == |packet| && wire == old(wire) + packet[..data]
        invariant calls <= |takes| && Taken(takes) >= data
        invariant length > 0 ==> Taken(takes) == data + Taken(takes[calls..])
        decreases length
      {
        if calls == |takes| || takes[calls] == 0 { return false; }
        var sendSize := if takes[calls] < length then takes[calls] else length;
        assert packet[..data] + packet[data..data + sendSize] == packet[..data + sendSize];
        wire := wire + packet[data..data + sendSize];
        data := data + sendSize;
        length := length - sendSize;
        assert takes[calls..][1..] == takes[calls + 1..];
        calls := calls + 1;
      }
      assert packet[..data] == packet;
    }

    /** RecvProcess: one read, and all packets that are complete then. */
    method RecvProcess(chunk: seq<byte>)
      requires Valid() && Progressing(buffer.Content() + chunk)
      modifies this`received, this`chunks, buffer
      ensures Valid() && chunks == old(chunks) + [chunk]
      ensures var (packets, rest) := Extracted(old(buffer.Content()) + chunk);
              received == old(received) + packets && buffer.Content() == rest
    {
      hide Extracted, Progressing, Joined, AllWellFormed;
      buffer.AddData(chunk);
      ghost var c := buffer.Content();
      chunks := chunks + [chunk];
      assert chunks[..|chunks| - 1] == old(chunks);
      assert Replayed(chunks) == (old(received) + Extracted(c).0, Extracted(c).1);
      TakeAll();
    }

    method TakeAll()
      requires buffer.Valid() && Progressing(buffer.Content())
      modifies this`received, buffer
      ensures buffer.Valid()
      ensures var (packets, rest) := Extracted(old(buffer.Content()));
              received == old(received) + packets && buffer.Content() == rest
    {
      ghost var c := buffer.Content();
      while true
        invariant buffer.Valid() && Progressing(buffer.Content())
        invariant received + Extracted(buffer.Content()).0 == old(received) + Extracted(c).0
        invariant Extracted(buffer.Content()).1 == Extracted(c).1
        decreases |buffer.Content()|
      {
        ghost var before := received;
        var packet := buffer.GetPacket();
        if packet == None { return; }
        received := received + [packet.value];
        Regroup(before, [packet.value], Extracted(buffer.Content()).0);
      }
    }
  }

  lemma {:induction false} ReplayIsExtraction(packets: seq<seq<byte>>, chunks: seq<seq<byte>>)
    requires AllWellFormed(packets) && Joined(chunks) <= Joined(packets)
    ensures Replayed(chunks) == Extracted(Joined(chunks))
  {
    if chunks != [] {
      hide WellFormed, AllWellFormed, TakenUpTo;
      var front, last := chunks[..|chunks| - 1], chunks[|chunks| - 1];
      assert chunks == front + [last];
      JoinedAdd(front, last);
      ReplayIsExtraction(packets, front);
      ProgressingIn(packets, Joined(front));
      ExtractedMore(Joined(front), last);
    }
  }

  lemma ProgressingIn(packets: seq<seq<byte>>, c: seq<byte>)
    requires AllWellFormed(packets) && c <= Joined(packets)
    ensures Progressing(c)
  {
    hide WellFormed, AllWellFormed, Extracted, Progressing;
    var k := ExtractedIsSent(packets, c);
  }

  /** Whatever packets one end sends, and however the writes and reads cut the stream, the callback at the other end has
      been given exactly the packets that have arrived in full, in order, and its buffer holds a proper prefix of the
      next. */
  lemma PacketsArriveInOrder(sender: Connection, receiver: Connection) returns (k: nat)
    requires sender.Valid() && receiver.Valid() && Joined(receiver.chunks) <= sender.wire
    ensures k <= |sender.sent| && receiver.received == sender.sent[..k]
    ensures Joined(receiver.chunks) == Joined(sender.sent[..k]) + receiver.buffer.Content()
    ensures if k < |sender.sent| then receiver.buffer.Content() < sender.sent[k] else receiver.buffer.Content() == []
  {
    hide WellFormed, AllWellFormed, Extracted, Progressing, Joined;
    assert sender.wire <= Joined(sender.sent);
    k := ExtractedIsSent(sender.sent, Joined(receiver.chunks));
    ReplayIsExtraction(sender.sent, receiver.chunks);
  }

  /** The receive loop ends on every read of such a stream. */
  lemma NextReadProgresses(sender: Connection, receiver: Connection, chunk: seq<byte>)
    requires sender.Valid() && receiver.Valid() && Joined(receiver.chunks) + chunk <= sender.wire
    ensures Progressing(receiver.buffer.Content() + chunk)
  {
    hide WellFormed, AllWellFormed, Extracted, Progressing, Joined;
    var c := Joined(receiver.chunks);
    assert c <= c + chunk;
    ReplayIsExtraction(sender.sent, receiver.chunks);
    ProgressingIn(sender.sent, c);
    ProgressingIn(sender.sent, c + chunk);
    ExtractedMore(c, chunk);
  }
}
