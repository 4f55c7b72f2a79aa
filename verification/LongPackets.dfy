/** What becomes of a packet that reaches a third window of numbers, once it was handed on. */
module LongPackets {
  import opened Bytes
  import opened Windows
  import opened Inboxes
  import opened Fragments
  import opened Deliveries
  import opened Transport

  /** For every packet that reaches a third window and can be delivered: when it has been handed on and the receiver is
      ten windows past its first number, a repeated copy of its last fragment makes the receiver queue it again. */
  lemma LongPacketIsQueuedAgain(p: Packet, first: nat, base: nat, dispatched: seq<seq<byte>>, maximumPacketSize: nat,
                                blank: seq<byte>)
    requires Pieces(p) > 0 && 0 < first && !Sendable(first, first + Width(p) - 1) && Window(base) == Window(first) + 10
    requires |p.data| <= maximumPacketSize && |blank| == |p.data|
    ensures LooksNew(first, first + Width(p) - 1, base)
    ensures var c := Command(p, first, Width(p) - 1);
      && c.total == |blank|
      && var reply := ReceiveFragment(Inbox(Wire(base), [], dispatched), c, maximumPacketSize, true, blank);
         && reply.ok && reply.box.incoming == Wire(base) && |reply.box.pending| == 1
         && reply.box.pending[0].number == Wire(first) && reply.box.pending[0].count == Pieces(p)
         && reply.box.pending[0].remaining == Pieces(p) - 1 > 0
  {
    hide ReceiveFragment, Command, Sendable, LooksNew, Window, Wire;
    var k := Width(p) - 1;
    var c := Command(p, first, k);
    LongLooksNew(first, first + k, base);
    LongMeans(p, first, base);
    CommandFits(p, first, k);
    LastFragmentStarts(Inbox(Wire(base), [], dispatched), c, maximumPacketSize, blank);
  }

  lemma LongMeans(p: Packet, first: nat, base: nat)
    requires Pieces(p) > 0 && 0 < first && !Sendable(first, first + Width(p) - 1) && Window(base) == Window(first) + 10
    ensures Accepts(Wire(first), Wire(base)) && Wire(first) != Wire(base)
    ensures 1 < Pieces(p) == Width(p) <= MAXIMUM_FRAGMENT_COUNT
  {
    hide Wire, Accepts;
    LongLooksNew(first, first + Width(p) - 1, base);
    WireWindow(first);
    WireWindow(base);
  }

  lemma LastFragmentStarts(box: Inbox, f: Fragment, maximumPacketSize: nat, blank: seq<byte>)
    requires box.pending == [] && |blank| == f.total && f.count > 1
    requires Accepts(f.start, box.incoming) && f.start != box.incoming && WellFormed(f, maximumPacketSize)
    ensures var reply := ReceiveFragment(box, f, maximumPacketSize, true, blank);
      && reply.ok && reply.box.incoming == box.incoming && |reply.box.pending| == 1
      && reply.box.pending[0].number == f.start && reply.box.pending[0].count == f.count
      && reply.box.pending[0].remaining == f.count - 1
  {
    var e := Started(f, blank);
    assert Inserted(box.pending, e, box.incoming) == [e];
    assert [e][0].number == f.start;
    assert Has([e], f.start);
    assert IndexOf([e], f.start) == 0;
  }

  // ----- what is queued again stays

  /** Packets that fit one command arrive in turn, after serial `base`. */
  function InTurn(box: Inbox, base: nat, datas: seq<seq<byte>>, maximumPacketSize: nat): Inbox
    decreases |datas|
  {
    if datas == [] then box
    else
      InTurn(ReceiveReliable(box, Wire(base + 1), datas[0], maximumPacketSize, true).box, base + 1, datas[1..],
             maximumPacketSize)
  }

  lemma OneInTurn(box: Inbox, base: nat, e: Incoming, data: seq<byte>, maximumPacketSize: nat)
    requires box == Inbox(Wire(base), [e], box.dispatched) && e.remaining > 0 && |data| <= maximumPacketSize
    requires 1 < Ahead(e.number, Wire(base))
    ensures ReceiveReliable(box, Wire(base + 1), data, maximumPacketSize, true)
         == Reply(Inbox(Wire(base + 1), [e], box.dispatched + [data]), true)
    ensures Ahead(e.number, Wire(base + 1)) == Ahead(e.number, Wire(base)) - 1
  {
    NextIsAccepted(base);
    WireNext(base, 1);
    AheadIs(e.number, Wire(base));
    AheadIs(e.number, Wire(base + 1));
    AheadIs(Wire(base + 1), Wire(base));
    var next := Incoming(Wire(base + 1), 0, 0, [], data);
    assert Inserted([e], next, Wire(base)) == [next] + [e];
    assert ([next] + [e])[1..] == [e];
    var b := Inbox(Wire(base), [next] + [e], box.dispatched);
    var after := Inbox(Wire(base + 1), [e], box.dispatched + [data]);
    assert Ready(b) && Drained(b) == Drained(after);
    assert !Ready(after);
    assert !Discards(box, Wire(base + 1));
  }

  lemma NextIsAccepted(base: nat)
    ensures Accepts(Wire(base + 1), Wire(base))
  {
    WindowMonotone(base, base + 1);
    AcceptsMeans(base + 1, base);
  }

  /** Whatever packets are handed on in turn, up to its number, an entry that misses fragments stays as it is. */
  lemma {:induction false} EntryStays(box: Inbox, base: nat, e: Incoming, datas: seq<seq<byte>>, maximumPacketSize: nat)
    requires box == Inbox(Wire(base), [e], box.dispatched) && e.remaining > 0
    requires |datas| < Ahead(e.number, Wire(base)) && forall j :: 0 <= j < |datas| ==> |datas[j]| <= maximumPacketSize
    ensures InTurn(box, base, datas, maximumPacketSize)
         == Inbox(Wire(base + |datas|), [e], box.dispatched + datas)
    decreases |datas|
  {
    hide ReceiveReliable, Wire, Ahead;
    if datas == [] {
      assert box.dispatched + datas == box.dispatched;
    } else {
      OneInTurn(box, base, e, datas[0], maximumPacketSize);
      EntryStays(Inbox(Wire(base + 1), [e], box.dispatched + [datas[0]]), base + 1, e, datas[1..], maximumPacketSize);
      assert box.dispatched + [datas[0]] + datas[1..] == box.dispatched + datas;
    }
  }

  /** And it takes the place of a later packet: a turn of numbers later a new packet with the same number is thrown
      away, and acknowledged. */
  lemma NewPacketIsLost(box: Inbox, first: nat, data: seq<byte>, maximumPacketSize: nat, room: bool)
    requires Has(box.pending, Wire(first)) && Accepts(Wire(first + WRAP), box.incoming) && |data| <= maximumPacketSize
    ensures ReceiveReliable(box, Wire(first + WRAP), data, maximumPacketSize, room) == Reply(box, true)
    ensures Acknowledges(Wire(first + WRAP), box.incoming)
  {
    WireTurn(first);
    AcceptedIsAcknowledged(first + WRAP, box.incoming);
  }

  lemma WireTurn(n: nat)
    ensures Wire(n + WRAP) == Wire(n)
  {
  }

  /** The whole course, for every such packet: a fragment comes once more when the receiver is ten windows past the
      packet's first number; other packets are handed on in turn; and the packet whose number is a turn past that first
      number is discarded when it arrives, and acknowledged, as soon as it is in the receiver's windows. */
  lemma LongPacketCostsAnother(p: Packet, first: nat, base: nat, datas: seq<seq<byte>>, maximumPacketSize: nat,
                               blank: seq<byte>, data: seq<byte>, room: bool)
    requires Pieces(p) > 0 && 0 < first && !Sendable(first, first + Width(p) - 1) && Window(base) == Window(first) + 10
    requires |p.data| <= maximumPacketSize && |blank| == |p.data| && |data| <= maximumPacketSize
    requires base + |datas| < first + WRAP && Window(first + WRAP) + 1 < Window(base + |datas|) + FREE_WINDOWS
    requires forall j :: 0 <= j < |datas| ==> |datas[j]| <= maximumPacketSize
    ensures var c := Command(p, first, Width(p) - 1);
      && c.total == |blank|
      && var again := ReceiveFragment(Inbox(Wire(base), [], []), c, maximumPacketSize, true, blank).box;
         var later := InTurn(again, base, datas, maximumPacketSize);
         && later == Inbox(Wire(base + |datas|), again.pending, datas)
         && ReceiveReliable(later, Wire(first + WRAP), data, maximumPacketSize, room) == Reply(later, true)
         && Acknowledges(Wire(first + WRAP), later.incoming)
  {
    hide ReceiveFragment, ReceiveReliable, Command, Wire, Ahead, Sendable, Window, Pieces, InTurn;
    LongPacketIsQueuedAgain(p, first, base, [], maximumPacketSize, blank);
    var again := ReceiveFragment(Inbox(Wire(base), [], []), Command(p, first, Width(p) - 1), maximumPacketSize, true,
                                 blank).box;
    var e := again.pending[0];
    assert again.pending == [e];
    LastFragmentHandsNothingOn(p, first, base, maximumPacketSize, blank);
    TurnAhead(first, base, |datas|);
    EntryStays(again, base, e, datas, maximumPacketSize);
    assert [] + datas == datas;
    var later := InTurn(again, base, datas, maximumPacketSize);
    assert later.pending[0].number == Wire(first);
    NewPacketIsLost(later, first, data, maximumPacketSize, room);
  }

  lemma LastFragmentHandsNothingOn(p: Packet, first: nat, base: nat, maximumPacketSize: nat, blank: seq<byte>)
    requires Pieces(p) > 0 && 0 < first && !Sendable(first, first + Width(p) - 1) && Window(base) == Window(first) + 10
    requires |p.data| <= maximumPacketSize && |blank| == |p.data|
    ensures var c := Command(p, first, Width(p) - 1);
      && c.total == |blank|
      && ReceiveFragment(Inbox(Wire(base), [], []), c, maximumPacketSize, true, blank).box.dispatched == []
  {
    LongPacketIsQueuedAgain(p, first, base, [], maximumPacketSize, blank);
  }

  lemma TurnAhead(first: nat, base: nat, count: nat)
    requires 0 < first && Window(base) == Window(first) + 10 && base + count < first + WRAP
    requires Window(first + WRAP) + 1 < Window(base + count) + FREE_WINDOWS
    ensures count < Ahead(Wire(first), Wire(base))
    ensures Accepts(Wire(first + WRAP), Wire(base + count))
  {
    WireTurn(first);
    SerialOfWire(first + WRAP, base);
    WindowMonotone(base + count, first + WRAP);
    AcceptsMeans(first + WRAP, base + count);
  }

  /** An instance: a packet of 8192 fragments with the numbers 1 to 8192.  Its last fragment comes once more at number
      40960; then the packets with the numbers 40961 to 60000 are handed on, and the second packet with number 1 is
      lost. */
  lemma EightThousandFragments(p: Packet, datas: seq<seq<byte>>, maximumPacketSize: nat, blank: seq<byte>,
                               data: seq<byte>, room: bool)
    requires Pieces(p) == 2 * WINDOW_SIZE && |p.data| <= maximumPacketSize && |blank| == |p.data|
    requires |datas| == 60000 - 40960 && forall j :: 0 <= j < |datas| ==> |datas[j]| <= maximumPacketSize
    requires |data| <= maximumPacketSize
    ensures var c := Command(p, 1, 2 * WINDOW_SIZE - 1);
      && c.total == |blank|
      && var again := ReceiveFragment(Inbox(40960, [], []), c, maximumPacketSize, true, blank).box;
         var later := InTurn(again, 40960, datas, maximumPacketSize);
         && later == Inbox(60000, again.pending, datas) && Has(later.pending, 1)
         && ReceiveReliable(later, Wire(1 + WRAP), data, maximumPacketSize, room) == Reply(later, true)
         && Acknowledges(Wire(1 + WRAP), later.incoming)
  {
    hide ReceiveFragment, ReceiveReliable, Command, InTurn;
    LongPacketIsQueuedAgain(p, 1, 40960, [], maximumPacketSize, blank);
    var again := ReceiveFragment(Inbox(40960, [], []), Command(p, 1, 2 * WINDOW_SIZE - 1), maximumPacketSize, true,
                                 blank).box;
    assert again.pending[0].number == 1;
    LongPacketCostsAnother(p, 1, 40960, datas, maximumPacketSize, blank, data, room);
  }
}
