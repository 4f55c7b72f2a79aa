/** The receiving half of a channel: reliable commands that wait for their predecessors, and what has been
    handed on to the application. */
module Inboxes {
  import opened Bytes
  import opened Windows

  /** A pending packet; `count` is its number of fragments, 0 when it came in one piece. */
  datatype Incoming = Incoming(number: u16, count: nat, remaining: nat, arrived: seq<bool>, data: seq<byte>)

  datatype Inbox = Inbox(incoming: u16, pending: seq<Incoming>, dispatched: seq<seq<byte>>)

  predicate Has(pending: seq<Incoming>, number: u16) {
    exists i :: 0 <= i < |pending| && pending[i].number == number
  }

  /** Pending packets are kept by their distance from the current number. */
  ghost predicate Sorted(pending: seq<Incoming>, incoming: u16) {
    forall i, j :: 0 <= i < j < |pending| ==> Ahead(pending[i].number, incoming) < Ahead(pending[j].number, incoming)
  }

  function Inserted(pending: seq<Incoming>, e: Incoming, incoming: u16): (after: seq<Incoming>) {
    if pending == [] || Ahead(e.number, incoming) < Ahead(pending[0].number, incoming) then [e] + pending
    else [pending[0]] + Inserted(pending[1..], e, incoming)
  }

  /** The number after a packet has been handed on. */
  function Passed(e: Incoming): u16 {
    if e.count > 0 then (e.number + (e.count - 1)) % WRAP else e.number
  }

  predicate Ready(box: Inbox) {
    && box.pending != [] && box.pending[0].remaining == 0
    && box.pending[0].number == (box.incoming + 1) % WRAP
  }

  /** enet_peer_dispatch_incoming_reliable_commands */
  function Drained(box: Inbox): Inbox
    decreases |box.pending|
  {
    if Ready(box) then
      var e := box.pending[0];
      Drained(Inbox(Passed(e), box.pending[1..], box.dispatched + [e.data]))
    else box
  }

  /** The checks of enet_peer_queue_incoming_command before anything is stored. */
  predicate Discards(box: Inbox, number: u16) {
    !Accepts(number, box.incoming) || number == box.incoming || Has(box.pending, number)
  }

  function Queued(box: Inbox, e: Incoming): Inbox {
    Drained(box.(pending := Inserted(box.pending, e, box.incoming)))
  }

  /** A handler's result; a refused command is not acknowledged. */
  datatype Reply = Reply(box: Inbox, ok: bool)

  /** enet_protocol_handle_send_reliable; `room` is false when too much data is waiting already. */
  function ReceiveReliable(box: Inbox, number: u16, data: seq<byte>, maximumPacketSize: nat, room: bool): Reply {
    if |data| > maximumPacketSize then Reply(box, false)
    else if Discards(box, number) then Reply(box, true)
    else if !room then Reply(box, false)
    else Reply(Queued(box, Incoming(number, 0, 0, [], data)), true)
  }

  const MAXIMUM_FRAGMENT_COUNT := 1024 * 1024

  datatype Fragment = Fragment(start: u16, index: nat, count: nat, offset: nat, total: nat, data: seq<byte>)

  predicate WellFormed(f: Fragment, maximumPacketSize: nat) {
    && f.count <= MAXIMUM_FRAGMENT_COUNT && f.index < f.count && f.total <= maximumPacketSize
    && f.offset < f.total && |f.data| <= f.total - f.offset
  }

  function Written(data: seq<byte>, offset: nat, piece: seq<byte>): seq<byte>
    requires offset + |piece| <= |data|
  {
    data[..offset] + piece + data[offset + |piece|..]
  }

  /** One more fragment in its place. */
  function Filled(e: Incoming, f: Fragment): Incoming
    requires f.index < f.count == e.count == |e.arrived| && f.offset + |f.data| <= |e.data|
  {
    if e.arrived[f.index] then e
    else e.(remaining := if e.remaining > 0 then e.remaining - 1 else 0, arrived := e.arrived[f.index := true],
            data := Written(e.data, f.offset, f.data))
  }

  /** The slot of a pending packet. */
  function IndexOf(pending: seq<Incoming>, number: u16): (i: nat)
    requires Has(pending, number)
    ensures i < |pending| && pending[i].number == number
  {
    if pending[0].number == number then 0 else 1 + IndexOf(pending[1..], number)
  }

  function Marked(box: Inbox, i: nat, f: Fragment): Inbox
    requires i < |box.pending| && f.index < f.count == box.pending[i].count == |box.pending[i].arrived|
    requires f.offset + |f.data| <= |box.pending[i].data|
  {
    var b := box.(pending := box.pending[i := Filled(box.pending[i], f)]);
    if !box.pending[i].arrived[f.index] && b.pending[i].remaining == 0 then Drained(b) else b
  }

  /** What every pending packet looks like: as many fragments are missing as flags are not set. */
  ghost predicate Shaped(e: Incoming) {
    |e.arrived| == e.count && e.remaining == Missing(e.arrived)
  }

  function Missing(arrived: seq<bool>): nat {
    if arrived == [] then 0 else (if arrived[0] then 0 else 1) + Missing(arrived[1..])
  }

  /** Between two commands: nothing is left that could be handed on. */
  ghost predicate Tidy(box: Inbox) {
    Sorted(box.pending, box.incoming) && !Ready(box) && forall i :: 0 <= i < |box.pending| ==> Shaped(box.pending[i])
  }

  /** A new fragmented packet, of which nothing has arrived. */
  function Started(f: Fragment, blank: seq<byte>): Incoming {
    Incoming(f.start, f.count, f.count, seq(f.count, _ => false), blank)
  }

  lemma InsertedHas(pending: seq<Incoming>, e: Incoming, incoming: u16)
    ensures Has(Inserted(pending, e, incoming), e.number)
  {
    var after := Inserted(pending, e, incoming);
    if pending == [] || Ahead(e.number, incoming) < Ahead(pending[0].number, incoming) {
      assert after[0].number == e.number;
    } else {
      InsertedHas(pending[1..], e, incoming);
      var i :| 0 <= i < |after| - 1 && after[1..][i].number == e.number;
      assert after[i + 1].number == e.number;
    }
  }

  /** enet_protocol_handle_send_fragment; `blank` is the fresh memory of the packet. */
  function ReceiveFragment(box: Inbox, f: Fragment, maximumPacketSize: nat, room: bool, blank: seq<byte>): Reply
    requires |blank| == f.total
    requires forall i :: 0 <= i < |box.pending| ==> |box.pending[i].arrived| == box.pending[i].count
  {
    if |f.data| > maximumPacketSize then Reply(box, false)
    else if !Accepts(f.start, box.incoming) then Reply(box, true)
    else if !WellFormed(f, maximumPacketSize) then Reply(box, false)
    else if Has(box.pending, f.start) then
      var i := IndexOf(box.pending, f.start);
      if box.pending[i].count != f.count || |box.pending[i].data| != f.total then Reply(box, false)
      else Reply(Marked(box, i, f), true)
    else if f.start == box.incoming || !room then Reply(box, false)
    else
      InsertedAll(box.pending, Started(f, blank), box.incoming);
      var b := box.(pending := Inserted(box.pending, Started(f, blank), box.incoming));
      InsertedHas(box.pending, Started(f, blank), box.incoming);
      Reply(Marked(b, IndexOf(b.pending, f.start), f), true)
  }

  /** The new packet's neighbours are as before. */
  lemma InsertedAll(pending: seq<Incoming>, e: Incoming, incoming: u16)
    ensures |Inserted(pending, e, incoming)| == |pending| + 1
    ensures forall x :: x in Inserted(pending, e, incoming) <==> x in pending || x == e
    ensures !Has(pending, e.number) ==>
      forall i :: 0 <= i <= |pending| && Inserted(pending, e, incoming)[i].number == e.number ==>
                    Inserted(pending, e, incoming)[i] == e
  {
  }

  lemma {:induction false} InsertedAt(pending: seq<Incoming>, e: Incoming, incoming: u16, k: nat)
    requires k <= |pending|
    requires forall i :: 0 <= i < k ==> Ahead(pending[i].number, incoming) < Ahead(e.number, incoming)
    requires k < |pending| ==> Ahead(e.number, incoming) < Ahead(pending[k].number, incoming)
    ensures Inserted(pending, e, incoming) == pending[..k] + [e] + pending[k..]
  {
    if k > 0 {
      InsertedAt(pending[1..], e, incoming, k - 1);
      assert pending[0] == pending[..k][0];
      assert [pending[0]] + (pending[1..][..k - 1] + [e] + pending[1..][k - 1..]) == pending[..k] + [e] + pending[k..];
    }
  }

  /** `number` belongs between the first `k` pending packets and the rest. */
  ghost predicate Between(pending: seq<Incoming>, k: nat, number: u16, incoming: u16) {
    && k <= |pending|
    && (forall i :: 0 <= i < k ==> Ahead(pending[i].number, incoming) < Ahead(number, incoming))
    && (forall i :: k <= i < |pending| ==> Ahead(number, incoming) < Ahead(pending[i].number, incoming))
  }

  lemma Apart(pending: seq<Incoming>, k: nat, number: u16, incoming: u16)
    requires Between(pending, k, number, incoming)
    ensures !Has(pending, number)
  {
    forall i | 0 <= i < |pending| ensures pending[i].number != number {
      if i < k {
        assert Ahead(pending[i].number, incoming) < Ahead(number, incoming);
      } else {
        assert Ahead(number, incoming) < Ahead(pending[i].number, incoming);
      }
    }
  }

  lemma {:induction false} OnlyOne(pending: seq<Incoming>, incoming: u16, number: u16, k: nat)
    requires Sorted(pending, incoming) && k < |pending| && pending[k].number == number
    ensures Has(pending, number) && IndexOf(pending, number) == k
  {
    var i := IndexOf(pending, number);
  }

  /** A new packet that still misses fragments does not let anything be handed on. */
  lemma InsertedIsTidy(box: Inbox, e: Incoming)
    requires !Ready(box) && e.remaining > 0
    ensures !Ready(box.(pending := Inserted(box.pending, e, box.incoming)))
  {
  }

  lemma InsertedIsSorted(pending: seq<Incoming>, e: Incoming, incoming: u16, k: nat)
    requires Sorted(pending, incoming) && Between(pending, k, e.number, incoming)
    ensures Sorted(pending[..k] + [e] + pending[k..], incoming)
  {
  }

  lemma FragmentKnown(box: Inbox, f: Fragment, maximumPacketSize: nat, room: bool, blank: seq<byte>, k: nat)
    requires Tidy(box) && |blank| == f.total && Accepts(f.start, box.incoming) && WellFormed(f, maximumPacketSize)
    requires k < |box.pending| && box.pending[k].number == f.start
    ensures ReceiveFragment(box, f, maximumPacketSize, room, blank)
         == if box.pending[k].count != f.count || |box.pending[k].data| != f.total then Reply(box, false)
            else Reply(Marked(box, k, f), true)
  {
    OnlyOne(box.pending, box.incoming, f.start, k);
    hide Marked, Missing, Sorted, Ready;
  }

  lemma FragmentNew(box: Inbox, f: Fragment, maximumPacketSize: nat, room: bool, blank: seq<byte>, k: nat)
    requires Tidy(box) && |blank| == f.total && Accepts(f.start, box.incoming) && WellFormed(f, maximumPacketSize)
    requires Between(box.pending, k, f.start, box.incoming) && f.start != box.incoming && room
    ensures var e := Started(f, blank); var b := box.(pending := box.pending[..k] + [e] + box.pending[k..]);
      && Queued(box, e) == b
      && ReceiveFragment(box, f, maximumPacketSize, room, blank) == Reply(Marked(b, k, f), true)
  {
    var e := Started(f, blank);
    Apart(box.pending, k, f.start, box.incoming);
    InsertedAt(box.pending, e, box.incoming, k);
    InsertedIsTidy(box, e);
    InsertedIsSorted(box.pending, e, box.incoming, k);
    OnlyOne(box.pending[..k] + [e] + box.pending[k..], box.incoming, f.start, k);
    hide Marked, Missing, Sorted, Ready, Inserted, Between;
  }

  lemma FragmentRefused(box: Inbox, f: Fragment, maximumPacketSize: nat, room: bool, blank: seq<byte>)
    requires Tidy(box) && |blank| == f.total && !Has(box.pending, f.start)
    requires Accepts(f.start, box.incoming) && (!WellFormed(f, maximumPacketSize) || f.start == box.incoming || !room)
    ensures ReceiveFragment(box, f, maximumPacketSize, room, blank) == Reply(box, false)
  {
  }

  lemma FragmentIgnored(box: Inbox, f: Fragment, maximumPacketSize: nat, room: bool, blank: seq<byte>)
    requires Tidy(box) && |blank| == f.total
    ensures |f.data| > maximumPacketSize ==>
      ReceiveFragment(box, f, maximumPacketSize, room, blank) == Reply(box, false)
    ensures |f.data| <= maximumPacketSize && !Accepts(f.start, box.incoming) ==>
              ReceiveFragment(box, f, maximumPacketSize, room, blank) == Reply(box, true)
    ensures Accepts(f.start, box.incoming) && !WellFormed(f, maximumPacketSize) ==>
              ReceiveFragment(box, f, maximumPacketSize, room, blank) == Reply(box, false)
  {
  }

  /** A fragment is refused when it is too long, or when it is in the receiver's windows and is no fragment of a packet
      of at most 2^20 fragments and of the allowed size, does not fit the packet that is pending under its number, or
      there is no such packet and no room for one. */
  lemma FragmentIsTakenExactly(box: Inbox, f: Fragment, maximumPacketSize: nat, room: bool, blank: seq<byte>)
    requires Tidy(box) && |blank| == f.total
    ensures ReceiveFragment(box, f, maximumPacketSize, room, blank).ok <==>
      |f.data| <= maximumPacketSize && (Accepts(f.start, box.incoming) ==>
        && f.index < f.count <= 0x10_0000 && f.offset < f.total <= maximumPacketSize && f.offset + |f.data| <= f.total
        && (forall j :: 0 <= j < |box.pending| && box.pending[j].number == f.start ==>
              box.pending[j].count == f.count && |box.pending[j].data| == f.total)
        && (Has(box.pending, f.start) || (f.start != box.incoming && room)))
    ensures !ReceiveFragment(box, f, maximumPacketSize, room, blank).ok ==>
      ReceiveFragment(box, f, maximumPacketSize, room, blank).box == box
  {
    hide Marked, Missing, Inserted, Accepts;
    if Has(box.pending, f.start) {
      var k := IndexOf(box.pending, f.start);
      forall j | 0 <= j < |box.pending| && box.pending[j].number == f.start ensures j == k {
        OnlyOne(box.pending, box.incoming, f.start, j);
      }
    }
  }

  lemma Shapes(f: Fragment, maximumPacketSize: nat)
    requires WellFormed(f, maximumPacketSize)
    ensures f.index < f.count && f.offset + |f.data| <= f.total
  {
  }
}
