/** The receiving half of a channel in place: peer.c and protocol.c on incoming reliable commands. */
module Receivers {
  import opened Bytes
  import opened Windows
  import opened Inboxes

  function Datas(pending: seq<Incoming>): seq<seq<byte>> {
    if pending == [] then [] else [pending[0].data] + Datas(pending[1..])
  }

  lemma {:induction false} DatasMore(pending: seq<Incoming>, k: nat)
    requires k < |pending|
    ensures Datas(pending[..k + 1]) == Datas(pending[..k]) + [pending[k].data]
  {
    if k > 0 {
      DatasMore(pending[1..], k - 1);
      assert pending[..k + 1][1..] == pending[1..][..k] && pending[..k][1..] == pending[1..][..k - 1];
    } else {
      assert pending[..1] == [pending[0]];
    }
  }

  lemma DrainStep(incoming: u16, pending: seq<Incoming>, k: nat, dispatched: seq<seq<byte>>)
    requires k <= |pending|
    ensures var box := Inbox(incoming, pending[k..], dispatched + Datas(pending[..k]));
      if k < |pending| && pending[k].remaining == 0 && pending[k].number == (incoming + 1) % WRAP then
        Drained(box) == Drained(Inbox(Passed(pending[k]), pending[k + 1..], dispatched + Datas(pending[..k + 1])))
      else Drained(box) == box
  {
    if k < |pending| {
      DatasMore(pending, k);
      assert pending[k..][1..] == pending[k + 1..];
      assert dispatched + Datas(pending[..k]) + [pending[k].data] == dispatched + Datas(pending[..k + 1]);
    }
  }

  class Receiver {
    var incoming: u16
    var pending: seq<Incoming>
    var dispatched: seq<seq<byte>>

    constructor ()
      ensures Box() == Inbox(0, [], [])
    {
      incoming, pending, dispatched := 0, [], [];
    }

    function Box(): Inbox
      reads this
    {
      Inbox(incoming, pending, dispatched)
    }

    /** enet_peer_dispatch_incoming_reliable_commands */
    method Dispatch()
      modifies this
      ensures Box() == Drained(old(Box()))
    {
      hide Drained;
      var k := 0;
      ghost var all, done := pending, dispatched;
      assert done + Datas(all[..0]) == done && all[0..] == all;
      while k < |pending|
        invariant k <= |pending| && pending == all && dispatched == done
        invariant Drained(Inbox(incoming, all[k..], done + Datas(all[..k]))) == Drained(old(Box()))
      {
        DrainStep(incoming, all, k, done);
        var e := pending[k];
        if e.remaining > 0 || e.number != (incoming + 1) % WRAP { break; }
        incoming := e.number;
        if e.count > 0 { incoming := (incoming + (e.count - 1)) % WRAP; }
        k := k + 1;
      }
      DrainStep(incoming, all, k, done);
      MoveDispatched(k);
    }

    /** enet_list_move of the first `k` pending packets. */
    method MoveDispatched(k: nat)
      requires k <= |pending|
      modifies this
      ensures Box() == Inbox(old(incoming), old(pending)[k..], old(dispatched) + Datas(old(pending)[..k]))
    {
      var i := 0;
      ghost var all := pending;
      while i < k
        invariant i <= k && pending == all && incoming == old(incoming)
        invariant dispatched == old(dispatched) + Datas(all[..i])
      {
        DatasMore(all, i);
        dispatched := dispatched + [pending[i].data];
        i := i + 1;
      }
      pending := pending[k..];
    }

    /** The backward loop over the pending packets: the place of `number`, or the packet that has it. */
    method FindPlace(number: u16) returns (k: nat, found: bool)
      requires Sorted(pending, incoming)
      ensures found ==> k < |pending| && pending[k].number == number
      ensures found <==> Has(pending, number)
      ensures !found ==> Between(pending, k, number, incoming)
    {
      k, found := |pending|, false;
      while k > 0
        invariant k <= |pending|
        invariant forall i :: k <= i < |pending| ==> Ahead(number, incoming) < Ahead(pending[i].number, incoming)
      {
        var e := pending[k - 1];
        OrderIsDistance(e.number, number, incoming);
        OrderIsDistance(number, e.number, incoming);
        if number >= incoming {
          if e.number < incoming { k := k - 1; continue; }
        } else if e.number >= incoming {
          break;
        }
        if e.number <= number {
          if e.number < number { break; }
          k, found := k - 1, true;
          break;
        }
        k := k - 1;
      }
      if !found { Apart(pending, k, number, incoming); }
    }

    /** enet_peer_queue_incoming_command for a reliable command; `stored` is false when it was discarded. */
    method Queue(number: u16, count: nat, data: seq<byte>, room: bool) returns (ok: bool, stored: bool)
      requires Sorted(pending, incoming)
      modifies this
      ensures var e := Incoming(number, count, count, seq(count, _ => false), data);
        if Discards(old(Box()), number) then Box() == old(Box()) && !stored && (ok <==> count == 0)
        else if !room then Box() == old(Box()) && !stored && !ok
        else Box() == Queued(old(Box()), e) && stored && ok
    {
      stored := false;
      if !Accepts(number, incoming) || number == incoming { return count == 0, false; }
      var k, found := FindPlace(number);
      if found { return count == 0, false; }
      if !room { return false, false; }
      var e := Incoming(number, count, count, seq(count, _ => false), data);
      InsertedAt(pending, e, incoming, k);
      pending := pending[..k] + [e] + pending[k..];
      Dispatch();
      ok, stored := true, true;
    }

    /** enet_protocol_handle_send_reliable */
    method HandleSendReliable(number: u16, data: seq<byte>, maximumPacketSize: nat, room: bool) returns (ok: bool)
      requires Sorted(pending, incoming)
      modifies this
      ensures Reply(Box(), ok) == ReceiveReliable(old(Box()), number, data, maximumPacketSize, room)
      ensures ok <==> |data| <= maximumPacketSize && (Discards(old(Box()), number) || room)
      ensures !ok ==> Box() == old(Box())
    {
      if |data| > maximumPacketSize { return false; }
      var stored;
      ok, stored := Queue(number, 0, data, room);
      assert seq<bool>(0, _ => false) == [];
    }

    /** enet_protocol_handle_send_fragment */
    method HandleSendFragment(f: Fragment, maximumPacketSize: nat, room: bool, blank: seq<byte>) returns (ok: bool)
      requires Tidy(Box()) && |blank| == f.total
      modifies this
      ensures Reply(Box(), ok) == ReceiveFragment(old(Box()), f, maximumPacketSize, room, blank)
      ensures ok <==> |f.data| <= maximumPacketSize && (Accepts(f.start, old(incoming)) ==>
        && f.index < f.count <= 0x10_0000 && f.offset < f.total <= maximumPacketSize && f.offset + |f.data| <= f.total
        && (forall j :: 0 <= j < |old(pending)| && old(pending)[j].number == f.start ==>
              old(pending)[j].count == f.count && |old(pending)[j].data| == f.total)
        && (Has(old(pending), f.start) || (f.start != old(incoming) && room)))
      ensures !ok ==> Box() == old(Box())
    {
      hide ReceiveFragment, Accepts, WellFormed, Sorted, Ready, Queued, Drained, Missing, Inserted, Marked, Between;
      ghost var box := Box();
      FragmentIsTakenExactly(box, f, maximumPacketSize, room, blank);
      FragmentIgnored(box, f, maximumPacketSize, room, blank);
      if |f.data| > maximumPacketSize { return false; }
      if !Accepts(f.start, incoming) { return true; }
      if !WellFormed(f, maximumPacketSize) { return false; }
      var k, found := FindPlace(f.start);
      if found {
        FragmentKnown(box, f, maximumPacketSize, room, blank, k);
        if pending[k].count != f.count || |pending[k].data| != f.total { return false; }
        assert Shaped(pending[k]);
      } else {
        if f.start == incoming || !room {
          FragmentRefused(box, f, maximumPacketSize, room, blank);
        } else {
          FragmentNew(box, f, maximumPacketSize, room, blank, k);
        }
        var stored;
        ok, stored := Queue(f.start, f.count, blank, room);
        if !ok { return false; }
      }
      Shapes(f, maximumPacketSize);
      Record(k, f);
      ok := true;
    }

    /** The bitmap and the bytes of one fragment. */
    method Record(k: nat, f: Fragment)
      requires k < |pending| && f.index < f.count == pending[k].count == |pending[k].arrived|
      requires f.offset + |f.data| <= |pending[k].data|
      modifies this
      ensures Box() == Marked(old(Box()), k, f)
    {
      var e := pending[k];
      if !e.arrived[f.index] {
        var remaining := if e.remaining > 0 then e.remaining - 1 else 0;
        pending := pending[k := e.(remaining := remaining, arrived := e.arrived[f.index := true],
                                   data := Written(e.data, f.offset, f.data))];
        if remaining <= 0 {
          Dispatch();
        }
      } else {
        assert pending[k := e] == pending;
      }
    }
  }
}
