/** The fragments of packets at the receiver, in any order and any number: of every packet in every run, and of the
    first packet of a channel in detail. */
module Reassembly {
  import opened Bytes
  import opened Windows
  import opened Inboxes
  import opened Fragments
  import opened Deliveries
  import opened Receivers
  import opened Transport

  // ----- every packet in every run

  /** What the receiver has is what it has accepted. */
  lemma StoredIsAccepted(w: World, got: set<nat>, slots: seq<nat>, i: nat, k: nat)
    requires Safe(w, got, slots) && i < |w.packets| && k < Width(w.packets[i]) && |w.box.dispatched| <= |w.packets|
    ensures Stored(w, i, k) <==> First(w.packets, i) + k in got
  {
    hide Receiving, Ready, InPlace, Window, Stored;
    var d := |w.box.dispatched|;
    ReceivingAt(w.packets, got, w.box, Base(w), slots);
    FirstPositive(w.packets, i);
    if First(w.packets, i) + k in got {
      AcceptedIsStored(w, got, slots, i, k);
    } else if Stored(w, i, k) {
      if i < d {
        FirstMonotone(w.packets, i, d);
        assert false;
      }
      var j := StoredAt(w, i, k);
      EntryAhead(w.packets, got, w.box, Base(w), slots, j);
      SlotInRange(w.packets, got, w.box, Base(w), slots, j);
      FirstInjective(w.packets, slots[j], i);
      HeldIsAccepted(w.packets[i], First(w.packets, i), got, w.box.pending[j], k);
      assert false;
    }
  }

  lemma StoredAt(w: World, i: nat, k: nat) returns (j: nat)
    requires i < |w.packets| && |w.box.dispatched| <= |w.packets| && Stored(w, i, k) && i >= |w.box.dispatched|
    ensures j < |w.box.pending| && IsFor(w, i, j) && Holds(w.packets[i], First(w.packets, i), k, w.box.pending[j])
  {
    j :| 0 <= j < |w.box.pending| && IsFor(w, i, j) && Holds(w.packets[i], First(w.packets, i), k, w.box.pending[j]);
  }

  lemma HeldIsAccepted(p: Packet, f: nat, got: set<nat>, e: Incoming, k: nat)
    requires Contents(p, f, got, e) && Holds(p, f, k, e) && k < Width(p)
    ensures f + k in got
  {
    if Pieces(p) > 0 { assert PieceArrived(p, f, got, e, k); }
  }

  lemma SerialsDiffer(packets: seq<Packet>, i: nat, k: nat, x: nat, y: nat)
    requires i < |packets| && x < |packets| && k < Width(packets[i]) && y < Width(packets[x])
    requires First(packets, i) + k == First(packets, x) + y
    ensures i == x && k == y
  {
    if i < x { FirstMonotone(packets, i, x); }
    if x < i { FirstMonotone(packets, x, i); }
  }

  /** What the receiver has of fragment `y` of packet `x` when a fragment, or a whole packet, arrives: it has it
      afterwards if this is the one, not refused and in the receiver's windows, and else if it had it before. */
  ghost predicate StoresExactly(w: World, s: Step, w': World, x: nat, y: nat)
    requires s.Arrive?
  {
    && |w.box.dispatched| <= |w.packets| == |w'.packets| && |w'.box.dispatched| <= |w'.packets|
    && s.i < |w.packets| && s.k < Width(w.packets[s.i]) && |s.blank| == |w.packets[s.i].data|
    && (forall j :: 0 <= j < |w.box.pending| ==> |w.box.pending[j].arrived| == w.box.pending[j].count)
    && x < |w.packets| && y < Width(w.packets[x])
    && (Stored(w, x, y) ==> Stored(w', x, y))
    && (Stored(w', x, y) ==> Stored(w, x, y) || (x == s.i && y == s.k))
    && (x == s.i && y == s.k
        ==> (Answer(w.packets, w.box, x, y, s.maximumPacketSize, s.room, s.blank).ok
             && Window(First(w.packets, x) + y) + 1 < Window(Base(w')) + FREE_WINDOWS
             ==> Stored(w', x, y)))
  }

  /** So it is in every run. */
  lemma ArrivalStoresExactly(worlds: seq<World>, steps: seq<Step>, n: nat, x: nat, y: nat)
    requires Behaviour(worlds, steps) && n < |steps| && steps[n].Arrive?
    requires x < |worlds[n].packets| && y < Width(worlds[n].packets[x])
    ensures StoresExactly(worlds[n], steps[n], worlds[n + 1], x, y)
  {
    hide Safe, StoresExactly, Measured, Next;
    var got, slots := RunIsSafe(worlds, steps, n);
    ArrivalStores(worlds[n], got, slots, steps[n], worlds[n + 1], x, y);
  }

  lemma ArrivalStores(w: World, got: set<nat>, slots: seq<nat>, s: Step, w': World, x: nat, y: nat)
    requires Safe(w, got, slots) && Measured(w) && Next(w, s, w') && s.Arrive?
    requires x < |w.packets| && y < Width(w.packets[x])
    ensures StoresExactly(w, s, w', x, y)
  {
    hide Receiving, Ready, Window, Answer, Stored, Bounded, Missing, InLife, Current;
    match s
    case Arrive(i, k, size, room, blank, acknowledged) =>
      var got', slots' := ArriveIsSafe(w, got, slots, i, k, size, room, blank, acknowledged, w');
      hide Safe, Next;
      BoundsAt(w, got, slots);
      BoundsAt(w', got', slots');
      StoredIsAccepted(w, got, slots, x, y);
      StoredIsAccepted(w', got', slots', x, y);
      if First(w.packets, i) + k == First(w.packets, x) + y { SerialsDiffer(w.packets, i, k, x, y); }
  }

  lemma BoundsAt(w: World, got: set<nat>, slots: seq<nat>)
    requires Safe(w, got, slots)
    ensures |w.box.dispatched| <= |w.packets|
    ensures forall j :: 0 <= j < |w.box.pending| ==> Shaped(w.box.pending[j])
  {
    hide Receiving, Ready, Window, Missing;
    ReceivingIsSorted(w.packets, got, w.box, Base(w), slots);
  }

  /** In every world of every run a packet has been handed on exactly when every fragment of it, and of all packets
      before it, is there: as soon as that is so, and not before. */
  lemma HandedOnExactlyWhenComplete(worlds: seq<World>, steps: seq<Step>, n: nat, x: nat)
    requires Behaviour(worlds, steps) && n < |worlds| && x < |worlds[n].packets|
    ensures var w := worlds[n];
      && |w.box.dispatched| <= |w.packets|
      && (x < |w.box.dispatched| <==>
            forall i, k :: 0 <= i <= x && 0 <= k < Width(w.packets[i]) ==> Stored(w, i, k))
  {
    hide Behaviour, Receiving, Ready, Window, Stored, Bounded;
    var got, slots := RunIsSafe(worlds, steps, n);
    var w := worlds[n];
    var d := |w.box.dispatched|;
    if x < d {
      forall i, k | 0 <= i <= x && 0 <= k < Width(w.packets[i]) ensures Stored(w, i, k) { HandedOnIsStored(w, i, k); }
    } else {
      NextIsIncomplete(w.packets, got, w.box, Base(w), slots);
      var m :| Base(w) < m <= Base(w) + Width(w.packets[d]) && m !in got;
      StoredIsAccepted(w, got, slots, d, m - First(w.packets, d));
      assert !Stored(w, d, m - First(w.packets, d));
    }
  }

  lemma HandedOnIsStored(w: World, i: nat, k: nat)
    requires i < |w.box.dispatched| <= |w.packets|
    ensures Stored(w, i, k)
  {
  }

  /** Pending entry `j` is for packet `i`, which was not handed on: its bitmap says which fragments are there, in their
      place, and fragmentsRemaining how many are not. */
  ghost predicate Exact(w: World, i: nat, j: nat) {
    && |w.box.dispatched| <= i < |w.packets| && j < |w.box.pending| && IsFor(w, i, j)
    && var p, e := w.packets[i], w.box.pending[j];
       && e.count == Pieces(p) == |e.arrived| && |e.data| == |p.data| && e.remaining == Missing(e.arrived)
       && (forall k :: 0 <= k < e.count ==> (e.arrived[k] <==> Stored(w, i, k)))
       && (forall k :: 0 <= k < e.count && e.arrived[k] ==> InPlace(e.data, p.data, p.unit, k))
  }

  /** So it is with each pending entry in every world of every run. */
  lemma PendingIsExact(worlds: seq<World>, steps: seq<Step>, n: nat, j: nat) returns (i: nat)
    requires Behaviour(worlds, steps) && n < |worlds| && j < |worlds[n].box.pending|
    ensures Exact(worlds[n], i, j)
  {
    hide Behaviour, Safe, Exact;
    var got, slots := RunIsSafe(worlds, steps, n);
    i := EntryIsExact(worlds[n], got, slots, j);
  }

  lemma EntryIsExact(w: World, got: set<nat>, slots: seq<nat>, j: nat) returns (i: nat)
    requires Safe(w, got, slots) && j < |w.box.pending|
    ensures Exact(w, i, j)
  {
    hide Ready, Window, Stored, Bounded, InPlace, Missing, Receiving, Safe, Contents;
    i := SlotOf(w, got, slots, j);
    var e := w.box.pending[j];
    BoundsAt(w, got, slots);
    ContentsNumber(w.packets[i], First(w.packets, i), got, e);
    forall k | 0 <= k < e.count
      ensures e.arrived[k] <==> Stored(w, i, k)
      ensures e.arrived[k] ==> InPlace(e.data, w.packets[i].data, w.packets[i].unit, k)
    {
      PieceIsExact(w, got, slots, i, j, k);
    }
  }

  lemma SlotOf(w: World, got: set<nat>, slots: seq<nat>, j: nat) returns (i: nat)
    requires Safe(w, got, slots) && j < |w.box.pending|
    ensures |w.box.dispatched| <= i < |w.packets| && IsFor(w, i, j)
    ensures Contents(w.packets[i], First(w.packets, i), got, w.box.pending[j])
  {
    hide Ready, Window, Contents, Receiving;
    ReceivingAt(w.packets, got, w.box, Base(w), slots);
    SlotInRange(w.packets, got, w.box, Base(w), slots, j);
    EntryAhead(w.packets, got, w.box, Base(w), slots, j);
    i := slots[j];
  }

  lemma PieceIsExact(w: World, got: set<nat>, slots: seq<nat>, i: nat, j: nat, k: nat)
    requires Safe(w, got, slots) && i < |w.packets| && |w.box.dispatched| <= |w.packets| && j < |w.box.pending|
    requires k < Pieces(w.packets[i]) && Contents(w.packets[i], First(w.packets, i), got, w.box.pending[j])
    ensures k < |w.box.pending[j].arrived| && (w.box.pending[j].arrived[k] <==> Stored(w, i, k))
    ensures w.box.pending[j].arrived[k] ==>
              InPlace(w.box.pending[j].data, w.packets[i].data, w.packets[i].unit, k)
  {
    hide Receiving, Ready, Stored, InPlace, Window, Safe, Missing;
    StoredIsAccepted(w, got, slots, i, k);
    assert PieceArrived(w.packets[i], First(w.packets, i), got, w.box.pending[j], k);
  }

  // ----- the first packet of a channel

  ghost predicate Complete(p: Packet, got: set<nat>) {
    forall k :: 0 <= k < Pieces(p) ==> k in got
  }

  ghost function Serials(got: set<nat>): set<nat> {
    set k | k in got :: k + 1
  }

  /** What the receiver holds of the first packet of a channel, when the fragments in `got` have arrived. */
  ghost predicate Holding(p: Packet, got: set<nat>, box: Inbox) {
    if got == {} then box == Inbox(0, [], [])
    else if Complete(p, got) then box == Inbox(Wire(Pieces(p)), [], [p.data])
    else
      && box.incoming == 0 && box.dispatched == [] && |box.pending| == 1
      && Contents(p, 1, Serials(got), box.pending[0]) && box.pending[0].remaining + |got| == Pieces(p)
  }

  /** A packet of so many fragments is recognised when it has been handed on. */
  predicate Recognised(p: Packet) {
    1 < Pieces(p) <= MAXIMUM_FRAGMENT_COUNT && Window(Pieces(p)) <= WINDOWS - FREE_WINDOWS + 1
  }

  lemma SerialsMore(got: set<nat>, k: nat)
    ensures Serials(got + {k}) == Serials(got) + {1 + k} && (1 + k in Serials(got) <==> k in got)
  {
    assert forall n :: n in Serials(got + {k}) <==> n in Serials(got) || n == 1 + k;
  }

  /** One more fragment of a packet that is pending. */
  lemma MarkedHolds(p: Packet, got: set<nat>, e: Incoming, k: nat)
    requires k < Pieces(p) && Contents(p, 1, Serials(got), e) && e.remaining + |got| == Pieces(p) && Recognised(p)
    requires k in got ==> !Complete(p, got)
    ensures e.count == Pieces(p) == |e.arrived| && |e.data| == |p.data|
    ensures Command(p, 1, k).offset + |Command(p, 1, k).data| <= |e.data|
    ensures Holding(p, got + {k}, Marked(Inbox(0, [e], []), 0, Command(p, 1, k)))
  {
    hide Contents, Command, Wire, Pieces;
    SerialsMore(got, k);
    FilledContents(p, 1, Serials(got), e, k);
    CommandFits(p, 1, k);
    var c := Command(p, 1, k);
    var e' := Filled(e, c);
    PieceIsHeld(p, got, e, k);
    assert [e][0 := e'] == [e'];
    if k in got {
      assert got + {k} == got;
    } else {
      RemainingFits(p, got, e, k);
      CompleteOrNot(p, got + {k}, e');
      if e'.remaining == 0 {
        CompleteIsSent(p, 1, Serials(got + {k}), e');
        ContentsNumber(p, 1, Serials(got + {k}), e');
        DrainedAll(e', p);
      }
    }
  }

  lemma PieceIsHeld(p: Packet, got: set<nat>, e: Incoming, k: nat)
    requires k < Pieces(p) && Contents(p, 1, Serials(got), e)
    ensures k < |e.arrived| && (e.arrived[k] <==> k in got)
  {
    SerialsMore(got, k);
    assert PieceArrived(p, 1, Serials(got), e, k);
  }

  lemma RemainingFits(p: Packet, got: set<nat>, e: Incoming, k: nat)
    requires k < Pieces(p) && Contents(p, 1, Serials(got), e) && k !in got
    ensures e.remaining > 0
  {
    PieceIsHeld(p, got, e, k);
    MissingNone(e.arrived);
  }

  /** A packet is complete exactly when no fragment is missing. */
  lemma CompleteOrNot(p: Packet, got: set<nat>, e: Incoming)
    requires Pieces(p) > 0 && Contents(p, 1, Serials(got), e)
    ensures e.remaining == 0 <==> Complete(p, got)
  {
    MissingNone(e.arrived);
    forall k | 0 <= k < Pieces(p) ensures k < |e.arrived| && (e.arrived[k] <==> k in got) { PieceIsHeld(p, got, e, k); }
  }

  lemma DrainedAll(e: Incoming, p: Packet)
    requires e.number == Wire(1) && e.count == Pieces(p) > 0 && e.remaining == 0 && e.data == p.data
    ensures Drained(Inbox(0, [e], [])) == Inbox(Wire(Pieces(p)), [], [p.data])
  {
    assert [e][1..] == [];
    assert Drained(Inbox(Passed(e), [], [e.data])) == Inbox(Passed(e), [], [e.data]);
  }

  lemma HoldingIsTidy(p: Packet, got: set<nat>, box: Inbox)
    requires Holding(p, got, box) && Recognised(p)
    ensures Tidy(box)
  {
    hide Contents;
    if got != {} && !Complete(p, got) {
      CompleteOrNot(p, got, box.pending[0]);
      ContentsNumber(p, 1, Serials(got), box.pending[0]);
    }
  }

  lemma PassedIsIgnored(p: Packet)
    requires Recognised(p)
    ensures !Accepts(Wire(1), Wire(Pieces(p)))
  {
    AcceptsMeans(1, Pieces(p));
  }

  lemma StartedHolds(p: Packet, k: nat, blank: seq<byte>)
    requires k < Pieces(p) && |blank| == |p.data|
    ensures var e := Started(Command(p, 1, k), blank); Contents(p, 1, {}, e) && e.remaining == Pieces(p)
  {
    assert First([p], 0) == 1;
    StartedEntry([p], {}, 0, 0, k, blank);
  }

  /** Whatever fragment arrives next, the receiver takes it, and holds what it should. */
  lemma FragmentHeld(p: Packet, got: set<nat>, box: Inbox, k: nat, maximumPacketSize: nat, blank: seq<byte>)
    requires Holding(p, got, box) && Recognised(p) && k < Pieces(p) && |p.data| <= maximumPacketSize
    requires |blank| == |p.data|
    ensures Tidy(box) && Command(p, 1, k).total == |blank|
    ensures var reply := ReceiveFragment(box, Command(p, 1, k), maximumPacketSize, true, blank);
            reply.ok && Holding(p, got + {k}, reply.box)
  {
    hide Contents, Wire, Pieces, ReceiveFragment, Marked, Accepts, Inserted, Command;
    var c := Command(p, 1, k);
    HoldingIsTidy(p, got, box);
    CommandFits(p, 1, k);
    FragmentIgnored(box, c, maximumPacketSize, true, blank);
    if got == {} {
      FirstIsAccepted();
      FragmentNew(box, c, maximumPacketSize, true, blank, 0);
      StartedHolds(p, k, blank);
      assert Serials({}) == {};
      assert [] + [Started(c, blank)] + [] == [Started(c, blank)];
      MarkedHolds(p, {}, Started(c, blank), k);
    } else if Complete(p, got) {
      PassedIsIgnored(p);
      assert got + {k} == got;
    } else {
      FirstIsAccepted();
      ContentsNumber(p, 1, Serials(got), box.pending[0]);
      FragmentKnown(box, c, maximumPacketSize, true, blank, 0);
      assert box == Inbox(0, [box.pending[0]], []);
      MarkedHolds(p, got, box.pending[0], k);
    }
  }

  lemma FirstIsAccepted()
    ensures Accepts(Wire(1), 0) && Wire(1) == 1
  {
  }

  /** Whatever fragments of a packet arrive, in any order and any number of times: the packet is handed on, with the
      bytes that were sent, as soon as all have arrived and not before; until then as many are missing as have not
      arrived, and the bitmap says which. */
  method ReceiveFragments(receiver: Receiver, p: Packet, ks: seq<nat>, maximumPacketSize: nat, blank: seq<byte>)
    requires receiver.Box() == Inbox(0, [], []) && Recognised(p)
    requires |p.data| <= maximumPacketSize && |blank| == |p.data| && forall i :: 0 <= i < |ks| ==> ks[i] < Pieces(p)
    modifies receiver
    ensures ks != [] ==>
      if forall k :: 0 <= k < Pieces(p) ==> k in ks then receiver.dispatched == [p.data] && receiver.pending == []
      else
        && receiver.dispatched == [] && |receiver.pending| == 1
        && receiver.pending[0].remaining + |set k | k in ks| == Pieces(p) == |receiver.pending[0].arrived|
        && forall k :: 0 <= k < Pieces(p) ==> (receiver.pending[0].arrived[k] <==> k in ks)
  {
    hide Contents, Wire, Pieces, ReceiveFragment, Command, Holding;
    ghost var got: set<nat> := {};
    HoldingStarts(p);
    for i := 0 to |ks|
      invariant got == (set k | k in ks[..i]) && Holding(p, got, receiver.Box())
    {
      FragmentHeld(p, got, receiver.Box(), ks[i], maximumPacketSize, blank);
      var ok := receiver.HandleSendFragment(Command(p, 1, ks[i]), maximumPacketSize, true, blank);
      assert ks[..i + 1] == ks[..i] + [ks[i]];
      got := got + {ks[i]};
    }
    assert ks[..|ks|] == ks;
    assert got == set k | k in ks;
    if ks != [] {
      assert ks[0] in got;
      assert forall k :: 0 <= k < Pieces(p) ==> (k in got <==> k in ks);
      HoldingAt(p, got, receiver.Box());
    }
  }

  lemma HoldingStarts(p: Packet)
    ensures Holding(p, {}, Inbox(0, [], []))
  {
  }

  lemma HoldingAt(p: Packet, got: set<nat>, box: Inbox)
    requires Holding(p, got, box) && got != {} && Recognised(p)
    ensures if Complete(p, got) then box.dispatched == [p.data] && box.pending == []
      else
        && box.dispatched == [] && |box.pending| == 1
        && box.pending[0].remaining + |got| == Pieces(p) == |box.pending[0].arrived|
        && forall k :: 0 <= k < Pieces(p) ==> (box.pending[0].arrived[k] <==> k in got)
  {
    if !Complete(p, got) {
      ContentsNumber(p, 1, Serials(got), box.pending[0]);
      forall k | 0 <= k < Pieces(p) ensures k < |box.pending[0].arrived| && (box.pending[0].arrived[k] <==> k in got) {
        PieceIsHeld(p, got, box.pending[0], k);
      }
    }
  }
}
