/** A receiver fed with the commands of a sender: its pending packets are packets that were sent, and what it
    has handed on is a prefix of them. */
module Deliveries {
  import opened Bytes
  import opened Windows
  import opened Inboxes
  import opened Fragments

  // ----- serials of packets

  /** The number of fragments, 0 for a packet that fits one command. */
  function Pieces(p: Packet): nat {
    if |p.data| <= p.unit then 0 else PieceCount(|p.data|, p.unit)
  }

  function Width(p: Packet): nat {
    if Pieces(p) == 0 then 1 else Pieces(p)
  }

  /** The serial of the first command of packet `i`. */
  function First(packets: seq<Packet>, i: nat): nat
    requires i <= |packets|
  {
    if i == 0 then 1 else First(packets, i - 1) + Width(packets[i - 1])
  }

  lemma WidthIsPositive(p: Packet)
    ensures Width(p) > 0
  {
  }

  lemma {:induction false} FirstMonotone(packets: seq<Packet>, i: nat, j: nat)
    requires i < j <= |packets|
    ensures First(packets, i) + Width(packets[i]) <= First(packets, j)
    ensures First(packets, i) < First(packets, j)
    decreases j
  {
    if i < j - 1 {
      FirstMonotone(packets, i, j - 1);
    }
    WidthIsPositive(packets[j - 1]);
    WidthIsPositive(packets[i]);
  }

  lemma {:induction false} FirstAppend(packets: seq<Packet>, more: seq<Packet>, i: nat)
    requires i <= |packets| && packets <= more
    ensures First(more, i) == First(packets, i)
  {
    if i > 0 {
      FirstAppend(packets, more, i - 1);
    }
  }

  lemma FirstInjective(packets: seq<Packet>, i: nat, j: nat)
    requires i <= |packets| && j <= |packets| && First(packets, i) == First(packets, j)
    ensures i == j
  {
    if i < j { FirstMonotone(packets, i, j); }
    if j < i { FirstMonotone(packets, j, i); }
  }

  // ----- the receiver's invariant

  /** What is pending of packet `p`, whose first serial is `f`: the pieces whose serials are in `got`. */
  ghost predicate Contents(p: Packet, f: nat, got: set<nat>, e: Incoming) {
    if Pieces(p) == 0 then e == Incoming(Wire(f), 0, 0, [], p.data) && f in got
    else
      && e.number == Wire(f) && e.count == Pieces(p) == |e.arrived| && e.remaining == Missing(e.arrived)
      && |e.data| == |p.data|
      && forall k :: 0 <= k < e.count ==> PieceArrived(p, f, got, e, k)
  }

  ghost predicate PieceArrived(p: Packet, f: nat, got: set<nat>, e: Incoming, k: nat)
    requires k < |e.arrived| == Pieces(p) && |e.data| == |p.data|
  {
    (e.arrived[k] <==> f + k in got) && (e.arrived[k] ==> InPlace(e.data, p.data, p.unit, k))
  }

  ghost predicate Entry(packets: seq<Packet>, i: nat, got: set<nat>, e: Incoming, base: nat) {
    && i < |packets|
    && Window(First(packets, i)) + 1 < Window(base) + FREE_WINDOWS
    && Contents(packets[i], First(packets, i), got, e)
  }

  /** Some command of packet `p`, whose first serial is `f`, was accepted. */
  ghost predicate Touched(p: Packet, f: nat, got: set<nat>) {
    exists n :: n in got && f <= n < f + Width(p)
  }

  /** `base` is the serial of the current number, `got` the serials accepted so far, `slots` the packets pending. */
  ghost predicate Receiving(packets: seq<Packet>, got: set<nat>, box: Inbox, base: nat, slots: seq<nat>) {
    var d := |box.dispatched|;
    && d <= |packets| && First(packets, d) == base + 1 && box.incoming == Wire(base)
    && (forall j :: 0 <= j < d ==> box.dispatched[j] == packets[j].data)
    && |slots| == |box.pending|
    && (forall j :: 0 <= j < |slots| ==> d <= slots[j] && Entry(packets, slots[j], got, box.pending[j], base))
    && (forall j, l :: 0 <= j < l < |slots| ==> slots[j] < slots[l])
    && (forall i :: d <= i < |packets| && Touched(packets[i], First(packets, i), got) ==> i in slots)
    && (forall n :: 1 <= n <= base ==> n in got)
  }

  lemma {:induction false} MissingNone(arrived: seq<bool>)
    ensures Missing(arrived) == 0 <==> forall k :: 0 <= k < |arrived| ==> arrived[k]
  {
    if arrived != [] {
      MissingNone(arrived[1..]);
      if forall k :: 0 <= k < |arrived| - 1 ==> arrived[1..][k] {
        forall k | 1 <= k < |arrived| ensures arrived[k] {
          assert arrived[1..][k - 1];
        }
      }
    }
  }

  lemma {:induction false} MissingSet(arrived: seq<bool>, k: nat)
    requires k < |arrived| && !arrived[k]
    ensures Missing(arrived) > 0 && Missing(arrived[k := true]) == Missing(arrived) - 1
  {
    if k > 0 {
      MissingSet(arrived[1..], k - 1);
      assert arrived[k := true][1..] == arrived[1..][k - 1 := true];
    } else {
      assert arrived[0 := true][1..] == arrived[1..];
    }
  }

  /** A complete pending packet is the packet that was sent, and all its serials were accepted. */
  lemma CompleteIsSent(p: Packet, f: nat, got: set<nat>, e: Incoming)
    requires Contents(p, f, got, e) && e.remaining == 0
    ensures e.data == p.data && forall n :: f <= n < f + Width(p) ==> n in got
  {
    if Pieces(p) > 0 {
      MissingNone(e.arrived);
      forall k | 0 <= k < Pieces(p) ensures f + k in got && InPlace(e.data, p.data, p.unit, k) {
        assert PieceArrived(p, f, got, e, k);
      }
      forall n | f <= n < f + Width(p) ensures n in got {
        assert PieceArrived(p, f, got, e, n - f);
      }
      Reassembled(e.data, p.data, p.unit);
    }
  }

  lemma ContentsNumber(p: Packet, f: nat, got: set<nat>, e: Incoming)
    requires Contents(p, f, got, e)
    ensures e.number == Wire(f) && Shaped(e) && e.count == Pieces(p) && |e.data| == |p.data|
  {
  }

  lemma NearBase(n: nat, base: nat)
    requires base <= n && Window(n) + 1 < Window(base) + FREE_WINDOWS
    ensures Serial(base, Wire(n)) == n && Ahead(Wire(n), Wire(base)) == n - base
  {
    AcceptedIsNear(n, base);
    SerialOfWire(n, base);
  }

  /** The pending packets lie ahead of the current number, in order. */
  lemma EntryAhead(packets: seq<Packet>, got: set<nat>, box: Inbox, base: nat, slots: seq<nat>, j: nat)
    requires Receiving(packets, got, box, base, slots) && j < |slots|
    ensures var f := First(packets, slots[j]);
      && base < f && box.pending[j].number == Wire(f) && Ahead(box.pending[j].number, box.incoming) == f - base
      && Shaped(box.pending[j]) && Serial(base, box.pending[j].number) == f
  {
    var i := slots[j];
    var d := |box.dispatched|;
    assert Entry(packets, i, got, box.pending[j], base);
    hide Contents;
    if d < i { FirstMonotone(packets, d, i); }
    ContentsNumber(packets[i], First(packets, i), got, box.pending[j]);
    NearBase(First(packets, i), base);
  }

  lemma ReceivingIsSorted(packets: seq<Packet>, got: set<nat>, box: Inbox, base: nat, slots: seq<nat>)
    requires Receiving(packets, got, box, base, slots)
    ensures Sorted(box.pending, box.incoming)
    ensures forall j :: 0 <= j < |box.pending| ==> Shaped(box.pending[j])
  {
    forall j, l | 0 <= j < l < |slots|
      ensures Ahead(box.pending[j].number, box.incoming) < Ahead(box.pending[l].number, box.incoming)
    {
      EntryAhead(packets, got, box, base, slots, j);
      EntryAhead(packets, got, box, base, slots, l);
      FirstMonotone(packets, slots[j], slots[l]);
    }
    forall j | 0 <= j < |slots| ensures Shaped(box.pending[j]) {
      EntryAhead(packets, got, box, base, slots, j);
    }
  }

  // ----- handing on

  /** The pending packet that is handed on is the next one that was sent. */
  lemma ReadyIsNext(packets: seq<Packet>, got: set<nat>, box: Inbox, base: nat, slots: seq<nat>)
    requires Receiving(packets, got, box, base, slots) && Ready(box)
    ensures |slots| == |box.pending| > 0 && slots[0] == |box.dispatched| < |packets|
    ensures var p := packets[|box.dispatched|];
      && box.pending[0].data == p.data && Passed(box.pending[0]) == Wire(base + Width(p))
      && forall n :: base + 1 <= n < base + 1 + Width(p) ==> n in got
  {
    var d := |box.dispatched|;
    var i := slots[0];
    EntryAhead(packets, got, box, base, slots, 0);
    assert Entry(packets, i, got, box.pending[0], base);
    WireNext(base, 1);
    SerialOfWire(base + 1, base);
    FirstInjective(packets, i, d);
    CompleteIsSent(packets[d], base + 1, got, box.pending[0]);
    ContentsNumber(packets[d], base + 1, got, box.pending[0]);
    hide Contents;
    if Pieces(packets[d]) > 0 {
      WireNext(base + 1, Pieces(packets[d]) - 1);
    }
  }

  lemma EntryLater(packets: seq<Packet>, i: nat, got: set<nat>, e: Incoming, base: nat, later: nat)
    requires Entry(packets, i, got, e, base) && base <= later
    ensures Entry(packets, i, got, e, later)
  {
    hide Contents;
  }

  /** The other pending packets, seen from the later base. */
  lemma RestPending(packets: seq<Packet>, got: set<nat>, box: Inbox, base: nat, slots: seq<nat>, later: nat)
    requires Receiving(packets, got, box, base, slots) && |slots| > 0 && slots[0] == |box.dispatched| && base <= later
    ensures |slots| == |box.pending|
    ensures forall j :: 0 <= j < |slots[1..]| ==>
              |box.dispatched| < slots[1..][j] && Entry(packets, slots[1..][j], got, box.pending[1..][j], later)
    ensures forall i :: |box.dispatched| < i < |packets| && Touched(packets[i], First(packets, i), got) ==>
        i in slots[1..]
  {
    hide Entry, Touched, Wire;
    forall j | 0 <= j < |slots| - 1
      ensures |box.dispatched| < slots[1..][j] && Entry(packets, slots[1..][j], got, box.pending[1..][j], later)
    {
      assert slots[0] < slots[j + 1];
      EntryLater(packets, slots[j + 1], got, box.pending[j + 1], base, later);
    }
    forall i | |box.dispatched| < i < |packets| && Touched(packets[i], First(packets, i), got) ensures i in slots[1..] {
      var j :| 0 <= j < |slots| && slots[j] == i;
      assert slots[1..][j - 1] == i;
    }
  }

  lemma DrainOnce(packets: seq<Packet>, got: set<nat>, box: Inbox, base: nat, slots: seq<nat>)
    requires Receiving(packets, got, box, base, slots) && Ready(box)
    ensures |box.dispatched| < |packets| && |slots| > 0
    ensures var e := box.pending[0];
      Receiving(packets, got, Inbox(Passed(e), box.pending[1..], box.dispatched + [e.data]),
                base + Width(packets[|box.dispatched|]), slots[1..])
  {
    hide Entry, Touched, Width, Passed, Ready, Wire, Window;
    ReadyIsNext(packets, got, box, base, slots);
    var base' := base + Width(packets[|box.dispatched|]);
    RestPending(packets, got, box, base, slots, base');
    forall n | 1 <= n <= base' ensures n in got {
      assert n <= base || base + 1 <= n < base + 1 + Width(packets[|box.dispatched|]);
    }
  }

  /** Handing on whatever can be keeps the invariant; nothing is ready after it. */
  lemma {:induction false} DrainKeeps(packets: seq<Packet>, got: set<nat>, box: Inbox, base: nat, slots: seq<nat>)
    returns (base': nat, slots': seq<nat>)
    requires Receiving(packets, got, box, base, slots)
    ensures base <= base' && Receiving(packets, got, Drained(box), base', slots') && !Ready(Drained(box))
    ensures box.dispatched <= Drained(box).dispatched
    decreases |box.pending|
  {
    hide Receiving;
    if Ready(box) {
      var e := box.pending[0];
      DrainOnce(packets, got, box, base, slots);
      base', slots' := DrainKeeps(packets, got, Inbox(Passed(e), box.pending[1..], box.dispatched + [e.data]),
                                  base + Width(packets[|box.dispatched|]), slots[1..]);
    } else {
      base', slots' := base, slots;
    }
  }

  /** Between two commands the next packet is incomplete: one of its serials was not accepted. */
  lemma NextIsIncomplete(packets: seq<Packet>, got: set<nat>, box: Inbox, base: nat, slots: seq<nat>)
    requires Receiving(packets, got, box, base, slots) && !Ready(box) && |box.dispatched| < |packets|
    ensures exists n :: base < n <= base + Width(packets[|box.dispatched|]) && n !in got
  {
    var d := |box.dispatched|;
    var p, f := packets[d], base + 1;
    if forall n :: base < n <= base + Width(p) ==> n in got {
      WidthIsPositive(p);
      assert f in got && Touched(p, f, got);
      FirstSlot(packets, got, box, base, slots);
      AllArrived(p, f, got, box.pending[0]);
      WireNext(base, 1);
      assert false;
    }
  }

  /** If the next packet is pending, it is the first that is. */
  lemma FirstSlot(packets: seq<Packet>, got: set<nat>, box: Inbox, base: nat, slots: seq<nat>)
    requires Receiving(packets, got, box, base, slots) && |box.dispatched| < |packets|
    requires Touched(packets[|box.dispatched|], base + 1, got)
    ensures box.pending != [] && Contents(packets[|box.dispatched|], base + 1, got, box.pending[0])
  {
    hide Contents, Touched;
    var d := |box.dispatched|;
    var j :| 0 <= j < |slots| && slots[j] == d;
    assert slots[0] <= slots[j];
    assert Entry(packets, slots[0], got, box.pending[0], base);
  }

  lemma AllArrived(p: Packet, f: nat, got: set<nat>, e: Incoming)
    requires Contents(p, f, got, e) && forall n :: f <= n < f + Width(p) ==> n in got
    ensures e.remaining == 0 && e.number == Wire(f)
  {
    if Pieces(p) > 0 {
      forall k | 0 <= k < |e.arrived| ensures e.arrived[k] { assert PieceArrived(p, f, got, e, k); }
      MissingNone(e.arrived);
    }
  }

  // ----- a packet that is not pending yet

  lemma SlotOf(packets: seq<Packet>, got: set<nat>, box: Inbox, base: nat, slots: seq<nat>, i: nat) returns (j: nat)
    requires Receiving(packets, got, box, base, slots) && i < |packets|
    requires base <= First(packets, i) && Window(First(packets, i)) + 1 < Window(base) + FREE_WINDOWS
    requires Has(box.pending, Wire(First(packets, i)))
    ensures j < |slots| == |box.pending| && slots[j] == i && box.pending[j].number == Wire(First(packets, i))
  {
    j :| 0 <= j < |box.pending| && box.pending[j].number == Wire(First(packets, i));
    EntryAhead(packets, got, box, base, slots, j);
    NearBase(First(packets, i), base);
    assert Entry(packets, slots[j], got, box.pending[j], base);
    FirstInjective(packets, slots[j], i);
  }

  ghost predicate Increasing(slots: seq<nat>) {
    forall j, l :: 0 <= j < l < |slots| ==> slots[j] < slots[l]
  }

  /** `i` belongs between the first `k` slots and the rest. */
  ghost predicate Splits(slots: seq<nat>, i: nat, k: nat) {
    k <= |slots| && (forall j :: 0 <= j < k ==> slots[j] < i) && (forall j :: k <= j < |slots| ==> i < slots[j])
  }

  lemma SplitAt(slots: seq<nat>, i: nat) returns (k: nat)
    requires Increasing(slots) && i !in slots
    ensures Splits(slots, i, k)
  {
    k := 0;
    while k < |slots| && slots[k] < i
      invariant k <= |slots| && forall j :: 0 <= j < k ==> slots[j] < i
    {
      k := k + 1;
    }
  }

  lemma ReceivingAt(packets: seq<Packet>, got: set<nat>, box: Inbox, base: nat, slots: seq<nat>)
    requires Receiving(packets, got, box, base, slots)
    ensures |slots| == |box.pending| && Increasing(slots) && |box.dispatched| <= |packets|
    ensures First(packets, |box.dispatched|) == base + 1 && box.incoming == Wire(base)
    ensures forall n :: 1 <= n <= base ==> n in got
  {
  }

  /** Where packet `i` belongs among the pending ones. */
  lemma PlaceOf(packets: seq<Packet>, got: set<nat>, box: Inbox, base: nat, slots: seq<nat>, i: nat) returns (k: nat)
    requires Receiving(packets, got, box, base, slots) && i < |packets| && i !in slots
    requires base < First(packets, i) && Window(First(packets, i)) + 1 < Window(base) + FREE_WINDOWS
    ensures Between(box.pending, k, Wire(First(packets, i)), box.incoming) && k <= |slots| == |box.pending|
    ensures Splits(slots, i, k) && |box.dispatched| <= i
  {
    hide Receiving, Entry, Touched, Wire, Window, Shaped, Ahead, Increasing;
    ReceivingAt(packets, got, box, base, slots);
    NearBase(First(packets, i), base);
    var d := |box.dispatched|;
    if i < d { FirstMonotone(packets, i, d); }
    k := SplitAt(slots, i);
    forall j | 0 <= j < |slots|
      ensures j < k ==> Ahead(box.pending[j].number, box.incoming) < Ahead(Wire(First(packets, i)), box.incoming)
      ensures k <= j ==> Ahead(Wire(First(packets, i)), box.incoming) < Ahead(box.pending[j].number, box.incoming)
    {
      EntryAhead(packets, got, box, base, slots, j);
      SlotInRange(packets, got, box, base, slots, j);
      if slots[j] < i { FirstMonotone(packets, slots[j], i); } else { FirstMonotone(packets, i, slots[j]); }
    }
  }

  lemma SlotInRange(packets: seq<Packet>, got: set<nat>, box: Inbox, base: nat, slots: seq<nat>, j: nat)
    requires Receiving(packets, got, box, base, slots) && j < |slots|
    ensures |box.dispatched| <= slots[j] < |packets| && |slots| == |box.pending|
    ensures Entry(packets, slots[j], got, box.pending[j], base)
  {
  }

  /** What was accepted of packet `i` does not concern the other packets. */
  lemma ContentsElsewhere(packets: seq<Packet>, i: nat, j: nat, got: set<nat>, more: set<nat>, e: Incoming, base: nat)
    requires i < |packets| && i != j && Entry(packets, j, got, e, base)
    requires forall n :: n in more ==> First(packets, i) <= n < First(packets, i) + Width(packets[i])
    ensures Entry(packets, j, got + more, e, base)
  {
    var p, f := packets[j], First(packets, j);
    if i < j { FirstMonotone(packets, i, j); } else { FirstMonotone(packets, j, i); }
    if Pieces(p) > 0 {
      forall k | 0 <= k < e.count ensures PieceArrived(p, f, got + more, e, k) {
        assert PieceArrived(p, f, got, e, k);
      }
    }
  }

  lemma TouchedElsewhere(packets: seq<Packet>, i: nat, j: nat, got: set<nat>, more: set<nat>)
    requires i < |packets| && j < |packets| && i != j && Touched(packets[j], First(packets, j), got + more)
    requires forall n :: n in more ==> First(packets, i) <= n < First(packets, i) + Width(packets[i])
    ensures Touched(packets[j], First(packets, j), got)
  {
    if i < j { FirstMonotone(packets, i, j); } else { FirstMonotone(packets, j, i); }
    var n :| n in got + more && First(packets, j) <= n < First(packets, j) + Width(packets[j]);
    assert n !in more;
  }

  lemma TouchedIsSlot(packets: seq<Packet>, got: set<nat>, box: Inbox, base: nat, slots: seq<nat>, j: nat)
    requires Receiving(packets, got, box, base, slots)
    requires |box.dispatched| <= j < |packets| && Touched(packets[j], First(packets, j), got)
    ensures j in slots
  {
  }

  lemma ReceivingFrom(packets: seq<Packet>, got: set<nat>, box: Inbox, base: nat, slots: seq<nat>)
    requires |box.dispatched| <= |packets| && First(packets, |box.dispatched|) == base + 1 && box.incoming == Wire(base)
    requires forall j :: 0 <= j < |box.dispatched| ==> box.dispatched[j] == packets[j].data
    requires |slots| == |box.pending| && Increasing(slots)
    requires forall j :: 0 <= j < |slots| ==>
        |box.dispatched| <= slots[j] && Entry(packets, slots[j], got, box.pending[j], base)
    requires forall i :: |box.dispatched| <= i < |packets| && Touched(packets[i], First(packets, i), got) ==> i in slots
    requires forall n :: 1 <= n <= base ==> n in got
    ensures Receiving(packets, got, box, base, slots)
  {
  }

  lemma DispatchedAt(packets: seq<Packet>, got: set<nat>, box: Inbox, base: nat, slots: seq<nat>)
    requires Receiving(packets, got, box, base, slots)
    ensures |box.dispatched| <= |packets|
    ensures forall j :: 0 <= j < |box.dispatched| ==> box.dispatched[j] == packets[j].data
  {
  }

  lemma EntryInserted(packets: seq<Packet>, got: set<nat>, box: Inbox, base: nat, slots: seq<nat>, i: nat, e: Incoming,
                      more: set<nat>, k: nat, j: nat)
    requires Receiving(packets, got, box, base, slots) && i < |packets| && |box.dispatched| <= i
    requires Splits(slots, i, k) && |slots| == |box.pending| && j <= |slots|
    requires forall n :: n in more ==> First(packets, i) <= n < First(packets, i) + Width(packets[i])
    requires Entry(packets, i, got + more, e, base)
    ensures |box.dispatched| <= (slots[..k] + [i] + slots[k..])[j]
    ensures Entry(packets, (slots[..k] + [i] + slots[k..])[j], got + more,
                  (box.pending[..k] + [e] + box.pending[k..])[j], base)
  {
    hide Receiving, Entry, Width;
    if j != k {
      var j0 := if j < k then j else j - 1;
      SlotInRange(packets, got, box, base, slots, j0);
      ContentsElsewhere(packets, i, slots[j0], got, more, box.pending[j0], base);
    }
  }

  /** Packet `i` becomes pending, with the serials `more`. */
  lemma InsertKeeps(packets: seq<Packet>, got: set<nat>, box: Inbox, base: nat, slots: seq<nat>, i: nat, e: Incoming,
                    more: set<nat>, k: nat)
    requires Receiving(packets, got, box, base, slots) && i < |packets| && |box.dispatched| <= i
    requires Splits(slots, i, k) && |slots| == |box.pending|
    requires forall n :: n in more ==> First(packets, i) <= n < First(packets, i) + Width(packets[i])
    requires Entry(packets, i, got + more, e, base)
    ensures Receiving(packets, got + more, box.(pending := box.pending[..k] + [e] + box.pending[k..]), base,
                      slots[..k] + [i] + slots[k..])
  {
    hide Receiving, Entry, Touched, Wire, Window, Width;
    var slots' := slots[..k] + [i] + slots[k..];
    var box' := box.(pending := box.pending[..k] + [e] + box.pending[k..]);
    ReceivingAt(packets, got, box, base, slots);
    DispatchedAt(packets, got, box, base, slots);
    forall j | 0 <= j < |slots'|
      ensures |box.dispatched| <= slots'[j] && Entry(packets, slots'[j], got + more, box'.pending[j], base)
    {
      EntryInserted(packets, got, box, base, slots, i, e, more, k, j);
    }
    forall j | |box.dispatched| <= j < |packets| && Touched(packets[j], First(packets, j), got + more)
      ensures j in slots'
    {
      if j == i {
        assert slots'[k] == i;
      } else {
        TouchedElsewhere(packets, i, j, got, more);
        TouchedIsSlot(packets, got, box, base, slots, j);
        StillIn(slots, j, i, k);
      }
    }
    SplitIncreases(slots, i, k);
    ReceivingFrom(packets, got + more, box', base, slots');
  }

  lemma StillIn(slots: seq<nat>, j: nat, i: nat, k: nat)
    requires j in slots && k <= |slots|
    ensures j in slots[..k] + [i] + slots[k..]
  {
    var x :| 0 <= x < |slots| && slots[x] == j;
    assert (slots[..k] + [i] + slots[k..])[if x < k then x else x + 1] == j;
  }

  lemma SplitIncreases(slots: seq<nat>, i: nat, k: nat)
    requires Increasing(slots) && Splits(slots, i, k)
    ensures Increasing(slots[..k] + [i] + slots[k..])
  {
  }

  // ----- one command arrives

  function Command(p: Packet, f: nat, k: nat): Fragment
    requires k < Pieces(p)
  {
    Fragment(Wire(f), k, Pieces(p), Offset(k, p.unit), |p.data|, PieceOf(p.data, p.unit, k))
  }

  /** The receiver goes on standing for what was sent; whatever it took on or refused, it answers truthfully:
      a command within the acknowledged windows that was not refused has been accepted, now or before. */
  ghost predicate Arrived(packets: seq<Packet>, got: set<nat>, box: Inbox, base: nat, n: nat, reply: Reply,
                          got': set<nat>, base': nat, slots': seq<nat>) {
    && base <= base' && Receiving(packets, got', reply.box, base', slots') && !Ready(reply.box)
    && got <= got' <= got + {n} && box.dispatched <= reply.box.dispatched
    && (reply.ok && Window(n) + 1 < Window(base') + FREE_WINDOWS ==> n in got')
  }

  lemma Unchanged(packets: seq<Packet>, got: set<nat>, box: Inbox, base: nat, slots: seq<nat>, n: nat, ok: bool)
    requires Receiving(packets, got, box, base, slots) && !Ready(box)
    requires ok && Window(n) + 1 < Window(base) + FREE_WINDOWS ==> n in got
    ensures Arrived(packets, got, box, base, n, Reply(box, ok), got, base, slots)
  {
    hide Receiving;
  }

  lemma Oldies(packets: seq<Packet>, got: set<nat>, box: Inbox, base: nat, slots: seq<nat>, i: nat, n: nat)
    requires Receiving(packets, got, box, base, slots) && i < |packets| && First(packets, i) <= base
    requires First(packets, i) <= n < First(packets, i) + Width(packets[i])
    ensures n in got
  {
    hide Receiving, Entry, Touched, Width;
    ReceivingAt(packets, got, box, base, slots);
    var d := |box.dispatched|;
    if d <= i {
      if d < i { FirstMonotone(packets, d, i); }
    } else {
      FirstMonotone(packets, i, d);
    }
    FirstPositive(packets, i);
  }

  lemma FirstPositive(packets: seq<Packet>, i: nat)
    requires i <= |packets|
    ensures First(packets, i) > 0
  {
    if i > 0 { FirstMonotone(packets, 0, i); }
  }

  /** Replacing a pending entry by one with more of the same packet. */
  lemma ReplaceKeeps(packets: seq<Packet>, got: set<nat>, box: Inbox, base: nat, slots: seq<nat>, j: nat, e: Incoming,
                     n: nat)
    requires Receiving(packets, got, box, base, slots) && j < |slots| == |box.pending|
    requires slots[j] < |packets| && Entry(packets, slots[j], got + {n}, e, base)
    requires First(packets, slots[j]) <= n < First(packets, slots[j]) + Width(packets[slots[j]])
    ensures Receiving(packets, got + {n}, box.(pending := box.pending[j := e]), base, slots)
  {
    hide Receiving, Entry, Touched, Wire, Window, Width;
    var i := slots[j];
    ReceivingAt(packets, got, box, base, slots);
    DispatchedAt(packets, got, box, base, slots);
    forall x | 0 <= x < |slots|
      ensures |box.dispatched| <= slots[x] && Entry(packets, slots[x], got + {n}, box.pending[j := e][x], base)
    {
      SlotInRange(packets, got, box, base, slots, x);
      if x != j {
        assert slots[x] != i;
        ContentsElsewhere(packets, i, slots[x], got, {n}, box.pending[x], base);
      }
    }
    forall x | |box.dispatched| <= x < |packets| && Touched(packets[x], First(packets, x), got + {n})
      ensures x in slots
    {
      if x != i {
        TouchedElsewhere(packets, i, x, got, {n});
        TouchedIsSlot(packets, got, box, base, slots, x);
      }
    }
    ReceivingFrom(packets, got + {n}, box.(pending := box.pending[j := e]), base, slots);
  }

  /** A fragment is filled in. */
  lemma FilledContents(p: Packet, f: nat, got: set<nat>, e: Incoming, k: nat)
    requires k < Pieces(p) && Contents(p, f, got, e)
    ensures e.count == Pieces(p) == |e.arrived| && |e.data| == |p.data|
    ensures Command(p, f, k).offset + |Command(p, f, k).data| <= |e.data|
    ensures e.arrived[k] ==> f + k in got && Filled(e, Command(p, f, k)) == e
    ensures Filled(e, Command(p, f, k)).number == e.number
    ensures Contents(p, f, got + {f + k}, Filled(e, Command(p, f, k)))
  {
    var c := Command(p, f, k);
    PieceFits(|p.data|, p.unit, k);
    assert PieceArrived(p, f, got, e, k);
    if e.arrived[k] {
      assert got + {f + k} == got;
    } else {
      MissingSet(e.arrived, k);
      var e' := Filled(e, c);
      var got' := got + {f + k};
      WritingKeeps(e.data, p.data, p.unit, k, k);
      forall x | 0 <= x < e.count ensures PieceArrived(p, f, got', e', x) {
        assert PieceArrived(p, f, got, e, x);
        if e.arrived[x] {
          WritingKeeps(e.data, p.data, p.unit, x, k);
        }
      }
    }
  }

  lemma DrainArrives(packets: seq<Packet>, got: set<nat>, box: Inbox, base: nat, n: nat,
                     got': set<nat>, box': Inbox, slots': seq<nat>) returns (base1: nat, slots1: seq<nat>)
    requires Receiving(packets, got', box', base, slots') && got' == got + {n} && box.dispatched == box'.dispatched
    ensures Arrived(packets, got, box, base, n, Reply(Drained(box'), true), got', base1, slots1)
  {
    hide Receiving;
    base1, slots1 := DrainKeeps(packets, got', box', base, slots');
  }

  lemma MarkNew(packets: seq<Packet>, got: set<nat>, box: Inbox, base: nat, slots: seq<nat>, j: nat, e: Incoming,
                n: nat)
    returns (base': nat, slots': seq<nat>)
    requires Receiving(packets, got, box, base, slots) && !Ready(box) && j < |slots| == |box.pending|
    requires slots[j] < |packets| && Entry(packets, slots[j], got + {n}, e, base) && e.number == box.pending[j].number
    requires First(packets, slots[j]) <= n < First(packets, slots[j]) + Width(packets[slots[j]])
    ensures var b := box.(pending := box.pending[j := e]);
      Arrived(packets, got, box, base, n, Reply(if e.remaining == 0 then Drained(b) else b, true), got + {n}, base',
              slots')
  {
    hide Receiving, Entry, Drained, Ready, Width, First, Window;
    base', slots' := base, slots;
    var b := box.(pending := box.pending[j := e]);
    ReplaceKeeps(packets, got, box, base, slots, j, e, n);
    if e.remaining == 0 {
      base', slots' := DrainArrives(packets, got, box, base, n, got + {n}, b, slots);
    } else {
      NotReady(box, j, e);
    }
  }

  /** A fragment of a packet that is pending. */
  lemma MarkArrives(packets: seq<Packet>, got: set<nat>, box: Inbox, base: nat, slots: seq<nat>, j: nat, k: nat)
    returns (got': set<nat>, base': nat, slots': seq<nat>)
    requires Receiving(packets, got, box, base, slots) && !Ready(box) && j < |slots| == |box.pending|
    requires slots[j] < |packets| && k < Pieces(packets[slots[j]])
    ensures var f := First(packets, slots[j]); var c := Command(packets[slots[j]], f, k);
      && c.index < c.count == box.pending[j].count == |box.pending[j].arrived|
      && c.offset + |c.data| <= |box.pending[j].data|
      && Arrived(packets, got, box, base, f + k, Reply(Marked(box, j, c), true), got', base', slots')
  {
    hide Receiving, Contents, Command, Filled, Ready, Drained, First, Window, Arrived;
    var i := slots[j];
    var p, f, e := packets[i], First(packets, i), box.pending[j];
    SlotInRange(packets, got, box, base, slots, j);
    ContentsNumber(p, f, got, e);
    CommandFits(p, f, k);
    FilledContents(p, f, got, e, k);
    var c := Command(p, f, k);
    if e.arrived[k] {
      got', base', slots' := got, base, slots;
      assert Marked(box, j, c) == box;
      Unchanged(packets, got, box, base, slots, f + k, true);
    } else {
      got' := got + {f + k};
      base', slots' := MarkNew(packets, got, box, base, slots, j, Filled(e, c), f + k);
    }
  }

  lemma CommandFits(p: Packet, f: nat, k: nat)
    requires k < Pieces(p)
    ensures var c := Command(p, f, k);
      c.start == Wire(f) && c.index == k && c.count == Pieces(p) && c.total == |p.data| && c.offset < c.total
      && 0 < |c.data| <= c.total - c.offset
  {
    PieceFits(|p.data|, p.unit, k);
  }

  lemma NotReady(box: Inbox, j: nat, e: Incoming)
    requires !Ready(box) && j < |box.pending| && e.remaining > 0 && e.number == box.pending[j].number
    ensures !Ready(box.(pending := box.pending[j := e]))
  {
  }

  /** An unfragmented packet arrives. */
  lemma ReliableArrives(packets: seq<Packet>, got: set<nat>, box: Inbox, base: nat, slots: seq<nat>, i: nat,
                        maximumPacketSize: nat, room: bool)
    returns (got': set<nat>, base': nat, slots': seq<nat>)
    requires Receiving(packets, got, box, base, slots) && !Ready(box) && i < |packets| && Pieces(packets[i]) == 0
    requires InSight(First(packets, i), base)
    ensures var f := First(packets, i);
      Arrived(packets, got, box, base, f, ReceiveReliable(box, Wire(f), packets[i].data, maximumPacketSize, room),
              got', base', slots')
  {
    hide Receiving, Ready, Drained, First, Arrived, Accepts, InSight, Window, Wire, Has, Entry, Inserted, Between,
         Pieces;
    var f := First(packets, i);
    got', base', slots' := got, base, slots;
    var reply := ReceiveReliable(box, Wire(f), packets[i].data, maximumPacketSize, room);
    ReceivingAt(packets, got, box, base, slots);
    if |packets[i].data| > maximumPacketSize || (!Discards(box, Wire(f)) && !room) {
      Unchanged(packets, got, box, base, slots, f, false);
    } else if Discards(box, Wire(f)) {
      DiscardedIsKnown(packets, got, box, base, slots, i);
      Unchanged(packets, got, box, base, slots, f, true);
    } else {
      got', base', slots' := NewArrives(packets, got, box, base, slots, i);
    }
  }

  lemma PendingIsKnown(packets: seq<Packet>, got: set<nat>, box: Inbox, base: nat, slots: seq<nat>, i: nat)
    requires Receiving(packets, got, box, base, slots) && i < |packets| && Pieces(packets[i]) == 0 && i in slots
    ensures First(packets, i) in got
  {
    var j :| 0 <= j < |slots| && slots[j] == i;
    SlotInRange(packets, got, box, base, slots, j);
  }

  /** What is discarded was accepted before, or is out of the windows. */
  lemma DiscardedIsKnown(packets: seq<Packet>, got: set<nat>, box: Inbox, base: nat, slots: seq<nat>, i: nat)
    requires Receiving(packets, got, box, base, slots) && i < |packets| && Pieces(packets[i]) == 0
    requires InSight(First(packets, i), base) && Discards(box, Wire(First(packets, i)))
    ensures Window(First(packets, i)) + 1 < Window(base) + FREE_WINDOWS ==> First(packets, i) in got
  {
    hide Receiving, Pieces, Has, Accepts, InSight, Wire;
    var f := First(packets, i);
    ReceivingAt(packets, got, box, base, slots);
    AcceptsMeans(f, base);
    FirstPositive(packets, i);
    if Window(f) + 1 < Window(base) + FREE_WINDOWS && base <= f {
      NearBase(f, base);
      NearBase(base, base);
      if Wire(f) != Wire(base) {
        var j := SlotOf(packets, got, box, base, slots, i);
        PendingIsKnown(packets, got, box, base, slots, i);
      }
    }
  }

  lemma NewArrives(packets: seq<Packet>, got: set<nat>, box: Inbox, base: nat, slots: seq<nat>, i: nat)
    returns (got': set<nat>, base': nat, slots': seq<nat>)
    requires Receiving(packets, got, box, base, slots) && !Ready(box) && i < |packets| && Pieces(packets[i]) == 0
    requires InSight(First(packets, i), base) && !Discards(box, Wire(First(packets, i)))
    ensures var f := First(packets, i);
      Arrived(packets, got, box, base, f, Reply(Queued(box, Incoming(Wire(f), 0, 0, [], packets[i].data)), true),
              got', base', slots')
  {
    hide Receiving, Ready, Drained, First, Arrived, Accepts, InSight, Window, Wire, Has, Inserted, Between, Pieces,
         Splits;
    var f := First(packets, i);
    var e := Incoming(Wire(f), 0, 0, [], packets[i].data);
    var k := NewPlace(packets, got, box, base, slots, i);
    NewEntry(packets, got, base, i);
    WidthIsPositive(packets[i]);
    InsertKeeps(packets, got, box, base, slots, i, e, {f}, k);
    BetweenInserts(box, e, k);
    got' := got + {f};
    base', slots' := DrainArrives(packets, got, box, base, f, got',
                                  box.(pending := box.pending[..k] + [e] + box.pending[k..]),
                                  slots[..k] + [i] + slots[k..]);
  }

  lemma BetweenInserts(box: Inbox, e: Incoming, k: nat)
    requires Between(box.pending, k, e.number, box.incoming)
    ensures k <= |box.pending| && Queued(box, e) == Drained(box.(pending := box.pending[..k] + [e] + box.pending[k..]))
  {
    InsertedAt(box.pending, e, box.incoming, k);
  }

  lemma NewEntry(packets: seq<Packet>, got: set<nat>, base: nat, i: nat)
    requires i < |packets| && Pieces(packets[i]) == 0
    requires Window(First(packets, i)) + 1 < Window(base) + FREE_WINDOWS
    ensures var f := First(packets, i); Entry(packets, i, got + {f}, Incoming(Wire(f), 0, 0, [], packets[i].data), base)
  {
    hide Pieces;
  }

  /** A packet that is not discarded is not pending, and lies ahead. */
  lemma NewPlace(packets: seq<Packet>, got: set<nat>, box: Inbox, base: nat, slots: seq<nat>, i: nat) returns (k: nat)
    requires Receiving(packets, got, box, base, slots) && i < |packets|
    requires InSight(First(packets, i), base) && !Discards(box, Wire(First(packets, i)))
    ensures base < First(packets, i) && Window(First(packets, i)) + 1 < Window(base) + FREE_WINDOWS
    ensures Between(box.pending, k, Wire(First(packets, i)), box.incoming) && k <= |slots| == |box.pending|
    ensures Splits(slots, i, k) && |box.dispatched| <= i && i !in slots
  {
    hide Receiving, Pieces, Accepts, InSight, Wire, Window, Entry, Splits, Between;
    var f := First(packets, i);
    ReceivingAt(packets, got, box, base, slots);
    AcceptsMeans(f, base);
    if i in slots {
      var j :| 0 <= j < |slots| && slots[j] == i;
      EntryAhead(packets, got, box, base, slots, j);
      assert false;
    }
    k := PlaceOf(packets, got, box, base, slots, i);
  }

  lemma {:induction false} MissingAll(count: nat)
    ensures Missing(seq(count, _ => false)) == count
  {
    if count > 0 {
      MissingAll(count - 1);
      assert seq(count, _ => false)[1..] == seq(count - 1, _ => false);
    }
  }

  lemma UntouchedSerial(p: Packet, f: nat, got: set<nat>, n: nat)
    requires !Touched(p, f, got) && f <= n < f + Width(p)
    ensures n !in got
  {
  }

  /** Nothing of the packet has arrived. */
  lemma StartedEntry(packets: seq<Packet>, got: set<nat>, base: nat, i: nat, k: nat, blank: seq<byte>)
    requires i < |packets| && k < Pieces(packets[i]) && |blank| == |packets[i].data|
    requires Window(First(packets, i)) + 1 < Window(base) + FREE_WINDOWS
    requires !Touched(packets[i], First(packets, i), got)
    ensures Entry(packets, i, got, Started(Command(packets[i], First(packets, i), k), blank), base)
  {
    hide PieceOf, PieceCount;
    var p, f := packets[i], First(packets, i);
    var e := Started(Command(p, f, k), blank);
    MissingAll(Pieces(p));
    forall x | 0 <= x < e.count ensures PieceArrived(p, f, got, e, x) {
      UntouchedSerial(p, f, got, f + x);
    }
  }

  lemma WindowMonotone(a: nat, b: nat)
    requires a <= b
    ensures Window(a) <= Window(b)
  {
  }

  /** A fragment of a packet whose first serial is out of the receiver's windows. */
  lemma IgnoredIsKnown(packets: seq<Packet>, got: set<nat>, box: Inbox, base: nat, slots: seq<nat>, i: nat, k: nat)
    requires Receiving(packets, got, box, base, slots) && i < |packets| && k < Pieces(packets[i])
    requires InSight(First(packets, i), base) && !Accepts(Wire(First(packets, i)), box.incoming)
    ensures Window(First(packets, i) + k) + 1 < Window(base) + FREE_WINDOWS ==> First(packets, i) + k in got
  {
    hide Receiving, Accepts, InSight, Wire, Window, Entry;
    var f := First(packets, i);
    ReceivingAt(packets, got, box, base, slots);
    AcceptsMeans(f, base);
    WindowMonotone(f, f + k);
    if f < base {
      Oldies(packets, got, box, base, slots, i, f + k);
    }
  }

  /** The first fragment of a packet. */
  lemma FirstFragmentArrives(packets: seq<Packet>, got: set<nat>, box: Inbox, base: nat, slots: seq<nat>, i: nat,
                             k: nat, maximumPacketSize: nat, blank: seq<byte>)
    returns (got': set<nat>, base': nat, slots': seq<nat>)
    requires Receiving(packets, got, box, base, slots) && Tidy(box) && i < |packets| && k < Pieces(packets[i])
    requires InSight(First(packets, i), base) && |blank| == |packets[i].data|
    requires var f := First(packets, i);
      !Discards(box, Wire(f)) && WellFormed(Command(packets[i], f, k), maximumPacketSize)
    ensures var f := First(packets, i);
      Arrived(packets, got, box, base, f + k,
              ReceiveFragment(box, Command(packets[i], f, k), maximumPacketSize, true, blank), got', base', slots')
  {
    hide Receiving, Ready, Drained, First, Window, Wire, Inserted, Pieces, Splits, Tidy, WellFormed, Marked,
         ReceiveFragment, Command, InSight, Entry, Touched, Started;
    var f := First(packets, i);
    var c := Command(packets[i], f, k);
    CommandFits(packets[i], f, k);
    var at := NewPlace(packets, got, box, base, slots, i);
    FragmentNew(box, c, maximumPacketSize, true, blank, at);
    if Touched(packets[i], f, got) {
      TouchedIsSlot(packets, got, box, base, slots, i);
      assert false;
    }
    var e := Started(c, blank);
    StartedEntry(packets, got, base, i, k, blank);
    assert got + {} == got;
    InsertKeeps(packets, got, box, base, slots, i, e, {}, at);
    var b := box.(pending := box.pending[..at] + [e] + box.pending[at..]);
    StartedNotReady(box, c, blank, at);
    got', base', slots' := MarkArrives(packets, got, b, base, slots[..at] + [i] + slots[at..], at, k);
  }

  lemma StartedNotReady(box: Inbox, c: Fragment, blank: seq<byte>, at: nat)
    requires Tidy(box) && at <= |box.pending| && c.count > 0
    ensures !Ready(box.(pending := box.pending[..at] + [Started(c, blank)] + box.pending[at..]))
  {
    hide Sorted, Missing, Shaped;
  }

  /** A fragment arrives. */
  lemma FragmentArrives(packets: seq<Packet>, got: set<nat>, box: Inbox, base: nat, slots: seq<nat>, i: nat, k: nat,
                        maximumPacketSize: nat, room: bool, blank: seq<byte>)
    returns (got': set<nat>, base': nat, slots': seq<nat>)
    requires Receiving(packets, got, box, base, slots) && Tidy(box) && i < |packets| && k < Pieces(packets[i])
    requires InSight(First(packets, i), base) && |blank| == |packets[i].data|
    ensures Command(packets[i], First(packets, i), k).total == |blank|
    ensures var f := First(packets, i);
      Arrived(packets, got, box, base, f + k,
              ReceiveFragment(box, Command(packets[i], f, k), maximumPacketSize, room, blank), got', base', slots')
  {
    hide Receiving, Ready, Drained, First, Window, Wire, Inserted, Pieces, Splits, WellFormed, Marked, Accepts,
         ReceiveFragment, Command, InSight, Entry, Arrived, Has, Sorted, Shaped;
    var f := First(packets, i);
    var c := Command(packets[i], f, k);
    CommandFits(packets[i], f, k);
    got', base', slots' := got, base, slots;
    FragmentIgnored(box, c, maximumPacketSize, room, blank);
    ReceivingAt(packets, got, box, base, slots);
    if |c.data| > maximumPacketSize {
      Unchanged(packets, got, box, base, slots, f + k, false);
    } else if !Accepts(c.start, box.incoming) {
      IgnoredIsKnown(packets, got, box, base, slots, i, k);
      Unchanged(packets, got, box, base, slots, f + k, true);
    } else if !WellFormed(c, maximumPacketSize) {
      Unchanged(packets, got, box, base, slots, f + k, false);
    } else if Has(box.pending, c.start) {
      AcceptsMeans(f, base);
      var j := SlotOf(packets, got, box, base, slots, i);
      FragmentKnown(box, c, maximumPacketSize, room, blank, j);
      SlotNumbers(packets, got, box, base, slots, j);
      got', base', slots' := MarkArrives(packets, got, box, base, slots, j, k);
    } else if c.start == box.incoming || !room {
      FragmentRefused(box, c, maximumPacketSize, room, blank);
      Unchanged(packets, got, box, base, slots, f + k, false);
    } else {
      got', base', slots' := FirstFragmentArrives(packets, got, box, base, slots, i, k, maximumPacketSize, blank);
    }
  }

  /** With room for it, a fragment is not refused. */
  lemma FragmentIsTaken(packets: seq<Packet>, got: set<nat>, box: Inbox, base: nat, slots: seq<nat>, i: nat, k: nat,
                        maximumPacketSize: nat, blank: seq<byte>)
    requires Receiving(packets, got, box, base, slots) && Tidy(box) && i < |packets| && k < Pieces(packets[i])
    requires InSight(First(packets, i), base) && |blank| == |packets[i].data| <= maximumPacketSize
    requires Accepts(Wire(First(packets, i)), box.incoming) ==>
      Pieces(packets[i]) <= MAXIMUM_FRAGMENT_COUNT && First(packets, i) != base
    ensures var c := Command(packets[i], First(packets, i), k);
      c.total == |blank| && ReceiveFragment(box, c, maximumPacketSize, true, blank).ok
  {
    hide Receiving, Ready, Drained, First, Window, Wire, Inserted, Pieces, Splits, Marked, Accepts, Command, InSight,
         Entry, Has, Sorted, Shaped, ReceiveFragment;
    var f := First(packets, i);
    var c := Command(packets[i], f, k);
    CommandFits(packets[i], f, k);
    ReceivingAt(packets, got, box, base, slots);
    FragmentIgnored(box, c, maximumPacketSize, true, blank);
    if Accepts(c.start, box.incoming) {
      AcceptsMeans(f, base);
      NearBase(f, base);
      NearBase(base, base);
      if Has(box.pending, c.start) {
        var j := SlotOf(packets, got, box, base, slots, i);
        FragmentKnown(box, c, maximumPacketSize, true, blank, j);
        SlotNumbers(packets, got, box, base, slots, j);
      } else {
        WidthIsPositive(packets[i]);
        assert !Discards(box, Wire(f));
        var at := NewPlace(packets, got, box, base, slots, i);
        FragmentNew(box, c, maximumPacketSize, true, blank, at);
      }
    }
  }

  lemma SlotNumbers(packets: seq<Packet>, got: set<nat>, box: Inbox, base: nat, slots: seq<nat>, j: nat)
    requires Receiving(packets, got, box, base, slots) && j < |slots|
    ensures slots[j] < |packets| && |slots| == |box.pending|
    ensures box.pending[j].count == Pieces(packets[slots[j]]) && |box.pending[j].data| == |packets[slots[j]].data|
  {
    hide Receiving, Contents;
    SlotInRange(packets, got, box, base, slots, j);
    ContentsNumber(packets[slots[j]], First(packets, slots[j]), got, box.pending[j]);
  }
}
