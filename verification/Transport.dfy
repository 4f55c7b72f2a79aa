/** One reliable channel between two connected peers, over a network that loses, repeats and reorders.

    A world holds what both ends know.  Copies of every command that was ever transmitted, and of every
    acknowledgement, may arrive any number of times, in any order, or be lost for good; but no copy arrives when the
    receiver is more than the free windows past its own number, which leaves room for every retransmission: see
    RepetitionsAreCurrent.
    Packets must not reach a third window of numbers: see SendableExactly. */
module Transport {
  import opened Bytes
  import opened Collections
  import opened Windows
  import opened Inboxes
  import opened Fragments
  import opened Deliveries

  /** `packets` were sent on the channel; the commands up to serial `sent` have been transmitted, `unacked` are those
      the sender still waits for; `acked` those the receiver has acknowledged. */
  datatype World = World(packets: seq<Packet>, sent: nat, unacked: set<nat>, acked: set<nat>, box: Inbox)

  const START := World([], 0, {}, {}, Inbox(0, [], []))

  /** The serial of the receiver's current number: the last command that was handed on. */
  function Base(w: World): int
    requires |w.box.dispatched| <= |w.packets|
  {
    First(w.packets, |w.box.dispatched|) - 1
  }

  ghost function Occupying(unacked: set<nat>, window: nat): set<nat> {
    set m | m in unacked && Window(m) % WINDOWS == window
  }

  /** The sender's test before the first transmission of a command: at the start of a window the window before it must
      not be completely outstanding, and nothing may be outstanding in this and the next FREE_WINDOWS - 1 windows. */
  ghost predicate MayTransmit(unacked: set<nat>, n: nat) {
    n % WINDOW_SIZE == 0 ==>
      && |Occupying(unacked, (Window(n) + WINDOWS - 1) % WINDOWS)| < WINDOW_SIZE
      && forall m :: m in unacked ==> (Window(m) - Window(n)) % WINDOWS >= FREE_WINDOWS
  }

  /** The receiver's reaction to fragment `k` of packet `i`, or to all of it. */
  function Answer(packets: seq<Packet>, box: Inbox, i: nat, k: nat, maximumPacketSize: nat, room: bool,
                  blank: seq<byte>): Reply
    requires i < |packets| && k < Width(packets[i]) && |blank| == |packets[i].data|
    requires forall j :: 0 <= j < |box.pending| ==> |box.pending[j].arrived| == box.pending[j].count
  {
    var f := First(packets, i);
    if Pieces(packets[i]) == 0 then ReceiveReliable(box, Wire(f), packets[i].data, maximumPacketSize, room)
    else
      CommandFits(packets[i], f, k);
      ReceiveFragment(box, Command(packets[i], f, k), maximumPacketSize, room, blank)
  }

  datatype Step =
    | Send(packet: Packet)
    | Transmit
    | Arrive(i: nat, k: nat, maximumPacketSize: nat, room: bool, blank: seq<byte>, acknowledged: bool)
    | Acknowledge(n: nat, found: nat)
    | Lose(n: nat)

  /** The packet's first serial is at most WINDOWS - FREE_WINDOWS + 1 windows behind. */
  ghost predicate InLife(first: nat, base: int) {
    base < 0 || Window(base) <= Window(first) + (WINDOWS - FREE_WINDOWS + 1)
  }

  /** The command itself is at most WINDOWS - FREE_WINDOWS windows behind: the sender may still repeat it. */
  ghost predicate Current(n: nat, base: int) {
    base < 0 || Window(base) <= Window(n) + (WINDOWS - FREE_WINDOWS)
  }

  /** The sender gets to transmit all of the packet while the receiver waits for it. */
  predicate Completable(first: nat, last: nat)
    requires first > 0
  {
    Window(last) < Window(first - 1) + FREE_WINDOWS
  }

  /** The packet reaches no third window, or is so long that it can never be transmitted. */
  predicate Sendable(first: nat, last: nat)
    requires first > 0
  {
    Window(last) <= Window(first) + 1 || !Completable(first, last)
  }

  function Last(packets: seq<Packet>, i: nat): nat
    requires i < |packets|
    ensures Last(packets, i) >= First(packets, i) > 0
  {
    FirstPositive(packets, i);
    WidthIsPositive(packets[i]);
    First(packets, i) + Width(packets[i]) - 1
  }

  ghost predicate Next(w: World, step: Step, w': World) {
    && |w.box.dispatched| <= |w.packets| && (forall j :: 0 <= j < |w.box.pending| ==> Shaped(w.box.pending[j]))
    && match step
       case Send(p) =>
         && w' == w.(packets := w.packets + [p])
         && Sendable(First(w'.packets, |w.packets|), Last(w'.packets, |w.packets|))
       case Transmit =>
         && w.sent + 1 < First(w.packets, |w.packets|) && MayTransmit(w.unacked, w.sent + 1)
         && w' == w.(sent := w.sent + 1, unacked := w.unacked + {w.sent + 1})
       case Arrive(i, k, maximumPacketSize, room, blank, acknowledged) =>
         && i < |w.packets| && k < Width(w.packets[i]) && |blank| == |w.packets[i].data|
         && var n := First(w.packets, i) + k;
            var reply := Answer(w.packets, w.box, i, k, maximumPacketSize, room, blank);
            && n <= w.sent && (Current(n, Base(w)) || InLife(First(w.packets, i), Base(w)))
            && w' == w.(box := reply.box,
                        acked := if reply.ok && acknowledged && Acknowledges(Wire(n), reply.box.incoming)
                                 then w.acked + {n} else w.acked)
       case Acknowledge(n, m) =>
         && n in w.acked && Window(w.sent) < Window(n) + WINDOWS
         && m in w.unacked && Wire(m) == Wire(n) && w' == w.(unacked := w.unacked - {m})
       case Lose(n) => n in w.unacked && w' == w.(acked := w.acked - {n})
  }

  /** What every step keeps; `got` are the serials the receiver has accepted, `slots` the packets that are pending. */
  ghost predicate Safe(w: World, got: set<nat>, slots: seq<nat>) {
    && |w.box.dispatched| <= |w.packets| && Base(w) >= 0
    && Receiving(w.packets, got, w.box, Base(w), slots) && !Ready(w.box)
    && w.sent < First(w.packets, |w.packets|)
    && (forall n :: n in got ==> 1 <= n <= w.sent)
    && (forall n :: n in w.acked ==> n in got && Window(n) + 1 < Window(Base(w)) + FREE_WINDOWS)
    && (forall n :: n in w.unacked ==> 1 <= n <= w.sent && Window(w.sent) <= Window(n) + (WINDOWS - FREE_WINDOWS))
    && (forall n :: 1 <= n <= w.sent ==> n in w.unacked || n in w.acked)
    && Window(w.sent) < Window(Base(w)) + FREE_WINDOWS
  }

  /** A packet that reaches a third window is not transmitted to its end. */
  ghost predicate Measured(w: World) {
    forall i :: 0 <= i < |w.packets| ==> Bounded(w.packets, i, w.sent)
  }

  ghost predicate Bounded(packets: seq<Packet>, i: nat, sent: nat)
    requires i < |packets|
  {
    var first, last := First(packets, i), Last(packets, i);
    Window(last) <= Window(first) + 1 || (!Completable(first, last) && sent < last)
  }

  lemma StartIsSafe()
    ensures Safe(START, {}, []) && Measured(START)
  {
  }

  // ----- sending

  lemma SendIsSafe(w: World, got: set<nat>, slots: seq<nat>, p: Packet)
    requires Safe(w, got, slots)
    ensures Safe(w.(packets := w.packets + [p]), got, slots)
  {
    hide Receiving, Ready, Window;
    var more := w.packets + [p];
    FirstAppend(w.packets, more, |w.packets|);
    FirstAppend(w.packets, more, |w.box.dispatched|);
    FirstMonotone(more, |w.packets|, |more|);
    AppendKeeps(w.packets, got, w.box, Base(w), slots, p);
  }

  lemma SendMeasures(w: World, got: set<nat>, slots: seq<nat>, p: Packet)
    requires Safe(w, got, slots) && Measured(w)
    requires var more := w.packets + [p]; Sendable(First(more, |w.packets|), Last(more, |w.packets|))
    ensures Measured(w.(packets := w.packets + [p]))
  {
    hide Receiving, Ready, Window;
    var more := w.packets + [p];
    FirstAppend(w.packets, more, |w.packets|);
    forall i | 0 <= i < |more| ensures Bounded(more, i, w.sent) {
      if i < |w.packets| {
        FirstAppend(w.packets, more, i);
        assert Bounded(w.packets, i, w.sent);
      }
    }
  }

  lemma AppendKeeps(packets: seq<Packet>, got: set<nat>, box: Inbox, base: nat, slots: seq<nat>, p: Packet)
    requires Receiving(packets, got, box, base, slots)
    requires forall n :: n in got ==> n < First(packets, |packets|)
    ensures Receiving(packets + [p], got, box, base, slots)
  {
    hide Receiving, Contents, Touched;
    var more := packets + [p];
    ReceivingAt(packets, got, box, base, slots);
    DispatchedAt(packets, got, box, base, slots);
    FirstAppend(packets, more, |box.dispatched|);
    forall j | 0 <= j < |slots|
      ensures |box.dispatched| <= slots[j] && Entry(more, slots[j], got, box.pending[j], base)
    {
      SlotInRange(packets, got, box, base, slots, j);
      FirstAppend(packets, more, slots[j]);
    }
    forall i | |box.dispatched| <= i < |more| && Touched(more[i], First(more, i), got) ensures i in slots {
      FirstAppend(packets, more, i);
      if i < |packets| {
        TouchedIsSlot(packets, got, box, base, slots, i);
      } else {
        BeyondIsUntouched(p, First(packets, |packets|), got);
      }
    }
    ReceivingFrom(more, got, box, base, slots);
  }

  lemma BeyondIsUntouched(p: Packet, f: nat, got: set<nat>)
    requires forall n :: n in got ==> n < f
    ensures !Touched(p, f, got)
  {
  }

  // ----- the first transmission of a command

  /** The `n` numbers from `lo` on. */
  ghost function Run(lo: nat, n: nat): (run: set<nat>)
    ensures |run| == n && forall x :: x in run <==> lo <= x < lo + n
  {
    if n == 0 then {} else Run(lo, n - 1) + {lo + (n - 1)}
  }

  /** If a window is not completely outstanding, some command of it is not outstanding. */
  lemma SomeoneAnswered(unacked: set<nat>, window: nat) returns (m: nat)
    requires |Occupying(unacked, window % WINDOWS)| < WINDOW_SIZE
    ensures Window(m) == window && m !in unacked
  {
    var lo := window * WINDOW_SIZE;
    var all := Run(lo, WINDOW_SIZE);
    if all <= Occupying(unacked, window % WINDOWS) {
      SubsetSize(all, Occupying(unacked, window % WINDOWS));
      assert false;
    }
    m :| m in all && m !in Occupying(unacked, window % WINDOWS);
  }

  /** Outstanding commands stay within WINDOWS - FREE_WINDOWS windows of the newest. */
  lemma GateKeepsNear(unacked: set<nat>, n: nat, m: nat)
    requires MayTransmit(unacked, n) && m in unacked && 1 <= m < n
    requires Window(n - 1) <= Window(m) + (WINDOWS - FREE_WINDOWS)
    ensures Window(n) <= Window(m) + (WINDOWS - FREE_WINDOWS)
  {
    if n % WINDOW_SIZE != 0 {
      assert Window(n - 1) == Window(n);
    } else {
      assert Window(n) == Window(n - 1) + 1;
      assert Window(m) <= Window(n - 1);
    }
  }

  /** The sender never transmits more than FREE_WINDOWS - 1 windows past the receiver's current one. */
  lemma GateKeepsBehind(w: World, got: set<nat>, slots: seq<nat>)
    requires Safe(w, got, slots) && MayTransmit(w.unacked, w.sent + 1)
    ensures Window(w.sent + 1) < Window(Base(w)) + FREE_WINDOWS
  {
    hide Receiving, Ready, Occupying;
    var n := w.sent + 1;
    if n % WINDOW_SIZE != 0 {
      assert Window(n) == Window(w.sent);
    } else if Window(n) > 1 {
      PreviousWindow(n);
      var m := SomeoneAnswered(w.unacked, Window(n) - 1);
      InPreviousWindow(m, n);
      assert m in w.acked;
    }
  }

  lemma PreviousWindow(n: nat)
    requires Window(n) > 0
    ensures (Window(n) + WINDOWS - 1) % WINDOWS == (Window(n) - 1) % WINDOWS
  {
  }

  lemma InPreviousWindow(m: nat, n: nat)
    requires n % WINDOW_SIZE == 0 && Window(n) > 1 && Window(m) == Window(n) - 1
    ensures 1 <= m < n
  {
  }

  lemma TransmitIsSafe(w: World, got: set<nat>, slots: seq<nat>)
    requires Safe(w, got, slots) && w.sent + 1 < First(w.packets, |w.packets|) && MayTransmit(w.unacked, w.sent + 1)
    ensures Safe(w.(sent := w.sent + 1, unacked := w.unacked + {w.sent + 1}), got, slots)
  {
    hide Receiving, Ready, Window, MayTransmit;
    GateKeepsBehind(w, got, slots);
    forall m | m in w.unacked ensures Window(w.sent + 1) <= Window(m) + (WINDOWS - FREE_WINDOWS) {
      GateKeepsNear(w.unacked, w.sent + 1, m);
    }
  }

  /** While the end of a packet was not transmitted, the receiver waits for the packet. */
  lemma NotHandedOn(w: World, got: set<nat>, slots: seq<nat>, i: nat)
    requires Safe(w, got, slots) && i < |w.packets| && w.sent < Last(w.packets, i)
    ensures |w.box.dispatched| <= i && Base(w) < First(w.packets, i)
  {
    hide Ready, Window;
    var d := |w.box.dispatched|;
    ReceivingAt(w.packets, got, w.box, Base(w), slots);
    hide Receiving, Safe;
    if d > i {
      LastBefore(w.packets, i, d);
      AcceptedWasSent(w, got, slots, Last(w.packets, i));
    } else if d < i {
      FirstMonotone(w.packets, d, i);
    }
  }

  lemma AcceptedWasSent(w: World, got: set<nat>, slots: seq<nat>, n: nat)
    requires Safe(w, got, slots) && 1 <= n <= Base(w)
    ensures n <= w.sent
  {
    ReceivingAt(w.packets, got, w.box, Base(w), slots);
    assert n in got;
  }

  lemma LastBefore(packets: seq<Packet>, i: nat, d: nat)
    requires i < d <= |packets|
    ensures Last(packets, i) < First(packets, d)
  {
    FirstMonotone(packets, i, d);
  }

  lemma TransmitMeasures(w: World, got: set<nat>, slots: seq<nat>)
    requires Safe(w, got, slots) && Measured(w) && MayTransmit(w.unacked, w.sent + 1)
    ensures Measured(w.(sent := w.sent + 1))
  {
    hide Receiving, Ready, MayTransmit, Window;
    GateKeepsBehind(w, got, slots);
    var sent := w.sent + 1;
    forall i | 0 <= i < |w.packets| ensures Bounded(w.packets, i, sent) {
      assert Bounded(w.packets, i, w.sent);
      if sent == Last(w.packets, i) {
        NotHandedOn(w, got, slots, i);
        WindowMonotone(Base(w), First(w.packets, i) - 1);
      }
    }
  }

  // ----- acknowledgements

  /** No two outstanding commands share a 16-bit number. */
  lemma Unambiguous(w: World, got: set<nat>, slots: seq<nat>, a: nat, b: nat)
    requires Safe(w, got, slots) && a in w.unacked && b in w.unacked && Wire(a) == Wire(b)
    ensures a == b
  {
    hide Receiving, Ready;
    NearIsSame(a, b, w.sent);
  }

  lemma NearIsSame(a: nat, b: nat, sent: nat)
    requires a <= sent && b <= sent && Wire(a) == Wire(b)
    requires Window(sent) < Window(a) + WINDOWS && Window(sent) < Window(b) + WINDOWS
    ensures a == b
  {
    var q, r := a / WRAP, b / WRAP;
    assert a == q * WRAP + Wire(a) && b == r * WRAP + Wire(b);
  }

  /** An acknowledgement removes the command it was meant for. */
  lemma AcknowledgesRight(w: World, got: set<nat>, slots: seq<nat>, n: nat, m: nat, w': World)
    requires Safe(w, got, slots) && Next(w, Acknowledge(n, m), w')
    ensures m == n
  {
    hide Receiving, Ready;
    NearIsSame(n, m, w.sent);
  }

  lemma AcknowledgeParts(w: World, n: nat, m: nat, w': World)
    requires Next(w, Acknowledge(n, m), w')
    ensures n in w.acked && w' == w.(unacked := w.unacked - {m})
  {
  }

  lemma ForgettingIsSafe(w: World, got: set<nat>, slots: seq<nat>, n: nat)
    requires Safe(w, got, slots) && n in w.acked
    ensures Safe(w.(unacked := w.unacked - {n}), got, slots)
  {
    hide Receiving, Ready, Window;
  }

  lemma LosingIsSafe(w: World, got: set<nat>, slots: seq<nat>, n: nat)
    requires Safe(w, got, slots) && n in w.unacked
    ensures Safe(w.(acked := w.acked - {n}), got, slots)
  {
    hide Receiving, Ready, Window;
  }

  lemma AcknowledgeIsSafe(w: World, got: set<nat>, slots: seq<nat>, n: nat, m: nat, w': World)
    requires Safe(w, got, slots) && Next(w, Acknowledge(n, m), w')
    ensures Safe(w', got, slots)
  {
    hide Safe, Next;
    AcknowledgesRight(w, got, slots, n, m, w');
    AcknowledgeParts(w, n, m, w');
    ForgettingIsSafe(w, got, slots, n);
  }

  // ----- arrivals

  /** Both kinds of command, through the receiver's own arithmetic on 16-bit numbers. */
  lemma CommandArrives(packets: seq<Packet>, got: set<nat>, box: Inbox, base: nat, slots: seq<nat>, i: nat, k: nat,
                       maximumPacketSize: nat, room: bool, blank: seq<byte>)
    returns (got': set<nat>, base': nat, slots': seq<nat>)
    requires Receiving(packets, got, box, base, slots) && !Ready(box) && i < |packets| && k < Width(packets[i])
    requires InSight(First(packets, i), base) && |blank| == |packets[i].data|
    ensures forall j :: 0 <= j < |box.pending| ==> Shaped(box.pending[j])
    ensures Arrived(packets, got, box, base, First(packets, i) + k,
                    Answer(packets, box, i, k, maximumPacketSize, room, blank), got', base', slots')
  {
    hide Receiving, Ready, Arrived, InSight, Pieces, Missing, ReceiveReliable, ReceiveFragment, Command;
    ReceivingIsSorted(packets, got, box, base, slots);
    if Pieces(packets[i]) == 0 {
      got', base', slots' := ReliableArrives(packets, got, box, base, slots, i, maximumPacketSize, room);
    } else {
      got', base', slots' := FragmentArrives(packets, got, box, base, slots, i, k, maximumPacketSize, room, blank);
    }
  }

  lemma ArrivesInSight(first: nat, n: nat, sent: nat, base: nat)
    requires first <= n <= sent && Window(sent) < Window(base) + FREE_WINDOWS && InLife(first, base)
    ensures InSight(first, base)
  {
  }

  /** What is acknowledged has been accepted, and lies in the acknowledged windows. */
  lemma AcknowledgedIsAccepted(n: nat, base: nat, got: set<nat>, reply: Reply)
    requires reply.box.incoming == Wire(base) && n >= 1 && (forall x :: 1 <= x <= base ==> x in got)
    requires reply.ok && Acknowledges(Wire(n), reply.box.incoming) && Window(n) < Window(base) + FREE_WINDOWS
    requires reply.ok && Window(n) + 1 < Window(base) + FREE_WINDOWS ==> n in got
    ensures n in got && Window(n) + 1 < Window(base) + FREE_WINDOWS
  {
    if n <= base {
      WindowMonotone(n, base);
    } else {
      WindowMonotone(base, n);
      AcknowledgesMeans(n, base);
    }
  }

  /** A copy that is not too old for the sender to repeat it belongs to a packet that is not too old to be
      recognised. */
  lemma CurrentIsInLife(w: World, got: set<nat>, slots: seq<nat>, i: nat, k: nat)
    requires Safe(w, got, slots) && Measured(w) && i < |w.packets| && k < Width(w.packets[i])
    requires Current(First(w.packets, i) + k, Base(w))
    ensures InLife(First(w.packets, i), Base(w))
  {
    hide Receiving, Ready, Window;
    var first, last := First(w.packets, i), Last(w.packets, i);
    assert Bounded(w.packets, i, w.sent);
    if Window(last) <= Window(first) + 1 {
      WindowMonotone(first + k, last);
    } else {
      NotHandedOn(w, got, slots, i);
      WindowMonotone(Base(w), first);
    }
  }

  lemma ArriveIsSafe(w: World, got: set<nat>, slots: seq<nat>, i: nat, k: nat, maximumPacketSize: nat, room: bool,
                     blank: seq<byte>, acknowledged: bool, w': World)
    returns (got': set<nat>, slots': seq<nat>)
    requires Safe(w, got, slots) && Measured(w)
    requires Next(w, Arrive(i, k, maximumPacketSize, room, blank, acknowledged), w')
    ensures Safe(w', got', slots') && w.box.dispatched <= w'.box.dispatched
    ensures got <= got' <= got + {First(w.packets, i) + k}
    ensures forall j :: 0 <= j < |w.box.pending| ==> Shaped(w.box.pending[j])
    ensures var n := First(w.packets, i) + k;
      (Answer(w.packets, w.box, i, k, maximumPacketSize, room, blank).ok
       && Window(n) + 1 < Window(Base(w')) + FREE_WINDOWS) ==> n in got'
  {
    hide Receiving, Ready, Acknowledges, Answer, InSight, InLife, Current, Measured, Window;
    var n, base := First(w.packets, i) + k, Base(w);
    FirstPositive(w.packets, i);
    if Current(n, base) { CurrentIsInLife(w, got, slots, i, k); }
    ArrivesInSight(First(w.packets, i), n, w.sent, base);
    var base';
    got', base', slots' := CommandArrives(w.packets, got, w.box, base, slots, i, k, maximumPacketSize, room, blank);
    ReceivingAt(w.packets, got', w'.box, base', slots');
    assert Base(w') == base';
    WindowMonotone(base, base');
    WindowMonotone(n, w.sent);
    if n in w'.acked && n !in w.acked {
      AcknowledgedIsAccepted(n, base', got', Answer(w.packets, w.box, i, k, maximumPacketSize, room, blank));
    }
  }

  // ----- all runs

  ghost predicate Behaviour(worlds: seq<World>, steps: seq<Step>) {
    && |worlds| == |steps| + 1 && worlds[0] == START
    && forall i :: 0 <= i < |steps| ==> Next(worlds[i], steps[i], worlds[i + 1])
  }

  lemma StepIsSafe(w: World, got: set<nat>, slots: seq<nat>, step: Step, w': World)
    returns (got': set<nat>, slots': seq<nat>)
    requires Safe(w, got, slots) && Measured(w) && Next(w, step, w')
    ensures Safe(w', got', slots') && Measured(w')
    ensures w.box.dispatched <= w'.box.dispatched && w.packets <= w'.packets
  {
    hide Safe, Answer, MayTransmit, InLife, Current, Bounded, Sendable;
    got', slots' := got, slots;
    match step
    case Send(p) => SendIsSafe(w, got, slots, p); SendMeasures(w, got, slots, p);
    case Transmit => TransmitIsSafe(w, got, slots); TransmitMeasures(w, got, slots);
    case Arrive(i, k, size, room, blank, acknowledged) =>
      got', slots' := ArriveIsSafe(w, got, slots, i, k, size, room, blank, acknowledged, w');
    case Acknowledge(n, m) => AcknowledgeIsSafe(w, got, slots, n, m, w');
    case Lose(n) => LosingIsSafe(w, got, slots, n);
  }

  lemma {:induction false} RunIsSafe(worlds: seq<World>, steps: seq<Step>, n: nat)
    returns (got: set<nat>, slots: seq<nat>)
    requires Behaviour(worlds, steps) && n < |worlds|
    ensures Safe(worlds[n], got, slots) && Measured(worlds[n])
  {
    hide Safe, Next, Bounded;
    if n == 0 {
      got, slots := {}, [];
      StartIsSafe();
    } else {
      got, slots := RunIsSafe(worlds, steps, n - 1);
      got, slots := StepIsSafe(worlds[n - 1], got, slots, steps[n - 1], worlds[n]);
    }
  }

  /** In every world of every run, the packets handed on are the first ones that were sent, each once, in order. */
  lemma DeliverySafety(worlds: seq<World>, steps: seq<Step>, n: nat)
    requires Behaviour(worlds, steps) && n < |worlds|
    ensures var w := worlds[n];
      && |w.box.dispatched| <= |w.packets|
      && (forall j :: 0 <= j < |w.box.dispatched| ==> w.box.dispatched[j] == w.packets[j].data)
      && Sorted(w.box.pending, w.box.incoming)
  {
    hide Behaviour, Receiving, Ready;
    var got, slots := RunIsSafe(worlds, steps, n);
    var w := worlds[n];
    DispatchedAt(w.packets, got, w.box, Base(w), slots);
    ReceivingIsSorted(w.packets, got, w.box, Base(w), slots);
  }

  /** The receiver has fragment `k` of packet `i`: the packet was handed on, or the fragment is in place. */
  ghost predicate Stored(w: World, i: nat, k: nat)
    requires i < |w.packets| && |w.box.dispatched| <= |w.packets|
  {
    || i < |w.box.dispatched|
    || exists j :: 0 <= j < |w.box.pending| && IsFor(w, i, j) &&
                   Holds(w.packets[i], First(w.packets, i), k, w.box.pending[j])
  }

  /** A pending entry stands for this packet: its number is the packet's, and not one a turn apart. */
  ghost predicate IsFor(w: World, i: nat, j: nat)
    requires i < |w.packets| && |w.box.dispatched| <= |w.packets| && j < |w.box.pending|
  {
    Base(w) >= 0 && Serial(Base(w), w.box.pending[j].number) == First(w.packets, i)
  }

  ghost predicate Holds(p: Packet, f: nat, k: nat, e: Incoming) {
    && e.number == Wire(f) && e.count == Pieces(p) == |e.arrived| && |e.data| == |p.data|
    && if Pieces(p) == 0 then e.data == p.data
       else k < Pieces(p) && e.arrived[k] && InPlace(e.data, p.data, p.unit, k)
  }

  lemma AcceptedIsStored(w: World, got: set<nat>, slots: seq<nat>, i: nat, k: nat)
    requires Safe(w, got, slots) && i < |w.packets| && k < Width(w.packets[i]) && First(w.packets, i) + k in got
    ensures Stored(w, i, k)
  {
    hide Receiving, Ready, InPlace;
    ReceivingAt(w.packets, got, w.box, Base(w), slots);
    if |w.box.dispatched| <= i {
      assert Touched(w.packets[i], First(w.packets, i), got);
      TouchedIsSlot(w.packets, got, w.box, Base(w), slots, i);
      var j :| 0 <= j < |slots| && slots[j] == i;
      SlotInRange(w.packets, got, w.box, Base(w), slots, j);
      PendingHolds(w.packets[i], First(w.packets, i), got, w.box.pending[j], k);
      EntryAhead(w.packets, got, w.box, Base(w), slots, j);
      assert IsFor(w, i, j);
    }
  }

  lemma PendingHolds(p: Packet, f: nat, got: set<nat>, e: Incoming, k: nat)
    requires Contents(p, f, got, e) && k < Width(p) && f + k in got
    ensures Holds(p, f, k, e)
  {
    if Pieces(p) > 0 {
      assert PieceArrived(p, f, got, e, k);
    }
  }

  lemma AcknowledgedSafe(w: World, got: set<nat>, slots: seq<nat>, n: nat)
    requires Safe(w, got, slots) && n in w.acked
    ensures n in got && |w.box.dispatched| <= |w.packets|
  {
    hide Receiving, Ready;
  }

  /** No command is ever acknowledged unless the receiver has its data. */
  lemma AckSafety(worlds: seq<World>, steps: seq<Step>, n: nat, i: nat, k: nat)
    requires Behaviour(worlds, steps) && n < |worlds|
    requires i < |worlds[n].packets| && k < Width(worlds[n].packets[i])
    requires First(worlds[n].packets, i) + k in worlds[n].acked
    ensures |worlds[n].box.dispatched| <= |worlds[n].packets| && Stored(worlds[n], i, k)
  {
    hide Behaviour, Stored, Safe, Measured;
    var got, slots := RunIsSafe(worlds, steps, n);
    AcknowledgedSafe(worlds[n], got, slots, First(worlds[n].packets, i) + k);
    AcceptedIsStored(worlds[n], got, slots, i, k);
  }

  /** And the sender stops waiting for a command only when it was acknowledged. */
  lemma ForgottenIsAcknowledged(worlds: seq<World>, steps: seq<Step>, n: nat, serial: nat)
    requires Behaviour(worlds, steps) && n < |worlds| && 1 <= serial <= worlds[n].sent && serial !in worlds[n].unacked
    ensures serial in worlds[n].acked
  {
    hide Behaviour, Receiving, Ready;
    var got, slots := RunIsSafe(worlds, steps, n);
  }

  /** In every world of every run: commands the sender waits for have different 16-bit numbers, they span at most
      WINDOWS - FREE_WINDOWS + 1 windows, and none is more than FREE_WINDOWS - 1 windows past the receiver's. */
  lemma OutstandingIsUnambiguous(worlds: seq<World>, steps: seq<Step>, n: nat, a: nat, b: nat)
    requires Behaviour(worlds, steps) && n < |worlds| && a in worlds[n].unacked && b in worlds[n].unacked
    ensures Wire(a) == Wire(b) ==> a == b
    ensures Window(a) <= Window(b) + (WINDOWS - FREE_WINDOWS)
    ensures |worlds[n].box.dispatched| <= |worlds[n].packets| && 0 <= Base(worlds[n])
    ensures Window(a) < Window(Base(worlds[n])) + FREE_WINDOWS
  {
    hide Behaviour, Receiving, Ready, Window;
    var got, slots := RunIsSafe(worlds, steps, n);
    WindowMonotone(a, worlds[n].sent);
    if Wire(a) == Wire(b) {
      Unambiguous(worlds[n], got, slots, a, b);
    }
  }

  /** In every world of every run the network may still deliver what the sender may still repeat. */
  lemma RepetitionsAreCurrent(worlds: seq<World>, steps: seq<Step>, n: nat, serial: nat)
    requires Behaviour(worlds, steps) && n < |worlds| && serial in worlds[n].unacked
    ensures |worlds[n].box.dispatched| <= |worlds[n].packets| && Current(serial, Base(worlds[n]))
  {
    hide Behaviour, Receiving, Ready, Window;
    var got, slots := RunIsSafe(worlds, steps, n);
    var base := Base(worlds[n]);
    if base >= 1 {
      AcceptedWasSent(worlds[n], got, slots, base);
      WindowMonotone(base, worlds[n].sent);
    } else {
      WindowMonotone(0, serial);
    }
  }

  /** So may it every acknowledgement of a command that is not too old for the sender to repeat; and that makes the
      sender stop waiting if it waits. */
  lemma AcknowledgementsAreCurrent(worlds: seq<World>, steps: seq<Step>, n: nat, serial: nat)
    requires Behaviour(worlds, steps) && n < |worlds| && serial in worlds[n].acked
    requires |worlds[n].box.dispatched| <= |worlds[n].packets| && Current(serial, Base(worlds[n]))
    ensures Window(worlds[n].sent) < Window(serial) + WINDOWS
    ensures var w := worlds[n];
      serial in w.unacked ==> Next(w, Acknowledge(serial, serial), w.(unacked := w.unacked - {serial}))
  {
    hide Behaviour, Receiving, Ready, Window;
    var got, slots := RunIsSafe(worlds, steps, n);
    ReceivingIsSorted(worlds[n].packets, got, worlds[n].box, Base(worlds[n]), slots);
  }

  /** In every run an acknowledgement removes the command it was meant for, although it carries only 16 bits. */
  lemma RunAcknowledgesRight(worlds: seq<World>, steps: seq<Step>, n: nat)
    requires Behaviour(worlds, steps) && n < |steps| && steps[n].Acknowledge?
    ensures steps[n].found == steps[n].n
  {
    var got, slots := RunIsSafe(worlds, steps, n);
    hide Safe;
    AcknowledgesRight(worlds[n], got, slots, steps[n].n, steps[n].found, worlds[n + 1]);
  }

  /** A packet that cannot be transmitted while the receiver waits for it is never handed on. */
  lemma TooLongNeverArrives(worlds: seq<World>, steps: seq<Step>, n: nat, i: nat)
    requires Behaviour(worlds, steps) && n < |worlds| && i < |worlds[n].packets|
    requires !Completable(First(worlds[n].packets, i), Last(worlds[n].packets, i))
    ensures |worlds[n].box.dispatched| <= i
  {
    hide Behaviour, Safe;
    var got, slots := RunIsSafe(worlds, steps, n);
    assert Bounded(worlds[n].packets, i, worlds[n].sent);
    NotCompletableReaches(First(worlds[n].packets, i), Last(worlds[n].packets, i));
    NotHandedOn(worlds[n], got, slots, i);
  }

  lemma NotCompletableReaches(first: nat, last: nat)
    requires 0 < first && !Completable(first, last)
    ensures Window(last) > Window(first) + 1
  {
  }

  // ----- how long a packet may be

  /** The receiver is past the packet, a repeated copy of the packet's last command is not too old for the sender, and
      the packet passes for a new one. */
  ghost predicate LooksNew(first: nat, last: nat, base: nat) {
    first < base && last <= base && Current(last, base) && Accepts(Wire(first), Wire(base))
  }

  /** A packet is sendable exactly when that cannot happen to it after it was handed on. */
  lemma SendableExactly(first: nat, last: nat)
    requires 0 < first <= last
    ensures Sendable(first, last) <==> !(Completable(first, last) && exists base :: LooksNew(first, last, base))
  {
    if Window(last) <= Window(first) + 1 {
      forall base ensures !LooksNew(first, last, base) { ShortIsRecognised(first, last, base); }
    } else if Completable(first, last) {
      LongLooksNew(first, last, (Window(first) + 10) * WINDOW_SIZE);
    }
  }

  lemma ShortIsRecognised(first: nat, last: nat, base: nat)
    requires 0 < first <= last && Window(last) <= Window(first) + 1
    ensures !LooksNew(first, last, base)
  {
    if first < base && last <= base && Current(last, base) {
      WindowMonotone(first, base);
      AcceptsMeans(first, base);
    }
  }

  /** Ten windows on, the first number of a packet looks six windows ahead. */
  lemma LongLooksNew(first: nat, last: nat, base: nat)
    requires 0 < first <= last && !Sendable(first, last) && Window(base) == Window(first) + 10
    ensures LooksNew(first, last, base)
  {
    WireWindow(first);
    WireWindow(base);
    TenWindows(Window(first));
    if base <= last { WindowMonotone(base, last); }
    if base <= first { WindowMonotone(base, first); }
    WindowMonotone(first - 1, first);
  }

  lemma TenWindows(w: nat)
    ensures (w + 10) % WINDOWS == if w % WINDOWS < 6 then w % WINDOWS + 10 else w % WINDOWS - 6
  {
  }
}
