/** When a packet can still be delivered: what the network and both ends may do from some world on. */
module Progress {
  import opened Bytes
  import Collections
  import opened Windows
  import opened Inboxes
  import opened Fragments
  import opened Deliveries
  import opened Transport

  ghost predicate Path(ws: seq<World>, steps: seq<Step>) {
    |ws| == |steps| + 1 && forall i :: 0 <= i < |steps| ==> Next(ws[i], steps[i], ws[i + 1])
  }

  /** Some steps lead from `w` to `w'`. */
  ghost predicate Leads(w: World, w': World) {
    exists ws, steps :: Path(ws, steps) && ws[0] == w && ws[|steps|] == w'
  }

  /** Packet `d` may yet be handed on. */
  ghost predicate CanHandOn(w: World, d: nat) {
    exists w' :: Leads(w, w') && |w'.box.dispatched| > d
  }

  lemma LeadsHere(w: World)
    ensures Leads(w, w)
  {
    assert Path([w], []);
  }

  lemma LeadsFirst(w: World, s: Step, m: World, w': World)
    requires Next(w, s, m) && Leads(m, w')
    ensures Leads(w, w')
  {
    hide Next;
    var ws, steps :| Path(ws, steps) && ws[0] == m && ws[|steps|] == w';
    var ws', steps' := [w] + ws, [s] + steps;
    forall i | 0 <= i < |steps'| ensures Next(ws'[i], steps'[i], ws'[i + 1]) {
      if i > 0 { assert Next(ws[i - 1], steps[i - 1], ws[i]); }
    }
    assert Path(ws', steps');
  }

  lemma LeadsOn(w: World, m: World, w': World)
    requires Leads(w, m) && Leads(m, w')
    ensures Leads(w, w')
  {
    hide Next;
    var ws, steps :| Path(ws, steps) && ws[0] == w && ws[|steps|] == m;
    PathLeads(ws, steps, 0, w');
  }

  lemma {:induction false} PathLeads(ws: seq<World>, steps: seq<Step>, i: nat, w': World)
    requires Path(ws, steps) && i <= |steps| && Leads(ws[|steps|], w')
    ensures Leads(ws[i], w')
    decreases |steps| - i
  {
    hide Next, Leads;
    if i < |steps| {
      PathLeads(ws, steps, i + 1, w');
      LeadsFirst(ws[i], steps[i], ws[i + 1], w');
    }
  }

  // ----- steps that can be made

  /** What a receiver does not acknowledge is exactly seven or eight windows ahead; eight behind looks eight ahead. */
  lemma AcknowledgesExactly(n: nat, base: nat)
    requires InSight(n, base)
    ensures Acknowledges(Wire(n), Wire(base)) <==>
      if n >= base then Window(n) + 1 < Window(base) + FREE_WINDOWS else Window(base) < Window(n) + FREE_WINDOWS
  {
    UnwrappedMeans(n, base);
    if n < base { WindowMonotone(n, base); }
  }

  lemma {:induction false} Locate(packets: seq<Packet>, d: nat, m: nat) returns (i: nat, k: nat)
    requires d <= |packets| && 1 <= m < First(packets, d)
    ensures i < d && k < Width(packets[i]) && m == First(packets, i) + k
  {
    if m >= First(packets, d - 1) {
      i, k := d - 1, m - First(packets, d - 1);
    } else {
      i, k := Locate(packets, d - 1, m);
    }
  }

  lemma OldReliable(box: Inbox, f: nat, base: nat, data: seq<byte>)
    requires InSight(f, base) && f <= base && box.incoming == Wire(base)
    ensures ReceiveReliable(box, Wire(f), data, |data|, true) == Reply(box, true)
  {
    hide Wire, Accepts, Has;
    AcceptsMeans(f, base);
  }

  lemma OldFragment(box: Inbox, p: Packet, f: nat, k: nat, base: nat)
    requires InSight(f, base) && f < base && box.incoming == Wire(base) && k < Pieces(p) && Tidy(box)
    ensures Command(p, f, k).total == |p.data|
    ensures ReceiveFragment(box, Command(p, f, k), |p.data|, true, p.data) == Reply(box, true)
  {
    hide Wire, Accepts, Pieces, Tidy, ReceiveFragment, Command;
    AcceptsMeans(f, base);
    CommandFits(p, f, k);
    FragmentIgnored(box, Command(p, f, k), |p.data|, true, p.data);
  }

  /** A copy of a command that was handed on long ago changes nothing. */
  lemma OldIsDiscarded(packets: seq<Packet>, got: set<nat>, box: Inbox, base: nat, slots: seq<nat>, i: nat, k: nat)
    requires Receiving(packets, got, box, base, slots) && !Ready(box)
    requires i < |box.dispatched| <= |packets| && k < Width(packets[i]) && InSight(First(packets, i), base)
    ensures forall j :: 0 <= j < |box.pending| ==> Shaped(box.pending[j])
    ensures Answer(packets, box, i, k, |packets[i].data|, true, packets[i].data) == Reply(box, true)
  {
    hide Ready, Window, InSight, Missing, Pieces, Accepts, Receiving, ReceiveReliable, ReceiveFragment, Wire, Command,
         Sorted;
    ReceivingIsSorted(packets, got, box, base, slots);
    ReceivingAt(packets, got, box, base, slots);
    FirstMonotone(packets, i, |box.dispatched|);
    var p, f := packets[i], First(packets, i);
    if Pieces(p) == 0 {
      OldReliable(box, f, base, p.data);
    } else {
      SeveralPieces(p);
      OldFragment(box, p, f, k, base);
    }
  }

  lemma SeveralPieces(p: Packet)
    requires Pieces(p) > 0
    ensures Width(p) == Pieces(p) > 1
  {
    CountMeans(|p.data|, p.unit);
    if Pieces(p) == 1 { OffsetNext(0, p.unit); }
  }

  // ----- the sender forgets everything that was handed on

  /** A command that was handed on, and is less than eight windows behind, can be acknowledged again. */
  lemma CanAnswerAgain(w: World, got: set<nat>, slots: seq<nat>, m: nat) returns (step: Step)
    requires Safe(w, got, slots) && Measured(w) && 1 <= m <= Base(w) && m <= w.sent
    requires Window(Base(w)) < Window(m) + FREE_WINDOWS
    ensures Next(w, step, w.(acked := w.acked + {m}))
  {
    hide Ready, Window, Answer, Missing, Acknowledges, Bounded, Receiving, First, InSight, InLife;
    var base := Base(w);
    ReceivingAt(w.packets, got, w.box, base, slots);
    var i, k := Locate(w.packets, |w.box.dispatched|, m);
    FirstPositive(w.packets, i);
    CurrentIsInLife(w, got, slots, i, k);
    ArrivesInSight(First(w.packets, i), m, w.sent, base);
    WindowMonotone(m, base);
    OldIsDiscarded(w.packets, got, w.box, base, slots, i, k);
    AcknowledgesExactly(m, base);
    step := Arrive(i, k, |w.packets[i].data|, true, w.packets[i].data, true);
  }

  lemma AnsweredIsSafe(w: World, got: set<nat>, slots: seq<nat>, m: nat)
    requires Safe(w, got, slots) && 1 <= m <= Base(w)
    ensures Safe(w.(acked := w.acked + {m}), got, slots)
  {
    hide Ready, Window, Receiving, First;
    ReceivingAt(w.packets, got, w.box, Base(w), slots);
    WindowMonotone(m, Base(w));
  }

  lemma CanForget(w: World, got: set<nat>, slots: seq<nat>, m: nat)
    requires Safe(w, got, slots) && m in w.unacked && m in w.acked
    ensures Next(w, Acknowledge(m, m), w.(unacked := w.unacked - {m}))
    ensures Safe(w.(unacked := w.unacked - {m}), got, slots)
  {
    hide Ready, Window, Missing, Receiving, First;
    ReceivingIsSorted(w.packets, got, w.box, Base(w), slots);
    ForgettingIsSafe(w, got, slots, m);
  }

  /** Nothing that was handed on is out of reach for an acknowledgement. */
  ghost predicate Answerable(w: World)
    requires |w.box.dispatched| <= |w.packets|
  {
    forall m :: m in w.unacked && m !in w.acked && m <= Base(w) ==> Window(Base(w)) < Window(m) + FREE_WINDOWS
  }

  lemma {:induction false} ForgetOld(w: World, got: set<nat>, slots: seq<nat>) returns (w': World)
    requires Safe(w, got, slots) && Measured(w) && |w.box.dispatched| <= |w.packets| && Answerable(w)
    ensures Leads(w, w') && Safe(w', got, slots) && w'.packets == w.packets && w'.box == w.box && w'.sent == w.sent
    ensures forall m :: m in w'.unacked ==> m > Base(w)
    decreases |w.unacked|
  {
    hide Receiving, Ready, Window, Next, Leads, Bounded, First;
    if m :| m in w.unacked && m <= Base(w) {
      var w1 := w.(acked := w.acked + {m});
      if m !in w.acked {
        var step := CanAnswerAgain(w, got, slots, m);
        AnsweredIsSafe(w, got, slots, m);
        LeadsHere(w1);
        LeadsFirst(w, step, w1, w1);
      } else {
        assert w1 == w by { assert w.acked + {m} == w.acked; }
        LeadsHere(w);
      }
      CanForget(w1, got, slots, m);
      var w2 := w1.(unacked := w1.unacked - {m});
      w' := ForgetOld(w2, got, slots);
      LeadsFirst(w1, Acknowledge(m, m), w2, w');
      LeadsOn(w, w1, w');
    } else {
      w' := w;
      LeadsHere(w);
    }
  }

  // ----- the next packet is transmitted and taken, serial by serial

  /** The sender's test will not hold up the serials from `n` to `last`. */
  ghost predicate Free(unacked: set<nat>, base: nat, n: nat, last: nat) {
    Window(last) == Window(base) || forall m :: m in unacked ==> m >= n
  }

  lemma TransmitsNext(w: World, got: set<nat>, slots: seq<nat>, last: nat)
    requires Safe(w, got, slots) && Measured(w) && |w.box.dispatched| <= |w.packets|
    requires 0 <= Base(w) <= w.sent < last < First(w.packets, |w.packets|)
    requires Free(w.unacked, Base(w), w.sent + 1, last)
    ensures var w' := w.(sent := w.sent + 1, unacked := w.unacked + {w.sent + 1});
            Next(w, Transmit, w') && Safe(w', got, slots) && Measured(w')
  {
    hide Receiving, Ready, Missing, First, Window, Bounded;
    var n := w.sent + 1;
    ReceivingIsSorted(w.packets, got, w.box, Base(w), slots);
    if n % WINDOW_SIZE == 0 {
      StartsWindow(Base(w), n);
      WindowMonotone(n, last);
      assert w.unacked == {};
      assert Occupying(w.unacked, (Window(n) + WINDOWS - 1) % WINDOWS) == {};
    }
    TransmitIsSafe(w, got, slots);
    TransmitMeasures(w, got, slots);
  }

  lemma StartsWindow(base: nat, n: nat)
    requires base < n && n % WINDOW_SIZE == 0
    ensures Window(base) < Window(n)
  {
  }

  /** A packet that can be transmitted while the receiver waits for it spans two windows, and is in reach. */
  lemma NextIsNear(w: World, n: nat)
    requires Measured(w) && |w.box.dispatched| < |w.packets| && Base(w) >= 0
    requires var d := |w.box.dispatched|; Completable(First(w.packets, d), Last(w.packets, d))
    requires Base(w) < n <= Last(w.packets, |w.box.dispatched|)
    ensures Window(n) <= Window(Base(w)) + 2
    ensures Width(w.packets[|w.box.dispatched|]) <= 2 * WINDOW_SIZE
  {
    hide Width, First;
    var d := |w.box.dispatched|;
    assert Bounded(w.packets, d, w.sent);
    WindowMonotone(n, Last(w.packets, d));
  }

  lemma NextIsTaken(w: World, got: set<nat>, slots: seq<nat>, k: nat)
    requires Safe(w, got, slots) && |w.box.dispatched| < |w.packets|
    requires var p := w.packets[|w.box.dispatched|]; k < Width(p) <= 2 * WINDOW_SIZE
    ensures forall j :: 0 <= j < |w.box.pending| ==> Shaped(w.box.pending[j])
    ensures var d := |w.box.dispatched|; var p := w.packets[d];
            Answer(w.packets, w.box, d, k, |p.data|, true, p.data).ok
  {
    hide Receiving, Ready, Missing, First, ReceiveFragment, Command;
    var d := |w.box.dispatched|;
    var p := w.packets[d];
    ReceivingIsSorted(w.packets, got, w.box, Base(w), slots);
    if Pieces(p) > 0 {
      FragmentIsTaken(w.packets, got, w.box, Base(w), slots, d, k, |p.data|, p.data);
    }
  }

  lemma TakesNext(w: World, got: set<nat>, slots: seq<nat>, n: nat)
    returns (w': World, got': set<nat>, slots': seq<nat>)
    requires Safe(w, got, slots) && Measured(w) && |w.box.dispatched| < |w.packets|
    requires var d := |w.box.dispatched|;
      Completable(First(w.packets, d), Last(w.packets, d)) && Base(w) < n <= Last(w.packets, d) && n <= w.sent
    ensures Leads(w, w') && Safe(w', got', slots') && Measured(w') && got <= got'
    ensures w'.packets == w.packets && w'.sent == w.sent && w'.unacked == w.unacked
    ensures w'.acked == if Acknowledges(Wire(n), w'.box.incoming) then w.acked + {n} else w.acked
    ensures |w.box.dispatched| <= |w'.box.dispatched| <= |w.packets|
    ensures |w'.box.dispatched| == |w.box.dispatched| ==> Base(w') == Base(w) && n in got' && n in w'.acked
  {
    hide Receiving, Ready, Missing, First, Window, Bounded, Answer, Acknowledges, Leads;
    var d, base := |w.box.dispatched|, Base(w);
    var p := w.packets[d];
    var k := n - First(w.packets, d);
    NextIsNear(w, n);
    NextIsNear(w, base + 1);
    NextIsTaken(w, got, slots, k);
    var step := Arrive(d, k, |p.data|, true, p.data, true);
    var reply := Answer(w.packets, w.box, d, k, |p.data|, true, p.data);
    w' := w.(box := reply.box,
             acked := if reply.ok && Acknowledges(Wire(n), reply.box.incoming) then w.acked + {n} else w.acked);
    assert InLife(First(w.packets, d), base) by { WindowMonotone(base, base + 1); }
    assert Next(w, step, w');
    got', slots' := ArriveIsSafe(w, got, slots, d, k, |p.data|, true, p.data, true, w');
    LeadsHere(w');
    LeadsFirst(w, step, w', w');
    if |w'.box.dispatched| == d {
      ReceivingAt(w'.packets, got', w'.box, Base(w'), slots');
      NewIsAcknowledged(n, base);
    }
  }

  lemma NewIsAcknowledged(n: nat, base: nat)
    requires base < n && Window(n) <= Window(base) + 2
    ensures Acknowledges(Wire(n), Wire(base))
  {
    WindowMonotone(base, n);
    AcknowledgesExactly(n, base);
  }

  /** Every serial of the next packet before `n` was accepted; the rest can be. */
  lemma {:induction false} HandsOnFrom(w: World, got: set<nat>, slots: seq<nat>, n: nat) returns (w': World)
    requires Safe(w, got, slots) && Measured(w) && |w.box.dispatched| < |w.packets|
    requires var d := |w.box.dispatched|;
      Completable(First(w.packets, d), Last(w.packets, d)) && Base(w) < n <= Last(w.packets, d) + 1
      && Free(w.unacked, Base(w), n, Last(w.packets, d))
    requires forall x :: Base(w) < x < n ==> x in got
    ensures Leads(w, w') && |w'.box.dispatched| > |w.box.dispatched|
    decreases Last(w.packets, |w.box.dispatched|) + 1 - n
  {
    hide Receiving, Ready, First, Window, Bounded, Next, Leads, Free, Completable;
    var d, base := |w.box.dispatched|, Base(w);
    var last := Last(w.packets, d);
    if n > last {
      NextIsIncomplete(w.packets, got, w.box, base, slots);
      assert false;
    } else {
      SentSoFar(w, got, slots, n);
      var w1 := w;
      LeadsHere(w);
      if n > w.sent {
        BeforeTheEnd(w.packets, d);
        w1 := w.(sent := w.sent + 1, unacked := w.unacked + {w.sent + 1});
        TransmitsNext(w, got, slots, last);
        LeadsHere(w1);
        LeadsFirst(w, Transmit, w1, w1);
        FreeMore(w.unacked, base, n, last);
      }
      var w2, got2, slots2 := TakesNext(w1, got, slots, n);
      LeadsOn(w, w1, w2);
      if |w2.box.dispatched| > d { return w2; }
      var w3 := w2;
      LeadsHere(w2);
      if n in w2.unacked {
        CanForget(w2, got2, slots2, n);
        w3 := w2.(unacked := w2.unacked - {n});
        LeadsHere(w3);
        LeadsFirst(w2, Acknowledge(n, n), w3, w3);
      }
      FreeLess(w2.unacked, base, n, last);
      assert w3.unacked == w2.unacked - {n};
      w' := HandsOnFrom(w3, got2, slots2, n + 1);
      LeadsOn(w, w2, w3);
      LeadsOn(w, w3, w');
    }
  }

  lemma SentSoFar(w: World, got: set<nat>, slots: seq<nat>, n: nat)
    requires Safe(w, got, slots) && Base(w) < n && forall x :: Base(w) < x < n ==> x in got
    ensures 0 <= Base(w) <= w.sent && n <= w.sent + 1
  {
    hide Receiving, Ready, Window, First;
    if Base(w) > 0 { AcceptedWasSent(w, got, slots, Base(w)); }
    assert n - 1 > Base(w) ==> n - 1 in got;
  }

  lemma BeforeTheEnd(packets: seq<Packet>, d: nat)
    requires d < |packets|
    ensures Last(packets, d) < First(packets, |packets|)
  {
    FirstMonotone(packets, d, |packets|);
  }

  lemma FreeMore(unacked: set<nat>, base: nat, n: nat, last: nat)
    requires Free(unacked, base, n, last)
    ensures Free(unacked + {n}, base, n, last)
  {
  }

  lemma FreeLess(unacked: set<nat>, base: nat, n: nat, last: nat)
    requires Free(unacked, base, n, last)
    ensures Free(unacked - {n}, base, n + 1, last)
  {
  }

  /** The packet fits while the receiver waits for it, and nothing that was handed on but never acknowledged holds up
      the sender before its end. */
  ghost predicate InReach(w: World, d: nat)
    requires d == |w.box.dispatched| < |w.packets|
  {
    && Completable(First(w.packets, d), Last(w.packets, d))
    && (Window(Last(w.packets, d)) == Window(Base(w)) || Answerable(w))
  }

  lemma InReachIsHandedOn(w: World, got: set<nat>, slots: seq<nat>)
    requires Safe(w, got, slots) && Measured(w) && |w.box.dispatched| < |w.packets| && InReach(w, |w.box.dispatched|)
    ensures CanHandOn(w, |w.box.dispatched|)
  {
    hide Receiving, Ready, First, Window, Bounded, Next, Leads, Completable;
    var d := |w.box.dispatched|;
    var w1, w2;
    if Window(Last(w.packets, d)) == Window(Base(w)) {
      LeadsHere(w);
      w1 := w;
    } else {
      w1 := ForgetOld(w, got, slots);
    }
    w2 := HandsOnFrom(w1, got, slots, Base(w) + 1);
    LeadsOn(w, w1, w2);
  }

  // ----- a command that is eight windows behind, and whose acknowledgement was lost

  /** The sender waits for `m`, which the receiver is eight windows past and never acknowledged; packet `d` ends
      beyond. */
  ghost predicate Stuck(w: World, m: nat, d: nat) {
    && d == |w.box.dispatched| < |w.packets| && m in w.unacked && m !in w.acked
    && Window(Base(w)) == Window(m) + FREE_WINDOWS && Window(Last(w.packets, d)) > Window(Base(w))
  }

  lemma StuckIsUnsent(w: World, got: set<nat>, slots: seq<nat>, m: nat, d: nat)
    requires Safe(w, got, slots) && Stuck(w, m, d)
    ensures w.sent < Last(w.packets, d)
  {
    hide Receiving, Ready, Window;
    if Last(w.packets, d) <= w.sent { WindowMonotone(Last(w.packets, d), w.sent); }
  }

  lemma EightBehindIsNotAcknowledged(m: nat, base: nat)
    requires Window(base) == Window(m) + FREE_WINDOWS
    ensures !Acknowledges(Wire(m), Wire(base))
  {
    if base <= m { WindowMonotone(base, m); }
    AcknowledgesExactly(m, base);
  }

  /** It stays so, whatever happens. */
  lemma StuckStays(w: World, got: set<nat>, slots: seq<nat>, step: Step, w': World, m: nat, d: nat)
    returns (got': set<nat>, slots': seq<nat>)
    requires Safe(w, got, slots) && Measured(w) && Next(w, step, w') && Stuck(w, m, d)
    ensures Safe(w', got', slots') && Measured(w') && Stuck(w', m, d)
  {
    hide Safe, Answer, MayTransmit, InLife, Current, Bounded, Sendable, Window, Acknowledges;
    StuckIsUnsent(w, got, slots, m, d);
    got', slots' := StepIsSafe(w, got, slots, step, w');
    FirstAppend(w.packets, w'.packets, d);
    match step
    case Send(p) =>
    case Transmit =>
    case Arrive(i, k, size, room, blank, acknowledged) =>
      NotHandedOn(w', got', slots', d);
      SameIncoming(w', got', slots');
      EightBehindIsNotAcknowledged(m, Base(w'));
    case Acknowledge(n, found) => AcknowledgesRight(w, got, slots, n, found, w');
    case Lose(n) =>
  }

  lemma SameIncoming(w: World, got: set<nat>, slots: seq<nat>)
    requires Safe(w, got, slots)
    ensures Base(w) >= 0 && w.box.incoming == Wire(Base(w))
  {
    hide Ready, Window, First;
  }

  lemma {:induction false} StuckForever(ws: seq<World>, steps: seq<Step>, i: nat, got: set<nat>, slots: seq<nat>,
                                        m: nat, d: nat)
    requires Path(ws, steps) && i <= |steps| && Safe(ws[i], got, slots) && Measured(ws[i]) && Stuck(ws[i], m, d)
    ensures |ws[|steps|].box.dispatched| == d
    decreases |steps| - i
  {
    hide Next, Safe, Bounded, Window;
    if i < |steps| {
      var got', slots' := StuckStays(ws[i], got, slots, steps[i], ws[i + 1], m, d);
      StuckForever(ws, steps, i + 1, got', slots', m, d);
    }
  }

  lemma {:induction false} TooLongForever(ws: seq<World>, steps: seq<Step>, i: nat, got: set<nat>, slots: seq<nat>,
                                          d: nat)
    requires Path(ws, steps) && i <= |steps| && Safe(ws[i], got, slots) && Measured(ws[i]) && d < |ws[i].packets|
    requires !Completable(First(ws[i].packets, d), Last(ws[i].packets, d))
    ensures |ws[|steps|].box.dispatched| <= d
    decreases |steps| - i
  {
    hide Next, Safe, Window;
    if i < |steps| {
      var got', slots' := StepIsSafe(ws[i], got, slots, steps[i], ws[i + 1]);
      FirstAppend(ws[i].packets, ws[i + 1].packets, d);
      TooLongForever(ws, steps, i + 1, got', slots', d);
    } else {
      assert Bounded(ws[i].packets, d, ws[i].sent);
      NotCompletableReaches(First(ws[i].packets, d), Last(ws[i].packets, d));
      NotHandedOn(ws[i], got, slots, d);
    }
  }

  lemma OutOfReachIsNotHandedOn(w: World, got: set<nat>, slots: seq<nat>)
    requires Safe(w, got, slots) && Measured(w) && |w.box.dispatched| < |w.packets| && !InReach(w, |w.box.dispatched|)
    ensures !CanHandOn(w, |w.box.dispatched|)
  {
    hide Next, Receiving, Ready, Bounded, Completable;
    var d := |w.box.dispatched|;
    if CanHandOn(w, d) {
      var w' :| Leads(w, w') && |w'.box.dispatched| > d;
      var ws, steps :| Path(ws, steps) && ws[0] == w && ws[|steps|] == w';
      if !Completable(First(w.packets, d), Last(w.packets, d)) {
        TooLongForever(ws, steps, 0, got, slots, d);
      } else {
        var m :| m in w.unacked && m !in w.acked && m <= Base(w) && Window(Base(w)) >= Window(m) + FREE_WINDOWS;
        WaitsEightBehind(w, got, slots, m, d);
        StuckForever(ws, steps, 0, got, slots, m, d);
      }
      assert false;
    }
  }

  lemma WaitsEightBehind(w: World, got: set<nat>, slots: seq<nat>, m: nat, d: nat)
    requires Safe(w, got, slots) && d == |w.box.dispatched| < |w.packets| && m in w.unacked && m !in w.acked
    requires m <= Base(w) && Window(Base(w)) >= Window(m) + FREE_WINDOWS
    requires Window(Last(w.packets, d)) != Window(Base(w))
    ensures Stuck(w, m, d)
  {
    hide Receiving, Ready, Window;
    AcceptedWasSent(w, got, slots, Base(w));
    WindowMonotone(Base(w), w.sent);
    WindowMonotone(Base(w), Last(w.packets, d));
  }

  /** In every world of every run: the next packet can still be handed on, by some steps of both ends and the network,
      exactly when it fits while the receiver waits for it, and no command is eight windows behind the receiver, was
      never acknowledged for good, and must be before the sender can come to the packet's end. */
  lemma HandedOnExactly(worlds: seq<World>, steps: seq<Step>, n: nat)
    requires Behaviour(worlds, steps) && n < |worlds| && |worlds[n].box.dispatched| < |worlds[n].packets|
    ensures CanHandOn(worlds[n], |worlds[n].box.dispatched|) <==> InReach(worlds[n], |worlds[n].box.dispatched|)
  {
    hide Behaviour, Safe, CanHandOn, InReach, Bounded;
    var got, slots := RunIsSafe(worlds, steps, n);
    if InReach(worlds[n], |worlds[n].box.dispatched|) {
      InReachIsHandedOn(worlds[n], got, slots);
    } else {
      OutOfReachIsNotHandedOn(worlds[n], got, slots);
    }
  }

  // ----- a run that comes to this: of 36863 small packets only the first one's acknowledgement is lost

  const FINAL := 9 * WINDOW_SIZE - 1

  function Small(count: nat): seq<Packet> {
    seq(count, _ => Packet([0], 1))
  }

  lemma {:induction false} FirstSmall(count: nat, i: nat)
    requires i <= count
    ensures First(Small(count), i) == i + 1
    ensures i < count ==> Last(Small(count), i) == i + 1
  {
    if i > 0 { FirstSmall(count, i - 1); }
  }

  lemma {:induction false} AllAreSent(count: nat)
    ensures Leads(START, World(Small(count), 0, {}, {}, Inbox(0, [], [])))
  {
    hide Leads;
    var w := World(Small(count), 0, {}, {}, Inbox(0, [], []));
    LeadsHere(w);
    if count == 0 {
      assert w == START;
    } else {
      var before := World(Small(count - 1), 0, {}, {}, Inbox(0, [], []));
      AllAreSent(count - 1);
      assert Small(count) == before.packets + [Packet([0], 1)];
      FirstSmall(count, count - 1);
      assert Next(before, Send(Packet([0], 1)), w);
      LeadsFirst(before, Send(Packet([0], 1)), w, w);
      LeadsOn(START, before, w);
    }
  }

  ghost predicate Lagging(w: World, n: nat) {
    && w.packets == Small(FINAL + 1) && w.sent == n && w.unacked == {1} && 1 !in w.acked && |w.box.dispatched| == n
  }

  lemma StartsLagging() returns (w: World, got: set<nat>, slots: seq<nat>)
    ensures Leads(START, w) && Safe(w, got, slots) && Measured(w) && Lagging(w, 1)
  {
    hide Leads, Receiving, Ready, First, Window, Answer, Bounded, Acknowledges;
    var w0 := World(Small(FINAL + 1), 0, {}, {}, Inbox(0, [], []));
    AllAreSent(FINAL + 1);
    got, slots := ReachedIsSafe(w0);
    FirstSmall(FINAL + 1, 0);
    FirstSmall(FINAL + 1, FINAL + 1);
    var w1 := w0.(sent := 1, unacked := {1});
    TransmitsNext(w0, got, slots, 1);
    LeadsHere(w1);
    LeadsFirst(w0, Transmit, w1, w1);
    ReceivingIsSorted(w1.packets, got, w1.box, Base(w1), slots);
    var w2, got2, slots2 := TakesNext(w1, got, slots, 1);
    OneWasHandedOn(w2, got2, slots2, 1);
    w := w2.(acked := w2.acked - {1});
    LosingIsSafe(w2, got2, slots2, 1);
    ReceivingIsSorted(w2.packets, got2, w2.box, Base(w2), slots2);
    got, slots := got2, slots2;
    LeadsHere(w);
    LeadsFirst(w2, Lose(1), w, w);
    LeadsOn(START, w0, w1);
    LeadsOn(START, w1, w2);
    LeadsOn(START, w2, w);
  }

  lemma ReachedIsSafe(w: World) returns (got: set<nat>, slots: seq<nat>)
    requires Leads(START, w)
    ensures Safe(w, got, slots) && Measured(w)
  {
    hide Next, Safe, Measured;
    var ws, steps :| Path(ws, steps) && ws[0] == START && ws[|steps|] == w;
    got, slots := RunIsSafe(ws, steps, |steps|);
  }

  /** All serials that were sent are handed on when the last of them is taken. */
  lemma OneWasHandedOn(w: World, got: set<nat>, slots: seq<nat>, n: nat)
    requires Safe(w, got, slots) && w.packets == Small(FINAL + 1) && w.sent == n && 1 <= n <= FINAL
    requires n - 1 <= |w.box.dispatched| <= FINAL + 1 && (|w.box.dispatched| == n - 1 ==> n in got)
    ensures |w.box.dispatched| == n
  {
    hide Receiving, Ready, First, Window;
    var d := |w.box.dispatched|;
    FirstSmall(FINAL + 1, d);
    if d == n - 1 {
      NextIsIncomplete(w.packets, got, w.box, Base(w), slots);
      assert false;
    } else {
      AcceptedWasSent(w, got, slots, Base(w));
    }
  }

  lemma LaggingMayTransmit(n: nat)
    requires 1 <= n < FINAL
    ensures MayTransmit({1}, n + 1)
  {
    if (n + 1) % WINDOW_SIZE == 0 {
      var prev := Occupying({1}, (Window(n + 1) + WINDOWS - 1) % WINDOWS);
      Collections.SubsetSize(prev, {1});
      assert 1 <= Window(n + 1) <= 8;
    }
  }

  lemma Lags(w: World, got: set<nat>, slots: seq<nat>, n: nat) returns (w': World, got': set<nat>, slots': seq<nat>)
    requires Safe(w, got, slots) && Measured(w) && Lagging(w, n) && 1 <= n < FINAL
    ensures Leads(w, w') && Safe(w', got', slots') && Measured(w') && Lagging(w', n + 1)
  {
    hide Leads, Receiving, Ready, First, Window, Answer, Bounded, MayTransmit, Missing, Next;
    LaggingMayTransmit(n);
    FirstSmall(FINAL + 1, n);
    FirstSmall(FINAL + 1, FINAL + 1);
    var w1 := w.(sent := n + 1, unacked := w.unacked + {n + 1});
    Transmits(w, got, slots);
    LeadsHere(w1);
    LeadsFirst(w, Transmit, w1, w1);
    var w2, got2, slots2 := TakesNext(w1, got, slots, n + 1);
    OneWasHandedOn(w2, got2, slots2, n + 1);
    FirstSmall(FINAL + 1, n + 1);
    SameIncoming(w2, got2, slots2);
    OwnIsAcknowledged(n + 1);
    CanForget(w2, got2, slots2, n + 1);
    w' := w2.(unacked := w2.unacked - {n + 1});
    got', slots' := got2, slots2;
    LeadsHere(w');
    LeadsFirst(w2, Acknowledge(n + 1, n + 1), w', w');
    LeadsOn(w, w1, w2);
    LeadsOn(w, w2, w');
    assert w'.unacked == {1};
  }

  lemma OwnIsAcknowledged(n: nat)
    ensures Acknowledges(Wire(n), Wire(n))
  {
    AcknowledgesExactly(n, n);
  }

  lemma Transmits(w: World, got: set<nat>, slots: seq<nat>)
    requires Safe(w, got, slots) && Measured(w) && MayTransmit(w.unacked, w.sent + 1)
    requires w.sent + 1 < First(w.packets, |w.packets|)
    ensures var w' := w.(sent := w.sent + 1, unacked := w.unacked + {w.sent + 1});
            Next(w, Transmit, w') && Safe(w', got, slots) && Measured(w')
  {
    hide Receiving, Ready, Missing, First, Window, Bounded, MayTransmit;
    ReceivingIsSorted(w.packets, got, w.box, Base(w), slots);
    TransmitIsSafe(w, got, slots);
    TransmitMeasures(w, got, slots);
  }

  lemma {:induction false} LagsFor(n: nat) returns (w: World, got: set<nat>, slots: seq<nat>)
    requires 1 <= n <= FINAL
    ensures Leads(START, w) && Safe(w, got, slots) && Measured(w) && Lagging(w, n)
  {
    hide Leads, Safe, Measured, Lagging;
    if n == 1 {
      w, got, slots := StartsLagging();
    } else {
      var w0, got0, slots0 := LagsFor(n - 1);
      w, got, slots := Lags(w0, got0, slots0, n - 1);
      LeadsOn(START, w0, w);
    }
  }

  /** That input: in a world that a run comes to, one packet of one byte is to be transmitted, and never can be handed
      on. */
  lemma OneBytePacketIsNeverHandedOn() returns (worlds: seq<World>, steps: seq<Step>)
    ensures Behaviour(worlds, steps)
    ensures var w := worlds[|steps|];
      && |w.box.dispatched| == FINAL && |w.packets| == FINAL + 1 && w.packets[FINAL] == Packet([0], 1)
      && Completable(First(w.packets, FINAL), Last(w.packets, FINAL)) && w.unacked == {1}
      && !CanHandOn(w, FINAL)
  {
    hide Next, Safe, Measured, CanHandOn;
    var w, got, slots := LagsFor(FINAL);
    worlds, steps :| Path(worlds, steps) && worlds[0] == START && worlds[|steps|] == w;
    FirstSmall(FINAL + 1, FINAL);
    OutOfReachIsNotHandedOn(w, got, slots);
  }
}
