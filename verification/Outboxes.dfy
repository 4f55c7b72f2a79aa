/** The sending half of a peer: reliable commands that were not transmitted yet, that wait for their
    acknowledgement, or that timed out and will be transmitted again. */
module Outboxes {
  import opened Bytes
  import opened Windows
  import opened Bits
  import opened Transport

  /** A reliable command.  `serial` is its number in its channel before it was cut to 16 bits.  A command whose
      `channel` is not one of the peer's channels is a control command. */
  datatype Outgoing = Outgoing(
    channel: nat, ghost serial: nat, number: u16, size: nat, length: nat, packet: bool,
    attempts: nat, sentTime: nat, timeout: nat, timeoutLimit: nat)

  datatype Channel = Channel(outgoing: u16, used: bv32, windows: seq<nat>)

  /** The command waits for an acknowledgement on channel `c`. */
  predicate Waits(e: Outgoing, c: nat) {
    e.attempts > 0 && e.channel == c
  }

  /** The serials that wait for an acknowledgement on channel `c`. */
  ghost function Waiting(cmds: seq<Outgoing>, c: nat): set<nat> {
    if cmds == [] then {}
    else (if Waits(cmds[0], c) then {cmds[0].serial} else {}) + Waiting(cmds[1..], c)
  }

  /** How many of them lie in window `w`. */
  ghost function Tally(cmds: seq<Outgoing>, c: nat, w: nat): nat {
    if cmds == [] then 0
    else (if Waits(cmds[0], c) && Window(cmds[0].serial) % WINDOWS == w then 1 else 0) + Tally(cmds[1..], c, w)
  }

  /** The serials of channel `c` that were never transmitted, in the order of the list. */
  ghost function Fresh(cmds: seq<Outgoing>, c: nat): seq<nat> {
    if cmds == [] then []
    else (if cmds[0].attempts == 0 && cmds[0].channel == c then [cmds[0].serial] else []) + Fresh(cmds[1..], c)
  }

  /** The bytes of its packet that a command carries. */
  function Payload(e: Outgoing): nat {
    if e.packet then e.length else 0
  }

  /** The bytes of packets in a list. */
  function Load(cmds: seq<Outgoing>): nat {
    if cmds == [] then 0 else Payload(cmds[0]) + Load(cmds[1..])
  }

  lemma {:induction false} WaitingConcat(a: seq<Outgoing>, b: seq<Outgoing>, c: nat)
    ensures Waiting(a + b, c) == Waiting(a, c) + Waiting(b, c)
  {
    if a == [] {
      assert a + b == b;
    } else {
      WaitingConcat(a[1..], b, c);
      assert (a + b)[1..] == a[1..] + b;
    }
  }

  lemma {:induction false} TallyConcat(a: seq<Outgoing>, b: seq<Outgoing>, c: nat, w: nat)
    ensures Tally(a + b, c, w) == Tally(a, c, w) + Tally(b, c, w)
  {
    if a == [] {
      assert a + b == b;
    } else {
      TallyConcat(a[1..], b, c, w);
      assert (a + b)[1..] == a[1..] + b;
    }
  }

  lemma {:induction false} FreshConcat(a: seq<Outgoing>, b: seq<Outgoing>, c: nat)
    ensures Fresh(a + b, c) == Fresh(a, c) + Fresh(b, c)
  {
    if a == [] {
      assert a + b == b;
    } else {
      FreshConcat(a[1..], b, c);
      assert (a + b)[1..] == a[1..] + b;
      var first := if a[0].attempts == 0 && a[0].channel == c then [a[0].serial] else [];
      assert first + (Fresh(a[1..], c) + Fresh(b, c)) == (first + Fresh(a[1..], c)) + Fresh(b, c);
    }
  }

  lemma {:induction false} LoadConcat(a: seq<Outgoing>, b: seq<Outgoing>)
    ensures Load(a + b) == Load(a) + Load(b)
  {
    if a == [] {
      assert a + b == b;
    } else {
      LoadConcat(a[1..], b);
      assert (a + b)[1..] == a[1..] + b;
    }
  }

  /** How often a serial waits on channel `c`. */
  ghost function Times(cmds: seq<Outgoing>, c: nat, n: nat): nat {
    if cmds == [] then 0
    else (if Waits(cmds[0], c) && cmds[0].serial == n then 1 else 0) + Times(cmds[1..], c, n)
  }

  lemma {:induction false} TimesConcat(a: seq<Outgoing>, b: seq<Outgoing>, c: nat, n: nat)
    ensures Times(a + b, c, n) == Times(a, c, n) + Times(b, c, n)
  {
    if a == [] {
      assert a + b == b;
    } else {
      TimesConcat(a[1..], b, c, n);
      assert (a + b)[1..] == a[1..] + b;
    }
  }

  lemma {:induction false} WaitingTimes(cmds: seq<Outgoing>, c: nat, n: nat)
    ensures n in Waiting(cmds, c) <==> Times(cmds, c, n) > 0
  {
    if cmds != [] {
      WaitingTimes(cmds[1..], c, n);
    }
  }

  lemma {:induction false} TimesAt(cmds: seq<Outgoing>, c: nat, i: nat)
    requires i < |cmds| && Waits(cmds[i], c)
    ensures Times(cmds, c, cmds[i].serial) > 0
  {
    if i > 0 {
      TimesAt(cmds[1..], c, i - 1);
    }
  }

  lemma {:induction false} TimesFinds(cmds: seq<Outgoing>, c: nat, n: nat) returns (i: nat)
    requires Times(cmds, c, n) > 0
    ensures i < |cmds| && Waits(cmds[i], c) && cmds[i].serial == n
  {
    i := 0;
    if !(Waits(cmds[0], c) && cmds[0].serial == n) {
      i := TimesFinds(cmds[1..], c, n);
      i := i + 1;
    }
  }

  /** No two waiting commands of a channel have the same serial. */
  ghost predicate Distinct(cmds: seq<Outgoing>, c: nat) {
    forall n: nat :: Times(cmds, c, n) <= 1
  }

  lemma HeadIsNew(cmds: seq<Outgoing>, c: nat)
    requires cmds != [] && Distinct(cmds, c) && Waits(cmds[0], c)
    ensures cmds[0].serial !in Waiting(cmds[1..], c)
  {
    WaitingTimes(cmds[1..], c, cmds[0].serial);
    assert Times(cmds, c, cmds[0].serial) <= 1;
  }

  lemma DistinctTail(cmds: seq<Outgoing>, c: nat)
    requires cmds != [] && Distinct(cmds, c)
    ensures Distinct(cmds[1..], c)
  {
    forall n: nat ensures Times(cmds[1..], c, n) <= 1 {
      assert Times(cmds, c, n) <= 1;
    }
  }

  lemma OccupyingMore(unacked: set<nat>, n: nat, w: nat)
    requires n !in unacked
    ensures |Occupying(unacked + {n}, w)| == |Occupying(unacked, w)| + if Window(n) % WINDOWS == w then 1 else 0
  {
    if Window(n) % WINDOWS == w {
      assert Occupying(unacked + {n}, w) == Occupying(unacked, w) + {n};
    } else {
      assert Occupying(unacked + {n}, w) == Occupying(unacked, w);
    }
  }

  /** The tally of a window is the number of outstanding serials in it. */
  lemma {:induction false} TallyIsSize(cmds: seq<Outgoing>, c: nat, w: nat)
    requires Distinct(cmds, c)
    ensures Tally(cmds, c, w) == |Occupying(Waiting(cmds, c), w)|
  {
    hide Distinct, Occupying, Window;
    if cmds == [] {
      OccupyingNone(w);
    } else {
      var rest := Waiting(cmds[1..], c);
      DistinctTail(cmds, c);
      TallyIsSize(cmds[1..], c, w);
      if Waits(cmds[0], c) {
        HeadIsNew(cmds, c);
        OccupyingMore(rest, cmds[0].serial, w);
        assert Waiting(cmds, c) == rest + {cmds[0].serial};
      } else {
        assert Waiting(cmds, c) == rest;
      }
    }
  }

  lemma OccupyingNone(w: nat)
    ensures |Occupying({}, w)| == 0
  {
    assert Occupying({}, w) == {};
  }

  lemma {:induction false} TallyZero(cmds: seq<Outgoing>, c: nat, w: nat)
    ensures Tally(cmds, c, w) == 0 <==> forall n :: n in Waiting(cmds, c) ==> Window(n) % WINDOWS != w
  {
    if cmds != [] {
      TallyZero(cmds[1..], c, w);
    }
  }

  // ----- the invariant of one channel

  /** The serials from `lo + 1` up to `hi`. */
  ghost predicate Consecutive(serials: seq<nat>, lo: nat, hi: nat) {
    lo <= hi && |serials| == hi - lo && forall j :: 0 <= j < |serials| ==> serials[j] == lo + 1 + j
  }

  /** The bookkeeping of channel `c`: `transmitted` and `queued` are its last serials. */
  ghost predicate Booked(ch: Channel, cmds: seq<Outgoing>, c: nat, transmitted: nat, queued: nat) {
    && ch.outgoing == Wire(queued) && Consecutive(Fresh(cmds, c), transmitted, queued)
    && Counted(ch, cmds, c) && Distinct(cmds, c)
    && forall m :: m in Waiting(cmds, c) ==>
        1 <= m <= transmitted && Window(transmitted) <= Window(m) + (WINDOWS - FREE_WINDOWS)
  }

  /** reliableWindows counts what is outstanding in every window, and usedReliableWindows says where that is not 0. */
  ghost predicate Counted(ch: Channel, cmds: seq<Outgoing>, c: nat) {
    && |ch.windows| == WINDOWS && Small(ch.used)
    && forall w :: 0 <= w < WINDOWS ==> ch.windows[w] == Tally(cmds, c, w) && (Bit(ch.used, w) <==> ch.windows[w] > 0)
  }

  /** Nothing is outstanding in the FREE_WINDOWS windows from the one of `n` on. */
  ghost predicate NothingNear(unacked: set<nat>, n: nat) {
    forall m :: m in unacked ==> (Window(m) - Window(n)) % WINDOWS >= FREE_WINDOWS
  }

  lemma BitsGate(ch: Channel, cmds: seq<Outgoing>, c: nat, n: nat, w: nat)
    requires Counted(ch, cmds, c) && w == Window(n) % WINDOWS
    ensures NothingNear(Waiting(cmds, c), n) <==> !Meets(ch.used, w)
  {
    hide Meets, Bit, Waiting, Tally, Near, Window;
    MeetsMeans(ch.used, w);
    UsedMeans(ch, cmds, c, n, w);
  }

  lemma CountsGate(ch: Channel, cmds: seq<Outgoing>, c: nat, n: nat, w: nat)
    requires Counted(ch, cmds, c) && Distinct(cmds, c) && w == Window(n) % WINDOWS
    ensures |ch.windows| == WINDOWS
    ensures ch.windows[(w + WINDOWS - 1) % WINDOWS] ==
            |Occupying(Waiting(cmds, c), (Window(n) + WINDOWS - 1) % WINDOWS)|
  {
    hide Distinct, Bit, Waiting, Tally, Window, Occupying;
    PreviousWire(n);
    TallyIsSize(cmds, c, (w + WINDOWS - 1) % WINDOWS);
  }

  /** The test of enet_protocol_send_reliable_outgoing_commands on counts and bits is the one on serials. */
  lemma GateMeans(ch: Channel, cmds: seq<Outgoing>, c: nat, n: nat, w: nat)
    requires Counted(ch, cmds, c) && Distinct(cmds, c) && n % WINDOW_SIZE == 0 && w == Wire(n) / WINDOW_SIZE
    ensures w < WINDOWS == |ch.windows|
    ensures MayTransmit(Waiting(cmds, c), n) <==>
              !(ch.windows[(w + WINDOWS - 1) % WINDOWS] >= WINDOW_SIZE || Meets(ch.used, w))
  {
    hide Counted, Distinct, Meets, Occupying, Waiting, Near, Window;
    WireWindow(n);
    BitsGate(ch, cmds, c, n, w);
    CountsGate(ch, cmds, c, n, w);
  }

  lemma PreviousWire(n: nat)
    ensures (Window(n) + WINDOWS - 1) % WINDOWS == (Window(n) % WINDOWS + WINDOWS - 1) % WINDOWS
  {
  }

  lemma UsedMeans(ch: Channel, cmds: seq<Outgoing>, c: nat, n: nat, w: nat)
    requires Counted(ch, cmds, c) && w == Window(n) % WINDOWS
    ensures (forall m :: m in Waiting(cmds, c) ==> (Window(m) - Window(n)) % WINDOWS >= FREE_WINDOWS)
       <==> (forall i :: 0 <= i < WINDOWS && Bit(ch.used, i) ==> !Near(w, i))
  {
    hide Bit, Window, Near;
    if forall i :: 0 <= i < WINDOWS && Bit(ch.used, i) ==> !Near(w, i) {
      forall m | m in Waiting(cmds, c) ensures (Window(m) - Window(n)) % WINDOWS >= FREE_WINDOWS {
        var i := Window(m) % WINDOWS;
        TallyZero(cmds, c, i);
        assert Bit(ch.used, i);
        NearMeans(Window(m), Window(n));
      }
    } else {
      var i :| 0 <= i < WINDOWS && Bit(ch.used, i) && Near(w, i);
      TallyZero(cmds, c, i);
      var m :| m in Waiting(cmds, c) && Window(m) % WINDOWS == i;
      NearMeans(Window(m), Window(n));
    }
  }

  lemma NearMeans(a: nat, b: nat)
    ensures Near(b % WINDOWS, a % WINDOWS) <==> (a - b) % WINDOWS < FREE_WINDOWS
  {
  }

  // ----- moving commands between the lists

  /** Two lists that mean the same for channel `c`. */
  ghost predicate Alike(a: seq<Outgoing>, b: seq<Outgoing>, c: nat) {
    && (forall w: nat :: Tally(a, c, w) == Tally(b, c, w))
    && (forall n: nat :: Times(a, c, n) == Times(b, c, n))
    && Fresh(a, c) == Fresh(b, c)
  }

  lemma Adds(a: seq<Outgoing>, b: seq<Outgoing>, c: nat)
    ensures forall w: nat :: Tally(a + b, c, w) == Tally(a, c, w) + Tally(b, c, w)
    ensures forall n: nat :: Times(a + b, c, n) == Times(a, c, n) + Times(b, c, n)
    ensures Fresh(a + b, c) == Fresh(a, c) + Fresh(b, c)
  {
    forall w: nat ensures Tally(a + b, c, w) == Tally(a, c, w) + Tally(b, c, w) {
      TallyConcat(a, b, c, w);
    }
    forall n: nat ensures Times(a + b, c, n) == Times(a, c, n) + Times(b, c, n) {
      TimesConcat(a, b, c, n);
    }
    FreshConcat(a, b, c);
  }

  lemma AlikeWaiting(a: seq<Outgoing>, b: seq<Outgoing>, c: nat)
    requires Alike(a, b, c)
    ensures Waiting(a, c) == Waiting(b, c)
  {
    forall n: nat ensures n in Waiting(a, c) <==> n in Waiting(b, c) {
      WaitingTimes(a, c, n);
      WaitingTimes(b, c, n);
    }
  }

  lemma AlikeBooked(ch: Channel, a: seq<Outgoing>, b: seq<Outgoing>, c: nat, transmitted: nat, queued: nat)
    requires Alike(a, b, c) && Booked(ch, a, c, transmitted, queued)
    ensures Booked(ch, b, c, transmitted, queued) && Waiting(b, c) == Waiting(a, c)
  {
    AlikeWaiting(a, b, c);
    hide Bit;
  }

  /** One command out of the second list goes to the end of the first. */
  lemma MovesAlike(sent: seq<Outgoing>, pre: seq<Outgoing>, e: Outgoing, post: seq<Outgoing>, e': Outgoing, c: nat)
    requires Alike([e], [e'], c) && Fresh([e], c) == []
    ensures Alike(sent + (pre + [e] + post), (sent + [e']) + (pre + post), c)
  {
    Adds(sent, pre + [e] + post, c);
    Adds(pre + [e], post, c);
    Adds(pre, [e], c);
    Adds(sent + [e'], pre + post, c);
    Adds(sent, [e'], c);
    Adds(pre, post, c);
    hide Tally, Times, Fresh;
    assert Fresh(pre, c) + [] == Fresh(pre, c) && Fresh(sent, c) + [] == Fresh(sent, c);
  }

  lemma OneAlike(e: Outgoing, e': Outgoing, c: nat)
    requires e.channel == e'.channel && e.serial == e'.serial && (e.channel == c ==> e.attempts > 0 && e'.attempts > 0)
    ensures Alike([e], [e'], c) && Fresh([e], c) == []
  {
    assert [e][1..] == [] && [e'][1..] == [];
  }

  lemma {:induction false} SentIsNotFresh(sent: seq<Outgoing>, c: nat)
    requires forall i :: 0 <= i < |sent| ==> sent[i].attempts > 0
    ensures Fresh(sent, c) == []
  {
    if sent != [] {
      SentIsNotFresh(sent[1..], c);
    }
  }

  /** A channel after the first transmission of one of its commands. */
  function Transmitted(ch: Channel, w: nat): Channel
    requires w < WINDOWS == |ch.windows|
  {
    Channel(ch.outgoing, Set(ch.used, w), ch.windows[w := ch.windows[w] + 1])
  }

  /** What the first transmission of `e` adds to the books of its channel. */
  lemma TransmitAdds(sent: seq<Outgoing>, pre: seq<Outgoing>, e: Outgoing, post: seq<Outgoing>, e': Outgoing, c: nat)
    requires e.attempts == 0 && e.channel == c == e'.channel && e'.attempts > 0 && e'.serial == e.serial
    requires Fresh(sent, c) == [] && Fresh(pre, c) == []
    ensures var before := sent + (pre + [e] + post); var after := (sent + [e']) + (pre + post);
      && (forall w: nat :: Tally(after, c, w) == Tally(before, c, w) + if Window(e.serial) % WINDOWS == w then 1 else 0)
      && (forall n: nat :: Times(after, c, n) == Times(before, c, n) + if n == e.serial then 1 else 0)
      && Fresh(before, c) == [e.serial] + Fresh(after, c)
  {
    Adds(sent, pre + [e] + post, c);
    Adds(pre + [e], post, c);
    Adds(pre, [e], c);
    Adds(sent + [e'], pre + post, c);
    Adds(sent, [e'], c);
    Adds(pre, post, c);
    assert [e][1..] == [] && [e'][1..] == [];
    SingleBooks(e, c);
    SingleBooks(e', c);
    hide Tally, Times, Fresh, Window;
  }

  lemma SingleBooks(e: Outgoing, c: nat)
    ensures forall w: nat :: Tally([e], c, w) == if Waits(e, c) && Window(e.serial) % WINDOWS == w then 1 else 0
    ensures forall n: nat :: Times([e], c, n) == if Waits(e, c) && e.serial == n then 1 else 0
    ensures Fresh([e], c) == if e.attempts == 0 && e.channel == c then [e.serial] else []
  {
    assert [e][1..] == [];
  }

  /** Serial `n` has come to those that wait. */
  ghost predicate Added(before: seq<Outgoing>, after: seq<Outgoing>, c: nat, n: nat) {
    && (forall w: nat :: Tally(after, c, w) == Tally(before, c, w) + if Window(n) % WINDOWS == w then 1 else 0)
    && (forall m: nat :: Times(after, c, m) == Times(before, c, m) + if m == n then 1 else 0)
  }

  lemma AddedWaits(before: seq<Outgoing>, after: seq<Outgoing>, c: nat, n: nat)
    requires Added(before, after, c, n)
    ensures Waiting(after, c) == Waiting(before, c) + {n}
  {
    forall m: nat ensures m in Waiting(after, c) <==> m in Waiting(before, c) + {n} {
      WaitingTimes(after, c, m);
      WaitingTimes(before, c, m);
    }
  }

  lemma AddedCounts(ch: Channel, before: seq<Outgoing>, after: seq<Outgoing>, c: nat, n: nat, w: nat)
    requires Counted(ch, before, c) && Added(before, after, c, n) && w == Window(n) % WINDOWS
    ensures w < WINDOWS == |ch.windows| && Counted(Transmitted(ch, w), after, c)
  {
    hide Bit, Tally, Window, Small, Set;
    SetBit(ch.used, w, 0);
    forall i | 0 <= i < WINDOWS
      ensures Transmitted(ch, w).windows[i] == Tally(after, c, i)
      ensures Bit(Transmitted(ch, w).used, i) <==> Transmitted(ch, w).windows[i] > 0
    {
      SetBit(ch.used, w, i);
    }
  }

  /** The books after a first transmission that passed the gate. */
  lemma TransmitBooked(ch: Channel, before: seq<Outgoing>, after: seq<Outgoing>, c: nat, transmitted: nat, queued: nat,
                       n: nat, w: nat)
    requires Booked(ch, before, c, transmitted, queued) && Added(before, after, c, n) && w == Wire(n) / WINDOW_SIZE
    requires Fresh(before, c) == [n] + Fresh(after, c) && MayTransmit(Waiting(before, c), n)
    ensures n == transmitted + 1 <= queued && Waiting(after, c) == Waiting(before, c) + {n}
    ensures w < WINDOWS == |ch.windows| && Booked(Transmitted(ch, w), after, c, transmitted + 1, queued)
  {
    hide Bit, Tally, Window, Times, MayTransmit, Counted, Transmitted, Fresh;
    WireWindow(n);
    AddedWaits(before, after, c, n);
    AddedCounts(ch, before, after, c, n, w);
    assert Fresh(before, c)[0] == n;
    assert Consecutive(Fresh(after, c), transmitted + 1, queued) by {
      forall j | 0 <= j < |Fresh(after, c)| ensures Fresh(after, c)[j] == transmitted + 2 + j {
        assert Fresh(before, c)[j + 1] == Fresh(after, c)[j];
      }
    }
    forall m: nat ensures Times(after, c, m) <= 1 {
      WaitingTimes(before, c, m);
      assert Times(before, c, m) <= 1;
    }
    forall m | m in Waiting(before, c) ensures Window(n) <= Window(m) + (WINDOWS - FREE_WINDOWS) {
      GateKeepsNear(Waiting(before, c), n, m);
    }
    hide Waiting;
    TransmittedNumber(ch, w);
  }

  lemma TransmittedNumber(ch: Channel, w: nat)
    requires w < WINDOWS == |ch.windows|
    ensures Transmitted(ch, w).outgoing == ch.outgoing
  {
  }

  /** A channel after an acknowledgement for window `w`. */
  function Relieved(ch: Channel, w: nat): Channel
    requires w < WINDOWS == |ch.windows|
  {
    if ch.windows[w] > 0 then
      Channel(ch.outgoing, if ch.windows[w] == 1 then Clear(ch.used, w) else ch.used,
              ch.windows[w := ch.windows[w] - 1])
    else ch
  }

  lemma RelievedCounts(ch: Channel, before: seq<Outgoing>, after: seq<Outgoing>, c: nat, n: nat, w: nat)
    requires Counted(ch, before, c) && Added(after, before, c, n) && w == Window(n) % WINDOWS
    ensures w < WINDOWS == |ch.windows| && Counted(Relieved(ch, w), after, c)
  {
    hide Bit, Tally, Window, Small, Clear;
    ClearBit(ch.used, w, 0);
    forall i | 0 <= i < WINDOWS
      ensures Relieved(ch, w).windows[i] == Tally(after, c, i)
      ensures Bit(Relieved(ch, w).used, i) <==> Relieved(ch, w).windows[i] > 0
    {
      ClearBit(ch.used, w, i);
    }
  }

  /** The books after a command was acknowledged. */
  lemma RelieveBooked(ch: Channel, before: seq<Outgoing>, after: seq<Outgoing>, c: nat, transmitted: nat, queued: nat,
                      n: nat, w: nat)
    requires Booked(ch, before, c, transmitted, queued) && Added(after, before, c, n) && w == Wire(n) / WINDOW_SIZE
    requires Fresh(before, c) == Fresh(after, c)
    ensures Waiting(after, c) == Waiting(before, c) - {n} && n in Waiting(before, c)
    ensures w < WINDOWS == |ch.windows| && Booked(Relieved(ch, w), after, c, transmitted, queued)
  {
    hide Bit, Tally, Window, Times, Counted, Fresh;
    WireWindow(n);
    AddedWaits(after, before, c, n);
    RelievedCounts(ch, before, after, c, n, w);
    WaitingTimes(after, c, n);
    assert Times(before, c, n) <= 1;
    forall m: nat ensures Times(after, c, m) <= 1 {
      assert Times(before, c, m) <= 1;
    }
    hide Waiting;
  }

  // ----- the two lists

  /** Everything in `sent` was transmitted, retransmissions precede the rest, and commands of a channel carry
      packets. */
  ghost predicate Listed(sent: seq<Outgoing>, outgoing: seq<Outgoing>, channels: nat) {
    && (forall i :: 0 <= i < |sent| ==> sent[i].attempts > 0)
    && (forall i, j :: 0 <= i < j < |outgoing| && outgoing[i].attempts == 0 ==> outgoing[j].attempts == 0)
    && (forall i :: 0 <= i < |sent| ==> Proper(sent[i], channels))
    && (forall i :: 0 <= i < |outgoing| ==> Proper(outgoing[i], channels))
  }

  ghost predicate Proper(e: Outgoing, channels: nat) {
    e.channel < channels ==> e.packet && e.number == Wire(e.serial)
  }

  lemma EitherProper(sent: seq<Outgoing>, outgoing: seq<Outgoing>, channels: nat, wasSent: bool, i: nat)
    requires Listed(sent, outgoing, channels) && i < if wasSent then |sent| else |outgoing|
    ensures Proper(if wasSent then sent[i] else outgoing[i], channels)
  {
  }

  lemma NothingFresh()
    ensures forall c: nat :: Fresh([], c) == []
  {
  }

  lemma ProperAt(sent: seq<Outgoing>, outgoing: seq<Outgoing>, channels: nat, i: nat)
    requires Listed(sent, outgoing, channels) && i < |outgoing|
    ensures Proper(outgoing[i], channels)
  {
  }

  /** A command as it waits after a transmission; its first one says how long it waits, and when it has waited
      enough. */
  function AsSent(e: Outgoing, now: nat, roundTrip: nat, timeoutLimit: nat): Outgoing {
    var again := e.(attempts := e.attempts + 1, sentTime := now);
    if e.timeout != 0 then again else again.(timeout := roundTrip, timeoutLimit := timeoutLimit * roundTrip)
  }

  function Without(cmds: seq<Outgoing>, i: nat): seq<Outgoing>
    requires i < |cmds|
  {
    cmds[..i] + cmds[i + 1..]
  }

  lemma ListedMoves(sent: seq<Outgoing>, outgoing: seq<Outgoing>, channels: nat, i: nat, e': Outgoing)
    requires Listed(sent, outgoing, channels) && i < |outgoing| && e'.attempts > 0 && Proper(e', channels)
    ensures Listed(sent + [e'], Without(outgoing, i), channels)
  {
    hide Proper;
  }

  lemma ListedWithoutSent(sent: seq<Outgoing>, outgoing: seq<Outgoing>, channels: nat, i: nat)
    requires Listed(sent, outgoing, channels) && i < |sent|
    ensures Listed(Without(sent, i), outgoing, channels)
  {
    hide Proper;
  }

  lemma ListedWithoutOutgoing(sent: seq<Outgoing>, outgoing: seq<Outgoing>, channels: nat, i: nat)
    requires Listed(sent, outgoing, channels) && i < |outgoing|
    ensures Listed(sent, Without(outgoing, i), channels)
  {
    hide Proper;
  }

  lemma WithoutLoad(cmds: seq<Outgoing>, i: nat)
    requires i < |cmds|
    ensures Load(cmds) == Load(Without(cmds, i)) + Payload(cmds[i])
  {
    LoadConcat(cmds[..i], cmds[i..]);
    LoadConcat(cmds[..i], cmds[i + 1..]);
    assert cmds == cmds[..i] + cmds[i..];
    assert cmds[i..][1..] == cmds[i + 1..];
  }

  lemma LoadMore(cmds: seq<Outgoing>, e: Outgoing)
    ensures Load(cmds + [e]) == Load(cmds) + Payload(e)
  {
    LoadConcat(cmds, [e]);
    assert [e][1..] == [];
  }

  /** The books of every channel. */
  ghost predicate AllBooked(channels: seq<Channel>, cmds: seq<Outgoing>, transmitted: seq<nat>, queued: seq<nat>) {
    && |transmitted| == |queued| == |channels|
    && forall c :: 0 <= c < |channels| ==> Booked(channels[c], cmds, c, transmitted[c], queued[c])
  }

  /** A channel before its first command. */
  const UNUSED := Channel(0, 0, seq(WINDOWS, _ => 0))

  lemma UnusedBooked(channels: seq<Channel>, zeros: seq<nat>)
    requires |zeros| == |channels| && forall c :: 0 <= c < |channels| ==> channels[c] == UNUSED && zeros[c] == 0
    ensures AllBooked(channels, [], zeros, zeros)
  {
    forall c | 0 <= c < |channels| ensures Booked(channels[c], [], c, zeros[c], zeros[c]) {
      NoBits();
    }
  }

  /** A retransmission changes no books. */
  lemma RetransmitBooked(channels: seq<Channel>, sent: seq<Outgoing>, outgoing: seq<Outgoing>, transmitted: seq<nat>,
                         queued: seq<nat>, i: nat, e': Outgoing)
    requires AllBooked(channels, sent + outgoing, transmitted, queued) && i < |outgoing|
    requires e'.channel == outgoing[i].channel && e'.serial == outgoing[i].serial && e'.attempts > 0
    requires outgoing[i].channel < |channels| ==> outgoing[i].attempts > 0
    ensures AllBooked(channels, (sent + [e']) + Without(outgoing, i), transmitted, queued)
    ensures forall c :: 0 <= c < |channels| ==>
              Waiting((sent + [e']) + Without(outgoing, i), c) == Waiting(sent + outgoing, c)
  {
    hide Booked;
    var e := outgoing[i];
    assert outgoing == outgoing[..i] + [e] + outgoing[i + 1..];
    forall c | 0 <= c < |channels|
      ensures Booked(channels[c], (sent + [e']) + Without(outgoing, i), c, transmitted[c], queued[c])
      ensures Waiting((sent + [e']) + Without(outgoing, i), c) == Waiting(sent + outgoing, c)
    {
      OneAlike(e, e', c);
      MovesAlike(sent, outgoing[..i], e, outgoing[i + 1..], e', c);
      AlikeBooked(channels[c], sent + outgoing, (sent + [e']) + Without(outgoing, i), c, transmitted[c], queued[c]);
    }
  }

  /** A first transmission changes the books of its channel. */
  lemma FirstBooked(channels: seq<Channel>, sent: seq<Outgoing>, outgoing: seq<Outgoing>, transmitted: seq<nat>,
                    queued: seq<nat>, i: nat, e': Outgoing, w: nat)
    requires AllBooked(channels, sent + outgoing, transmitted, queued) && Listed(sent, outgoing, |channels|)
    requires i < |outgoing| && outgoing[i].attempts == 0 && outgoing[i].channel < |channels|
    requires e'.channel == outgoing[i].channel && e'.serial == outgoing[i].serial && e'.attempts > 0
    requires Fresh(outgoing[..i], e'.channel) == [] && w == e'.number / WINDOW_SIZE && Proper(e', |channels|)
    requires MayTransmit(Waiting(sent + outgoing, e'.channel), e'.serial)
    ensures w < WINDOWS == |channels[e'.channel].windows|
    ensures var c := e'.channel; var after := (sent + [e']) + Without(outgoing, i);
      && e'.serial == transmitted[c] + 1 <= queued[c]
      && AllBooked(channels[c := Transmitted(channels[c], w)], after, transmitted[c := transmitted[c] + 1], queued)
      && Waiting(after, c) == Waiting(sent + outgoing, c) + {e'.serial}
      && forall d :: 0 <= d < |channels| && d != c ==> Waiting(after, d) == Waiting(sent + outgoing, d)
  {
    hide Booked, MayTransmit, Transmitted;
    var e, c := outgoing[i], e'.channel;
    assert outgoing == outgoing[..i] + [e] + outgoing[i + 1..];
    var after := (sent + [e']) + Without(outgoing, i);
    SentIsNotFresh(sent, c);
    TransmitAdds(sent, outgoing[..i], e, outgoing[i + 1..], e', c);
    TransmitBooked(channels[c], sent + outgoing, after, c, transmitted[c], queued[c], e.serial, w);
    forall d | 0 <= d < |channels| && d != c
      ensures Booked(channels[d], after, d, transmitted[d], queued[d])
      ensures Waiting(after, d) == Waiting(sent + outgoing, d)
    {
      OneAlike(e, e', d);
      MovesAlike(sent, outgoing[..i], e, outgoing[i + 1..], e', d);
      AlikeBooked(channels[d], sent + outgoing, after, d, transmitted[d], queued[d]);
    }
  }

  lemma DropsAlike(pre: seq<Outgoing>, e: Outgoing, post: seq<Outgoing>, c: nat)
    requires !(e.channel == c)
    ensures Alike(pre + [e] + post, pre + post, c)
  {
    SingleBooks(e, c);
    Adds(pre + [e], post, c);
    Adds(pre, [e], c);
    Adds(pre, post, c);
    hide Tally, Times, Fresh;
    assert Fresh(pre, c) + [] == Fresh(pre, c);
  }

  lemma DropRemoves(pre: seq<Outgoing>, e: Outgoing, post: seq<Outgoing>, c: nat)
    requires Waits(e, c)
    ensures Added(pre + post, pre + [e] + post, c, e.serial) && Fresh(pre + [e] + post, c) == Fresh(pre + post, c)
  {
    SingleBooks(e, c);
    Adds(pre + [e], post, c);
    Adds(pre, [e], c);
    Adds(pre, post, c);
    hide Tally, Times, Fresh, Window;
    assert Fresh(pre, c) + [] == Fresh(pre, c);
  }

  /** An acknowledged command leaves the lists, and the books of its channel. */
  lemma DropBooked(channels: seq<Channel>, pre: seq<Outgoing>, e: Outgoing, post: seq<Outgoing>, transmitted: seq<nat>,
                   queued: seq<nat>)
    requires AllBooked(channels, pre + [e] + post, transmitted, queued) && Proper(e, |channels|) && e.attempts > 0
    ensures e.channel < |channels| ==>
      (var c := e.channel; var w := e.number / WINDOW_SIZE;
       && w < WINDOWS == |channels[c].windows| && e.serial in Waiting(pre + [e] + post, c)
       && AllBooked(channels[c := Relieved(channels[c], w)], pre + post, transmitted, queued)
       && Waiting(pre + post, c) == Waiting(pre + [e] + post, c) - {e.serial})
    ensures e.channel >= |channels| ==> AllBooked(channels, pre + post, transmitted, queued)
    ensures forall d :: 0 <= d < |channels| && d != e.channel ==> Waiting(pre + post, d) == Waiting(pre + [e] + post, d)
  {
    hide Booked, Relieved;
    var c := e.channel;
    if c < |channels| {
      DropRemoves(pre, e, post, c);
      RelieveBooked(channels[c], pre + [e] + post, pre + post, c, transmitted[c], queued[c], e.serial,
                    e.number / WINDOW_SIZE);
    }
    forall d | 0 <= d < |channels| && d != c
      ensures Booked(channels[d], pre + post, d, transmitted[d], queued[d])
      ensures Waiting(pre + post, d) == Waiting(pre + [e] + post, d)
    {
      DropsAlike(pre, e, post, d);
      AlikeBooked(channels[d], pre + [e] + post, pre + post, d, transmitted[d], queued[d]);
    }
  }

  /** On a channel, the 16-bit number tells which waiting command is meant. */
  lemma NumberMeans(ch: Channel, cmds: seq<Outgoing>, c: nat, transmitted: nat, queued: nat, a: nat, b: nat)
    requires Booked(ch, cmds, c, transmitted, queued) && a in Waiting(cmds, c) && b in Waiting(cmds, c)
    requires Wire(a) == Wire(b)
    ensures a == b
  {
    NearIsSame(a, b, transmitted);
  }

  const MAXIMUM_PACKET_COMMANDS := 32

  // ----- runs of first transmissions

  /** A channel as Transport sees it. */
  datatype Line = Line(transmitted: nat, unacked: set<nat>)

  ghost function LinesOf(cmds: seq<Outgoing>, transmitted: seq<nat>): seq<Line> {
    seq(|transmitted|, c requires 0 <= c < |transmitted| => Line(transmitted[c], Waiting(cmds, c)))
  }

  /** First transmissions in the order they were made, as channel and serial. */
  type Log = seq<(nat, nat)>

  /** The line of channel `c` after the transmissions of a log. */
  ghost function Replay(log: Log, c: nat, line: Line): Line {
    if log == [] then line
    else
      var before := Replay(log[..|log| - 1], c, line);
      var entry := log[|log| - 1];
      if entry.0 == c then Line(entry.1, before.unacked + {entry.1}) else before
  }

  /** Each was the next of its channel, and passed the gate when it was made. */
  ghost predicate Legal(log: Log, c: nat, line: Line) {
    log != [] ==>
      var before := Replay(log[..|log| - 1], c, line);
      var entry := log[|log| - 1];
      && Legal(log[..|log| - 1], c, line)
      && (entry.0 == c ==> entry.1 == before.transmitted + 1 && MayTransmit(before.unacked, entry.1))
  }

  ghost predicate AllFollow(log: Log, before: seq<Line>, after: seq<Line>) {
    && |before| == |after|
    && forall c :: 0 <= c < |before| ==> Legal(log, c, before[c]) && Replay(log, c, before[c]) == after[c]
  }

  lemma NothingFollows(lines: seq<Line>)
    ensures AllFollow([], lines, lines)
  {
  }

  lemma FollowMore(log: Log, before: seq<Line>, after: seq<Line>, c: nat, n: nat)
    requires AllFollow(log, before, after) && c < |before|
    requires n == after[c].transmitted + 1 && MayTransmit(after[c].unacked, n)
    ensures AllFollow(log + [(c, n)], before, after[c := Line(n, after[c].unacked + {n})])
  {
    hide MayTransmit;
    assert (log + [(c, n)])[..|log|] == log;
  }

  lemma LinesAre(cmds: seq<Outgoing>, transmitted: seq<nat>, lines: seq<Line>)
    requires |lines| == |transmitted|
    requires forall c :: 0 <= c < |lines| ==> lines[c] == Line(transmitted[c], Waiting(cmds, c))
    ensures LinesOf(cmds, transmitted) == lines
  {
  }

  lemma LineAt(cmds: seq<Outgoing>, transmitted: seq<nat>, c: nat)
    ensures |LinesOf(cmds, transmitted)| == |transmitted|
    ensures c < |transmitted| ==> LinesOf(cmds, transmitted)[c] == Line(transmitted[c], Waiting(cmds, c))
  {
  }

  /** What the loop tests before the first transmission of a command of channel `ch`. */
  predicate Blocked(ch: Channel, w: nat)
    requires w < WINDOWS == |ch.windows|
  {
    ch.windows[(w + WINDOWS - 1) % WINDOWS] >= WINDOW_SIZE || Meets(ch.used, w)
  }

  lemma GateOpens(channels: seq<Channel>, sent: seq<Outgoing>, outgoing: seq<Outgoing>, transmitted: seq<nat>,
                  queued: seq<nat>, i: nat)
    requires AllBooked(channels, sent + outgoing, transmitted, queued) && i < |outgoing|
    requires Proper(outgoing[i], |channels|) && outgoing[i].channel < |channels|
    ensures var e := outgoing[i]; var w := e.number / WINDOW_SIZE;
      && w < WINDOWS == |channels[e.channel].windows|
      && ((e.number % WINDOW_SIZE == 0 && Blocked(channels[e.channel], w)) <==>
            !MayTransmit(Waiting(sent + outgoing, e.channel), e.serial))
  {
    hide Blocked, Consecutive, Distinct, Meets, Bit, Waiting;
    var e := outgoing[i];
    var ch := channels[e.channel];
    assert Booked(ch, sent + outgoing, e.channel, transmitted[e.channel], queued[e.channel]);
    SameRemainder(e.serial);
    if e.serial % WINDOW_SIZE == 0 {
      GateIs(ch, sent + outgoing, e.channel, e.serial, e.number / WINDOW_SIZE);
    }
  }

  lemma GateIs(ch: Channel, cmds: seq<Outgoing>, c: nat, n: nat, w: nat)
    requires Counted(ch, cmds, c) && Distinct(cmds, c) && n % WINDOW_SIZE == 0 && w == Wire(n) / WINDOW_SIZE
    ensures w < WINDOWS == |ch.windows| && (MayTransmit(Waiting(cmds, c), n) <==> !Blocked(ch, w))
  {
    hide Counted, Distinct, Meets, MayTransmit;
    GateMeans(ch, cmds, c, n, w);
  }

  lemma SameRemainder(n: nat)
    ensures Wire(n) % WINDOW_SIZE == n % WINDOW_SIZE
  {
  }

  // ----- a new command

  /** The books of all channels with one more command at the end of the list. */
  lemma QueueBooked(channels: seq<Channel>, cmds: seq<Outgoing>, transmitted: seq<nat>, queued: seq<nat>, e: Outgoing,
                    channels': seq<Channel>, queued': seq<nat>)
    requires AllBooked(channels, cmds, transmitted, queued) && e.attempts == 0
    requires if e.channel < |channels| then
               && e.serial == queued[e.channel] + 1 && queued' == queued[e.channel := e.serial]
               && channels' == channels[e.channel := channels[e.channel].(outgoing := Wire(e.serial))]
             else channels' == channels && queued' == queued
    ensures AllBooked(channels', cmds + [e], transmitted, queued')
    ensures forall c :: 0 <= c < |channels| ==> Waiting(cmds + [e], c) == Waiting(cmds, c)
  {
    hide Tally, Times, Fresh, Waiting, Wire, Window;
    forall c | 0 <= c < |channels|
      ensures Booked(channels'[c], cmds + [e], c, transmitted[c], queued'[c])
      ensures Waiting(cmds + [e], c) == Waiting(cmds, c)
    {
      QueueOne(channels[c], cmds, c, transmitted[c], queued[c], e);
    }
  }

  lemma NextNumber(channels: seq<Channel>, cmds: seq<Outgoing>, transmitted: seq<nat>, queued: seq<nat>, c: nat)
    requires AllBooked(channels, cmds, transmitted, queued) && c < |channels|
    ensures (channels[c].outgoing + 1) % WRAP == Wire(queued[c] + 1)
  {
    hide Counted, Consecutive, Distinct;
    assert Booked(channels[c], cmds, c, transmitted[c], queued[c]);
    WireNext(queued[c], 1);
  }

  lemma QueueOne(ch: Channel, cmds: seq<Outgoing>, c: nat, transmitted: nat, queued: nat, e: Outgoing)
    requires Booked(ch, cmds, c, transmitted, queued) && e.attempts == 0 && (e.channel == c ==> e.serial == queued + 1)
    ensures Waiting(cmds + [e], c) == Waiting(cmds, c)
    ensures if e.channel == c then Booked(ch.(outgoing := Wire(e.serial)), cmds + [e], c, transmitted, queued + 1)
            else Booked(ch, cmds + [e], c, transmitted, queued)
  {
    hide Tally, Times, Fresh, Window, Bit, Wire;
    Adds(cmds, [e], c);
    SingleBooks(e, c);
    forall n: nat ensures n in Waiting(cmds + [e], c) <==> n in Waiting(cmds, c) {
      WaitingTimes(cmds + [e], c, n);
      WaitingTimes(cmds, c, n);
    }
  }

  lemma ListedMore(sent: seq<Outgoing>, outgoing: seq<Outgoing>, channels: nat, e: Outgoing)
    requires Listed(sent, outgoing, channels) && e.attempts == 0 && Proper(e, channels)
    ensures Listed(sent, outgoing + [e], channels)
  {
    hide Proper;
  }

  // ----- acknowledgements

  /** An acknowledgement for this number and channel means this command. */
  predicate Named(e: Outgoing, number: u16, channelID: nat) {
    e.number == number && e.channel == channelID && e.attempts > 0
  }

  lemma NamedMeans(channels: seq<Channel>, sent: seq<Outgoing>, outgoing: seq<Outgoing>, transmitted: seq<nat>,
                   queued: seq<nat>, number: u16, c: nat, found: bool, wasSent: bool, i: nat)
    requires Listed(sent, outgoing, |channels|) && AllBooked(channels, sent + outgoing, transmitted, queued)
    requires found ==> i < if wasSent then |sent| else |outgoing|
    requires found ==> Named(if wasSent then sent[i] else outgoing[i], number, c)
    requires !found ==> forall j :: 0 <= j < |sent + outgoing| ==> !Named((sent + outgoing)[j], number, c)
    ensures found ==> Proper(if wasSent then sent[i] else outgoing[i], |channels|)
    ensures c < |channels| ==> found == exists m :: m in Waiting(sent + outgoing, c) && Wire(m) == number
    ensures c < |channels| && found ==>
              forall m :: m in Waiting(sent + outgoing, c) && Wire(m) == number ==>
                m == (if wasSent then sent[i] else outgoing[i]).serial
  {
    hide Booked, Waiting, Wire, Times;
    var cmds := sent + outgoing;
    if c < |channels| {
      if found {
        var e := if wasSent then sent[i] else outgoing[i];
        var j := if wasSent then i else |sent| + i;
        assert cmds[j] == e;
        TimesAt(cmds, c, j);
        WaitingTimes(cmds, c, e.serial);
        forall m | m in Waiting(cmds, c) && Wire(m) == number ensures m == e.serial {
          NumberMeans(channels[c], cmds, c, transmitted[c], queued[c], m, e.serial);
        }
      } else {
        forall m | m in Waiting(cmds, c) ensures Wire(m) != number {
          WaitingTimes(cmds, c, m);
          var j := TimesFinds(cmds, c, m);
          assert Proper(cmds[j], |channels|) by {
            if j < |sent| { assert cmds[j] == sent[j]; } else { assert cmds[j] == outgoing[j - |sent|]; }
          }
        }
      }
    }
  }

  // ----- timeouts

  lemma SwapAlike(pre: seq<Outgoing>, e: Outgoing, mid: seq<Outgoing>, post: seq<Outgoing>, e': Outgoing, c: nat)
    requires Alike([e], [e'], c) && Fresh([e], c) == []
    ensures Alike(pre + [e] + (mid + post), pre + mid + ([e'] + post), c)
  {
    Adds(pre + [e], mid + post, c);
    Adds(pre, [e], c);
    Adds(mid, post, c);
    Adds(pre + mid, [e'] + post, c);
    Adds(pre, mid, c);
    Adds([e'], post, c);
    hide Tally, Times, Fresh;
    assert Fresh(pre, c) + [] == Fresh(pre, c) && [] + Fresh(post, c) == Fresh(post, c);
    assert Fresh(pre, c) + (Fresh(mid, c) + Fresh(post, c)) == Fresh(pre, c) + Fresh(mid, c) + Fresh(post, c);
  }

  lemma SwapBooked(channels: seq<Channel>, pre: seq<Outgoing>, e: Outgoing, mid: seq<Outgoing>, post: seq<Outgoing>,
                   e': Outgoing, transmitted: seq<nat>, queued: seq<nat>)
    requires AllBooked(channels, pre + [e] + (mid + post), transmitted, queued)
    requires e'.channel == e.channel && e'.serial == e.serial && e'.attempts > 0 && e.attempts > 0
    ensures AllBooked(channels, pre + mid + ([e'] + post), transmitted, queued)
    ensures forall c :: 0 <= c < |channels| ==>
              Waiting(pre + mid + ([e'] + post), c) == Waiting(pre + [e] + (mid + post), c)
  {
    hide Booked;
    forall c | 0 <= c < |channels|
      ensures Booked(channels[c], pre + mid + ([e'] + post), c, transmitted[c], queued[c])
      ensures Waiting(pre + mid + ([e'] + post), c) == Waiting(pre + [e] + (mid + post), c)
    {
      OneAlike(e, e', c);
      SwapAlike(pre, e, mid, post, e', c);
      AlikeBooked(channels[c], pre + [e] + (mid + post), pre + mid + ([e'] + post), c, transmitted[c], queued[c]);
    }
  }

  lemma TimeOutSplits(sent: seq<Outgoing>, outgoing: seq<Outgoing>, i: nat, k: nat, e': Outgoing)
    requires i < |sent| && k <= |outgoing|
    ensures var mid := sent[i + 1..] + outgoing[..k];
      && sent + outgoing == sent[..i] + [sent[i]] + (mid + outgoing[k..])
      && Without(sent, i) + (outgoing[..k] + [e'] + outgoing[k..]) == sent[..i] + mid + ([e'] + outgoing[k..])
  {
  }

  /** A timeout changes no books. */
  lemma TimeOutBooked(channels: seq<Channel>, sent: seq<Outgoing>, outgoing: seq<Outgoing>, transmitted: seq<nat>,
                      queued: seq<nat>, i: nat, k: nat, e': Outgoing)
    requires AllBooked(channels, sent + outgoing, transmitted, queued) && i < |sent| && k <= |outgoing|
    requires e'.channel == sent[i].channel && e'.serial == sent[i].serial && e'.attempts > 0 && sent[i].attempts > 0
    ensures var after := Without(sent, i) + (outgoing[..k] + [e'] + outgoing[k..]);
      && AllBooked(channels, after, transmitted, queued)
      && forall c :: 0 <= c < |channels| ==> Waiting(after, c) == Waiting(sent + outgoing, c)
  {
    hide AllBooked, Waiting, Without;
    TimeOutSplits(sent, outgoing, i, k, e');
    SwapBooked(channels, sent[..i], sent[i], sent[i + 1..] + outgoing[..k], outgoing[k..], e', transmitted, queued);
  }

  lemma ListedBack(sent: seq<Outgoing>, outgoing: seq<Outgoing>, channels: nat, i: nat, k: nat, e': Outgoing)
    requires Listed(sent, outgoing, channels) && i < |sent| && k <= |outgoing|
    requires forall j :: 0 <= j < k ==> outgoing[j].attempts > 0
    requires e'.channel == sent[i].channel && e'.serial == sent[i].serial && e'.number == sent[i].number
    requires e'.packet == sent[i].packet && e'.attempts > 0
    ensures Listed(Without(sent, i), outgoing[..k] + [e'] + outgoing[k..], channels)
  {
    assert Proper(sent[i], channels);
    assert Proper(e', channels);
    hide Proper;
  }

  // ----- an acknowledged command leaves its list

  /** The books of the channels without an acknowledged command. */
  ghost predicate Dropped(channels: seq<Channel>, cmds: seq<Outgoing>, rest: seq<Outgoing>, e: Outgoing,
                          transmitted: seq<nat>, queued: seq<nat>)
    requires |transmitted| == |channels|
  {
    var c, w := e.channel, e.number / WINDOW_SIZE;
    if c < |channels| then
      && w < WINDOWS == |channels[c].windows|
      && AllBooked(channels[c := Relieved(channels[c], w)], rest, transmitted, queued)
      && LinesOf(rest, transmitted) ==
         LinesOf(cmds, transmitted)[c := Line(transmitted[c], Waiting(cmds, c) - {e.serial})]
    else AllBooked(channels, rest, transmitted, queued) && LinesOf(rest, transmitted) == LinesOf(cmds, transmitted)
  }

  lemma DropKeeps(channels: seq<Channel>, pre: seq<Outgoing>, e: Outgoing, post: seq<Outgoing>, transmitted: seq<nat>,
                  queued: seq<nat>)
    requires AllBooked(channels, pre + [e] + post, transmitted, queued) && Proper(e, |channels|) && e.attempts > 0
    requires |transmitted| == |channels|
    ensures Dropped(channels, pre + [e] + post, pre + post, e, transmitted, queued)
  {
    hide AllBooked, Proper, Relieved, Waiting;
    DropBooked(channels, pre, e, post, transmitted, queued);
    var lines := LinesOf(pre + [e] + post, transmitted);
    if e.channel < |channels| {
      LinesAre(pre + post, transmitted,
               lines[e.channel := Line(transmitted[e.channel], Waiting(pre + [e] + post, e.channel) - {e.serial})]);
    } else {
      LinesAre(pre + post, transmitted, lines);
    }
  }

  lemma SentDropped(channels: seq<Channel>, sent: seq<Outgoing>, outgoing: seq<Outgoing>, transmitted: seq<nat>,
                    queued: seq<nat>, i: nat)
    requires Listed(sent, outgoing, |channels|) && AllBooked(channels, sent + outgoing, transmitted, queued)
    requires i < |sent| && sent[i].attempts > 0 && |transmitted| == |channels|
    ensures Listed(Without(sent, i), outgoing, |channels|)
    ensures Dropped(channels, sent + outgoing, Without(sent, i) + outgoing, sent[i], transmitted, queued)
  {
    hide Listed, AllBooked, Dropped, Proper;
    EitherProper(sent, outgoing, |channels|, true, i);
    ListedWithoutSent(sent, outgoing, |channels|, i);
    assert sent + outgoing == sent[..i] + [sent[i]] + (sent[i + 1..] + outgoing);
    assert Without(sent, i) + outgoing == sent[..i] + (sent[i + 1..] + outgoing);
    DropKeeps(channels, sent[..i], sent[i], sent[i + 1..] + outgoing, transmitted, queued);
  }

  lemma OutgoingDropped(channels: seq<Channel>, sent: seq<Outgoing>, outgoing: seq<Outgoing>, transmitted: seq<nat>,
                        queued: seq<nat>, i: nat)
    requires Listed(sent, outgoing, |channels|) && AllBooked(channels, sent + outgoing, transmitted, queued)
    requires i < |outgoing| && outgoing[i].attempts > 0 && |transmitted| == |channels|
    ensures Listed(sent, Without(outgoing, i), |channels|)
    ensures Dropped(channels, sent + outgoing, sent + Without(outgoing, i), outgoing[i], transmitted, queued)
  {
    hide Listed, AllBooked, Dropped, Proper;
    EitherProper(sent, outgoing, |channels|, false, i);
    ListedWithoutOutgoing(sent, outgoing, |channels|, i);
    assert sent + outgoing == (sent + outgoing[..i]) + [outgoing[i]] + outgoing[i + 1..];
    assert sent + Without(outgoing, i) == (sent + outgoing[..i]) + outgoing[i + 1..];
    DropKeeps(channels, sent + outgoing[..i], outgoing[i], outgoing[i + 1..], transmitted, queued);
  }

  // ----- a command is transmitted

  predicate IsFirst(e: Outgoing, channels: nat) {
    e.channel < channels && e.attempts == 0
  }

  /** The books of the channels once a command was transmitted, for the first time or again. */
  ghost predicate Carried(channels: seq<Channel>, cmds: seq<Outgoing>, after: seq<Outgoing>, e: Outgoing,
                          transmitted: seq<nat>, queued: seq<nat>)
    requires |transmitted| == |channels|
  {
    var c, w := e.channel, e.number / WINDOW_SIZE;
    if IsFirst(e, |channels|) then
      && w < WINDOWS == |channels[c].windows| && e.serial == transmitted[c] + 1
      && AllBooked(channels[c := Transmitted(channels[c], w)], after, transmitted[c := e.serial], queued)
      && LinesOf(after, transmitted[c := e.serial])
         == LinesOf(cmds, transmitted)[c := Line(e.serial, Waiting(cmds, c) + {e.serial})]
    else AllBooked(channels, after, transmitted, queued) && LinesOf(after, transmitted) == LinesOf(cmds, transmitted)
  }

  lemma ProperAgain(sent: seq<Outgoing>, outgoing: seq<Outgoing>, channels: nat, i: nat, e': Outgoing)
    requires Listed(sent, outgoing, channels) && i < |outgoing|
    requires e'.channel == outgoing[i].channel && e'.serial == outgoing[i].serial
    requires e'.number == outgoing[i].number && e'.packet == outgoing[i].packet
    ensures Proper(e', channels)
  {
    ProperAt(sent, outgoing, channels, i);
  }

  lemma TransmitKeeps(channels: seq<Channel>, sent: seq<Outgoing>, outgoing: seq<Outgoing>, transmitted: seq<nat>,
                      queued: seq<nat>, i: nat, e': Outgoing)
    requires AllBooked(channels, sent + outgoing, transmitted, queued) && Listed(sent, outgoing, |channels|)
    requires i < |outgoing| && |transmitted| == |channels| && e'.attempts == outgoing[i].attempts + 1
    requires e'.channel == outgoing[i].channel && e'.serial == outgoing[i].serial
    requires e'.number == outgoing[i].number && e'.packet == outgoing[i].packet
    requires IsFirst(outgoing[i], |channels|) ==>
      && Fresh(outgoing[..i], e'.channel) == [] && MayTransmit(Waiting(sent + outgoing, e'.channel), e'.serial)
    ensures Listed(sent + [e'], Without(outgoing, i), |channels|)
    ensures Carried(channels, sent + outgoing, (sent + [e']) + Without(outgoing, i), outgoing[i], transmitted, queued)
  {
    hide AllBooked, Listed, MayTransmit, Fresh, Waiting, Transmitted, Proper, Without;
    ProperAgain(sent, outgoing, |channels|, i, e');
    ListedMoves(sent, outgoing, |channels|, i, e');
    var c, after := e'.channel, (sent + [e']) + Without(outgoing, i);
    var lines := LinesOf(sent + outgoing, transmitted);
    if IsFirst(outgoing[i], |channels|) {
      FirstBooked(channels, sent, outgoing, transmitted, queued, i, e', e'.number / WINDOW_SIZE);
      LinesAre(after, transmitted[c := e'.serial],
               lines[c := Line(e'.serial, Waiting(sent + outgoing, c) + {e'.serial})]);
    } else {
      RetransmitBooked(channels, sent, outgoing, transmitted, queued, i, e');
      LinesAre(after, transmitted, lines);
    }
  }
}
