/** What one call of enet_protocol_send_reliable_outgoing_commands does to the commands in its list: which of them are
    due to be sent, and which of those go into the datagram that is being filled. */
module Sendings {
  import opened Bytes
  import opened Windows
  import opened Transport
  import opened Outboxes

  /** What the call finds: the channels, the bytes of packets in transit and their limit, and the datagram so far. */
  datatype Start = Start(ghost lines: seq<Line>, inTransit: nat, windowLimit: nat, commands: nat, buffers: nat,
                         packetSize: nat, mtu: nat)

  /** The throttled window, but at least one datagram. */
  function WindowLimit(packetThrottle: nat, windowSize: nat, mtu: nat): nat {
    if packetThrottle * windowSize / 32 > mtu then packetThrottle * windowSize / 32 else mtu
  }

  // ----- the commands that were picked

  /** The first `k` commands that were picked, and those that were not. */
  ghost function Picked(cmds: seq<Outgoing>, picked: set<nat>, k: nat): seq<Outgoing>
    requires k <= |cmds|
  {
    if k == 0 then [] else Picked(cmds, picked, k - 1) + if k - 1 in picked then [cmds[k - 1]] else []
  }

  ghost function Kept(cmds: seq<Outgoing>, picked: set<nat>, k: nat): seq<Outgoing>
    requires k <= |cmds|
  {
    if k == 0 then [] else Kept(cmds, picked, k - 1) + if k - 1 in picked then [] else [cmds[k - 1]]
  }

  /** The serials on channel `c` among these that are transmitted for the first time. */
  ghost function Firsts(cmds: seq<Outgoing>, c: nat): set<nat> {
    if cmds == [] then {}
    else
      var e := cmds[|cmds| - 1];
      Firsts(cmds[..|cmds| - 1], c) + if e.channel == c && e.attempts == 0 then {e.serial} else {}
  }

  /** The bytes of their packets, how many have one, and the bytes of all. */
  ghost function PacketBytes(cmds: seq<Outgoing>): nat {
    if cmds == [] then 0
    else
      var e := cmds[|cmds| - 1];
      PacketBytes(cmds[..|cmds| - 1]) + if e.packet then e.length else 0
  }

  ghost function Packets(cmds: seq<Outgoing>): nat {
    if cmds == [] then 0 else Packets(cmds[..|cmds| - 1]) + if cmds[|cmds| - 1].packet then 1 else 0
  }

  ghost function HeaderBytes(cmds: seq<Outgoing>): nat {
    if cmds == [] then 0 else HeaderBytes(cmds[..|cmds| - 1]) + cmds[|cmds| - 1].size
  }

  /** A command as it is kept after it was sent: once more, at this time; its first time says how long it waits. */
  predicate Marks(e: Outgoing, e': Outgoing, now: nat, roundTrip: nat, timeoutLimit: nat) {
    && e'.channel == e.channel && e'.number == e.number && e'.size == e.size && e'.length == e.length
    && e'.packet == e.packet && e'.attempts == e.attempts + 1 && e'.sentTime == now
    && (if e.timeout == 0 then e'.timeout == roundTrip && e'.timeoutLimit == timeoutLimit * roundTrip
        else e'.timeout == e.timeout && e'.timeoutLimit == e.timeoutLimit)
  }

  ghost predicate AllMark(cmds: seq<Outgoing>, sent: seq<Outgoing>, now: nat, roundTrip: nat, timeoutLimit: nat) {
    |cmds| == |sent| && forall j :: 0 <= j < |cmds| ==>
      Marks(cmds[j], sent[j], now, roundTrip, timeoutLimit) && sent[j].serial == cmds[j].serial
  }

  // ----- the commands that are due

  /** A channel's next number may be sent when it is not the first of a window of 4096 numbers, or when the window
      before it is not completely outstanding, and nothing is outstanding in it and the seven windows after it, out
      of 16. */
  ghost predicate Opens(unacked: set<nat>, n: nat) {
    n % 4096 == 0 ==>
      && |set m | m in unacked && m / 4096 % 16 == (n / 4096 + 15) % 16| < 4096
      && forall m :: m in unacked ==> (m / 4096 - n / 4096) % 16 >= 8
  }

  /** Command `k` is the next of its channel, and may not be sent yet, with what was picked before it. */
  ghost predicate Closed(cmds: seq<Outgoing>, picked: set<nat>, k: nat, s: Start)
    requires k < |cmds|
  {
    var e := cmds[k];
    e.channel < |s.lines| && e.attempts == 0
    && !Opens(s.lines[e.channel].unacked + Firsts(Picked(cmds, picked, k), e.channel), e.serial)
  }

  /** No command up to this one, of any channel, may not be sent yet; a control command does not ask. */
  ghost predicate Passes(cmds: seq<Outgoing>, picked: set<nat>, k: nat, s: Start)
    requires k < |cmds|
  {
    cmds[k].channel < |s.lines| ==> forall j :: 0 <= j <= k ==> !Closed(cmds, picked, j, s)
  }

  /** Its packet would be too much in transit. */
  ghost predicate Exceeds(cmds: seq<Outgoing>, picked: set<nat>, k: nat, s: Start)
    requires k < |cmds|
  {
    && cmds[k].packet && Passes(cmds, picked, k, s)
    && s.inTransit + PacketBytes(Picked(cmds, picked, k)) + cmds[k].length > s.windowLimit
  }

  /** It passes, and so far no packet would have been too much. */
  ghost predicate Eligible(cmds: seq<Outgoing>, picked: set<nat>, k: nat, s: Start)
    requires k < |cmds|
  {
    && Passes(cmds, picked, k, s)
    && (cmds[k].packet ==> forall j :: 0 <= j <= k ==> !Exceeds(cmds, picked, j, s))
  }

  /** There is room behind what was picked before it: for one of 32 commands, for its buffers out of 65, and for its
      bytes, whose number the code reckons in 16 bits. */
  ghost predicate Fits(cmds: seq<Outgoing>, picked: set<nat>, k: nat, s: Start)
    requires k < |cmds|
  {
    var e, before := cmds[k], Picked(cmds, picked, k);
    var room := s.mtu - (s.packetSize + HeaderBytes(before) + PacketBytes(before));
    && s.commands + |before| < 32 && s.buffers + |before| + Packets(before) + 1 < 65
    && e.size <= room && (e.packet ==> (e.size + e.length) % 0x1_0000 <= room % 0x1_0000)
  }

  /** The call ends at `stop`: of the commands before it exactly the eligible ones were picked, and all of them fit; the
      one at which it ends, if there is one, is eligible and does not fit. */
  ghost predicate Sends(cmds: seq<Outgoing>, picked: set<nat>, stop: nat, s: Start) {
    && stop <= |cmds|
    && (forall k :: k in picked ==> k < stop)
    && (forall k :: 0 <= k < stop ==> (k in picked <==> Eligible(cmds, picked, k, s)))
    && (forall k :: 0 <= k < stop && k in picked ==> Fits(cmds, picked, k, s))
    && (stop < |cmds| ==> Eligible(cmds, picked, stop, s) && !Fits(cmds, picked, stop, s))
  }

  // ----- what comes later does not matter

  lemma {:induction false} PickedAlike(cmds: seq<Outgoing>, p: set<nat>, q: set<nat>, k: nat)
    requires k <= |cmds| && forall j :: 0 <= j < k ==> (j in p <==> j in q)
    ensures Picked(cmds, p, k) == Picked(cmds, q, k) && Kept(cmds, p, k) == Kept(cmds, q, k)
  {
    if k > 0 { PickedAlike(cmds, p, q, k - 1); }
  }

  lemma EligibleAlike(cmds: seq<Outgoing>, p: set<nat>, q: set<nat>, k: nat, s: Start)
    requires k < |cmds| && forall j :: 0 <= j < k ==> (j in p <==> j in q)
    ensures Closed(cmds, p, k, s) == Closed(cmds, q, k, s) && Exceeds(cmds, p, k, s) == Exceeds(cmds, q, k, s)
    ensures Eligible(cmds, p, k, s) == Eligible(cmds, q, k, s) && Fits(cmds, p, k, s) == Fits(cmds, q, k, s)
  {
    forall j | 0 <= j <= k ensures Closed(cmds, p, j, s) == Closed(cmds, q, j, s) { ClosedAlike(cmds, p, q, j, s); }
    forall j | 0 <= j <= k ensures Exceeds(cmds, p, j, s) == Exceeds(cmds, q, j, s) {
      hide Closed;
      PickedAlike(cmds, p, q, j);
    }
    PickedAlike(cmds, p, q, k);
  }

  lemma ClosedAlike(cmds: seq<Outgoing>, p: set<nat>, q: set<nat>, k: nat, s: Start)
    requires k < |cmds| && forall j :: 0 <= j < k ==> (j in p <==> j in q)
    ensures Closed(cmds, p, k, s) == Closed(cmds, q, k, s)
  {
    hide Opens;
    PickedAlike(cmds, p, q, k);
  }

  /** So there is one outcome only. */
  lemma OneOutcome(cmds: seq<Outgoing>, p: set<nat>, stop: nat, q: set<nat>, stop': nat, s: Start)
    requires Sends(cmds, p, stop, s) && Sends(cmds, q, stop', s)
    ensures p == q && stop == stop'
  {
    hide Eligible, Fits, Closed, Exceeds;
    SameSoFar(cmds, p, stop, q, stop', s, if stop < stop' then stop else stop');
    if stop < stop' { EligibleAlike(cmds, p, q, stop, s); }
    if stop' < stop { EligibleAlike(cmds, p, q, stop', s); }
  }

  lemma {:induction false} SameSoFar(cmds: seq<Outgoing>, p: set<nat>, stop: nat, q: set<nat>, stop': nat, s: Start,
                                     k: nat)
    requires Sends(cmds, p, stop, s) && Sends(cmds, q, stop', s) && k <= stop && k <= stop'
    ensures forall j :: 0 <= j < k ==> (j in p <==> j in q)
  {
    hide Eligible, Fits, Closed, Exceeds;
    if k > 0 {
      SameSoFar(cmds, p, stop, q, stop', s, k - 1);
      EligibleAlike(cmds, p, q, k - 1, s);
    }
  }

  // ----- the loop

  /** What the loop keeps in its variables. */
  datatype Turn = Turn(i: nat, commands: nat, buffers: nat, packetSize: nat, inTransit: nat, sent: seq<Outgoing>,
                       outgoing: seq<Outgoing>, ghost lines: seq<Line>)

  /** The totals and the channels when these were sent. */
  ghost predicate Totalled(done: seq<Outgoing>, s: Start, t: Turn) {
    && t.inTransit == s.inTransit + PacketBytes(done) && t.commands == s.commands + |done|
    && t.buffers == s.buffers + |done| + Packets(done)
    && t.packetSize == s.packetSize + HeaderBytes(done) + PacketBytes(done)
    && |t.lines| == |s.lines|
    && forall c :: 0 <= c < |s.lines| ==> t.lines[c].unacked == s.lines[c].unacked + Firsts(done, c)
  }

  /** The lists, the totals and the channels after the first `k` commands. */
  ghost predicate Moved(cmds: seq<Outgoing>, picked: set<nat>, k: nat, s: Start, sent: seq<Outgoing>, now: nat,
                        roundTrip: nat, timeoutLimit: nat, t: Turn) {
    && k <= |cmds| && t.i <= |t.outgoing| && (forall j :: j in picked ==> j < k)
    && t.outgoing[..t.i] == Kept(cmds, picked, k) && t.outgoing[t.i..] == cmds[k..]
    && var done := Picked(cmds, picked, k);
    && sent <= t.sent && AllMark(done, t.sent[|sent|..], now, roundTrip, timeoutLimit)
    && Totalled(done, s, t)
  }

  /** Of the first `k` commands exactly the eligible ones were picked, and the flags say what was met. */
  ghost predicate Decided(cmds: seq<Outgoing>, picked: set<nat>, k: nat, s: Start, windowWrap: bool,
                          windowExceeded: bool, canPing: bool) {
    && k <= |cmds| && (forall j :: j in picked ==> j < k)
    && (windowWrap <==> exists j :: 0 <= j < k && Closed(cmds, picked, j, s))
    && (windowExceeded <==> exists j :: 0 <= j < k && Exceeds(cmds, picked, j, s))
    && (canPing <==> picked == {})
    && (forall j :: 0 <= j < k ==> (j in picked <==> Eligible(cmds, picked, j, s)))
    && (forall j :: 0 <= j < k && j in picked ==> Fits(cmds, picked, j, s))
  }

  lemma PickMore(cmds: seq<Outgoing>, picked: set<nat>, k: nat, s: Start)
    requires k < |cmds| && forall j :: j in picked ==> j < k
    ensures Picked(cmds, picked + {k}, k + 1) == Picked(cmds, picked, k) + [cmds[k]]
    ensures Kept(cmds, picked + {k}, k + 1) == Kept(cmds, picked, k)
    ensures Picked(cmds, picked, k + 1) == Picked(cmds, picked, k)
    ensures Kept(cmds, picked, k + 1) == Kept(cmds, picked, k) + [cmds[k]]
  {
    PickedAlike(cmds, picked, picked + {k}, k);
  }

  /** A command that is passed over stays in its place. */
  lemma PassOver(cmds: seq<Outgoing>, picked: set<nat>, k: nat, s: Start, sent: seq<Outgoing>, now: nat, roundTrip: nat,
                 timeoutLimit: nat, t: Turn)
    requires Moved(cmds, picked, k, s, sent, now, roundTrip, timeoutLimit, t) && t.i < |t.outgoing|
    ensures k < |cmds| && t.outgoing[t.i] == cmds[k]
    ensures Moved(cmds, picked, k + 1, s, sent, now, roundTrip, timeoutLimit, t.(i := t.i + 1))
  {
    hide AllMark, Picked, Kept, PacketBytes, Packets, HeaderBytes, Firsts;
    assert t.outgoing[t.i] == t.outgoing[t.i..][0];
    PickMore(cmds, picked, k, s);
    assert t.outgoing[..t.i + 1] == t.outgoing[..t.i] + [t.outgoing[t.i]];
    assert t.outgoing[t.i + 1..] == t.outgoing[t.i..][1..] && cmds[k + 1..] == cmds[k..][1..];
  }

  lemma OneMore(done: seq<Outgoing>, e: Outgoing, c: nat)
    ensures PacketBytes(done + [e]) == PacketBytes(done) + (if e.packet then e.length else 0)
    ensures Packets(done + [e]) == Packets(done) + (if e.packet then 1 else 0)
    ensures HeaderBytes(done + [e]) == HeaderBytes(done) + e.size
    ensures Firsts(done + [e], c) == Firsts(done, c) + (if e.channel == c && e.attempts == 0 then {e.serial} else {})
  {
    assert (done + [e])[..|done|] == done;
  }

  lemma MarksAsSent(e: Outgoing, now: nat, roundTrip: nat, timeoutLimit: nat)
    ensures Marks(e, AsSent(e, now, roundTrip, timeoutLimit), now, roundTrip, timeoutLimit)
    ensures AsSent(e, now, roundTrip, timeoutLimit).serial == e.serial
  {
  }

  lemma MarkMore(done: seq<Outgoing>, more: seq<Outgoing>, e: Outgoing, now: nat, roundTrip: nat, timeoutLimit: nat)
    requires AllMark(done, more, now, roundTrip, timeoutLimit)
    ensures AllMark(done + [e], more + [AsSent(e, now, roundTrip, timeoutLimit)], now, roundTrip, timeoutLimit)
  {
    hide Marks, AsSent;
    MarksAsSent(e, now, roundTrip, timeoutLimit);
  }

  lemma TotalMore(done: seq<Outgoing>, e: Outgoing, s: Start, t: Turn, t': Turn)
    requires Totalled(done, s, t)
    requires t'.inTransit == t.inTransit + (if e.packet then e.length else 0) && t'.commands == t.commands + 1
    requires t'.buffers == t.buffers + (if e.packet then 2 else 1)
    requires t'.packetSize == t.packetSize + e.size + (if e.packet then e.length else 0)
    requires t'.lines == if e.channel < |t.lines| && e.attempts == 0
                         then t.lines[e.channel := Line(e.serial, t.lines[e.channel].unacked + {e.serial})] else t.lines
    ensures Totalled(done + [e], s, t')
  {
    hide PacketBytes, Packets, HeaderBytes, Firsts;
    OneMore(done, e, 0);
    forall c | 0 <= c < |s.lines| ensures t'.lines[c].unacked == s.lines[c].unacked + Firsts(done + [e], c) {
      OneMore(done, e, c);
    }
  }

  /** A command that is sent moves from one list to the other. */
  lemma PassOn(cmds: seq<Outgoing>, picked: set<nat>, k: nat, s: Start, sent: seq<Outgoing>, now: nat, roundTrip: nat,
               timeoutLimit: nat, t: Turn, t': Turn)
    requires Moved(cmds, picked, k, s, sent, now, roundTrip, timeoutLimit, t) && t.i < |t.outgoing|
    requires t'.i == t.i && t'.outgoing == Without(t.outgoing, t.i)
    requires var e := t.outgoing[t.i];
      && t'.sent == t.sent + [AsSent(e, now, roundTrip, timeoutLimit)]
      && t'.inTransit == t.inTransit + (if e.packet then e.length else 0) && t'.commands == t.commands + 1
      && t'.buffers == t.buffers + (if e.packet then 2 else 1)
      && t'.packetSize == t.packetSize + e.size + (if e.packet then e.length else 0)
      && t'.lines == if e.channel < |t.lines| && e.attempts == 0
                     then t.lines[e.channel := Line(e.serial, t.lines[e.channel].unacked + {e.serial})] else t.lines
    ensures k < |cmds| && Moved(cmds, picked + {k}, k + 1, s, sent, now, roundTrip, timeoutLimit, t')
  {
    hide AllMark, AsSent, Totalled, Picked, Kept;
    var e, done := t.outgoing[t.i], Picked(cmds, picked, k);
    assert t.outgoing[t.i] == t.outgoing[t.i..][0];
    PickMore(cmds, picked, k, s);
    TotalMore(done, e, s, t, t');
    MarkMore(done, t.sent[|sent|..], e, now, roundTrip, timeoutLimit);
    assert t'.sent[|sent|..] == t.sent[|sent|..] + [AsSent(e, now, roundTrip, timeoutLimit)];
    assert t'.outgoing[..t.i] == t.outgoing[..t.i];
    assert t'.outgoing[t.i..] == t.outgoing[t.i..][1..] && cmds[k + 1..] == cmds[k..][1..];
  }

  /** Command `k` is not picked: it is not eligible, and it may be the first that is closed or too much. */
  lemma DecideNot(cmds: seq<Outgoing>, picked: set<nat>, k: nat, s: Start, windowWrap: bool, windowExceeded: bool,
                  canPing: bool)
    requires Decided(cmds, picked, k, s, windowWrap, windowExceeded, canPing) && k < |cmds|
    requires !Eligible(cmds, picked, k, s)
    ensures Decided(cmds, picked, k + 1, s, windowWrap || Closed(cmds, picked, k, s),
                    windowExceeded || Exceeds(cmds, picked, k, s), canPing)
  {
    hide Closed, Exceeds, Eligible, Fits;
  }

  lemma DecideSo(cmds: seq<Outgoing>, picked: set<nat>, k: nat, s: Start, windowWrap: bool, windowExceeded: bool,
                 canPing: bool)
    requires Decided(cmds, picked, k, s, windowWrap, windowExceeded, canPing) && k < |cmds|
    requires Eligible(cmds, picked, k, s) && Fits(cmds, picked, k, s)
    requires !Closed(cmds, picked, k, s) && !Exceeds(cmds, picked, k, s)
    ensures Decided(cmds, picked + {k}, k + 1, s, windowWrap, windowExceeded, false)
  {
    hide Closed, Exceeds, Eligible, Fits;
    forall j | 0 <= j <= k
      ensures Closed(cmds, picked + {k}, j, s) == Closed(cmds, picked, j, s)
      ensures Exceeds(cmds, picked + {k}, j, s) == Exceeds(cmds, picked, j, s)
      ensures Eligible(cmds, picked + {k}, j, s) == Eligible(cmds, picked, j, s)
      ensures Fits(cmds, picked + {k}, j, s) == Fits(cmds, picked, j, s)
    {
      EligibleAlike(cmds, picked + {k}, picked, j, s);
    }
  }

  /** What the loop's tests mean. */
  lemma TestsMean(cmds: seq<Outgoing>, picked: set<nat>, k: nat, s: Start, windowWrap: bool, windowExceeded: bool,
                  canPing: bool)
    requires Decided(cmds, picked, k, s, windowWrap, windowExceeded, canPing) && k < |cmds|
    ensures var e := cmds[k];
      && (Passes(cmds, picked, k, s) <==>
            (e.channel < |s.lines| ==> !windowWrap && !Closed(cmds, picked, k, s)))
      && (Eligible(cmds, picked, k, s) <==>
            Passes(cmds, picked, k, s) && (e.packet ==> !windowExceeded && !Exceeds(cmds, picked, k, s)))
      && (!Passes(cmds, picked, k, s) ==> !Exceeds(cmds, picked, k, s))
      && (e.channel >= |s.lines| ==> !Closed(cmds, picked, k, s))
      && (!e.packet ==> !Exceeds(cmds, picked, k, s))
  {
    hide Opens, Fits, Picked, PacketBytes;
  }

  lemma OpensMeans(unacked: set<nat>, n: nat)
    ensures Opens(unacked, n) <==> MayTransmit(unacked, n)
  {
    assert (set m | m in unacked && m / 4096 % 16 == (n / 4096 + 15) % 16)
        == Occupying(unacked, (Window(n) + WINDOWS - 1) % WINDOWS);
  }

  /** And so do the sums. */
  lemma SumsMean(cmds: seq<Outgoing>, picked: set<nat>, k: nat, s: Start, sent: seq<Outgoing>, now: nat, roundTrip: nat,
                 timeoutLimit: nat, t: Turn)
    requires Moved(cmds, picked, k, s, sent, now, roundTrip, timeoutLimit, t) && k < |cmds|
    ensures var e := cmds[k];
      && (Closed(cmds, picked, k, s) <==>
            e.channel < |t.lines| && e.attempts == 0 && !MayTransmit(t.lines[e.channel].unacked, e.serial))
      && (Passes(cmds, picked, k, s) ==>
            (Exceeds(cmds, picked, k, s) <==> e.packet && t.inTransit + e.length > s.windowLimit))
      && (Fits(cmds, picked, k, s) <==>
            && t.commands < 32 && t.buffers + 1 < 65 && e.size <= s.mtu - t.packetSize
            && (e.packet ==> (e.size + e.length) % 0x1_0000 <= (s.mtu - t.packetSize) % 0x1_0000))
  {
    hide AllMark, Opens, MayTransmit;
    var e := cmds[k];
    if e.channel < |t.lines| { OpensMeans(t.lines[e.channel].unacked, e.serial); }
  }

  /** One turn of the loop, until a command is sent. */
  lemma Judged(cmds: seq<Outgoing>, picked: set<nat>, k: nat, s: Start, sent: seq<Outgoing>, now: nat, roundTrip: nat,
               timeoutLimit: nat, t: Turn, windowWrap: bool, windowExceeded: bool, canPing: bool, shut: bool)
    requires Moved(cmds, picked, k, s, sent, now, roundTrip, timeoutLimit, t) && t.i < |t.outgoing|
    requires Decided(cmds, picked, k, s, windowWrap, windowExceeded, canPing)
    requires var e := t.outgoing[t.i];
      e.channel < |t.lines| ==> (shut <==> e.attempts == 0 && !MayTransmit(t.lines[e.channel].unacked, e.serial))
    ensures k < |cmds| && Moved(cmds, picked, k + 1, s, sent, now, roundTrip, timeoutLimit, t.(i := t.i + 1))
    ensures var e := t.outgoing[t.i];
      if e.channel < |t.lines| && (windowWrap || shut) then
        Decided(cmds, picked, k + 1, s, true, windowExceeded, canPing)
      else if e.packet && (windowExceeded || t.inTransit + e.length > s.windowLimit) then
        Decided(cmds, picked, k + 1, s, windowWrap, true, canPing)
      else
        && Eligible(cmds, picked, k, s)
        && (Fits(cmds, picked, k, s) <==>
              && t.commands < 32 && t.buffers + 1 < 65 && e.size <= s.mtu - t.packetSize
              && (e.packet ==> (e.size + e.length) % 0x1_0000 <= (s.mtu - t.packetSize) % 0x1_0000))
        && (Fits(cmds, picked, k, s) ==> Decided(cmds, picked + {k}, k + 1, s, windowWrap, windowExceeded, false))
  {
    hide Moved, Decided, Eligible, Fits, Closed, Exceeds, Passes, MayTransmit;
    SameLines(cmds, picked, k, s, sent, now, roundTrip, timeoutLimit, t);
    PassOver(cmds, picked, k, s, sent, now, roundTrip, timeoutLimit, t);
    TestsMean(cmds, picked, k, s, windowWrap, windowExceeded, canPing);
    SumsMean(cmds, picked, k, s, sent, now, roundTrip, timeoutLimit, t);
    if !Eligible(cmds, picked, k, s) {
      DecideNot(cmds, picked, k, s, windowWrap, windowExceeded, canPing);
    } else if Fits(cmds, picked, k, s) {
      DecideSo(cmds, picked, k, s, windowWrap, windowExceeded, canPing);
    }
  }

  lemma SameLines(cmds: seq<Outgoing>, picked: set<nat>, k: nat, s: Start, sent: seq<Outgoing>, now: nat,
                  roundTrip: nat, timeoutLimit: nat, t: Turn)
    requires Moved(cmds, picked, k, s, sent, now, roundTrip, timeoutLimit, t)
    ensures |t.lines| == |s.lines|
  {
    hide AllMark;
  }

  // ----- the end

  lemma {:induction false} NothingPicked(cmds: seq<Outgoing>, k: nat)
    requires k <= |cmds|
    ensures Picked(cmds, {}, k) == [] && Kept(cmds, {}, k) == cmds[..k]
  {
    if k > 0 {
      NothingPicked(cmds, k - 1);
      assert cmds[..k] == cmds[..k - 1] + [cmds[k - 1]];
    }
  }

  lemma Begins(cmds: seq<Outgoing>, s: Start, sent: seq<Outgoing>, now: nat, roundTrip: nat, timeoutLimit: nat)
    ensures Moved(cmds, {}, 0, s, sent, now, roundTrip, timeoutLimit,
                  Turn(0, s.commands, s.buffers, s.packetSize, s.inTransit, sent, cmds, s.lines))
    ensures Decided(cmds, {}, 0, s, false, false, true)
  {
    assert sent[|sent|..] == [] && cmds[..0] == [] && cmds[0..] == cmds;
  }

  lemma {:induction false} RestIsKept(cmds: seq<Outgoing>, picked: set<nat>, k: nat, n: nat)
    requires k <= n <= |cmds| && forall j :: j in picked ==> j < k
    ensures Picked(cmds, picked, n) == Picked(cmds, picked, k)
    ensures Kept(cmds, picked, n) == Kept(cmds, picked, k) + cmds[k..n]
    decreases n
  {
    if n > k {
      RestIsKept(cmds, picked, k, n - 1);
      assert cmds[k..n] == cmds[k..n - 1] + [cmds[n - 1]];
    }
  }

  /** What is there when the loop ends at command `k`. */
  ghost predicate Outcome(cmds: seq<Outgoing>, picked: set<nat>, stop: nat, s: Start, sent: seq<Outgoing>, now: nat,
                          roundTrip: nat, timeoutLimit: nat, t: Turn, canPing: bool) {
    && Sends(cmds, picked, stop, s)
    && (canPing <==> forall k :: 0 <= k < |cmds| ==> !Eligible(cmds, picked, k, s))
    && var done := Picked(cmds, picked, |cmds|);
    && t.outgoing == Kept(cmds, picked, |cmds|)
    && sent <= t.sent && AllMark(done, t.sent[|sent|..], now, roundTrip, timeoutLimit)
    && t.inTransit == s.inTransit + PacketBytes(done) && t.commands == s.commands + |done|
    && t.buffers == s.buffers + |done| + Packets(done)
    && t.packetSize == s.packetSize + HeaderBytes(done) + PacketBytes(done)
  }

  lemma AllDecided(cmds: seq<Outgoing>, picked: set<nat>, k: nat, s: Start, windowWrap: bool, windowExceeded: bool,
                   canPing: bool)
    requires Decided(cmds, picked, k, s, windowWrap, windowExceeded, canPing)
    requires k == |cmds| || (Eligible(cmds, picked, k, s) && !Fits(cmds, picked, k, s))
    ensures Sends(cmds, picked, k, s)
    ensures (canPing && k == |cmds|) <==> forall j :: 0 <= j < |cmds| ==> !Eligible(cmds, picked, j, s)
  {
    hide Eligible, Fits, Closed, Exceeds;
    if j :| j in picked { assert Eligible(cmds, picked, j, s); }
  }

  lemma Ends(cmds: seq<Outgoing>, picked: set<nat>, k: nat, s: Start, sent: seq<Outgoing>, now: nat, roundTrip: nat,
             timeoutLimit: nat, t: Turn, windowWrap: bool, windowExceeded: bool, canPing: bool)
    requires Moved(cmds, picked, k, s, sent, now, roundTrip, timeoutLimit, t)
    requires Decided(cmds, picked, k, s, windowWrap, windowExceeded, canPing)
    requires t.i == |t.outgoing| || (k < |cmds| && Eligible(cmds, picked, k, s) && !Fits(cmds, picked, k, s))
    ensures k < |cmds| <==> t.i < |t.outgoing|
    ensures Outcome(cmds, picked, k, s, sent, now, roundTrip, timeoutLimit, t.(i := 0), canPing && t.i == |t.outgoing|)
  {
    hide Eligible, Fits, AllMark, Decided, Sends, PacketBytes, Packets, HeaderBytes, Firsts, Picked, Kept;
    assert |t.outgoing[t.i..]| == |cmds[k..]|;
    AllDecided(cmds, picked, k, s, windowWrap, windowExceeded, canPing);
    RestIsKept(cmds, picked, k, |cmds|);
    assert t.outgoing == t.outgoing[..t.i] + t.outgoing[t.i..];
    assert cmds[k..|cmds|] == cmds[k..];
  }

  /** These are within the limits. */
  ghost predicate Within(done: seq<Outgoing>, s: Start, short: bool) {
    && (done == [] ==> PacketBytes(done) == HeaderBytes(done) == 0) && (s.commands <= 32 ==> s.commands + |done| <= 32)
    && (PacketBytes(done) == 0 || s.inTransit + PacketBytes(done) <= s.windowLimit)
    && (short && s.packetSize <= s.mtu < 0x1_0000 ==>
          s.packetSize + HeaderBytes(done) + PacketBytes(done) <= s.mtu)
  }

  ghost predicate AllShort(cmds: seq<Outgoing>) {
    forall j :: 0 <= j < |cmds| ==> cmds[j].size + cmds[j].length < 0x1_0000
  }

  lemma OneWithin(cmds: seq<Outgoing>, picked: set<nat>, k: nat, s: Start)
    requires k < |cmds| && Eligible(cmds, picked, k, s) && Fits(cmds, picked, k, s)
    requires Within(Picked(cmds, picked, k), s, AllShort(cmds))
    ensures Within(Picked(cmds, picked, k) + [cmds[k]], s, AllShort(cmds))
  {
    hide Passes, Closed, PacketBytes, HeaderBytes, Packets, Firsts, Picked;
    var e := cmds[k];
    OneMore(Picked(cmds, picked, k), e, 0);
    assert e.packet ==> !Exceeds(cmds, picked, k, s);
  }

  /** So the bounds are kept, by everything that was picked up to any command. */
  lemma {:induction false} PickedWithin(cmds: seq<Outgoing>, picked: set<nat>, stop: nat, s: Start, k: nat)
    requires Sends(cmds, picked, stop, s) && k <= stop
    ensures Within(Picked(cmds, picked, k), s, AllShort(cmds))
    decreases k
  {
    hide Eligible, Fits, Within, AllShort;
    if k > 0 {
      PickedWithin(cmds, picked, stop, s, k - 1);
      if k - 1 in picked {
        OneWithin(cmds, picked, k - 1, s);
      } else {
        assert Picked(cmds, picked, k) == Picked(cmds, picked, k - 1);
      }
    } else {
      NoneWithin(s, AllShort(cmds));
    }
  }

  lemma NoneWithin(s: Start, short: bool)
    ensures Within([], s, short)
  {
  }

  lemma OutcomeBounds(cmds: seq<Outgoing>, picked: set<nat>, stop: nat, s: Start, sent: seq<Outgoing>, now: nat,
                      roundTrip: nat, timeoutLimit: nat, t: Turn, canPing: bool)
    requires Outcome(cmds, picked, stop, s, sent, now, roundTrip, timeoutLimit, t, canPing)
    ensures sent <= t.sent && t.commands == s.commands + |t.sent| - |sent|
    ensures s.commands <= 32 ==> t.commands <= 32
    ensures t.inTransit <= s.inTransit || t.inTransit <= s.windowLimit
    ensures s.packetSize <= s.mtu < 0x1_0000 && AllShort(cmds) ==> t.packetSize <= s.mtu
    ensures canPing ==> t.sent == sent && t.outgoing == cmds
  {
    hide Eligible, Fits, Marks, PacketBytes, Packets, HeaderBytes, Picked, Kept, AllShort;
    PickedWithin(cmds, picked, stop, s, stop);
    RestIsKept(cmds, picked, stop, |cmds|);
    NothingPicked(cmds, |cmds|);
    if canPing { assert picked == {}; }
    assert cmds[..|cmds|] == cmds && t.sent == sent + t.sent[|sent|..];
  }
}
