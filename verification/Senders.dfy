/** The sending half of a peer in place: peer.c and protocol.c on outgoing reliable commands. */
module Senders {
  import opened Bytes
  import opened Windows
  import opened Bits
  import opened Transport
  import opened Outboxes
  import opened Sendings
  import opened Timeouts

  class Sender {
    var channels: seq<Channel>
    var outgoing: seq<Outgoing>
    var sent: seq<Outgoing>
    var inTransit: nat
    var nextTimeout: nat
    var earliestTimeout: nat
    /** The number of the last control command. */
    var control: u16
    ghost var transmitted: seq<nat>
    ghost var queued: seq<nat>

    ghost predicate Valid()
      reads this
    {
      && Listed(sent, outgoing, |channels|) && AllBooked(channels, sent + outgoing, transmitted, queued)
      && |transmitted| == |queued| == |channels| && inTransit == Load(sent)
      && (sent != [] ==> nextTimeout == sent[0].sentTime + sent[0].timeout)
    }

    /** The serials the sender waits for on channel `c`. */
    ghost function Unacked(c: nat): set<nat>
      reads this
    {
      Waiting(sent + outgoing, c)
    }

    /** The channels as Transport sees them. */
    ghost function Lines(): (lines: seq<Line>)
      reads this
    {
      LinesOf(sent + outgoing, transmitted)
    }

    constructor (channelCount: nat)
      ensures Valid() && |channels| == channelCount && sent == [] && outgoing == [] && earliestTimeout == control == 0
      ensures forall c :: 0 <= c < channelCount ==> Lines()[c] == Line(0, {})
    {
      channels := seq(channelCount, _ => UNUSED);
      outgoing, sent, inTransit, nextTimeout, earliestTimeout, control := [], [], 0, 0, 0, 0;
      transmitted, queued := seq(channelCount, _ => 0), seq(channelCount, _ => 0);
      new;
      UnusedBooked(channels, transmitted);
      assert sent + outgoing == [] && transmitted == queued;
    }

    /** A command of the outgoing list is handed to the socket; the body of the sending loop. */
    method TransmitAt(i: nat, now: nat, roundTrip: nat, timeoutLimit: nat)
      requires Valid() && i < |outgoing|
      requires var e := outgoing[i];
        e.channel < |channels| && e.attempts == 0 ==>
          Fresh(outgoing[..i], e.channel) == [] && MayTransmit(Unacked(e.channel), e.serial)
      modifies this
      ensures Valid() && |channels| == old(|channels|) && queued == old(queued) && control == old(control)
      ensures earliestTimeout == old(earliestTimeout)
      ensures outgoing == Without(old(outgoing), i)
      ensures sent == old(sent) + [AsSent(old(outgoing[i]), now, roundTrip, timeoutLimit)]
      ensures inTransit == old(inTransit) + Payload(old(outgoing[i]))
      ensures var e := old(outgoing[i]); var before := old(Lines());
        if e.channel < |channels| && e.attempts == 0 then
          && e.channel < |before| && e.serial == before[e.channel].transmitted + 1
          && Lines() == before[e.channel := Line(e.serial, before[e.channel].unacked + {e.serial})]
        else Lines() == before
    {
      hide AllBooked, MayTransmit, Fresh, Waiting, Load, Listed, LinesOf, Transmitted;
      var e := outgoing[i];
      var e' := AsSent(e, now, roundTrip, timeoutLimit);
      TransmitKeeps(channels, sent, outgoing, transmitted, queued, i, e');
      LoadMore(sent, e');
      LineAt(sent + outgoing, transmitted, e.channel);
      if e.channel < |channels| && e.attempts < 1 {
        channels := channels[e.channel := Transmitted(channels[e.channel], e.number / WINDOW_SIZE)];
        transmitted := transmitted[e.channel := e.serial];
      }
      if sent == [] { nextTimeout := now + e'.timeout; }
      sent := sent + [e'];
      outgoing := Without(outgoing, i);
      if e.packet { inTransit := inTransit + e.length; }
    }

    /** No more commands fit into the packet that is being filled. */
    predicate Full(e: Outgoing, commandCount: nat, bufferCount: nat, packetSize: nat, mtu: nat) {
      || commandCount >= MAXIMUM_PACKET_COMMANDS || bufferCount + 1 >= 1 + 2 * MAXIMUM_PACKET_COMMANDS
      || mtu - packetSize < e.size || (e.packet && (mtu - packetSize) % WRAP < (e.size + e.length) % WRAP)
    }

    lemma FullMeans(e: Outgoing, commandCount: nat, bufferCount: nat, packetSize: nat, mtu: nat)
      ensures Full(e, commandCount, bufferCount, packetSize, mtu) <==>
        !(&& commandCount < 32 && bufferCount + 1 < 65 && e.size <= mtu - packetSize
          && (e.packet ==> (e.size + e.length) % 0x1_0000 <= (mtu - packetSize) % 0x1_0000))
    {
    }

    /** The test before the first transmission of a command on a channel. */
    method Shut(i: nat) returns (shut: bool)
      requires Valid() && i < |outgoing| && outgoing[i].channel < |channels|
      ensures |Lines()| == |channels|
      ensures shut <==> outgoing[i].attempts == 0
                        && !MayTransmit(Lines()[outgoing[i].channel].unacked, outgoing[i].serial)
      ensures Lines()[outgoing[i].channel].unacked == Unacked(outgoing[i].channel) && outgoing[i].packet
    {
      hide AllBooked, MayTransmit, Waiting, Load, Listed, Blocked;
      var e := outgoing[i];
      ProperAt(sent, outgoing, |channels|, i);
      GateOpens(channels, sent, outgoing, transmitted, queued, i);
      LineAt(sent + outgoing, transmitted, e.channel);
      shut := e.attempts < 1 && e.number % WINDOW_SIZE == 0 && Blocked(channels[e.channel], e.number / WINDOW_SIZE);
    }

    /** What the loop of SendReliable has come to. */
    ghost function Now(i: nat, commands: nat, buffers: nat, packetSize: nat): Turn
      reads this
    {
      Turn(i, commands, buffers, packetSize, inTransit, sent, outgoing, Lines())
    }

    /** What it starts from. */
    ghost function From(windowLimit: nat, commands: nat, buffers: nat, packetSize: nat, mtu: nat): Start
      reads this
    {
      Start(Lines(), inTransit, windowLimit, commands, buffers, packetSize, mtu)
    }

    /** The larger of the throttled window and the MTU. */
    method ThrottledWindow(packetThrottle: nat, windowSize: nat, mtu: nat) returns (limit: nat)
      ensures limit == WindowLimit(packetThrottle, windowSize, mtu)
    {
      limit := packetThrottle * windowSize / 32;
      if limit < mtu { limit := mtu; }
    }

    /** A command goes into the datagram. */
    method SendAt(i: nat, now: nat, roundTrip: nat, timeoutLimit: nat, commandCount: nat, bufferCount: nat,
                  packetSize: nat, ghost cmds: seq<Outgoing>, ghost picked: set<nat>, ghost k: nat, ghost s: Start,
                  ghost sent0: seq<Outgoing>, ghost log: Log, ghost lines0: seq<Line>)
      returns (commandCount': nat, bufferCount': nat, packetSize': nat, ghost log': Log)
      requires Valid() && i < |outgoing|
      requires var e := outgoing[i];
        e.channel < |channels| && e.attempts == 0 ==>
          Fresh(outgoing[..i], e.channel) == [] && MayTransmit(Unacked(e.channel), e.serial)
      requires Moved(cmds, picked, k, s, sent0, now, roundTrip, timeoutLimit,
                     Now(i, commandCount, bufferCount, packetSize))
      requires AllFollow(log, lines0, Lines())
      modifies this
      ensures Valid() && |channels| == old(|channels|) && queued == old(queued) && control == old(control)
      ensures earliestTimeout == old(earliestTimeout)
      ensures i <= |outgoing| == old(|outgoing|) - 1 && outgoing[..i] == old(outgoing[..i])
      ensures Moved(cmds, picked + {k}, k + 1, s, sent0, now, roundTrip, timeoutLimit,
                    Now(i, commandCount', bufferCount', packetSize'))
      ensures AllFollow(log', lines0, Lines())
    {
      hide AllBooked, MayTransmit, Fresh, Waiting, Load, Listed, AsSent, Proper, Booked, Moved, LinesOf;
      var e := outgoing[i];
      ghost var t, lines, kept := Now(i, commandCount, bufferCount, packetSize), Lines(), outgoing[..i];
      LineAt(sent + outgoing, transmitted, e.channel);
      TransmitAt(i, now, roundTrip, timeoutLimit);
      assert outgoing[..i] == kept;
      log' := log;
      if e.channel < |channels| && e.attempts == 0 {
        FollowMore(log, lines0, lines, e.channel, e.serial);
        log' := log + [(e.channel, e.serial)];
      }
      packetSize' := packetSize + e.size + if e.packet then e.length else 0;
      commandCount' := commandCount + 1;
      bufferCount' := bufferCount + if e.packet then 2 else 1;
      PassOn(cmds, picked, k, s, sent0, now, roundTrip, timeoutLimit, t,
             Now(i, commandCount', bufferCount', packetSize'));
    }

    /** enet_protocol_send_reliable_outgoing_commands.  Of the list exactly the commands are sent that are eligible and
        come before the first eligible one that does not fit any more; a ping may be added when none is eligible. */
    method SendReliable(now: nat, roundTrip: nat, timeoutLimit: nat, packetThrottle: nat, windowSize: nat, mtu: nat,
                        commandCount: nat, bufferCount: nat, packetSize: nat)
      returns (canPing: bool, continueSending: bool, commandCount': nat, bufferCount': nat, packetSize': nat,
               ghost log: Log, ghost picked: set<nat>, ghost stop: nat)
      requires Valid()
      modifies this
      ensures Valid() && |channels| == old(|channels|) && queued == old(queued) && control == old(control)
      ensures earliestTimeout == old(earliestTimeout)
      ensures Outcome(old(outgoing), picked, stop,
                      old(From(WindowLimit(packetThrottle, windowSize, mtu), commandCount, bufferCount, packetSize,
                               mtu)),
                      old(sent), now, roundTrip, timeoutLimit, Now(0, commandCount', bufferCount', packetSize'),
                      canPing)
      ensures continueSending <==> stop < |old(outgoing)|
      ensures AllFollow(log, old(Lines()), Lines())
      ensures inTransit <= old(inTransit) || inTransit <= WindowLimit(packetThrottle, windowSize, mtu)
      ensures old(sent) <= sent && commandCount' == commandCount + |sent| - |old(sent)|
      ensures commandCount <= 32 ==> commandCount' <= 32
      ensures packetSize <= mtu < 0x1_0000 && AllShort(old(outgoing)) ==> packetSize' <= mtu
      ensures canPing ==> sent == old(sent) && outgoing == old(outgoing) && log == []
    {
      hide AllBooked, MayTransmit, Fresh, Waiting, Load, Listed, AsSent, Proper, Full, Booked, Moved, Decided,
           Eligible, Passes, Exceeds, Closed, Fits, Outcome, Picked, Kept, LinesOf, AllFollow,
           AllShort, WindowLimit;
      commandCount', bufferCount', packetSize', log := commandCount, bufferCount, packetSize, [];
      var windowExceeded, windowWrap, i := false, false, 0;
      var windowLimit := ThrottledWindow(packetThrottle, windowSize, mtu);
      canPing, continueSending, picked, stop := true, false, {}, 0;
      ghost var cmds, sent0, lines0 := outgoing, sent, Lines();
      ghost var s := From(windowLimit, commandCount, bufferCount, packetSize, mtu);
      Begins(cmds, s, sent, now, roundTrip, timeoutLimit);
      NothingFresh();
      NothingFollows(Lines());
      assert outgoing[..0] == [];
      while i < |outgoing|
        invariant Valid() && i <= |outgoing| && |channels| == old(|channels|)
        invariant queued == old(queued) && control == old(control) && earliestTimeout == old(earliestTimeout)
        invariant windowExceeded || windowWrap || forall c :: 0 <= c < |channels| ==> Fresh(outgoing[..i], c) == []
        invariant Moved(cmds, picked, stop, s, sent0, now, roundTrip, timeoutLimit,
                        Now(i, commandCount', bufferCount', packetSize'))
        invariant Decided(cmds, picked, stop, s, windowWrap, windowExceeded, canPing)
        invariant AllFollow(log, lines0, Lines())
        invariant canPing ==> log == []
        decreases |outgoing| - i
      {
        var e := outgoing[i];
        ghost var t := Now(i, commandCount', bufferCount', packetSize');
        ghost var wrapped, exceeded, ping := windowWrap, windowExceeded, canPing;
        LineAt(sent + outgoing, transmitted, 0);
        FullMeans(e, commandCount', bufferCount', packetSize', mtu);
        var shut := false;
        if e.channel < |channels| { shut := Shut(i); }
        Judged(cmds, picked, stop, s, sent0, now, roundTrip, timeoutLimit, t, wrapped, exceeded, ping, shut);
        if e.channel < |channels| {
          if !windowWrap && shut { windowWrap := true; }
          if windowWrap {
            i, stop := i + 1, stop + 1;
            continue;
          }
        }
        if e.packet {
          if !windowExceeded && inTransit + e.length > windowLimit { windowExceeded := true; }
          if windowExceeded {
            i, stop := i + 1, stop + 1;
            continue;
          }
        }
        canPing := false;
        if Full(e, commandCount', bufferCount', packetSize', mtu) {
          continueSending := true;
          Ends(cmds, picked, stop, s, sent0, now, roundTrip, timeoutLimit, t, wrapped, exceeded, ping);
          OutcomeBounds(cmds, picked, stop, s, sent0, now, roundTrip, timeoutLimit, t.(i := 0), false);
          return;
        }
        commandCount', bufferCount', packetSize', log :=
          SendAt(i, now, roundTrip, timeoutLimit, commandCount', bufferCount', packetSize', cmds, picked, stop, s,
                 sent0, log, lines0);
        picked, stop := picked + {stop}, stop + 1;
      }
      Ends(cmds, picked, stop, s, sent0, now, roundTrip, timeoutLimit,
           Now(i, commandCount', bufferCount', packetSize'), windowWrap, windowExceeded, canPing);
      OutcomeBounds(cmds, picked, stop, s, sent0, now, roundTrip, timeoutLimit,
                    Now(0, commandCount', bufferCount', packetSize'), canPing);
    }

    /** enet_peer_setup_outgoing_command for a reliable command: it gets the next number of its channel, or of the
        peer when it is a control command. */
    method Queue(e: Outgoing)
      requires Valid() && e.attempts == 0 && (e.channel < |channels| ==> e.packet)
      modifies this
      ensures Valid() && |channels| == old(|channels|) && Lines() == old(Lines())
      ensures earliestTimeout == old(earliestTimeout)
      ensures |outgoing| == |old(outgoing)| + 1 && outgoing[..|old(outgoing)|] == old(outgoing) && sent == old(sent)
      ensures e.channel < |channels| ==>
        && queued == old(queued)[e.channel := old(queued)[e.channel] + 1] && control == old(control)
        && outgoing[|old(outgoing)|] == e.(serial := queued[e.channel], number := Wire(queued[e.channel]))
      ensures e.channel >= |channels| ==>
        && queued == old(queued) && control == (old(control) + 1) % WRAP
        && outgoing[|old(outgoing)|] == e.(number := control)
    {
      hide AllBooked, Fresh, Waiting, Load, Listed, Wire;
      var command := e;
      ghost var channels0, queued0, cmds := channels, queued, sent + outgoing;
      if e.channel < |channels| {
        NextNumber(channels, cmds, transmitted, queued, e.channel);
        var number := (channels[e.channel].outgoing + 1) % WRAP;
        queued := queued[e.channel := queued[e.channel] + 1];
        channels := channels[e.channel := channels[e.channel].(outgoing := number)];
        command := e.(serial := queued[e.channel], number := number);
      } else {
        control := (control + 1) % WRAP;
        command := e.(number := control);
      }
      QueueBooked(channels0, cmds, transmitted, queued0, command, channels, queued);
      ListedMore(sent, outgoing, |channels|, command);
      outgoing := outgoing + [command];
      assert sent + outgoing == cmds + [command];
      LinesAre(sent + outgoing, transmitted, old(Lines()));
    }

    /** The two searches of enet_protocol_remove_sent_reliable_command. */
    method FindSent(number: u16, channelID: nat) returns (found: bool, wasSent: bool, i: nat)
      requires Listed(sent, outgoing, |channels|)
      ensures found ==> i < (if wasSent then |sent| else |outgoing|)
      ensures found ==> Named(if wasSent then sent[i] else outgoing[i], number, channelID)
      ensures !found ==> forall j :: 0 <= j < |sent + outgoing| ==> !Named((sent + outgoing)[j], number, channelID)
      ensures found && !wasSent ==> forall j :: 0 <= j < |sent| ==> !Named(sent[j], number, channelID)
    {
      found, wasSent, i := false, true, 0;
      while i < |sent|
        invariant i <= |sent| && forall j :: 0 <= j < i ==> !Named(sent[j], number, channelID)
      {
        if sent[i].number == number && sent[i].channel == channelID { return true, true, i; }
        i := i + 1;
      }
      wasSent, i := false, 0;
      while i < |outgoing|
        invariant i <= |outgoing| && forall j :: 0 <= j < i ==> !Named(outgoing[j], number, channelID)
      {
        if outgoing[i].attempts < 1 { return false, false, 0; }
        if outgoing[i].number == number && outgoing[i].channel == channelID { return true, false, i; }
        i := i + 1;
      }
    }

    /** A command that was transmitted leaves its list. */
    method Drop(wasSent: bool, i: nat)
      requires Valid() && i < (if wasSent then |sent| else |outgoing|)
      requires (if wasSent then sent[i] else outgoing[i]).attempts > 0
      modifies this
      ensures Valid() && |channels| == old(|channels|)
      ensures queued == old(queued) && transmitted == old(transmitted) && control == old(control)
      ensures earliestTimeout == old(earliestTimeout)
      ensures sent == (if wasSent then Without(old(sent), i) else old(sent))
      ensures outgoing == (if wasSent then old(outgoing) else Without(old(outgoing), i))
      ensures var e := old(if wasSent then sent[i] else outgoing[i]);
        Lines() == if e.channel < |channels|
                   then old(Lines())[e.channel := Line(transmitted[e.channel], old(Unacked(e.channel)) - {e.serial})]
                   else old(Lines())
    {
      hide AllBooked, Waiting, Load, Listed, Relieved, LinesOf;
      var e := if wasSent then sent[i] else outgoing[i];
      if wasSent {
        SentDropped(channels, sent, outgoing, transmitted, queued, i);
        WithoutLoad(sent, i);
        sent := Without(sent, i);
        if e.packet { inTransit := inTransit - e.length; }
      } else {
        OutgoingDropped(channels, sent, outgoing, transmitted, queued, i);
        outgoing := Without(outgoing, i);
      }
      if e.channel < |channels| {
        channels := channels[e.channel := Relieved(channels[e.channel], e.number / WINDOW_SIZE)];
      }
      if sent != [] { nextTimeout := sent[0].sentTime + sent[0].timeout; }
    }

    /** enet_protocol_remove_sent_reliable_command: what an acknowledgement does to the lists and the windows. */
    method RemoveSent(number: u16, channelID: nat) returns (found: bool)
      requires Valid()
      modifies this
      ensures Valid() && |channels| == old(|channels|)
      ensures queued == old(queued) && transmitted == old(transmitted) && control == old(control)
      ensures earliestTimeout == old(earliestTimeout)
      ensures found <==>
        exists j :: 0 <= j < |old(sent + outgoing)| && Named(old(sent + outgoing)[j], number, channelID)
      ensures !found ==> sent == old(sent) && outgoing == old(outgoing)
      ensures outgoing != old(outgoing) ==>
        forall j :: 0 <= j < |old(sent)| ==> !Named(old(sent)[j], number, channelID)
      ensures found ==>
        || (exists i :: 0 <= i < |old(sent)| && Named(old(sent)[i], number, channelID)
                        && sent == Without(old(sent), i) && outgoing == old(outgoing))
        || (exists i :: 0 <= i < |old(outgoing)| && Named(old(outgoing)[i], number, channelID)
                        && sent == old(sent) && outgoing == Without(old(outgoing), i))
      ensures channelID >= |channels| || !found ==> Lines() == old(Lines())
      ensures channelID < |channels| ==> found == exists m :: m in old(Unacked(channelID)) && Wire(m) == number
      ensures channelID < |channels| ==>
                forall m :: m in old(Unacked(channelID)) && Wire(m) == number ==>
                  Lines() == old(Lines())[channelID := Line(transmitted[channelID], old(Unacked(channelID)) - {m})]
    {
      hide AllBooked, Waiting, Load, Listed, Wire, LinesOf, Without, Named;
      var wasSent, i;
      found, wasSent, i := FindSent(number, channelID);
      NamedMeans(channels, sent, outgoing, transmitted, queued, number, channelID, found, wasSent, i);
      if found {
        ghost var j := if wasSent then i else |sent| + i;
        assert Named((sent + outgoing)[j], number, channelID);
        Drop(wasSent, i);
      }
    }

    /** A command that timed out goes back, behind those that timed out before it: one turn of the timeout loop. */
    method TimeOut(i: nat, k: nat)
      requires Valid() && i < |sent| && k <= |outgoing| && forall j :: 0 <= j < k ==> outgoing[j].attempts > 0
      modifies this`sent, this`outgoing, this`inTransit, this`nextTimeout
      ensures Valid() && Lines() == old(Lines())
      ensures sent == Without(old(sent), i) && k < |outgoing| && forall j :: 0 <= j <= k ==> outgoing[j].attempts > 0
      ensures outgoing == old(outgoing)[..k] + [old(sent[i]).(timeout := old(sent[i]).timeout * 2)] + old(outgoing)[k..]
      ensures earliestTimeout == old(earliestTimeout)
    {
      hide AllBooked, Fresh, Waiting, Load;
      var e := sent[i];
      ghost var cmds := sent + outgoing;
      if e.packet {
        WithoutLoad(sent, i);
        inTransit := inTransit - e.length;
      } else {
        WithoutLoad(sent, i);
      }
      var e' := e.(timeout := e.timeout * 2);
      TimeOutBooked(channels, sent, outgoing, transmitted, queued, i, k, e');
      ListedBack(sent, outgoing, |channels|, i, k, e');
      sent := Without(sent, i);
      outgoing := outgoing[..k] + [e'] + outgoing[k..];
      LinesAre(sent + outgoing, transmitted, old(Lines()));
      if i == 0 && sent != [] { nextTimeout := sent[0].sentTime + sent[0].timeout; }
    }

    /** What the timeout of a command does to earliestTimeout, and whether the peer is given up for it. */
    method Overdue(e: Outgoing, now: nat, timeoutMinimum: nat, timeoutMaximum: nat,
                   ghost all: seq<Outgoing>, ghost i: nat, ghost earliest: nat) returns (late: bool)
      requires i < |all| && all[i] == e && Expired(e, now) && earliestTimeout == Earliest(all, i, now, earliest)
      modifies this`earliestTimeout
      ensures earliestTimeout == Earliest(all, i + 1, now, earliest)
      ensures late == GivesUp(all, i, now, earliest, timeoutMinimum, timeoutMaximum)
    {
      if earliestTimeout == 0 || e.sentTime < earliestTimeout { earliestTimeout := e.sentTime; }
      late := earliestTimeout != 0 &&
        (Difference(now, earliestTimeout) >= timeoutMaximum ||
         (e.timeout >= e.timeoutLimit && Difference(now, earliestTimeout) >= timeoutMinimum));
    }

    /** enet_protocol_check_timeouts: true when the peer is given up. */
    method CheckTimeouts(now: nat, timeoutMinimum: nat, timeoutMaximum: nat) returns (disconnected: bool)
      requires Valid()
      modifies this`sent, this`outgoing, this`inTransit, this`nextTimeout, this`earliestTimeout
      ensures Valid() && Lines() == old(Lines())
      ensures disconnected <==>
        exists i :: 0 <= i < |old(sent)|
                    && GivesUp(old(sent), i, now, old(earliestTimeout), timeoutMinimum, timeoutMaximum)
      ensures disconnected <==>
        Abandoned(old(sent), now, old(earliestTimeout), timeoutMinimum, timeoutMaximum)
      ensures disconnected && timeoutMinimum <= timeoutMaximum ==>
        exists i :: 0 <= i < |old(sent)| && Waited(old(sent), i, now, old(earliestTimeout), timeoutMinimum)
      ensures (forall i :: 0 <= i < |old(sent)| && Due(old(sent)[i], now) ==>
                 old(sent)[i].timeout < old(sent)[i].timeoutLimit) ==>
        (disconnected <==>
           exists i :: 0 <= i < |old(sent)| && Waited(old(sent), i, now, old(earliestTimeout), timeoutMaximum))
      ensures !disconnected ==>
        forall i :: 0 <= i < |old(sent)| && Waited(old(sent), i, now, old(earliestTimeout), timeoutMinimum) ==>
          old(sent)[i].timeout < old(sent)[i].timeoutLimit
      ensures !disconnected ==>
        && sent == Unexpired(old(sent), |old(sent)|, now)
        && outgoing == Backed(old(sent), |old(sent)|, now) + old(outgoing)
        && earliestTimeout == Earliest(old(sent), |old(sent)|, now, old(earliestTimeout))
    {
      hide AllBooked, Fresh, Waiting, Load, Listed, LinesOf, GivesUp, Earliest, Scanned, Unexpired, Backed,
           Without, Waited;
      var i, k := 0, 0;
      ghost var seen, all := 0, sent;
      AbandonedMeans(sent, now, earliestTimeout, timeoutMinimum, timeoutMaximum);
      WaitedIsDue(sent, now, earliestTimeout, timeoutMaximum);
      WaitedIsDue(sent, now, earliestTimeout, timeoutMinimum);
      if timeoutMinimum <= timeoutMaximum && Abandoned(sent, now, earliestTimeout, timeoutMinimum, timeoutMaximum) {
        NotBeforeMinimum(sent, now, earliestTimeout, timeoutMinimum, timeoutMaximum);
      }
      NothingScanned(all, now, outgoing, earliestTimeout);
      while i < |sent|
        invariant Valid() && Lines() == old(Lines()) && i <= |sent| && k <= |outgoing|
        invariant forall j :: 0 <= j < k ==> outgoing[j].attempts > 0
        invariant seen <= |all| && Scanned(all, seen, now, sent, i, outgoing, k, old(outgoing))
        invariant earliestTimeout == Earliest(all, seen, now, old(earliestTimeout))
        invariant forall j :: 0 <= j < seen ==>
            !GivesUp(all, j, now, old(earliestTimeout), timeoutMinimum, timeoutMaximum)
        decreases |all| - seen
      {
        var e := sent[i];
        ScanNext(all, seen, now, sent, i, outgoing, k, old(outgoing));
        if Difference(now, e.sentTime) < e.timeout {
          NotExpired(all, seen, now, old(earliestTimeout), timeoutMinimum, timeoutMaximum);
          i, seen := i + 1, seen + 1;
          continue;
        }
        ScanBack(all, seen, now, sent, i, outgoing, k, old(outgoing));
        var late := Overdue(e, now, timeoutMinimum, timeoutMaximum, all, seen, old(earliestTimeout));
        if late { return true; }
        TimeOut(i, k);
        k, seen := k + 1, seen + 1;
      }
      ScanEnds(all, seen, now, sent, i, outgoing, k, old(outgoing));
      disconnected := false;
    }
  }
}
