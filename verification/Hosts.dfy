/** ENet's host: the state of its peers, and the counters that are kept beside it. */
module Hosts {
  import opened Bytes

  datatype State =
    | Disconnected
    | Connecting
    | AcknowledgingConnect
    | ConnectionPending
    | ConnectionSucceeded
    | Connected
    | DisconnectLater
    | Disconnecting
    | AcknowledgingDisconnect
    | Zombie

  const SCALE := 32

  datatype Address = Address(host: u32, port: u32)

  /** How fast a peer's packet throttle reacts. */
  datatype Reaction = Reaction(interval: u32, acceleration: u32, deceleration: u32)

  const DEFAULT_REACTION := Reaction(5000, 2, 2)
  const MAXIMUM_CHANNEL_COUNT := 255
  const MAXIMUM_PEER_ID := 0xFFF

  /** What the host keeps of a peer for its population and bandwidth, and to recognise it. */
  datatype Peer = Peer(state: State, address: Address, connectID: u32, reaction: Reaction,
                       incomingBandwidth: u32, outgoingBandwidth: u32,
                       incomingBandwidthThrottleEpoch: u32, outgoingBandwidthThrottleEpoch: u32,
                       incomingDataTotal: u32, outgoingDataTotal: u32,
                       packetThrottle: u32, packetThrottleLimit: u32)

  /** What a connect command asks for, and what a verification names. */
  datatype Offer = Offer(channelCount: u32, connectID: u32, reaction: Reaction,
                         incomingBandwidth: u32, outgoingBandwidth: u32)

  /** A peer that this command may come from once more. */
  predicate Known(p: Peer, from: Address) {
    p.state != Disconnected && p.state != Connecting && p.address.host == from.host
  }

  /** The peer that this very command has made already. */
  predicate Repeated(p: Peer, from: Address, connectID: u32) {
    Known(p, from) && p.address.port == from.port && p.connectID == connectID
  }

  function Duplicates(from: Address): Peer -> nat {
    p => if Known(p, from) then 1 else 0
  }

  predicate Live(p: Peer) {
    p.state == Connected || p.state == DisconnectLater
  }

  // ----- sums over peers

  function Sum(ps: seq<Peer>, f: Peer -> nat): nat {
    if ps == [] then 0 else f(ps[0]) + Sum(ps[1..], f)
  }

  lemma {:induction false} SumUpdate(ps: seq<Peer>, i: nat, p: Peer, f: Peer -> nat)
    requires i < |ps|
    ensures Sum(ps[i := p], f) == Sum(ps, f) - f(ps[i]) + f(p)
  {
    if i == 0 {
      assert ps[0 := p][1..] == ps[1..];
    } else {
      SumUpdate(ps[1..], i - 1, p, f);
      assert ps[i := p][1..] == ps[1..][i - 1 := p];
    }
  }

  lemma {:induction false} SumHas(ps: seq<Peer>, i: nat, f: Peer -> nat)
    requires i < |ps|
    ensures f(ps[i]) <= Sum(ps, f)
  {
    if i > 0 { SumHas(ps[1..], i - 1, f); }
  }

  lemma {:induction false} SumLast(ps: seq<Peer>, i: nat, f: Peer -> nat)
    requires i < |ps|
    ensures Sum(ps[..i + 1], f) == Sum(ps[..i], f) + f(ps[i]) <= Sum(ps, f)
  {
    if i == 0 {
      assert ps[..1] == [ps[0]] && ps[..1][1..] == [] && ps[..0] == [];
    } else {
      SumLast(ps[1..], i - 1, f);
      assert ps[..i + 1][1..] == ps[1..][..i] && ps[..i][1..] == ps[1..][..i - 1];
    }
  }

  lemma {:induction false} SumZero(ps: seq<Peer>, f: Peer -> nat)
    requires forall i :: 0 <= i < |ps| ==> f(ps[i]) == 0
    ensures Sum(ps, f) == 0
  {
    if ps != [] {
      assert f(ps[0]) == 0;
      assert forall i :: 0 <= i < |ps[1..]| ==> ps[1..][i] == ps[i + 1];
      SumZero(ps[1..], f);
    }
  }

  lemma {:induction false} SumSame(ps: seq<Peer>, qs: seq<Peer>, f: Peer -> nat, g: Peer -> nat)
    requires |ps| == |qs| && forall i :: 0 <= i < |ps| ==> f(ps[i]) == g(qs[i])
    ensures Sum(ps, f) == Sum(qs, g)
  {
    if ps != [] {
      assert f(ps[0]) == g(qs[0]);
      assert forall i :: 0 <= i < |ps[1..]| ==> ps[1..][i] == ps[i + 1] && qs[1..][i] == qs[i + 1];
      SumSame(ps[1..], qs[1..], f, g);
    }
  }

  function Lives(): Peer -> nat {
    p => if Live(p) then 1 else 0
  }

  function Limits(): Peer -> nat {
    p => if Live(p) && p.incomingBandwidth != 0 then 1 else 0
  }

  /** The counters are what they are called. */
  predicate Counted(ps: seq<Peer>, connectedPeers: nat, bandwidthLimitedPeers: nat) {
    connectedPeers == Sum(ps, Lives()) && bandwidthLimitedPeers == Sum(ps, Limits())
  }

  lemma CountedUpdate(ps: seq<Peer>, i: nat, p: Peer, connected: nat, limited: nat)
    requires i < |ps| && Counted(ps, connected, limited)
    ensures Lives()(ps[i]) <= connected && Limits()(ps[i]) <= limited
    ensures Counted(ps[i := p], connected - Lives()(ps[i]) + Lives()(p), limited - Limits()(ps[i]) + Limits()(p))
  {
    SumUpdate(ps, i, p, Lives());
    SumUpdate(ps, i, p, Limits());
    SumHas(ps, i, Lives());
    SumHas(ps, i, Limits());
  }

  class Host {
    const peers: array<Peer>
    var connectedPeers: nat
    var bandwidthLimitedPeers: nat
    var incomingBandwidth: u32
    var outgoingBandwidth: u32
    var recalculateBandwidthLimits: bool
    var bandwidthThrottleEpoch: u32
    var duplicatePeers: nat

    ghost predicate Valid()
      reads this, peers
    {
      Counted(peers[..], connectedPeers, bandwidthLimitedPeers)
    }

    /** A fresh peer, as enet_peer_reset leaves it: it keeps its address. */
    static function Blank(address: Address): Peer {
      Peer(Disconnected, address, 0, DEFAULT_REACTION, 0, 0, 0, 0, 0, 0, SCALE, SCALE)
    }

    constructor (peerCount: nat, incomingBandwidth: u32, outgoingBandwidth: u32)
      ensures Valid() && fresh(peers) && peers.Length == peerCount
      ensures forall i :: 0 <= i < peerCount ==> peers[i] == Blank(Address(0, 0))
      ensures this.incomingBandwidth == incomingBandwidth && this.outgoingBandwidth == outgoingBandwidth
      ensures !recalculateBandwidthLimits && bandwidthThrottleEpoch == 0 && duplicatePeers == 4095
    {
      peers := new Peer[peerCount](_ => Blank(Address(0, 0)));
      connectedPeers, bandwidthLimitedPeers, recalculateBandwidthLimits, bandwidthThrottleEpoch := 0, 0, false, 0;
      this.incomingBandwidth, this.outgoingBandwidth := incomingBandwidth, outgoingBandwidth;
      duplicatePeers := MAXIMUM_PEER_ID;
      new;
      SumZero(peers[..], Lives());
      SumZero(peers[..], Limits());
    }

    /** enet_peer_on_connect: the peer is counted before its state says so. */
    method OnConnect(i: nat)
      requires i < peers.Length
      modifies this`connectedPeers, this`bandwidthLimitedPeers
      ensures connectedPeers == old(connectedPeers) + if Live(peers[i]) then 0 else 1
      ensures bandwidthLimitedPeers
           == old(bandwidthLimitedPeers) + if Live(peers[i]) || peers[i].incomingBandwidth == 0 then 0 else 1
    {
      if peers[i].state != Connected && peers[i].state != DisconnectLater {
        if peers[i].incomingBandwidth != 0 { bandwidthLimitedPeers := bandwidthLimitedPeers + 1; }
        connectedPeers := connectedPeers + 1;
      }
    }

    /** enet_peer_on_disconnect: neither counter goes below zero. */
    method OnDisconnect(i: nat)
      requires i < peers.Length && Valid()
      modifies this`connectedPeers, this`bandwidthLimitedPeers
      ensures connectedPeers == old(connectedPeers) - Lives()(peers[i])
      ensures bandwidthLimitedPeers == old(bandwidthLimitedPeers) - Limits()(peers[i])
    {
      CountedUpdate(peers[..], i, peers[i], connectedPeers, bandwidthLimitedPeers);
      if peers[i].state == Connected || peers[i].state == DisconnectLater {
        if peers[i].incomingBandwidth != 0 { bandwidthLimitedPeers := bandwidthLimitedPeers - 1; }
        connectedPeers := connectedPeers - 1;
      }
    }

    /** enet_protocol_change_state. */
    method ChangeState(i: nat, state: State)
      requires i < peers.Length && Valid()
      modifies this`connectedPeers, this`bandwidthLimitedPeers, peers
      ensures Valid() && peers[..] == old(peers[..])[i := old(peers[i]).(state := state)]
    {
      CountedUpdate(peers[..], i, peers[i].(state := state), connectedPeers, bandwidthLimitedPeers);
      if state == Connected || state == DisconnectLater { OnConnect(i); } else { OnDisconnect(i); }
      peers[i] := peers[i].(state := state);
      assert peers[..] == old(peers[..])[i := peers[i]];
    }

    /** enet_peer_reset. */
    method Reset(i: nat)
      requires i < peers.Length && Valid()
      modifies this`connectedPeers, this`bandwidthLimitedPeers, peers
      ensures Valid() && peers[..] == old(peers[..])[i := Blank(old(peers[i]).address)]
      ensures peers[i] ==
        Peer(Disconnected, old(peers[i]).address, 0, Reaction(5000, 2, 2), 0, 0, 0, 0, 0, 0, 32, 32)
    {
      CountedUpdate(peers[..], i, Blank(peers[i].address), connectedPeers, bandwidthLimitedPeers);
      OnDisconnect(i);
      peers[i] := Blank(peers[i].address);
      assert peers[..] == old(peers[..])[i := peers[i]];
    }

    /** The first peer that is not in use. */
    method FindFree() returns (i: nat)
      ensures i <= peers.Length && (i < peers.Length ==> peers[i].state == Disconnected)
      ensures forall j :: 0 <= j < i ==> peers[j].state != Disconnected
    {
      i := 0;
      while i < peers.Length && peers[i].state != Disconnected
        invariant i <= peers.Length && forall j :: 0 <= j < i ==> peers[j].state != Disconnected
      {
        i := i + 1;
      }
    }

    /** enet_host_connect, with the next connect id. */
    method Connect(address: Address, connectID: u32) returns (i: nat)
      requires Valid()
      modifies peers
      ensures Valid() && i <= peers.Length && forall j :: 0 <= j < i ==> old(peers[j]).state != Disconnected
      ensures i < peers.Length ==>
        && old(peers[i]).state == Disconnected
        && peers[..] ==
           old(peers[..])[i := old(peers[i]).(state := Connecting, address := address, connectID := connectID)]
      ensures i == peers.Length ==> peers[..] == old(peers[..])
    {
      i := FindFree();
      if i < peers.Length {
        ghost var p := peers[i].(state := Connecting, address := address, connectID := connectID);
        CountedUpdate(peers[..], i, p, connectedPeers, bandwidthLimitedPeers);
        peers[i] := peers[i].(state := Connecting, address := address, connectID := connectID);
        assert peers[..] == old(peers[..])[i := p];
      }
    }

    /** The search of enet_protocol_handle_connect: the first free peer, whether this command was handled before, and
        how many peers from the same host there are. */
    method Search(from: Address, connectID: u32) returns (i: nat, repeated: bool, duplicates: nat)
      ensures i <= peers.Length && (i < peers.Length ==> peers[i].state == Disconnected)
      ensures forall j :: 0 <= j < i ==> peers[j].state != Disconnected || repeated
      ensures repeated <==> exists j :: 0 <= j < peers.Length && Repeated(peers[j], from, connectID)
      ensures !repeated ==> duplicates == Sum(peers[..], Duplicates(from))
    {
      i, repeated, duplicates := peers.Length, false, 0;
      for j := 0 to peers.Length
        invariant i <= peers.Length && (i < peers.Length ==> i < j && peers[i].state == Disconnected)
        invariant forall k :: 0 <= k < i && k < j ==> peers[k].state != Disconnected
        invariant forall k :: 0 <= k < j ==> !Repeated(peers[k], from, connectID)
        invariant duplicates == Sum(peers[..][..j], Duplicates(from))
      {
        SumLast(peers[..], j, Duplicates(from));
        assert peers[j] == peers[..][j];
        var p := peers[j];
        if p.state == Disconnected {
          if i == peers.Length { i := j; }
        } else if p.state != Connecting && p.address.host == from.host {
          if p.address.port == from.port && p.connectID == connectID {
            repeated := true;
            return;
          }
          duplicates := duplicates + 1;
        }
      }
      assert peers[..][..peers.Length] == peers[..];
    }

    /** enet_protocol_handle_connect: refused for its channel count, because it was handled before, because there is no
        free peer, or because the other host has too many; the same command will be refused from now on.  The peer is
        not live yet, so nothing is counted, whatever bandwidth the other side names. */
    method HandleConnect(offer: Offer, from: Address) returns (accepted: bool, i: nat)
      requires Valid()
      modifies peers
      ensures Valid()
      ensures accepted <==>
        && 1 <= offer.channelCount <= 255
        && (forall j :: 0 <= j < peers.Length ==> !Repeated(old(peers[j]), from, offer.connectID))
        && (exists j :: 0 <= j < peers.Length && old(peers[j]).state == Disconnected)
        && Sum(old(peers[..]), Duplicates(from)) < duplicatePeers
      ensures !accepted ==> peers[..] == old(peers[..])
      ensures accepted ==>
        && i < peers.Length && old(peers[i]).state == Disconnected
        && (forall j :: 0 <= j < i ==> old(peers[j]).state != Disconnected)
        && peers[..] == old(peers[..])[i := Accepted(old(peers[i]), offer, from)]
        && Repeated(peers[i], from, offer.connectID)
    {
      accepted, i := false, 0;
      if offer.channelCount < 1 || offer.channelCount > MAXIMUM_CHANNEL_COUNT { return; }
      var repeated, duplicates;
      i, repeated, duplicates := Search(from, offer.connectID);
      if repeated { return; }
      if i == peers.Length || duplicates >= duplicatePeers { return; }
      CountedUpdate(peers[..], i, Accepted(peers[i], offer, from), connectedPeers, bandwidthLimitedPeers);
      peers[i] := peers[i].(state := AcknowledgingConnect, connectID := offer.connectID, address := from);
      peers[i] := peers[i].(incomingBandwidth := offer.incomingBandwidth, outgoingBandwidth := offer.outgoingBandwidth);
      peers[i] := peers[i].(reaction := offer.reaction);
      assert peers[..] == old(peers[..])[i := peers[i]];
      accepted := true;
    }

    /** A peer whose connect command was accepted; it is not live. */
    static function Accepted(p: Peer, offer: Offer, from: Address): (q: Peer)
      ensures !Live(q)
    {
      p.(state := AcknowledgingConnect, address := from, connectID := offer.connectID, reaction := offer.reaction,
         incomingBandwidth := offer.incomingBandwidth, outgoingBandwidth := offer.outgoingBandwidth)
    }

    /** enet_protocol_handle_verify_connect: a peer whose request was answered wrongly becomes a zombie; else its
        bandwidths are set before it is counted, and so before it is live. */
    method HandleVerifyConnect(i: nat, offer: Offer, event: bool) returns (ok: bool)
      requires i < peers.Length && Valid()
      modifies this`connectedPeers, this`bandwidthLimitedPeers, this`recalculateBandwidthLimits, peers
      ensures Valid()
      ensures ok <==>
        || old(peers[i]).state != Connecting
        || (1 <= offer.channelCount <= 255 && offer.reaction == old(peers[i]).reaction
            && offer.connectID == old(peers[i]).connectID)
      ensures recalculateBandwidthLimits ==
        (old(recalculateBandwidthLimits) || (old(peers[i]).state == Connecting && ok))
      ensures peers[..] ==
        if old(peers[i]).state != Connecting then old(peers[..])
        else if !ok then old(peers[..])[i := old(peers[i]).(state := Zombie)]
        else old(peers[..])[i := old(peers[i]).(state := if event then Connected else ConnectionSucceeded,
          incomingBandwidth := offer.incomingBandwidth, outgoingBandwidth := offer.outgoingBandwidth)]
    {
      if peers[i].state != Connecting { return true; }
      if offer.channelCount < 1 || offer.channelCount > MAXIMUM_CHANNEL_COUNT ||
         offer.reaction.interval != peers[i].reaction.interval ||
         offer.reaction.acceleration != peers[i].reaction.acceleration ||
         offer.reaction.deceleration != peers[i].reaction.deceleration ||
         offer.connectID != peers[i].connectID
      {
        ChangeState(i, Zombie);
        return false;
      }
      ghost var p := peers[i].(incomingBandwidth := offer.incomingBandwidth,
                               outgoingBandwidth := offer.outgoingBandwidth);
      CountedUpdate(peers[..], i, p, connectedPeers, bandwidthLimitedPeers);
      peers[i] := peers[i].(incomingBandwidth := offer.incomingBandwidth, outgoingBandwidth := offer.outgoingBandwidth);
      assert peers[..] == old(peers[..])[i := p];
      NotifyConnect(i, event);
      ok := true;
    }

    /** enet_protocol_notify_connect. */
    method NotifyConnect(i: nat, event: bool)
      requires i < peers.Length && Valid()
      modifies this`connectedPeers, this`bandwidthLimitedPeers, this`recalculateBandwidthLimits, peers
      ensures Valid() && recalculateBandwidthLimits
      ensures peers[..] == old(peers[..])[i := old(peers[i]).(state :=
                if event then Connected
                else if old(peers[i]).state == Connecting then ConnectionSucceeded else ConnectionPending)]
    {
      recalculateBandwidthLimits := true;
      if event {
        ChangeState(i, Connected);
      } else {
        ChangeState(i, if peers[i].state == Connecting then ConnectionSucceeded else ConnectionPending);
      }
    }

    /** enet_protocol_notify_disconnect: a peer whose user never heard of it is just reset; so is one whose user hears
        of its end now. */
    method NotifyDisconnect(i: nat, event: bool)
      requires i < peers.Length && Valid()
      modifies this`connectedPeers, this`bandwidthLimitedPeers, this`recalculateBandwidthLimits, peers
      ensures Valid()
      ensures recalculateBandwidthLimits ==
        (old(recalculateBandwidthLimits)
         || old(peers[i]).state !in {Disconnected, Connecting, AcknowledgingConnect})
      ensures peers[..] == old(peers[..])[i :=
        if event || Unheard(old(peers[i]).state) then Blank(old(peers[i]).address)
        else old(peers[i]).(state := Zombie)]
    {
      if StateNumber(peers[i].state) >= StateNumber(ConnectionPending) { recalculateBandwidthLimits := true; }
      if peers[i].state != Connecting && StateNumber(peers[i].state) < StateNumber(ConnectionSucceeded) {
        Reset(i);
      } else if event {
        Reset(i);
      } else {
        ChangeState(i, Zombie);
      }
    }

    static predicate Unheard(state: State) {
      state == Disconnected || state == AcknowledgingConnect || state == ConnectionPending
    }

    /** enet_protocol_handle_disconnect. */
    method HandleDisconnect(i: nat, acknowledge: bool)
      requires i < peers.Length && Valid()
      modifies this`connectedPeers, this`bandwidthLimitedPeers, this`recalculateBandwidthLimits, peers
      ensures Valid() && peers[..] == old(peers[..])[i := AfterDisconnect(old(peers[i]), acknowledge)]
      ensures recalculateBandwidthLimits ==
        (old(recalculateBandwidthLimits) || old(peers[i]).state == ConnectionPending)
    {
      assert peers[..] == peers[..][i := peers[i]];
      if peers[i].state == Disconnected || peers[i].state == Zombie || peers[i].state == AcknowledgingDisconnect {
        return;
      }
      if peers[i].state == ConnectionSucceeded || peers[i].state == Disconnecting || peers[i].state == Connecting {
        ChangeState(i, Zombie);
      } else if peers[i].state != Connected && peers[i].state != DisconnectLater {
        if peers[i].state == ConnectionPending { recalculateBandwidthLimits := true; }
        Reset(i);
      } else if acknowledge {
        ChangeState(i, AcknowledgingDisconnect);
      } else {
        ChangeState(i, Zombie);
      }
    }

    /** Where the other side's disconnect leaves a peer: it is never live. */
    static function AfterDisconnect(p: Peer, acknowledge: bool): (q: Peer)
      ensures !Live(q)
    {
      match p.state
      case Disconnected => p
      case Zombie => p
      case AcknowledgingDisconnect => p
      case AcknowledgingConnect => Blank(p.address)
      case ConnectionPending => Blank(p.address)
      case Connected => p.(state := if acknowledge then AcknowledgingDisconnect else Zombie)
      case DisconnectLater => p.(state := if acknowledge then AcknowledgingDisconnect else Zombie)
      case _ => p.(state := Zombie)
    }

    /** enet_protocol_handle_bandwidth_limit: a live peer may come to be limited, or cease to be. */
    method HandleBandwidthLimit(i: nat, incomingBandwidth: u32, outgoingBandwidth: u32) returns (result: bool)
      requires i < peers.Length && Valid()
      modifies this`bandwidthLimitedPeers, peers
      ensures Valid() && result == Live(old(peers[i]))
      ensures peers[..] == if !result then old(peers[..])
        else old(peers[..])[i := old(peers[i]).(incomingBandwidth := incomingBandwidth,
                                                outgoingBandwidth := outgoingBandwidth)]
    {
      if peers[i].state != Connected && peers[i].state != DisconnectLater { return false; }
      ghost var p := peers[i].(incomingBandwidth := incomingBandwidth, outgoingBandwidth := outgoingBandwidth);
      CountedUpdate(peers[..], i, p, connectedPeers, bandwidthLimitedPeers);
      if peers[i].incomingBandwidth != 0 { bandwidthLimitedPeers := bandwidthLimitedPeers - 1; }
      peers[i] := peers[i].(incomingBandwidth := incomingBandwidth, outgoingBandwidth := outgoingBandwidth);
      if peers[i].incomingBandwidth != 0 { bandwidthLimitedPeers := bandwidthLimitedPeers + 1; }
      assert peers[..] == old(peers[..])[i := p];
      result := true;
    }

    /** A peer after its user has ended the connection: it is never live. */
    static function Dismissed(p: Peer): (q: Peer)
      ensures !Live(q)
    {
      if Leaving(p.state) then p else if Live(p) then p.(state := Disconnecting) else Blank(p.address)
    }

    /** enet_peer_disconnect. */
    method Disconnect(i: nat)
      requires i < peers.Length && Valid()
      modifies this`connectedPeers, this`bandwidthLimitedPeers, peers
      ensures Valid() && peers[..] == old(peers[..])[i := Dismissed(old(peers[i]))]
    {
      assert peers[..] == peers[..][i := peers[i]];
      if peers[i].state == Disconnecting || peers[i].state == Disconnected ||
         peers[i].state == AcknowledgingDisconnect || peers[i].state == Zombie
      {
        return;
      }
      if peers[i].state == Connected || peers[i].state == DisconnectLater {
        CountedUpdate(peers[..], i, peers[i].(state := Disconnecting), connectedPeers, bandwidthLimitedPeers);
        OnDisconnect(i);
        peers[i] := peers[i].(state := Disconnecting);
        assert peers[..] == old(peers[..])[i := peers[i]];
      } else {
        Reset(i);
      }
    }

    /** enet_peer_disconnect_later: from one live state to the other the counters stay. */
    method DisconnectWhenSent(i: nat, somethingToSend: bool)
      requires i < peers.Length && Valid()
      modifies this`connectedPeers, this`bandwidthLimitedPeers, peers
      ensures Valid()
      ensures peers[..] == old(peers[..])[i :=
        if Live(old(peers[i])) && somethingToSend then old(peers[i]).(state := DisconnectLater)
        else Dismissed(old(peers[i]))]
    {
      if (peers[i].state == Connected || peers[i].state == DisconnectLater) && somethingToSend {
        CountedUpdate(peers[..], i, peers[i].(state := DisconnectLater), connectedPeers, bandwidthLimitedPeers);
        peers[i] := peers[i].(state := DisconnectLater);
        assert peers[..] == old(peers[..])[i := peers[i]];
      } else {
        Disconnect(i);
      }
    }

    static predicate Leaving(state: State) {
      state == Disconnecting || state == Disconnected || state == AcknowledgingDisconnect || state == Zombie
    }

    static function StateNumber(state: State): nat {
      match state
      case Disconnected => 0 case Connecting => 1 case AcknowledgingConnect => 2 case ConnectionPending => 3
      case ConnectionSucceeded => 4 case Connected => 5 case DisconnectLater => 6 case Disconnecting => 7
      case AcknowledgingDisconnect => 8 case Zombie => 9
    }
  }
}
