/** enet_host_bandwidth_throttle: once in a while the host shares out its bandwidth between the peers that are live.
    All quantities are 32 bits wide, so that no operation may wrap. */
module Bandwidth {
  import opened Bytes
  import opened Hosts
  import opened Budgets

  const INTERVAL := 1000

  // ----- outgoing

  /** A live peer that has not been given a limit of its own now. */
  predicate Open(p: Peer, now: u32) {
    Live(p) && p.outgoingBandwidthThrottleEpoch != now
  }

  /** What a peer can take in, in the time that has gone by. */
  function Taken(p: Peer, elapsed: u32): nat {
    p.incomingBandwidth * elapsed / 1000
  }

  function Opens(now: u32): Peer -> nat {
    p => if Open(p, now) then 1 else 0
  }

  function OpenData(now: u32): Peer -> nat {
    p => if Open(p, now) then p.outgoingDataTotal else 0
  }

  /** What was set aside for the peers that were limited now. */
  function Charges(now: u32, elapsed: u32): Peer -> nat {
    p => if Live(p) && p.outgoingBandwidthThrottleEpoch == now then Taken(p, elapsed) else 0
  }

  /** The data of a peer at this throttle, out of SCALE. */
  function At(throttle: nat, data: nat): nat {
    throttle * data / SCALE
  }

  /** Bandwidth and data that are left for the open peers. */
  predicate Left(ps: seq<Peer>, now: u32, elapsed: u32, bandwidth: nat, dataTotal: nat, remaining: nat, all: nat) {
    && remaining == Sum(ps, Opens(now)) && Sum(ps, OpenData(now)) <= dataTotal
    && Sum(ps, Charges(now, elapsed)) + bandwidth == all
  }

  /** At this throttle the open peers' data is within the bandwidth. */
  predicate Affords(throttle: nat, bandwidth: nat, data: nat) {
    throttle <= SCALE && throttle * data <= SCALE * bandwidth
  }

  predicate TooMuch(p: Peer, now: u32, elapsed: u32, throttle: nat) {
    Open(p, now) && p.incomingBandwidth != 0 && At(throttle, p.outgoingDataTotal) > Taken(p, elapsed)
  }

  function LimitFor(taken: nat, data: nat): (limit: nat)
    requires data > 0
    ensures limit > 0 && (taken * SCALE / data <= SCALE ==> limit <= SCALE)
  {
    if taken * SCALE / data == 0 then 1 else taken * SCALE / data
  }

  function Lowered(throttle: u32, limit: u32): u32 {
    if throttle > limit then limit else throttle
  }

  /** A peer gets a limit of its own. */
  function Limited(p: Peer, now: u32, limit: u32): Peer {
    p.(packetThrottleLimit := limit, packetThrottle := Lowered(p.packetThrottle, limit),
       outgoingBandwidthThrottleEpoch := now, incomingDataTotal := 0, outgoingDataTotal := 0)
  }

  lemma Distribute(a: nat, b: nat, c: nat)
    requires c <= b
    ensures a * (b - c) == a * b - a * c && a * c <= a * b
  {
  }

  lemma Monotone(a: nat, b: nat, c: nat)
    requires b <= c
    ensures a * b <= a * c
  {
  }

  /** What is too much at this throttle costs less than the throttle had in mind for it, and less than the data. */
  lemma TooMuchCosts(throttle: nat, data: nat, taken: nat)
    requires At(throttle, data) > taken && throttle <= SCALE
    ensures SCALE * taken <= throttle * data && taken < data && taken * SCALE / data <= SCALE
  {
    Monotone(data, throttle, SCALE);
    assert throttle * data <= SCALE * data;
    QuotientAtMost(taken * SCALE, data, SCALE);
  }

  lemma QuotientAtMost(a: nat, b: nat, c: nat)
    requires b > 0 && a <= c * b
    ensures a / b <= c
  {
    if a / b > c { Monotone(b, c + 1, a / b); }
  }

  /** Limiting one peer keeps what is left: nothing goes below zero. */
  lemma LimitedLeaves(ps: seq<Peer>, i: nat, now: u32, elapsed: u32, bandwidth: nat, dataTotal: nat, remaining: nat,
                      all: nat, throttle: nat, limit: u32)
    requires i < |ps| && Left(ps, now, elapsed, bandwidth, dataTotal, remaining, all)
    requires Affords(throttle, bandwidth, Sum(ps, OpenData(now))) && TooMuch(ps[i], now, elapsed, throttle)
    ensures var taken := Taken(ps[i], elapsed); var qs := ps[i := Limited(ps[i], now, limit)];
            && taken < ps[i].outgoingDataTotal && taken * SCALE / ps[i].outgoingDataTotal <= SCALE
            && taken <= bandwidth && taken <= dataTotal && remaining > 0
            && Left(qs, now, elapsed, bandwidth - taken, dataTotal - taken, remaining - 1, all)
            && Affords(throttle, bandwidth - taken, Sum(qs, OpenData(now)))
  {
    var p := ps[i];
    var q := Limited(p, now, limit);
    var data, taken := p.outgoingDataTotal, Taken(p, elapsed);
    SumUpdate(ps, i, q, Opens(now));
    SumUpdate(ps, i, q, OpenData(now));
    SumUpdate(ps, i, q, Charges(now, elapsed));
    SumHas(ps, i, Opens(now));
    SumHas(ps, i, OpenData(now));
    TooMuchCosts(throttle, data, taken);
    Distribute(throttle, Sum(ps, OpenData(now)), data);
    assert q.incomingBandwidth == p.incomingBandwidth;
  }

  /** The throttle for what is left. */
  method ThrottleFor(bandwidth: u32, dataTotal: u32, ghost data: nat) returns (throttle: u32)
    requires dataTotal > bandwidth ==> bandwidth * SCALE < 0x1_0000_0000
    requires data <= dataTotal
    ensures throttle == Throttle(bandwidth, dataTotal) && Affords(throttle, bandwidth, data)
  {
    RestAffords(bandwidth, dataTotal, data);
    if dataTotal <= bandwidth {
      throttle := SCALE;
    } else {
      var product: u32 := bandwidth * SCALE;
      throttle := product / dataTotal;
    }
  }

  function Throttle(bandwidth: nat, dataTotal: nat): nat {
    if dataTotal <= bandwidth then SCALE else bandwidth * SCALE / dataTotal
  }

  /** The products of the inputs fit 32 bits. */
  predicate Fitting(ps: seq<Peer>, elapsed: u32) {
    forall i :: 0 <= i < |ps| && Live(ps[i]) ==>
      ps[i].incomingBandwidth * elapsed < 0x1_0000_0000 && ps[i].outgoingDataTotal * SCALE < 0x1_0000_0000
  }

  /** A peer after a pass at this throttle. */
  function Judged(p: Peer, now: u32, elapsed: u32, throttle: nat): Peer
    requires throttle <= SCALE
  {
    if TooMuch(p, now, elapsed, throttle) then
      TooMuchCosts(throttle, p.outgoingDataTotal, Taken(p, elapsed));
      Limited(p, now, LimitFor(Taken(p, elapsed), p.outgoingDataTotal))
    else p
  }

  /** A pass has judged the first i of these peers. */
  predicate JudgedUpTo(ps: seq<Peer>, qs: seq<Peer>, i: nat, now: u32, elapsed: u32, throttle: nat) {
    && |ps| == |qs| && i <= |ps| && throttle <= SCALE
    && (forall j :: 0 <= j < i ==> qs[j] == Judged(ps[j], now, elapsed, throttle))
    && (forall j :: i <= j < |ps| ==> qs[j] == ps[j])
  }

  /** A second pass at a throttle that is not higher limits nobody else. */
  lemma JudgedOnce(p: Peer, now: u32, elapsed: u32, throttle: nat, lower: nat)
    requires lower <= throttle <= SCALE
    ensures Judged(Judged(p, now, elapsed, throttle), now, elapsed, lower) == Judged(p, now, elapsed, throttle)
  {
    AtMonotone(lower, throttle, p.outgoingDataTotal);
  }

  lemma AtMonotone(lower: nat, throttle: nat, data: nat)
    requires lower <= throttle
    ensures At(lower, data) <= At(throttle, data)
  {
    Monotone(data, lower, throttle);
  }

  method PeerBandwidth(peer: Peer, elapsed: u32) returns (peerBandwidth: u32)
    requires peer.incomingBandwidth * elapsed < 0x1_0000_0000
    ensures peerBandwidth == Taken(peer, elapsed)
  {
    var product: u32 := peer.incomingBandwidth * elapsed;
    peerBandwidth := product / 1000;
  }

  method DataAt(throttle: u32, data: u32) returns (share: u32)
    requires throttle <= SCALE && data * SCALE < 0x1_0000_0000
    ensures share == At(throttle, data)
  {
    Monotone(data, throttle, SCALE);
    var product: u32 := throttle * data;
    share := product / SCALE;
  }

  method OwnLimit(peerBandwidth: u32, data: u32) returns (limit: u32)
    requires peerBandwidth < data && data * SCALE < 0x1_0000_0000 && peerBandwidth * SCALE / data <= SCALE
    ensures limit == LimitFor(peerBandwidth, data)
  {
    var product: u32 := peerBandwidth * SCALE;
    limit := product / data;
    if limit == 0 { limit := 1; }
  }

  /** Whether a peer would get more than it can take, and if so what limit it gets. */
  method Judge(peer: Peer, now: u32, elapsed: u32, throttle: u32)
    returns (tooMuch: bool, peerBandwidth: u32, limit: u32)
    requires throttle <= SCALE
    requires Live(peer) ==>
      peer.incomingBandwidth * elapsed < 0x1_0000_0000 && peer.outgoingDataTotal * SCALE < 0x1_0000_0000
    ensures tooMuch == TooMuch(peer, now, elapsed, throttle)
    ensures tooMuch ==>
      && peerBandwidth == Taken(peer, elapsed) < peer.outgoingDataTotal
      && peerBandwidth * SCALE / peer.outgoingDataTotal <= SCALE
      && limit == LimitFor(peerBandwidth, peer.outgoingDataTotal)
  {
    hide Taken, At, LimitFor;
    tooMuch, peerBandwidth, limit := false, 0, 0;
    if (peer.state != Connected && peer.state != DisconnectLater) || peer.incomingBandwidth == 0 ||
       peer.outgoingBandwidthThrottleEpoch == now
    {
      return;
    }
    peerBandwidth := PeerBandwidth(peer, elapsed);
    var data := DataAt(throttle, peer.outgoingDataTotal);
    if data <= peerBandwidth { return; }
    TooMuchCosts(throttle, peer.outgoingDataTotal, peerBandwidth);
    limit := OwnLimit(peerBandwidth, peer.outgoingDataTotal);
    tooMuch := true;
  }

  lemma FittingAt(ps: seq<Peer>, i: nat, elapsed: u32)
    requires Fitting(ps, elapsed) && i < |ps| && Live(ps[i])
    ensures ps[i].incomingBandwidth * elapsed < 0x1_0000_0000 && ps[i].outgoingDataTotal * SCALE < 0x1_0000_0000
  {
  }

  lemma TooMuchAt(p: Peer, now: u32, elapsed: u32, throttle: nat)
    requires TooMuch(p, now, elapsed, throttle)
    ensures Open(p, now) && p.incomingBandwidth != 0 && At(throttle, p.outgoingDataTotal) > Taken(p, elapsed)
  {
  }

  /** One peer's turn in a pass. */
  method LimitPeer(h: Host, i: nat, now: u32, elapsed: u32, throttle: u32) returns (taken: u32, adjusted: bool)
    requires i < h.peers.Length && throttle <= SCALE && Fitting(h.peers[..], elapsed)
    modifies h.peers
    ensures h.peers[..] == old(h.peers[..])[i := Judged(old(h.peers[i]), now, elapsed, throttle)]
    ensures adjusted == TooMuch(old(h.peers[i]), now, elapsed, throttle)
    ensures taken == if adjusted then Taken(old(h.peers[i]), elapsed) else 0
  {
    hide TooMuch, Taken, LimitFor, Limited, Fitting;
    var peer := h.peers[i];
    if Live(peer) { FittingAt(h.peers[..], i, elapsed); }
    var tooMuch, peerBandwidth, limit := Judge(peer, now, elapsed, throttle);
    if !tooMuch {
      assert h.peers[..][i := peer] == h.peers[..];
      return 0, false;
    }
    h.peers[i] := Limited(peer, now, limit);
    assert h.peers[..] == old(h.peers[..])[i := Limited(peer, now, limit)];
    return peerBandwidth, true;
  }

  /** What a pass keeps, `start` being the peers before it. */
  predicate Passing(start: seq<Peer>, ps: seq<Peer>, i: nat, now: u32, elapsed: u32, throttle: nat, bandwidth: nat,
                    dataTotal: nat, remaining: nat, all: nat, adjusted: bool)
  {
    && JudgedUpTo(start, ps, i, now, elapsed, throttle) && Fitting(ps, elapsed)
    && Left(ps, now, elapsed, bandwidth, dataTotal, remaining, all)
    && Affords(throttle, bandwidth, Sum(ps, OpenData(now))) && (!adjusted ==> ps == start)
  }

  lemma JudgedNext(start: seq<Peer>, ps: seq<Peer>, i: nat, now: u32, elapsed: u32, throttle: nat)
    requires JudgedUpTo(start, ps, i, now, elapsed, throttle) && i < |ps|
    ensures ps[i] == start[i]
    ensures JudgedUpTo(start, ps[i := Judged(ps[i], now, elapsed, throttle)], i + 1, now, elapsed, throttle)
  {
    hide Judged;
  }

  lemma PassingOver(start: seq<Peer>, ps: seq<Peer>, i: nat, now: u32, elapsed: u32, throttle: nat, bandwidth: nat,
                    dataTotal: nat, remaining: nat, all: nat, adjusted: bool)
    requires Passing(start, ps, i, now, elapsed, throttle, bandwidth, dataTotal, remaining, all, adjusted)
    requires i < |ps| && throttle <= SCALE && !TooMuch(ps[i], now, elapsed, throttle)
    ensures Judged(ps[i], now, elapsed, throttle) == ps[i]
    ensures Passing(start, ps, i + 1, now, elapsed, throttle, bandwidth, dataTotal, remaining, all, adjusted)
  {
    hide TooMuch, JudgedUpTo, Left, Affords, Fitting;
    JudgedNext(start, ps, i, now, elapsed, throttle);
    assert ps[i := ps[i]] == ps;
  }

  lemma PassingLimit(start: seq<Peer>, ps: seq<Peer>, i: nat, now: u32, elapsed: u32, throttle: nat, bandwidth: nat,
                     dataTotal: nat, remaining: nat, all: nat, adjusted: bool)
    requires Passing(start, ps, i, now, elapsed, throttle, bandwidth, dataTotal, remaining, all, adjusted)
    requires i < |ps| && throttle <= SCALE && TooMuch(ps[i], now, elapsed, throttle)
    ensures var taken := Taken(ps[i], elapsed);
            && taken <= bandwidth && taken <= dataTotal && remaining > 0
            && Passing(start, ps[i := Judged(ps[i], now, elapsed, throttle)], i + 1, now, elapsed, throttle,
                       bandwidth - taken, dataTotal - taken, remaining - 1, all, true)
  {
    hide TooMuch, JudgedUpTo, Left, Affords, Limited, LimitFor, Taken, Fitting;
    TooMuchAt(ps[i], now, elapsed, throttle);
    TooMuchCosts(throttle, ps[i].outgoingDataTotal, Taken(ps[i], elapsed));
    LimitedLeaves(ps, i, now, elapsed, bandwidth, dataTotal, remaining, all, throttle,
                  LimitFor(Taken(ps[i], elapsed), ps[i].outgoingDataTotal));
    JudgedNext(start, ps, i, now, elapsed, throttle);
    FittingLimited(ps, i, now, elapsed, LimitFor(Taken(ps[i], elapsed), ps[i].outgoingDataTotal));
  }

  lemma FittingLimited(ps: seq<Peer>, i: nat, now: u32, elapsed: u32, limit: u32)
    requires Fitting(ps, elapsed) && i < |ps|
    ensures Fitting(ps[i := Limited(ps[i], now, limit)], elapsed)
  {
  }

  /** One pass over the peers: whoever would get more than it can take at this throttle gets a limit of its own. */
  method OutgoingPass(h: Host, now: u32, elapsed: u32, bandwidth0: u32, dataTotal0: u32, remaining0: u32,
                      ghost all: nat)
    returns (adjusted: bool, bandwidth: u32, dataTotal: u32, remaining: u32)
    requires Fitting(h.peers[..], elapsed) && Left(h.peers[..], now, elapsed, bandwidth0, dataTotal0, remaining0, all)
    requires dataTotal0 > bandwidth0 ==> bandwidth0 * SCALE < 0x1_0000_0000
    modifies h.peers
    ensures Fitting(h.peers[..], elapsed) && Left(h.peers[..], now, elapsed, bandwidth, dataTotal, remaining, all)
    ensures JudgedUpTo(old(h.peers[..]), h.peers[..], h.peers.Length, now, elapsed, Throttle(bandwidth0, dataTotal0))
    ensures bandwidth <= bandwidth0 && dataTotal - bandwidth == dataTotal0 - bandwidth0
    ensures if adjusted then remaining < remaining0
            else remaining == remaining0 && bandwidth == bandwidth0 && h.peers[..] == old(h.peers[..])
  {
    hide Left, JudgedUpTo, Fitting, TooMuch, Limited, LimitFor, Affords, Passing, Judged, Taken;
    adjusted, bandwidth, dataTotal, remaining := false, bandwidth0, dataTotal0, remaining0;
    LeftData(h.peers[..], now, elapsed, bandwidth, dataTotal, remaining, all);
    var throttle := ThrottleFor(bandwidth, dataTotal, Sum(h.peers[..], OpenData(now)));
    ghost var start := h.peers[..];
    PassingStarts(start, now, elapsed, throttle, bandwidth, dataTotal, remaining, all);
    for i := 0 to h.peers.Length
      invariant throttle <= SCALE
      invariant Passing(start, h.peers[..], i, now, elapsed, throttle, bandwidth, dataTotal, remaining, all, adjusted)
      invariant bandwidth <= bandwidth0 && dataTotal - bandwidth == dataTotal0 - bandwidth0
      invariant if adjusted then remaining < remaining0 else remaining == remaining0 && bandwidth == bandwidth0
    {
      ghost var ps := h.peers[..];
      PassingAt(start, ps, i, now, elapsed, throttle, bandwidth, dataTotal, remaining, all, adjusted);
      var taken, limited := LimitPeer(h, i, now, elapsed, throttle);
      if limited {
        PassingLimit(start, ps, i, now, elapsed, throttle, bandwidth, dataTotal, remaining, all, adjusted);
        adjusted := true;
        remaining := remaining - 1;
        bandwidth := bandwidth - taken;
        dataTotal := dataTotal - taken;
      } else {
        PassingOver(start, ps, i, now, elapsed, throttle, bandwidth, dataTotal, remaining, all, adjusted);
        assert ps[i := ps[i]] == ps;
      }
    }
    PassingAt(start, h.peers[..], h.peers.Length, now, elapsed, throttle, bandwidth, dataTotal, remaining, all,
              adjusted);
  }

  lemma PassingStarts(ps: seq<Peer>, now: u32, elapsed: u32, throttle: nat, bandwidth: nat,
                      dataTotal: nat, remaining: nat, all: nat)
    requires Left(ps, now, elapsed, bandwidth, dataTotal, remaining, all) && Fitting(ps, elapsed)
    requires Affords(throttle, bandwidth, Sum(ps, OpenData(now)))
    ensures throttle <= SCALE
    ensures Passing(ps, ps, 0, now, elapsed, throttle, bandwidth, dataTotal, remaining, all, false)
  {
    hide Left, Fitting;
  }

  lemma PassingAt(start: seq<Peer>, ps: seq<Peer>, i: nat, now: u32, elapsed: u32, throttle: nat, bandwidth: nat,
                  dataTotal: nat, remaining: nat, all: nat, adjusted: bool)
    requires Passing(start, ps, i, now, elapsed, throttle, bandwidth, dataTotal, remaining, all, adjusted)
    ensures JudgedUpTo(start, ps, i, now, elapsed, throttle) && Fitting(ps, elapsed)
    ensures Left(ps, now, elapsed, bandwidth, dataTotal, remaining, all) && (!adjusted ==> ps == start)
  {
    hide JudgedUpTo, Left, Affords, Fitting;
  }

  lemma LeftData(ps: seq<Peer>, now: u32, elapsed: u32, bandwidth: nat, dataTotal: nat, remaining: nat, all: nat)
    requires Left(ps, now, elapsed, bandwidth, dataTotal, remaining, all)
    ensures Sum(ps, OpenData(now)) <= dataTotal
  {
  }

  /** A peer gets the common throttle. */
  function Throttled(p: Peer, throttle: u32): Peer {
    p.(packetThrottleLimit := throttle, packetThrottle := Lowered(p.packetThrottle, throttle),
       incomingDataTotal := 0, outgoingDataTotal := 0)
  }

  /** What a peer gets: a limit that its own bandwidth affords if the first throttle is too much for it, and else the
      throttle that is left for everybody else. */
  function Share(p: Peer, now: u32, elapsed: u32, first: nat, rest: nat): Peer
    requires first <= SCALE && rest <= SCALE
  {
    if !Live(p) then p
    else if TooMuch(p, now, elapsed, first) then Judged(p, now, elapsed, first)
    else Throttled(p, rest)
  }

  /** What is set aside for a peer: what it can take in, or its data at the common throttle. */
  function SetAside(p: Peer, q: Peer, now: u32, elapsed: u32): nat {
    if !Live(p) then 0
    else if q.outgoingBandwidthThrottleEpoch == now then Taken(p, elapsed)
    else At(q.packetThrottleLimit, p.outgoingDataTotal)
  }

  function TotalSetAside(ps: seq<Peer>, qs: seq<Peer>, now: u32, elapsed: u32): nat
    requires |ps| == |qs|
  {
    if ps == [] then 0 else SetAside(ps[0], qs[0], now, elapsed) + TotalSetAside(ps[1..], qs[1..], now, elapsed)
  }

  /** What a peer is let send of its data, at the limit it came out with. */
  function LetThrough(p: Peer, q: Peer): nat {
    if Live(p) then At(q.packetThrottleLimit, p.outgoingDataTotal) else 0
  }

  function TotalLetThrough(ps: seq<Peer>, qs: seq<Peer>): nat
    requires |ps| == |qs|
  {
    if ps == [] then 0 else LetThrough(ps[0], qs[0]) + TotalLetThrough(ps[1..], qs[1..])
  }

  /** No limit is above the first throttle. */
  lemma ShareFits(p: Peer, now: u32, elapsed: u32, first: nat, rest: nat)
    requires rest <= first <= SCALE && (Live(p) ==> p.outgoingBandwidthThrottleEpoch != now)
    ensures SCALE * LetThrough(p, Share(p, now, elapsed, first, rest)) <= first * OpenData(now)(p)
    ensures Live(p) ==>
      Share(p, now, elapsed, first, rest).packetThrottleLimit * p.outgoingDataTotal <= first * OpenData(now)(p)
  {
    hide Taken;
    var data := p.outgoingDataTotal;
    if Live(p) {
      if TooMuch(p, now, elapsed, first) {
        LimitIsLower(first, data, Taken(p, elapsed));
      } else {
        Monotone(data, rest, first);
      }
    }
  }

  lemma LimitIsLower(throttle: nat, data: nat, taken: nat)
    requires At(throttle, data) > taken && throttle <= SCALE
    ensures data > 0 && LimitFor(taken, data) <= throttle
    ensures LimitFor(taken, data) * data <= throttle * data
  {
    TooMuchCosts(throttle, data, taken);
    QuotientAtMost(taken * SCALE, data, throttle);
    Monotone(data, LimitFor(taken, data), throttle);
  }

  lemma {:induction false} TotalFits(ps: seq<Peer>, qs: seq<Peer>, now: u32, elapsed: u32, first: nat, rest: nat)
    requires rest <= first <= SCALE && Before(ps, now) && |ps| == |qs|
    requires forall i :: 0 <= i < |ps| ==> qs[i] == Share(ps[i], now, elapsed, first, rest)
    ensures SCALE * TotalLetThrough(ps, qs) <= first * Sum(ps, OpenData(now))
    ensures Through(ps, qs) <= first * Sum(ps, OpenData(now))
  {
    hide Share, LetThrough;
    if ps != [] {
      ShareFits(ps[0], now, elapsed, first, rest);
      assert forall i :: 0 <= i < |ps[1..]| ==> ps[1..][i] == ps[i + 1] && qs[1..][i] == qs[i + 1];
      TotalFits(ps[1..], qs[1..], now, elapsed, first, rest);
      Distribute(first, Sum(ps, OpenData(now)), OpenData(now)(ps[0]));
    }
  }

  /** A limit of its own keeps a peer's data within what it can take, unless it is the least limit there is. */
  lemma LimitIsKept(taken: nat, data: nat)
    requires data > 0
    ensures LimitFor(taken, data) == 1 || At(LimitFor(taken, data), data) <= taken
  {
    var limit := taken * SCALE / data;
    if limit != 0 {
      assert limit * data <= taken * SCALE;
    }
  }

  lemma TakenIsWithin(p: Peer, elapsed: u32, limit: nat)
    ensures At(limit, p.outgoingDataTotal) <= Taken(p, elapsed) ==>
              1000 * (limit * p.outgoingDataTotal / 32) <= p.incomingBandwidth * elapsed
  {
  }

  /** Nobody that names a bandwidth is let send it more than it can take in, unless its limit is the least there is;
      and every count starts anew. */
  lemma NobodyGetsTooMuch(p: Peer, now: u32, elapsed: u32, first: nat, rest: nat)
    requires rest <= first <= SCALE && Live(p) && p.outgoingBandwidthThrottleEpoch != now
    ensures var q := Share(p, now, elapsed, first, rest);
      && q.packetThrottle <= q.packetThrottleLimit && q.incomingDataTotal == 0 && q.outgoingDataTotal == 0
      && (p.incomingBandwidth != 0 ==>
            || q.packetThrottleLimit == 1
            || 1000 * (q.packetThrottleLimit * p.outgoingDataTotal / 32) <= p.incomingBandwidth * elapsed)
  {
    hide Taken, At, LimitFor;
    TakenIsWithin(p, elapsed, Share(p, now, elapsed, first, rest).packetThrottleLimit);
    if p.outgoingDataTotal > 0 { LimitIsKept(Taken(p, elapsed), p.outgoingDataTotal); }
    AtMonotone(rest, first, p.outgoingDataTotal);
    if TooMuch(p, now, elapsed, first) { TooMuchCosts(first, p.outgoingDataTotal, Taken(p, elapsed)); }
  }

  /** Taking what a limited peer costs away from bandwidth and data does not raise the throttle. */
  lemma ThrottleFalls(bandwidth: nat, dataTotal: nat, cost: nat)
    requires cost <= bandwidth && cost <= dataTotal
    ensures Throttle(bandwidth - cost, dataTotal - cost) <= Throttle(bandwidth, dataTotal) <= SCALE
  {
    if dataTotal > bandwidth {
      var q := Throttle(bandwidth - cost, dataTotal - cost);
      QuotientAtMost((bandwidth - cost) * SCALE, dataTotal - cost, SCALE);
      QuotientAtMost(bandwidth * SCALE, dataTotal, SCALE);
      assert q * (dataTotal - cost) <= (bandwidth - cost) * SCALE;
      Distribute(q, dataTotal, cost);
      Monotone(cost, q, SCALE);
      assert q * dataTotal <= bandwidth * SCALE;
      QuotientAtLeast(bandwidth * SCALE, dataTotal, q);
    }
  }

  lemma QuotientAtLeast(a: nat, b: nat, c: nat)
    requires b > 0 && c * b <= a
    ensures c <= a / b
  {
    if a / b < c { Monotone(b, a / b + 1, c); }
  }

  /** The throttle is the largest at which the data is within the bandwidth. */
  lemma ThrottleIsLargest(bandwidth: nat, dataTotal: nat)
    ensures var throttle := Throttle(bandwidth, dataTotal);
      && throttle * dataTotal <= SCALE * bandwidth
      && (throttle == SCALE || (throttle + 1) * dataTotal > SCALE * bandwidth)
  {
    if dataTotal <= bandwidth {
      Monotone(SCALE, dataTotal, bandwidth);
    } else {
      Distribute(dataTotal, Throttle(bandwidth, dataTotal) + 1, 1);
    }
  }

  // ----- the total of what is let through

  function Rates(now: u32, elapsed: u32, throttle: u32): Peer -> nat {
    p => if !Live(p) then 0
         else if p.outgoingBandwidthThrottleEpoch == now then Taken(p, elapsed) else At(throttle, p.outgoingDataTotal)
  }

  lemma {:induction false} RatesFit(ps: seq<Peer>, now: u32, elapsed: u32, throttle: u32)
    ensures SCALE * Sum(ps, Rates(now, elapsed, throttle))
         <= SCALE * Sum(ps, Charges(now, elapsed)) + throttle * Sum(ps, OpenData(now))
  {
    if ps != [] {
      RatesFit(ps[1..], now, elapsed, throttle);
      RateFits(ps[0], now, elapsed, throttle);
      Distribute(throttle, Sum(ps, OpenData(now)), OpenData(now)(ps[0]));
    }
  }

  lemma RateFits(p: Peer, now: u32, elapsed: u32, throttle: u32)
    ensures SCALE * Rates(now, elapsed, throttle)(p)
         <= SCALE * Charges(now, elapsed)(p) + throttle * OpenData(now)(p)
  {
  }

  /** Peers in the middle, after the passes: they have their limits, and the others still have their data. */
  lemma {:induction false} TotalSetAsideIs(ps: seq<Peer>, mid: seq<Peer>, qs: seq<Peer>, now: u32, elapsed: u32,
                                       first: nat, throttle: u32)
    requires JudgedUpTo(ps, mid, |ps|, now, elapsed, first) && |qs| == |ps| && Before(ps, now)
    requires forall i :: 0 <= i < |ps| ==> qs[i] == Ended(mid[i], now, throttle)
    ensures TotalSetAside(ps, qs, now, elapsed) == Sum(mid, Rates(now, elapsed, throttle))
  {
    hide Judged, Taken, At, Ended;
    if ps != [] {
      RateIs(ps[0], now, elapsed, first, throttle);
      assert mid[0] == Judged(ps[0], now, elapsed, first) && qs[0] == Ended(mid[0], now, throttle);
      assert forall i :: 0 <= i < |ps[1..]| ==>
          ps[1..][i] == ps[i + 1] && qs[1..][i] == qs[i + 1] && mid[1..][i] == mid[i + 1];
      TotalSetAsideIs(ps[1..], mid[1..], qs[1..], now, elapsed, first, throttle);
    }
  }

  lemma RateIs(p: Peer, now: u32, elapsed: u32, first: nat, throttle: u32)
    requires first <= SCALE && (Live(p) ==> p.outgoingBandwidthThrottleEpoch != now)
    ensures var mid := Judged(p, now, elapsed, first);
            SetAside(p, Ended(mid, now, throttle), now, elapsed) == Rates(now, elapsed, throttle)(mid)
  {
  }

  /** What the last loop does to a peer. */
  function Ended(p: Peer, now: u32, throttle: u32): Peer {
    if Open(p, now) then Throttled(p, throttle) else p
  }

  /** No epoch is the current time yet. */
  predicate Before(ps: seq<Peer>, now: u32) {
    forall i :: 0 <= i < |ps| && Live(ps[i]) ==> ps[i].outgoingBandwidthThrottleEpoch != now
  }

  lemma ShareOf(p: Peer, now: u32, elapsed: u32, first: nat, rest: nat)
    requires first <= SCALE && rest <= SCALE && (Live(p) ==> p.outgoingBandwidthThrottleEpoch != now)
    ensures Ended(Judged(p, now, elapsed, first), now, rest) == Share(p, now, elapsed, first, rest)
    ensures Charges(now, elapsed)(Judged(p, now, elapsed, first)) == Costs(now, elapsed, first)(p)
  {
  }

  method DataTotal(h: Host, ghost now: u32) returns (dataTotal: u32)
    requires Before(h.peers[..], now) && Sum(h.peers[..], OpenData(now)) < 0x1_0000_0000
    ensures dataTotal == Sum(h.peers[..], OpenData(now))
  {
    dataTotal := 0;
    for i := 0 to h.peers.Length
      invariant dataTotal == Sum(h.peers[..][..i], OpenData(now))
    {
      SumLast(h.peers[..], i, OpenData(now));
      assert h.peers[i] == h.peers[..][i];
      if h.peers[i].state == Connected || h.peers[i].state == DisconnectLater {
        dataTotal := dataTotal + h.peers[i].outgoingDataTotal;
      }
    }
    assert h.peers[..][..h.peers.Length] == h.peers[..];
  }

  /** Nobody is limited, or nobody is open: then no throttle is too much. */
  lemma NoneTooMuch(ps: seq<Peer>, now: u32, elapsed: u32, throttle: nat)
    requires Sum(ps, Limits()) == 0 || Sum(ps, Opens(now)) == 0
    ensures forall i :: 0 <= i < |ps| ==> !TooMuch(ps[i], now, elapsed, throttle)
  {
    forall i | 0 <= i < |ps| ensures !TooMuch(ps[i], now, elapsed, throttle) {
      SumHas(ps, i, Limits());
      SumHas(ps, i, Opens(now));
    }
  }

  lemma AllOpen(ps: seq<Peer>, now: u32, elapsed: u32)
    requires Before(ps, now)
    ensures Sum(ps, Opens(now)) == Sum(ps, Lives()) && Sum(ps, Charges(now, elapsed)) == 0
  {
    SumSame(ps, ps, Opens(now), Lives());
    SumZero(ps, Charges(now, elapsed));
  }

  /** The passes: each limits somebody, so that they end; what they come to is what the first one does. */
  method OutgoingPasses(h: Host, now: u32, elapsed: u32, bandwidth0: u32, dataTotal0: u32)
    returns (bandwidth: u32, dataTotal: u32, remaining: u32)
    requires h.Valid() && Before(h.peers[..], now) && Fitting(h.peers[..], elapsed)
    requires h.connectedPeers < 0x1_0000_0000 && Sum(h.peers[..], OpenData(now)) <= dataTotal0
    requires dataTotal0 > bandwidth0 ==> bandwidth0 * SCALE < 0x1_0000_0000
    modifies h.peers
    ensures JudgedUpTo(old(h.peers[..]), h.peers[..], h.peers.Length, now, elapsed, Throttle(bandwidth0, dataTotal0))
    ensures Left(h.peers[..], now, elapsed, bandwidth, dataTotal, remaining, bandwidth0)
    ensures bandwidth <= bandwidth0 && dataTotal - bandwidth == dataTotal0 - bandwidth0
  {
    hide JudgedUpTo, Fitting, TooMuch, Throttle, Before;
    ghost var before, first := h.peers[..], Throttle(bandwidth0, dataTotal0);
    bandwidth, dataTotal, remaining := bandwidth0, dataTotal0, h.connectedPeers;
    var needsAdjustment := h.bandwidthLimitedPeers > 0;
    AllOpen(before, now, elapsed);
    ghost var passed := false;
    if !needsAdjustment || remaining == 0 { NobodyJudged(before, now, elapsed, bandwidth0, dataTotal0); }
    while remaining > 0 && needsAdjustment
      invariant Fitting(h.peers[..], elapsed)
      invariant Left(h.peers[..], now, elapsed, bandwidth, dataTotal, remaining, bandwidth0)
      invariant bandwidth <= bandwidth0 && dataTotal - bandwidth == dataTotal0 - bandwidth0
      invariant passed || (remaining == h.connectedPeers && needsAdjustment == (h.bandwidthLimitedPeers > 0)
                           && h.peers[..] == before && bandwidth == bandwidth0)
      invariant passed ==> JudgedUpTo(before, h.peers[..], |before|, now, elapsed, first)
      decreases remaining, needsAdjustment
    {
      hide Left;
      ghost var mid := h.peers[..];
      ThrottleFalls(bandwidth0, dataTotal0, bandwidth0 - bandwidth);
      ghost var lower := Throttle(bandwidth, dataTotal);
      needsAdjustment, bandwidth, dataTotal, remaining :=
        OutgoingPass(h, now, elapsed, bandwidth, dataTotal, remaining, bandwidth0);
      if passed { JudgedTwice(before, mid, h.peers[..], now, elapsed, first, lower); }
      passed := true;
    }
  }

  /** Nobody is limited, or nobody is open: then a pass changes nothing. */
  lemma NobodyJudged(ps: seq<Peer>, now: u32, elapsed: u32, bandwidth: nat, dataTotal: nat)
    requires Sum(ps, Limits()) == 0 || Sum(ps, Opens(now)) == 0
    ensures JudgedUpTo(ps, ps, |ps|, now, elapsed, Throttle(bandwidth, dataTotal))
  {
    hide TooMuch, Throttle;
    ThrottleFalls(bandwidth, dataTotal, 0);
    NoneTooMuch(ps, now, elapsed, Throttle(bandwidth, dataTotal));
  }

  lemma JudgedTwice(ps: seq<Peer>, mid: seq<Peer>, qs: seq<Peer>, now: u32, elapsed: u32, throttle: nat, lower: nat)
    requires JudgedUpTo(ps, mid, |ps|, now, elapsed, throttle) && JudgedUpTo(mid, qs, |mid|, now, elapsed, lower)
    requires lower <= throttle
    ensures JudgedUpTo(ps, qs, |ps|, now, elapsed, throttle)
  {
    hide Judged;
    forall j | 0 <= j < |ps| ensures qs[j] == Judged(ps[j], now, elapsed, throttle) {
      JudgedOnce(ps[j], now, elapsed, throttle, lower);
    }
  }

  /** Whoever has no limit of its own gets the throttle that is left. */
  method ThrottleOthers(h: Host, now: u32, throttle: u32)
    modifies h.peers
    ensures forall i :: 0 <= i < h.peers.Length ==> h.peers[i] == Ended(old(h.peers[i]), now, throttle)
  {
    for i := 0 to h.peers.Length
      invariant forall j :: 0 <= j < i ==> h.peers[j] == Ended(old(h.peers[j]), now, throttle)
      invariant forall j :: i <= j < h.peers.Length ==> h.peers[j] == old(h.peers[j])
    {
      var peer := h.peers[i];
      if !((peer.state != Connected && peer.state != DisconnectLater) || peer.outgoingBandwidthThrottleEpoch == now) {
        h.peers[i] := Throttled(peer, throttle);
      }
    }
  }

  /** The bandwidth to share out: what the host may send in the time gone by, or no bound that data can reach. */
  function Available(outgoingBandwidth: u32, elapsed: u32): nat {
    if outgoingBandwidth == 0 then 0xFFFF_FFFF else outgoingBandwidth * elapsed / 1000
  }

  /** The data that wants to be sent, or no bound that bandwidth can reach. */
  function Wanted(outgoingBandwidth: u32, ps: seq<Peer>, now: u32): nat {
    if outgoingBandwidth == 0 then 0xFFFF_FFFF else Sum(ps, OpenData(now))
  }

  method OutgoingBudget(h: Host, ghost now: u32, elapsed: u32) returns (bandwidth: u32, dataTotal: u32)
    requires Before(h.peers[..], now) && Sum(h.peers[..], OpenData(now)) < 0x1_0000_0000
    requires h.outgoingBandwidth * elapsed < 0x1_0000_0000
    ensures bandwidth == Available(h.outgoingBandwidth, elapsed) && Sum(h.peers[..], OpenData(now)) <= dataTotal
    ensures dataTotal == Wanted(h.outgoingBandwidth, h.peers[..], now)
    ensures dataTotal > bandwidth ==> h.outgoingBandwidth != 0
  {
    bandwidth, dataTotal := 0xFFFF_FFFF, 0xFFFF_FFFF;
    if h.outgoingBandwidth != 0 {
      var product: u32 := h.outgoingBandwidth * elapsed;
      bandwidth := product / 1000;
      dataTotal := DataTotal(h, now);
    }
  }

  /** What the peers cost that get a limit of their own. */
  function Costs(now: u32, elapsed: u32, throttle: nat): Peer -> nat {
    p => if TooMuch(p, now, elapsed, throttle) then Taken(p, elapsed) else 0
  }

  /** Everybody gets a share: the throttle for all data in all of the bandwidth decides who gets a limit of its own,
      and the throttle for the others' data in the others' bandwidth is what they get.  No more than is available is set
      aside for them, and together they are let send no more. */
  predicate SharedOut(ps: seq<Peer>, qs: seq<Peer>, now: u32, elapsed: u32, available: nat, wanted: nat) {
    var first := Throttle(available, wanted);
    var cost := Sum(ps, Costs(now, elapsed, first));
    && |ps| == |qs| && cost <= available && cost <= wanted
    && var rest := Throttle(available - cost, wanted - cost);
    && rest <= first <= SCALE
    && (forall i :: 0 <= i < |ps| ==> qs[i] == Share(ps[i], now, elapsed, first, rest))
    && TotalSetAside(ps, qs, now, elapsed) <= available && TotalLetThrough(ps, qs) <= available
    && Through(ps, qs) <= SCALE * available
  }

  lemma SetAsideFits(ps: seq<Peer>, mid: seq<Peer>, qs: seq<Peer>, now: u32, elapsed: u32, first: nat, throttle: u32,
                     bandwidth: nat, available: nat)
    requires Before(ps, now) && JudgedUpTo(ps, mid, |ps|, now, elapsed, first) && |qs| == |ps|
    requires Sum(mid, Charges(now, elapsed)) + bandwidth == available
    requires Affords(throttle, bandwidth, Sum(mid, OpenData(now)))
    requires forall i :: 0 <= i < |ps| ==> qs[i] == Ended(mid[i], now, throttle)
    ensures TotalSetAside(ps, qs, now, elapsed) <= available
  {
    hide JudgedUpTo, Before, Ended;
    TotalSetAsideIs(ps, mid, qs, now, elapsed, first, throttle);
    RatesFit(mid, now, elapsed, throttle);
  }

  lemma LetThroughFits(ps: seq<Peer>, qs: seq<Peer>, now: u32, elapsed: u32, rest: nat, available: nat, wanted: nat)
    requires Before(ps, now) && |ps| == |qs| && Sum(ps, OpenData(now)) <= wanted
    requires rest <= Throttle(available, wanted) <= SCALE
    requires forall i :: 0 <= i < |ps| ==> qs[i] == Share(ps[i], now, elapsed, Throttle(available, wanted), rest)
    ensures TotalLetThrough(ps, qs) <= available && Through(ps, qs) <= SCALE * available
  {
    hide Before, Share, Throttle;
    RestAffords(available, wanted, Sum(ps, OpenData(now)));
    TotalFits(ps, qs, now, elapsed, Throttle(available, wanted), rest);
  }

  lemma SharesAre(ps: seq<Peer>, mid: seq<Peer>, qs: seq<Peer>, now: u32, elapsed: u32, first: nat, rest: u32)
    requires Before(ps, now) && JudgedUpTo(ps, mid, |ps|, now, elapsed, first) && |qs| == |ps| && rest <= SCALE
    requires forall i :: 0 <= i < |ps| ==> qs[i] == Ended(mid[i], now, rest)
    ensures first <= SCALE && forall i :: 0 <= i < |ps| ==> qs[i] == Share(ps[i], now, elapsed, first, rest)
    ensures Sum(ps, Costs(now, elapsed, first)) == Sum(mid, Charges(now, elapsed))
  {
    hide TooMuch, Ended, Share, Judged, Taken;
    forall i | 0 <= i < |ps|
      ensures qs[i] == Share(ps[i], now, elapsed, first, rest)
      ensures Costs(now, elapsed, first)(ps[i]) == Charges(now, elapsed)(mid[i])
    {
      ShareOf(ps[i], now, elapsed, first, rest);
    }
    SumSame(ps, mid, Costs(now, elapsed, first), Charges(now, elapsed));
  }

  lemma SharesFit(ps: seq<Peer>, mid: seq<Peer>, qs: seq<Peer>, now: u32, elapsed: u32, throttle: u32,
                  bandwidth: nat, dataTotal: nat, remaining: nat, available: nat, wanted: nat)
    requires Before(ps, now) && JudgedUpTo(ps, mid, |ps|, now, elapsed, Throttle(available, wanted)) && |qs| == |ps|
    requires Left(mid, now, elapsed, bandwidth, dataTotal, remaining, available)
    requires dataTotal - bandwidth == wanted - available && throttle == Throttle(bandwidth, dataTotal)
    requires Sum(ps, OpenData(now)) <= wanted
    requires Affords(throttle, bandwidth, Sum(mid, OpenData(now)))
    requires forall i :: 0 <= i < |ps| ==> qs[i] == Ended(mid[i], now, throttle)
    ensures SharedOut(ps, qs, now, elapsed, available, wanted)
  {
    hide Ended, Share, JudgedUpTo, Throttle, Affords, TotalSetAside, TotalLetThrough, Through, Before;
    var first := Throttle(available, wanted);
    ThrottleFalls(available, wanted, available - bandwidth);
    SharesAre(ps, mid, qs, now, elapsed, first, throttle);
    SetAsideFits(ps, mid, qs, now, elapsed, first, throttle, bandwidth, available);
    LetThroughFits(ps, qs, now, elapsed, throttle, available, wanted);
  }

  /** The first half of enet_host_bandwidth_throttle. */
  method ShareOutgoing(h: Host, now: u32, elapsed: u32)
    requires h.Valid() && 0 < h.connectedPeers < 0x1_0000_0000
    requires Before(h.peers[..], now) && Fitting(h.peers[..], elapsed)
    requires Sum(h.peers[..], OpenData(now)) < 0x1_0000_0000
    requires h.outgoingBandwidth * elapsed < 0x1_0000_0000
    requires h.outgoingBandwidth != 0 ==> Available(h.outgoingBandwidth, elapsed) * SCALE < 0x1_0000_0000
    modifies h.peers
    ensures SharedOut(old(h.peers[..]), h.peers[..], now, elapsed, Available(h.outgoingBandwidth, elapsed),
                      Wanted(h.outgoingBandwidth, old(h.peers[..]), now))
  {
    hide Before, JudgedUpTo, Left, TooMuch, Ended, Affords, Available, SharedOut, Throttle, Wanted;
    ghost var before := h.peers[..];
    var available, wanted := OutgoingBudget(h, now, elapsed);
    var bandwidth, dataTotal, remaining := OutgoingPasses(h, now, elapsed, available, wanted);
    ghost var mid := h.peers[..];
    LeftData(mid, now, elapsed, bandwidth, dataTotal, remaining, available);
    ThrottleFalls(bandwidth, dataTotal, 0);
    ghost var rest: u32 := Throttle(bandwidth, dataTotal);
    if remaining > 0 {
      var throttle := ThrottleFor(bandwidth, dataTotal, Sum(mid, OpenData(now)));
      ThrottleOthers(h, now, throttle);
    } else {
      NobodyOpen(mid, now, elapsed, rest, bandwidth, dataTotal, available);
    }
    RestAffords(bandwidth, dataTotal, Sum(mid, OpenData(now)));
    SharesFit(before, mid, h.peers[..], now, elapsed, rest, bandwidth, dataTotal, remaining, available, wanted);
  }

  lemma RestAffords(bandwidth: nat, dataTotal: nat, data: nat)
    requires data <= dataTotal
    ensures Affords(Throttle(bandwidth, dataTotal), bandwidth, data)
  {
    hide Throttle;
    ThrottleFalls(bandwidth, dataTotal, 0);
    ThrottleIsLargest(bandwidth, dataTotal);
    Monotone(Throttle(bandwidth, dataTotal), data, dataTotal);
  }

  lemma NobodyOpen(ps: seq<Peer>, now: u32, elapsed: u32, throttle: u32, bandwidth: nat, dataTotal: nat, all: nat)
    requires Left(ps, now, elapsed, bandwidth, dataTotal, 0, all)
    ensures forall i :: 0 <= i < |ps| ==> ps[i] == Ended(ps[i], now, throttle)
  {
    forall i | 0 <= i < |ps| ensures ps[i] == Ended(ps[i], now, throttle) { SumHas(ps, i, Opens(now)); }
  }

  // ----- incoming

  /** A live peer whose own bandwidth is not below the limit so far. */
  predicate Wanting(p: Peer, now: u32) {
    Live(p) && p.incomingBandwidthThrottleEpoch != now
  }

  function Wants(now: u32): Peer -> nat {
    p => if Wanting(p, now) then 1 else 0
  }

  function Granted(now: u32): Peer -> nat {
    p => if Live(p) && p.incomingBandwidthThrottleEpoch == now then p.outgoingBandwidth else 0
  }

  /** What is announced to a peer: its own bandwidth, or the limit. */
  function Announced(p: Peer, now: u32, limit: u32): u32 {
    if p.incomingBandwidthThrottleEpoch == now then p.outgoingBandwidth else limit
  }

  function Announcements(now: u32, limit: u32): Peer -> nat {
    p => if Live(p) then Announced(p, now, limit) else 0
  }

  predicate Small(p: Peer, limit: nat) {
    p.outgoingBandwidth == 0 || p.outgoingBandwidth < limit
  }

  function Grant(p: Peer, now: u32): Peer {
    p.(incomingBandwidthThrottleEpoch := now)
  }

  /** Nothing but the epoch of small peers has changed. */
  predicate Grants(p: Peer, q: Peer, now: u32, limit: nat) {
    q == p || (Wanting(p, now) && Small(p, limit) && q == Grant(p, now))
  }

  predicate AllGrants(ps: seq<Peer>, qs: seq<Peer>, now: u32, limit: nat) {
    |ps| == |qs| && forall i :: 0 <= i < |ps| ==> Grants(ps[i], qs[i], now, limit)
  }

  /** What is left of the bandwidth gives everybody who still wants some the limit. */
  predicate Enough(ps: seq<Peer>, now: u32, bandwidth: nat, remaining: nat, limit: nat, all: nat) {
    && remaining == Sum(ps, Wants(now)) && Sum(ps, Granted(now)) + bandwidth == all && limit * remaining <= bandwidth
  }

  lemma GrantLeaves(ps: seq<Peer>, i: nat, now: u32, bandwidth: nat, remaining: nat, limit: nat, all: nat)
    requires i < |ps| && Enough(ps, now, bandwidth, remaining, limit, all) && Wanting(ps[i], now) && Small(ps[i], limit)
    ensures remaining > 0 && ps[i].outgoingBandwidth <= bandwidth
    ensures Enough(ps[i := Grant(ps[i], now)], now, bandwidth - ps[i].outgoingBandwidth, remaining - 1, limit, all)
  {
    SumUpdate(ps, i, Grant(ps[i], now), Wants(now));
    SumUpdate(ps, i, Grant(ps[i], now), Granted(now));
    SumHas(ps, i, Wants(now));
    Distribute(limit, remaining, 1);
  }

  lemma GrantsMore(ps: seq<Peer>, qs: seq<Peer>, i: nat, now: u32, limit: nat)
    requires AllGrants(ps, qs, now, limit) && i < |qs| && Wanting(qs[i], now) && Small(qs[i], limit)
    ensures AllGrants(ps, qs[i := Grant(qs[i], now)], now, limit)
  {
    assert Grants(ps[i], qs[i], now, limit);
  }

  /** One pass over the peers: whoever is below the limit keeps its own bandwidth, and leaves more to the others: the
      next limit is not lower. */
  method IncomingPass(h: Host, now: u32, bandwidth0: u32, remaining0: u32, limit: u32, ghost all: nat,
                      ghost before: seq<Peer>)
    returns (adjusted: bool, bandwidth: u32, remaining: u32)
    requires Enough(h.peers[..], now, bandwidth0, remaining0, limit, all) && AllGrants(before, h.peers[..], now, limit)
    modifies h.peers
    ensures Enough(h.peers[..], now, bandwidth, remaining, limit, all) && AllGrants(before, h.peers[..], now, limit)
    ensures if adjusted then remaining < remaining0 else remaining == remaining0 && bandwidth == bandwidth0
    ensures remaining > 0 ==> limit <= bandwidth / remaining
    ensures !adjusted ==> forall i :: 0 <= i < h.peers.Length ==>
        !(Wanting(h.peers[i], now) && Small(h.peers[i], limit))
  {
    hide Enough, AllGrants, Wanting, Small, Grant;
    adjusted, bandwidth, remaining := false, bandwidth0, remaining0;
    for i := 0 to h.peers.Length
      invariant Enough(h.peers[..], now, bandwidth, remaining, limit, all) && AllGrants(before, h.peers[..], now, limit)
      invariant if adjusted then remaining < remaining0 else remaining == remaining0 && bandwidth == bandwidth0
      invariant !adjusted ==> forall j :: 0 <= j < i ==> !(Wanting(h.peers[j], now) && Small(h.peers[j], limit))
    {
      ghost var ps := h.peers[..];
      var peer := h.peers[i];
      IncomingTest(peer, now, limit);
      if !((peer.state != Connected && peer.state != DisconnectLater) || peer.incomingBandwidthThrottleEpoch == now) &&
         !(peer.outgoingBandwidth > 0 && peer.outgoingBandwidth >= limit)
      {
        GrantLeaves(ps, i, now, bandwidth, remaining, limit, all);
        GrantsMore(before, ps, i, now, limit);
        h.peers[i] := Grant(peer, now);
        assert h.peers[..] == ps[i := Grant(peer, now)];
        adjusted := true;
        remaining := remaining - 1;
        bandwidth := bandwidth - peer.outgoingBandwidth;
      }
    }
    if remaining > 0 { NextLimit(h.peers[..], now, bandwidth, remaining, limit, all); }
  }

  lemma IncomingTest(peer: Peer, now: u32, limit: u32)
    ensures (Wanting(peer, now) && Small(peer, limit)) ==
            (!((peer.state != Connected && peer.state != DisconnectLater) || peer.incomingBandwidthThrottleEpoch == now)
             && !(peer.outgoingBandwidth > 0 && peer.outgoingBandwidth >= limit))
  {
  }

  lemma NextLimit(ps: seq<Peer>, now: u32, bandwidth: nat, remaining: nat, limit: nat, all: nat)
    requires Enough(ps, now, bandwidth, remaining, limit, all) && remaining > 0
    ensures limit <= bandwidth / remaining
    ensures Enough(ps, now, bandwidth, remaining, bandwidth / remaining, all)
  {
    if limit > bandwidth / remaining { Monotone(remaining, bandwidth / remaining + 1, limit); }
  }

  lemma GrantsHigher(ps: seq<Peer>, qs: seq<Peer>, now: u32, limit: nat, higher: nat)
    requires AllGrants(ps, qs, now, limit) && limit <= higher
    ensures AllGrants(ps, qs, now, higher)
  {
    forall i | 0 <= i < |ps| ensures Grants(ps[i], qs[i], now, higher) { assert Grants(ps[i], qs[i], now, limit); }
  }

  predicate IncomingBefore(ps: seq<Peer>, now: u32) {
    forall i :: 0 <= i < |ps| && Live(ps[i]) ==> ps[i].incomingBandwidthThrottleEpoch != now
  }

  /** Exactly the peers whose own bandwidth is below the limit keep it, and the limit is an even share of what they
      leave to the others; what is announced is within the host's bandwidth, if that has a bound. */
  predicate IncomingShared(ps: seq<Peer>, qs: seq<Peer>, now: u32, limit: u32, incomingBandwidth: u32) {
    && |ps| == |qs|
    && (incomingBandwidth == 0 ==> qs == ps && limit == 0)
    && (incomingBandwidth != 0 ==>
          && (forall i :: 0 <= i < |ps| ==>
                qs[i] == if Wanting(ps[i], now) && Small(ps[i], limit) then Grant(ps[i], now) else ps[i])
          && Sum(qs, Granted(now)) <= incomingBandwidth
          && (Sum(qs, Wants(now)) > 0 ==>
                limit == (incomingBandwidth - Sum(qs, Granted(now))) / Sum(qs, Wants(now)))
          && Sum(qs, Announcements(now, limit)) <= incomingBandwidth)
  }

  /** A peer is told 0, which means no bound, exactly when it named no bandwidth of its own, or the limit is 0. */
  lemma ToldNoBoundExactly(ps: seq<Peer>, qs: seq<Peer>, i: nat, now: u32, limit: u32, incomingBandwidth: u32)
    requires IncomingShared(ps, qs, now, limit, incomingBandwidth) && incomingBandwidth != 0 && i < |ps|
    requires Live(ps[i]) && ps[i].incomingBandwidthThrottleEpoch != now
    ensures Announced(qs[i], now, limit) == 0 <==> ps[i].outgoingBandwidth == 0 || limit == 0
  {
  }

  lemma AllWanting(ps: seq<Peer>, now: u32, bandwidth: nat)
    requires IncomingBefore(ps, now)
    ensures Enough(ps, now, bandwidth, Sum(ps, Lives()), 0, bandwidth) && AllGrants(ps, ps, now, 0)
  {
    SumSame(ps, ps, Wants(now), Lives());
    SumZero(ps, Granted(now));
  }

  lemma {:induction false} AnnouncedIs(ps: seq<Peer>, now: u32, limit: u32)
    ensures Sum(ps, Announcements(now, limit)) == Sum(ps, Granted(now)) + limit * Sum(ps, Wants(now))
  {
    if ps != [] {
      AnnouncedIs(ps[1..], now, limit);
      Distribute(limit, Sum(ps, Wants(now)), Wants(now)(ps[0]));
    }
  }

  lemma NobodyWants(ps: seq<Peer>, now: u32)
    requires Sum(ps, Wants(now)) == 0
    ensures forall i :: 0 <= i < |ps| ==> !Wanting(ps[i], now)
  {
    forall i | 0 <= i < |ps| ensures !Wanting(ps[i], now) { SumHas(ps, i, Wants(now)); }
  }

  lemma IncomingEnds(ps: seq<Peer>, qs: seq<Peer>, now: u32, bandwidth: nat, remaining: nat, limit: u32, all: u32)
    requires AllGrants(ps, qs, now, limit) && Enough(qs, now, bandwidth, remaining, limit, all) && all != 0
    requires remaining > 0 ==> limit == bandwidth / remaining
    requires remaining == 0 || forall i :: 0 <= i < |qs| ==> !(Wanting(qs[i], now) && Small(qs[i], limit))
    ensures IncomingShared(ps, qs, now, limit, all)
  {
    hide Small;
    if remaining == 0 { NobodyWants(qs, now); }
    forall i | 0 <= i < |ps|
      ensures qs[i] == if Wanting(ps[i], now) && Small(ps[i], limit) then Grant(ps[i], now) else ps[i]
    {
      assert Grants(ps[i], qs[i], now, limit);
      assert !(Wanting(qs[i], now) && Small(qs[i], limit));
    }
    AnnouncedIs(qs, now, limit);
  }

  lemma UnboundedShared(ps: seq<Peer>, now: u32)
    ensures IncomingShared(ps, ps, now, 0, 0)
  {
  }

  /** The second half of enet_host_bandwidth_throttle. */
  method ShareIncoming(h: Host, now: u32) returns (bandwidthLimit: u32)
    requires h.Valid() && 0 < h.connectedPeers < 0x1_0000_0000 && IncomingBefore(h.peers[..], now)
    modifies h.peers
    ensures IncomingShared(old(h.peers[..]), h.peers[..], now, bandwidthLimit, h.incomingBandwidth)
  {
    hide Enough, AllGrants, Wanting, Small, IncomingBefore, IncomingShared, Announcements;
    ghost var before := h.peers[..];
    var remaining: u32, bandwidth: u32, needsAdjustment := h.connectedPeers, h.incomingBandwidth, true;
    bandwidthLimit := 0;
    ghost var all: u32 := bandwidth;
    AllWanting(before, now, bandwidth);
    if bandwidth == 0 {
      UnboundedShared(before, now);
      return;
    }
    while remaining > 0 && needsAdjustment
      invariant Enough(h.peers[..], now, bandwidth, remaining, bandwidthLimit, all)
      invariant AllGrants(before, h.peers[..], now, bandwidthLimit)
      invariant !needsAdjustment ==> remaining > 0 && bandwidthLimit == bandwidth / remaining
      invariant !needsAdjustment ==>
        forall i :: 0 <= i < h.peers.Length ==> !(Wanting(h.peers[i], now) && Small(h.peers[i], bandwidthLimit))
      decreases remaining, needsAdjustment
    {
      NextLimit(h.peers[..], now, bandwidth, remaining, bandwidthLimit, all);
      GrantsHigher(before, h.peers[..], now, bandwidthLimit, bandwidth / remaining);
      Monotone(bandwidth, 1, remaining);
      QuotientAtMost(bandwidth, remaining, bandwidth);
      bandwidthLimit := bandwidth / remaining;
      needsAdjustment, bandwidth, remaining := IncomingPass(h, now, bandwidth, remaining, bandwidthLimit, all, before);
    }
    IncomingEnds(before, h.peers[..], now, bandwidth, remaining, bandwidthLimit, all);
  }

  /** The last loop: every live peer is told, in order, and nobody else. */
  method Announce(h: Host, now: u32, bandwidthLimit: u32) returns (commands: seq<Command>)
    ensures commands == AllCommands(h.peers[..], 0, now, bandwidthLimit, h.outgoingBandwidth)
  {
    commands := [];
    for i := 0 to h.peers.Length
      invariant commands + AllCommands(h.peers[..], i, now, bandwidthLimit, h.outgoingBandwidth)
             == AllCommands(h.peers[..], 0, now, bandwidthLimit, h.outgoingBandwidth)
    {
      var peer := h.peers[i];
      if !(peer.state != Connected && peer.state != DisconnectLater) {
        var limit := if peer.incomingBandwidthThrottleEpoch == now then peer.outgoingBandwidth else bandwidthLimit;
        commands := commands + [BandwidthLimit(i, limit, h.outgoingBandwidth)];
      }
    }
  }

  function AllCommands(ps: seq<Peer>, i: nat, now: u32, limit: u32, outgoing: u32): seq<Command>
    requires i <= |ps|
    decreases |ps| - i
  {
    if i == |ps| then []
    else if Live(ps[i]) then
      [BandwidthLimit(i, Announced(ps[i], now, limit), outgoing)] + AllCommands(ps, i + 1, now, limit, outgoing)
    else AllCommands(ps, i + 1, now, limit, outgoing)
  }

  function TotalAnnounced(commands: seq<Command>): nat {
    if commands == [] then 0 else commands[0].incomingBandwidth + TotalAnnounced(commands[1..])
  }

  lemma {:induction false} CommandsTotal(ps: seq<Peer>, i: nat, now: u32, limit: u32, outgoing: u32)
    requires i <= |ps|
    ensures TotalAnnounced(AllCommands(ps, i, now, limit, outgoing)) == Sum(ps[i..], Announcements(now, limit))
    decreases |ps| - i
  {
    if i < |ps| {
      CommandsTotal(ps, i + 1, now, limit, outgoing);
      assert ps[i..][1..] == ps[i + 1..];
      if Live(ps[i]) {
        var rest := AllCommands(ps, i + 1, now, limit, outgoing);
        var first := BandwidthLimit(i, Announced(ps[i], now, limit), outgoing);
        assert ([first] + rest)[1..] == rest;
      }
    }
  }

  // ----- the shares are fair

  /** A share is what `Budgets` calls fair. */
  lemma ShareIsFair(p: Peer, now: u32, elapsed: u32, first: nat, rest: nat)
    requires first <= 32 && rest <= 32 && (Live(p) ==> p.outgoingBandwidthThrottleEpoch != now)
    ensures Fairly(p, Share(p, now, elapsed, first, rest), now, elapsed, first, rest)
    ensures Kept(elapsed, first)(p) == Costs(now, elapsed, first)(p)
  {
    hide LimitFor;
    OverIs(p, now, elapsed, first);
    if TooMuch(p, now, elapsed, first) {
      TooMuchCosts(first, p.outgoingDataTotal, Taken(p, elapsed));
      LimitIsLevel(Taken(p, elapsed), p.outgoingDataTotal);
    }
  }

  lemma OverIs(p: Peer, now: u32, elapsed: u32, level: nat)
    requires Live(p) ==> p.outgoingBandwidthThrottleEpoch != now
    ensures Over(p, elapsed, level) <==> TooMuch(p, now, elapsed, level)
  {
  }

  lemma LimitIsLevel(taken: nat, data: nat)
    requires data > 0
    ensures OwnLevel(LimitFor(taken, data), data, taken)
  {
    var limit := taken * 32 / data;
    assert limit * data <= taken * 32 < limit * data + data;
    if 32 * taken < data {
      if limit > 0 { Monotone(data, 1, limit); }
    } else {
      QuotientAtLeast(taken * 32, data, 1);
    }
  }

  lemma ThrottleIsLevel(bandwidth: nat, dataTotal: nat)
    ensures Largest(Throttle(bandwidth, dataTotal), dataTotal, bandwidth)
  {
    ThrottleIsLargest(bandwidth, dataTotal);
    ThrottleFalls(bandwidth, dataTotal, 0);
  }

  lemma SharedOutIsFair(ps: seq<Peer>, qs: seq<Peer>, now: u32, elapsed: u32, rate: u32)
    requires SharedOut(ps, qs, now, elapsed, Available(rate, elapsed), Wanted(rate, ps, now)) && Before(ps, now)
    ensures Fair(ps, qs, now, elapsed, rate)
    ensures rate != 0 ==>
      && 1000 * Through(ps, qs) <= 32 * (rate * elapsed)
      && 1000 * TotalLetThrough(ps, qs) <= rate * elapsed
      && 1000 * TotalSetAside(ps, qs, now, elapsed) <= rate * elapsed
  {
    hide Throttle, Share, Costs, TotalSetAside, TotalLetThrough, Through, Kept, Fairly, Largest;
    var available, wanted := Available(rate, elapsed), Wanted(rate, ps, now);
    var first := Throttle(available, wanted);
    var cost := Sum(ps, Costs(now, elapsed, first));
    var rest := Throttle(available - cost, wanted - cost);
    ThrottleIsLevel(available, wanted);
    ThrottleIsLevel(available - cost, wanted - cost);
    SumSame(ps, ps, OpenData(now), Data());
    forall i | 0 <= i < |ps|
      ensures Fairly(ps[i], qs[i], now, elapsed, first, rest)
      ensures Kept(elapsed, first)(ps[i]) == Costs(now, elapsed, first)(ps[i])
    {
      ShareIsFair(ps[i], now, elapsed, first, rest);
    }
    SumSame(ps, ps, Kept(elapsed, first), Costs(now, elapsed, first));
    if rate == 0 {
      AllIsWithin(available, wanted);
      AllIsWithin(available - cost, wanted - cost);
    }
    assert FairAt(ps, qs, now, elapsed, rate, available, first, rest);
  }

  lemma AllIsWithin(bandwidth: nat, dataTotal: nat)
    requires dataTotal <= bandwidth
    ensures Throttle(bandwidth, dataTotal) == 32
  {
  }

  lemma SharedOutKeeps(ps: seq<Peer>, qs: seq<Peer>, now: u32, elapsed: u32, available: nat, wanted: nat)
    requires SharedOut(ps, qs, now, elapsed, available, wanted)
    ensures |ps| == |qs|
    ensures forall i :: 0 <= i < |ps| ==>
        qs[i].state == ps[i].state && qs[i].outgoingBandwidth == ps[i].outgoingBandwidth
  {
    hide TooMuch, Taken, LimitFor, Throttle;
  }

  /** What is announced is what `Budgets` calls an even limit. */
  lemma AnnouncedIsEven(ps: seq<Peer>, mid: seq<Peer>, qs: seq<Peer>, now: u32, limit: u32, rate: u32, outgoing: u32)
    requires IncomingShared(mid, qs, now, limit, rate) && IncomingBefore(mid, now) && |ps| == |mid|
    requires forall i :: 0 <= i < |ps| ==>
        mid[i].state == ps[i].state && mid[i].outgoingBandwidth == ps[i].outgoingBandwidth
    ensures EvenLimit(ps, rate, limit) && AllCommands(qs, 0, now, limit, outgoing) == Commands(ps, 0, limit, outgoing)
  {
    forall i | 0 <= i < |ps|
      ensures qs[i].state == ps[i].state
      ensures Live(qs[i]) ==> Announced(qs[i], now, limit) == Told(ps[i].outgoingBandwidth, limit)
      ensures rate != 0 ==> Wants(now)(qs[i]) == HeldBack(limit)(ps[i])
    {
      assert qs[i] == mid[i] || qs[i] == Grant(mid[i], now);
    }
    SameCommands(ps, qs, 0, now, limit, outgoing);
    if rate != 0 {
      SumSame(qs, ps, Announcements(now, limit), AllTold(limit));
      SumSame(qs, ps, Wants(now), HeldBack(limit));
      AnnouncedIs(qs, now, limit);
      if Sum(qs, Wants(now)) > 0 { EvenShare(rate - Sum(qs, Granted(now)), Sum(qs, Wants(now))); }
    }
  }

  lemma EvenShare(bandwidth: nat, remaining: nat)
    requires remaining > 0
    ensures bandwidth / remaining * remaining <= bandwidth < bandwidth / remaining * remaining + remaining
  {
  }

  lemma {:induction false} SameCommands(ps: seq<Peer>, qs: seq<Peer>, i: nat, now: u32, limit: u32, outgoing: u32)
    requires |ps| == |qs| && i <= |ps|
    requires forall j :: i <= j < |ps| ==>
        qs[j].state == ps[j].state &&
        (Live(qs[j]) ==> Announced(qs[j], now, limit) == Told(ps[j].outgoingBandwidth, limit))
    ensures AllCommands(qs, i, now, limit, outgoing) == Commands(ps, i, limit, outgoing)
    decreases |ps| - i
  {
    if i < |ps| {
      SameCommands(ps, qs, i + 1, now, limit, outgoing);
    }
  }

  // ----- the whole

  /** What the quantities must be for no product to wrap. */
  ghost predicate InRange(h: Host, now: u32, elapsed: u32)
    reads h, h.peers
  {
    && h.connectedPeers < 0x1_0000_0000 && Before(h.peers[..], now) && IncomingBefore(h.peers[..], now)
    && Fitting(h.peers[..], elapsed) && Sum(h.peers[..], OpenData(now)) < 0x1_0000_0000
    && h.outgoingBandwidth * elapsed < 0x1_0000_0000
    && (h.outgoingBandwidth != 0 ==> Available(h.outgoingBandwidth, elapsed) * SCALE < 0x1_0000_0000)
  }

  function Elapsed(h: Host, now: u32): u32
    reads h
  {
    (now - h.bandwidthThrottleEpoch) % 0x1_0000_0000
  }

  /** enet_host_bandwidth_throttle at this time. */
  method BandwidthThrottle(h: Host, now: u32) returns (commands: seq<Command>, ghost mid: seq<Peer>)
    requires h.Valid() && InRange(h, now, Elapsed(h, now))
    modifies h, h.peers
    ensures h.Valid() && h.connectedPeers == old(h.connectedPeers)
    ensures h.bandwidthLimitedPeers == old(h.bandwidthLimitedPeers)
    ensures h.incomingBandwidth == old(h.incomingBandwidth) && h.outgoingBandwidth == old(h.outgoingBandwidth)
    ensures h.bandwidthThrottleEpoch == if old(Elapsed(h, now)) < 1000 then old(h.bandwidthThrottleEpoch) else now
    ensures h.recalculateBandwidthLimits ==
      (old(h.recalculateBandwidthLimits) && (old(Elapsed(h, now)) < 1000 || h.connectedPeers == 0))
    ensures var elapsed := old(Elapsed(h, now));
      if elapsed < 1000 || h.connectedPeers == 0 then h.peers[..] == old(h.peers[..]) && commands == []
      else
        && Fair(old(h.peers[..]), mid, now, elapsed, h.outgoingBandwidth)
        && (h.outgoingBandwidth != 0 ==>
              && |mid| == |old(h.peers[..])|
              && 1000 * Through(old(h.peers[..]), mid) <= 32 * (h.outgoingBandwidth * elapsed)
              && 1000 * TotalLetThrough(old(h.peers[..]), mid) <= h.outgoingBandwidth * elapsed
              && 1000 * TotalSetAside(old(h.peers[..]), mid, now, elapsed) <= h.outgoingBandwidth * elapsed)
        && if !old(h.recalculateBandwidthLimits) then h.peers[..] == mid && commands == []
           else
             && (exists limit ::
                   && IncomingShared(mid, h.peers[..], now, limit, h.incomingBandwidth)
                   && EvenLimit(old(h.peers[..]), h.incomingBandwidth, limit)
                   && commands == Commands(old(h.peers[..]), 0, limit, h.outgoingBandwidth))
             && (h.incomingBandwidth != 0 ==> TotalAnnounced(commands) <= h.incomingBandwidth)
  {
    hide InRange, Before, Fitting, SharedOut, IncomingShared, IncomingBefore, Available, Wanted, Counted, AllCommands,
         Fair, EvenLimit;
    commands, mid := [], h.peers[..];
    var elapsed := Elapsed(h, now);
    InRangeAt(h, now, elapsed);
    ghost var before := h.peers[..];
    if elapsed < INTERVAL { return; }
    h.bandwidthThrottleEpoch := now;
    if h.connectedPeers == 0 { return; }
    ShareOutgoing(h, now, elapsed);
    mid := h.peers[..];
    SharedOutCounts(before, mid, now, elapsed, Available(h.outgoingBandwidth, elapsed),
                    Wanted(h.outgoingBandwidth, before, now), h.connectedPeers, h.bandwidthLimitedPeers);
    SharedOutKeeps(before, mid, now, elapsed, Available(h.outgoingBandwidth, elapsed),
                   Wanted(h.outgoingBandwidth, before, now));
    SharedOutIsFair(before, mid, now, elapsed, h.outgoingBandwidth);
    if h.recalculateBandwidthLimits {
      h.recalculateBandwidthLimits := false;
      var limit := ShareIncoming(h, now);
      IncomingCounts(mid, h.peers[..], now, limit, h.incomingBandwidth, h.connectedPeers, h.bandwidthLimitedPeers);
      AnnouncedIsEven(before, mid, h.peers[..], now, limit, h.incomingBandwidth, h.outgoingBandwidth);
      commands := Announce(h, now, limit);
      if h.incomingBandwidth != 0 {
        AnnouncedTotal(mid, h.peers[..], now, limit, h.incomingBandwidth, h.outgoingBandwidth);
      }
    }
  }

  lemma InRangeAt(h: Host, now: u32, elapsed: u32)
    requires InRange(h, now, elapsed)
    ensures h.connectedPeers < 0x1_0000_0000 && Before(h.peers[..], now) && IncomingBefore(h.peers[..], now)
    ensures Fitting(h.peers[..], elapsed) && Sum(h.peers[..], OpenData(now)) < 0x1_0000_0000
    ensures h.outgoingBandwidth * elapsed < 0x1_0000_0000
    ensures h.outgoingBandwidth != 0 ==> Available(h.outgoingBandwidth, elapsed) * SCALE < 0x1_0000_0000
  {
  }

  /** Sharing out the bandwidth changes nothing that is counted. */
  lemma SharedOutCounts(ps: seq<Peer>, qs: seq<Peer>, now: u32, elapsed: u32, available: nat, wanted: nat,
                        connected: nat, limited: nat)
    requires SharedOut(ps, qs, now, elapsed, available, wanted) && Counted(ps, connected, limited)
    ensures Counted(qs, connected, limited) && (IncomingBefore(ps, now) ==> IncomingBefore(qs, now))
  {
    hide TooMuch, Taken, LimitFor, Throttle;
    assert forall i :: 0 <= i < |ps| ==>
        && qs[i].state == ps[i].state && qs[i].incomingBandwidth == ps[i].incomingBandwidth
        && qs[i].incomingBandwidthThrottleEpoch == ps[i].incomingBandwidthThrottleEpoch;
    SumSame(ps, qs, Lives(), Lives());
    SumSame(ps, qs, Limits(), Limits());
  }

  lemma IncomingCounts(ps: seq<Peer>, qs: seq<Peer>, now: u32, limit: u32, bandwidth: u32, connected: nat, limited: nat)
    requires IncomingShared(ps, qs, now, limit, bandwidth) && Counted(ps, connected, limited)
    ensures Counted(qs, connected, limited)
  {
    SumSame(ps, qs, Lives(), Lives());
    SumSame(ps, qs, Limits(), Limits());
  }

  lemma AnnouncedTotal(ps: seq<Peer>, qs: seq<Peer>, now: u32, limit: u32, bandwidth: u32, outgoing: u32)
    requires IncomingShared(ps, qs, now, limit, bandwidth) && bandwidth != 0
    ensures TotalAnnounced(AllCommands(qs, 0, now, limit, outgoing)) <= bandwidth
  {
    CommandsTotal(qs, 0, now, limit, outgoing);
    assert qs[0..] == qs;
  }
}
