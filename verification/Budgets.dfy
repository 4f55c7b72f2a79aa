/** What a fair share of a bandwidth is, in bytes and seconds, whatever way it is found. */
module Budgets {
  import opened Bytes
  import opened Hosts

  predicate Served(p: Peer) {
    p.state == Connected || p.state == DisconnectLater
  }

  // ----- outgoing

  function Data(): Peer -> nat {
    p => if Served(p) then p.outgoingDataTotal else 0
  }

  /** At so many 32nds of its data a peer would be sent more than it takes in the time, in whole bytes. */
  predicate Over(p: Peer, elapsed: u32, level: nat) {
    && Served(p) && p.incomingBandwidth != 0
    && level * p.outgoingDataTotal >= 32 * (p.incomingBandwidth * elapsed / 1000 + 1)
  }

  /** What is kept for the peers that would be sent too much. */
  function Kept(elapsed: u32, level: nat): Peer -> nat {
    p => if Over(p, elapsed, level) then p.incomingBandwidth * elapsed / 1000 else 0
  }

  /** So many 32nds are the most for which the data is within the budget. */
  predicate Largest(level: nat, data: nat, budget: nat) {
    level <= 32 && level * data <= 32 * budget && (level == 32 || (level + 1) * data > 32 * budget)
  }

  /** The most for which a peer's data is within what it takes, but at least 1. */
  predicate OwnLevel(level: nat, data: nat, taken: nat) {
    if 32 * taken < data then level == 1 else level * data <= 32 * taken < (level + 1) * data
  }

  /** A peer is sent at most the common level of its data, unless that would be too much for it; its counts start
      anew. */
  predicate Fairly(p: Peer, q: Peer, now: u32, elapsed: u32, first: nat, rest: nat) {
    if !Served(p) then q == p
    else
      var limit, over := q.packetThrottleLimit, Over(p, elapsed, first);
      && (if over then OwnLevel(limit, p.outgoingDataTotal, p.incomingBandwidth * elapsed / 1000) else limit == rest)
      && q == p.(packetThrottleLimit := limit,
                 packetThrottle := if p.packetThrottle > limit then limit else p.packetThrottle,
                 outgoingBandwidthThrottleEpoch := if over then now else p.outgoingBandwidthThrottleEpoch,
                 incomingDataTotal := 0, outgoingDataTotal := 0)
  }

  /** The budget is what the rate gives in the time, in whole bytes.  The largest level for all data says who gets a
      level of its own; the largest for what then remains of the data and the budget is everybody else's. */
  ghost predicate FairAt(ps: seq<Peer>, qs: seq<Peer>, now: u32, elapsed: u32, rate: u32, budget: nat, first: nat,
                         rest: nat) {
    && |ps| == |qs| && rest <= first
    && (rate == 0 ==> first == rest == 32)
    && (rate != 0 ==>
          && 1000 * budget <= rate * elapsed < 1000 * (budget + 1)
          && Largest(first, Sum(ps, Data()), budget)
          && var kept := Sum(ps, Kept(elapsed, first));
             kept <= budget && kept <= Sum(ps, Data()) && Largest(rest, Sum(ps, Data()) - kept, budget - kept))
    && forall i :: 0 <= i < |ps| ==> Fairly(ps[i], qs[i], now, elapsed, first, rest)
  }

  ghost predicate Fair(ps: seq<Peer>, qs: seq<Peer>, now: u32, elapsed: u32, rate: u32) {
    exists budget: nat, first: nat, rest: nat :: FairAt(ps, qs, now, elapsed, rate, budget, first, rest)
  }

  /** So a peer that names a bandwidth is sent no more than it takes in the time, unless its level is the least. */
  lemma FairToEach(ps: seq<Peer>, qs: seq<Peer>, now: u32, elapsed: u32, rate: u32, i: nat)
    requires Fair(ps, qs, now, elapsed, rate) && i < |ps| && Served(ps[i]) && ps[i].incomingBandwidth != 0
    ensures i < |qs|
    ensures var p, limit := ps[i], qs[i].packetThrottleLimit;
      limit == 1 || 1000 * (limit * p.outgoingDataTotal / 32) <= p.incomingBandwidth * elapsed
  {
    var budget: nat, first: nat, rest: nat :| FairAt(ps, qs, now, elapsed, rate, budget, first, rest);
    assert Fairly(ps[i], qs[i], now, elapsed, first, rest);
    WithinTaken(ps[i], elapsed, qs[i].packetThrottleLimit);
    if !Over(ps[i], elapsed, first) { LessData(ps[i].outgoingDataTotal, rest, first); }
  }

  lemma WithinTaken(p: Peer, elapsed: u32, limit: nat)
    ensures limit * p.outgoingDataTotal < 32 * (p.incomingBandwidth * elapsed / 1000 + 1) ==>
              1000 * (limit * p.outgoingDataTotal / 32) <= p.incomingBandwidth * elapsed
  {
  }

  lemma LessData(data: nat, rest: nat, first: nat)
    requires rest <= first
    ensures rest * data <= first * data
  {
  }

  /** What the peers are let send of their data, in 32nds of a byte. */
  function Through(ps: seq<Peer>, qs: seq<Peer>): nat
    requires |ps| == |qs|
  {
    if ps == [] then 0
    else (if Served(ps[0]) then qs[0].packetThrottleLimit * ps[0].outgoingDataTotal else 0) + Through(ps[1..], qs[1..])
  }

  // ----- incoming

  /** The command that tells a peer how much it may send, and how much it may get. */
  datatype Command = BandwidthLimit(peer: nat, incomingBandwidth: u32, outgoingBandwidth: u32)

  /** A peer is told its own bandwidth, or the limit if that is less. */
  function Told(own: u32, limit: u32): u32 {
    if own < limit then own else limit
  }

  /** One command to every peer from the i-th on that is served, in order. */
  function Commands(ps: seq<Peer>, i: nat, limit: u32, outgoing: u32): seq<Command>
    requires i <= |ps|
    decreases |ps| - i
  {
    if i == |ps| then []
    else (if Served(ps[i]) then [BandwidthLimit(i, Told(ps[i].outgoingBandwidth, limit), outgoing)] else [])
         + Commands(ps, i + 1, limit, outgoing)
  }

  function AllTold(limit: u32): Peer -> nat {
    p => if Served(p) then Told(p.outgoingBandwidth, limit) else 0
  }

  /** The limit holds the peer back. */
  function HeldBack(limit: u32): Peer -> nat {
    p => if Served(p) && p.outgoingBandwidth != 0 && p.outgoingBandwidth >= limit then 1 else 0
  }

  /** What is told is within the rate, and would not be if the limit were one more for those it holds back. */
  predicate EvenLimit(ps: seq<Peer>, rate: u32, limit: u32) {
    if rate == 0 then limit == 0
    else
      && Sum(ps, AllTold(limit)) <= rate
      && (Sum(ps, HeldBack(limit)) == 0 || Sum(ps, AllTold(limit)) + Sum(ps, HeldBack(limit)) > rate)
  }
}
