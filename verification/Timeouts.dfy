/** What enet_protocol_check_timeouts does to the commands that wait for their acknowledgement. */
module Timeouts {
  import opened Outboxes

  function Difference(a: nat, b: nat): nat {
    if a < b then b - a else a - b
  }

  predicate Expired(e: Outgoing, now: nat) {
    Difference(now, e.sentTime) >= e.timeout
  }

  /** The first `n` commands but for those that have expired. */
  function Unexpired(cmds: seq<Outgoing>, n: nat, now: nat): seq<Outgoing>
    requires n <= |cmds|
  {
    if n == 0 then []
    else Unexpired(cmds, n - 1, now) + if Expired(cmds[n - 1], now) then [] else [cmds[n - 1]]
  }

  /** Those that have expired, with twice the time to wait. */
  function Backed(cmds: seq<Outgoing>, n: nat, now: nat): seq<Outgoing>
    requires n <= |cmds|
  {
    if n == 0 then []
    else
      var e := cmds[n - 1];
      Backed(cmds, n - 1, now) + if Expired(e, now) then [e.(timeout := e.timeout * 2)] else []
  }

  /** peer->earliestTimeout after the first `n` commands. */
  function Earliest(cmds: seq<Outgoing>, n: nat, now: nat, earliest: nat): nat
    requires n <= |cmds|
  {
    if n == 0 then earliest
    else
      var before := Earliest(cmds, n - 1, now, earliest);
      var e := cmds[n - 1];
      if Expired(e, now) && (before == 0 || e.sentTime < before) then e.sentTime else before
  }

  /** Command `i` makes the peer be given up: it has expired, and the oldest command that expired since the last
      acknowledgement has waited too long, or long enough now that this one has had all its attempts. */
  predicate GivesUp(cmds: seq<Outgoing>, i: nat, now: nat, earliest: nat, timeoutMinimum: nat, timeoutMaximum: nat)
    requires i < |cmds|
  {
    var oldest := Earliest(cmds, i + 1, now, earliest);
    && Expired(cmds[i], now) && oldest != 0
    && (Difference(now, oldest) >= timeoutMaximum
        || (cmds[i].timeout >= cmds[i].timeoutLimit && Difference(now, oldest) >= timeoutMinimum))
  }

  lemma NotExpired(cmds: seq<Outgoing>, i: nat, now: nat, earliest: nat, timeoutMinimum: nat, timeoutMaximum: nat)
    requires i < |cmds| && !Expired(cmds[i], now)
    ensures Earliest(cmds, i + 1, now, earliest) == Earliest(cmds, i, now, earliest)
    ensures !GivesUp(cmds, i, now, earliest, timeoutMinimum, timeoutMaximum)
  {
  }

  /** The loop of enet_protocol_check_timeouts after the first `n` of all commands: those that go on waiting are in
      front of `i`, those that go back in front of `k`. */
  ghost predicate Scanned(all: seq<Outgoing>, n: nat, now: nat, sent: seq<Outgoing>, i: nat,
                          outgoing: seq<Outgoing>, k: nat, rest: seq<Outgoing>) {
    && n <= |all| && i <= |sent| && k <= |outgoing|
    && sent[..i] == Unexpired(all, n, now) && sent[i..] == all[n..]
    && outgoing[..k] == Backed(all, n, now) && outgoing[k..] == rest
  }

  lemma NothingScanned(all: seq<Outgoing>, now: nat, rest: seq<Outgoing>, earliest: nat)
    ensures Scanned(all, 0, now, all, 0, rest, 0, rest) && Earliest(all, 0, now, earliest) == earliest
  {
  }

  lemma ScanNext(all: seq<Outgoing>, n: nat, now: nat, sent: seq<Outgoing>, i: nat, outgoing: seq<Outgoing>, k: nat,
                 rest: seq<Outgoing>)
    requires Scanned(all, n, now, sent, i, outgoing, k, rest) && i < |sent|
    ensures n < |all| && all[n] == sent[i]
    ensures !Expired(sent[i], now) ==> Scanned(all, n + 1, now, sent, i + 1, outgoing, k, rest)
  {
    assert sent[i] == sent[i..][0];
    assert sent[..i + 1] == sent[..i] + [sent[i]] && sent[i + 1..] == sent[i..][1..] && all[n + 1..] == all[n..][1..];
  }

  lemma ScanBack(all: seq<Outgoing>, n: nat, now: nat, sent: seq<Outgoing>, i: nat, outgoing: seq<Outgoing>, k: nat,
                 rest: seq<Outgoing>)
    requires Scanned(all, n, now, sent, i, outgoing, k, rest) && i < |sent| && Expired(sent[i], now)
    ensures n < |all|
    ensures var e := sent[i].(timeout := sent[i].timeout * 2);
            Scanned(all, n + 1, now, Without(sent, i), i, outgoing[..k] + [e] + outgoing[k..], k + 1, rest)
  {
    var e := sent[i].(timeout := sent[i].timeout * 2);
    assert sent[i] == sent[i..][0];
    assert all[n] == all[n..][0];
    assert sent[i + 1..] == sent[i..][1..] && all[n + 1..] == all[n..][1..];
    assert Without(sent, i)[..i] == sent[..i] && Without(sent, i)[i..] == sent[i + 1..];
    assert (outgoing[..k] + [e] + outgoing[k..])[..k + 1] == outgoing[..k] + [e];
    assert (outgoing[..k] + [e] + outgoing[k..])[k + 1..] == outgoing[k..];
  }

  lemma ScanEnds(all: seq<Outgoing>, n: nat, now: nat, sent: seq<Outgoing>, i: nat, outgoing: seq<Outgoing>, k: nat,
                 rest: seq<Outgoing>)
    requires Scanned(all, n, now, sent, i, outgoing, k, rest) && i == |sent|
    ensures n == |all| && sent == Unexpired(all, n, now) && outgoing == Backed(all, n, now) + rest
  {
    assert sent[i..] == [] && sent[..i] == sent && outgoing == outgoing[..k] + outgoing[k..];
  }

  // ----- when a peer is given up

  /** Its time to wait is over, or its time is that much ahead. */
  predicate Due(e: Outgoing, now: nat) {
    e.sentTime + e.timeout <= now || now + e.timeout <= e.sentTime
  }

  /** The first `n` commands are looked at, and 0 stands for no time: a command that is due and has the time 0 makes the
      peer forget what it has seen, and it starts afresh behind it. */
  predicate Afresh(cmds: seq<Outgoing>, from: nat, now: nat)
    requires from <= |cmds|
  {
    from == 0 || (Due(cmds[from - 1], now) && cmds[from - 1].sentTime == 0)
  }

  /** The least time of the commands from `from` on that are due, and of `earliest`. */
  ghost predicate LeastFrom(cmds: seq<Outgoing>, from: nat, n: nat, now: nat, earliest: nat, t: nat)
    requires from <= n <= |cmds|
  {
    && t > 0 && (t == earliest || exists j :: from <= j < n && Due(cmds[j], now) && cmds[j].sentTime == t)
    && (earliest == 0 || t <= earliest) && forall j :: from <= j < n && Due(cmds[j], now) ==> t <= cmds[j].sentTime
  }

  /** The oldest of the times that the peer knows of after `n` commands. */
  ghost predicate Oldest(cmds: seq<Outgoing>, n: nat, now: nat, earliest: nat, t: nat)
    requires n <= |cmds|
  {
    exists from: nat :: from <= n && Afresh(cmds, from, now)
                        && LeastFrom(cmds, from, n, now, if from == 0 then earliest else 0, t)
  }

  /** When command `i`, which is due, is looked at, the oldest time is so long ago. */
  ghost predicate Waited(cmds: seq<Outgoing>, i: nat, now: nat, earliest: nat, age: nat)
    requires i < |cmds|
  {
    var n := i + 1;
    Due(cmds[i], now) && exists t: nat :: Oldest(cmds, n, now, earliest, t) && (t + age <= now || now + age <= t)
  }

  /** Given up as soon as the oldest time is so long ago as the maximum, or, for a command that has had all its
      attempts, as the minimum. */
  ghost predicate Abandoned(cmds: seq<Outgoing>, now: nat, earliest: nat, timeoutMinimum: nat, timeoutMaximum: nat) {
    exists i :: 0 <= i < |cmds|
                && (Waited(cmds, i, now, earliest, timeoutMaximum)
                    || (cmds[i].timeout >= cmds[i].timeoutLimit && Waited(cmds, i, now, earliest, timeoutMinimum)))
  }

  lemma DueMeans(e: Outgoing, now: nat)
    ensures Due(e, now) <==> Expired(e, now)
  {
  }

  lemma {:induction false} LeastIsEarliest(cmds: seq<Outgoing>, from: nat, n: nat, now: nat, earliest: nat)
    requires from <= n <= |cmds| && Afresh(cmds, from, now)
    requires forall j :: from <= j < n && Due(cmds[j], now) ==> cmds[j].sentTime > 0
    ensures var oldest := Earliest(cmds, n, now, earliest); var before := if from == 0 then earliest else 0;
      if oldest == 0 then before == 0 && forall j :: from <= j < n ==> !Due(cmds[j], now)
      else LeastFrom(cmds, from, n, now, before, oldest)
    decreases n
  {
    if n > from {
      LeastIsEarliest(cmds, from, n - 1, now, earliest);
    }
  }

  /** That is what peer->earliestTimeout is. */
  lemma {:induction false} EarliestMeans(cmds: seq<Outgoing>, n: nat, now: nat, earliest: nat, t: nat)
    requires n <= |cmds|
    ensures Oldest(cmds, n, now, earliest, t) <==> t != 0 && Earliest(cmds, n, now, earliest) == t
  {
    if Oldest(cmds, n, now, earliest, t) {
      var from: nat :| from <= n && Afresh(cmds, from, now)
        && LeastFrom(cmds, from, n, now, if from == 0 then earliest else 0, t);
      LeastIsEarliest(cmds, from, n, now, earliest);
    }
    if t != 0 && Earliest(cmds, n, now, earliest) == t {
      var from := LastAfresh(cmds, n, now);
      LeastIsEarliest(cmds, from, n, now, earliest);
    }
  }

  lemma {:induction false} LastAfresh(cmds: seq<Outgoing>, n: nat, now: nat) returns (from: nat)
    requires n <= |cmds|
    ensures from <= n && Afresh(cmds, from, now)
    ensures forall j :: from <= j < n && Due(cmds[j], now) ==> cmds[j].sentTime > 0
    decreases n
  {
    if n == 0 || (Due(cmds[n - 1], now) && cmds[n - 1].sentTime == 0) {
      from := n;
    } else {
      from := LastAfresh(cmds, n - 1, now);
    }
  }

  lemma WaitedMeans(cmds: seq<Outgoing>, i: nat, now: nat, earliest: nat, age: nat)
    requires i < |cmds|
    ensures Waited(cmds, i, now, earliest, age) <==>
      var oldest := Earliest(cmds, i + 1, now, earliest);
      Expired(cmds[i], now) && oldest != 0 && Difference(now, oldest) >= age
  {
    hide Oldest, Earliest;
    var n := i + 1;
    DueMeans(cmds[i], now);
    forall t: nat
      ensures Oldest(cmds, n, now, earliest, t) <==> t != 0 && Earliest(cmds, n, now, earliest) == t
    {
      EarliestMeans(cmds, n, now, earliest, t);
    }
    var oldest := Earliest(cmds, n, now, earliest);
    assert oldest != 0 ==> Oldest(cmds, n, now, earliest, oldest);
    assert Waited(cmds, i, now, earliest, age) <==>
      Due(cmds[i], now) && oldest != 0 && (oldest + age <= now || now + age <= oldest);
  }

  lemma GivesUpMeans(cmds: seq<Outgoing>, i: nat, now: nat, earliest: nat, timeoutMinimum: nat, timeoutMaximum: nat)
    requires i < |cmds|
    ensures GivesUp(cmds, i, now, earliest, timeoutMinimum, timeoutMaximum) <==>
      || Waited(cmds, i, now, earliest, timeoutMaximum)
      || (cmds[i].timeout >= cmds[i].timeoutLimit && Waited(cmds, i, now, earliest, timeoutMinimum))
  {
    hide Waited, Earliest;
    WaitedMeans(cmds, i, now, earliest, timeoutMaximum);
    WaitedMeans(cmds, i, now, earliest, timeoutMinimum);
  }

  lemma AbandonedMeans(cmds: seq<Outgoing>, now: nat, earliest: nat, timeoutMinimum: nat, timeoutMaximum: nat)
    ensures Abandoned(cmds, now, earliest, timeoutMinimum, timeoutMaximum) <==>
      exists i :: 0 <= i < |cmds| && GivesUp(cmds, i, now, earliest, timeoutMinimum, timeoutMaximum)
  {
    hide GivesUp, Waited;
    forall i | 0 <= i < |cmds|
      ensures GivesUp(cmds, i, now, earliest, timeoutMinimum, timeoutMaximum) <==>
        || Waited(cmds, i, now, earliest, timeoutMaximum)
        || (cmds[i].timeout >= cmds[i].timeoutLimit && Waited(cmds, i, now, earliest, timeoutMinimum))
    {
      GivesUpMeans(cmds, i, now, earliest, timeoutMinimum, timeoutMaximum);
    }
  }

  lemma LongerWaits(cmds: seq<Outgoing>, i: nat, now: nat, earliest: nat, age: nat, longer: nat)
    requires i < |cmds| && Waited(cmds, i, now, earliest, longer) && age <= longer
    ensures Waited(cmds, i, now, earliest, age)
  {
    hide Oldest;
  }

  /** Nobody is given up before the minimum, as long as that is no more than the maximum. */
  lemma NotBeforeMinimum(cmds: seq<Outgoing>, now: nat, earliest: nat, timeoutMinimum: nat, timeoutMaximum: nat)
    requires Abandoned(cmds, now, earliest, timeoutMinimum, timeoutMaximum) && timeoutMinimum <= timeoutMaximum
    ensures exists i :: 0 <= i < |cmds| && Waited(cmds, i, now, earliest, timeoutMinimum)
  {
    hide Waited;
    var i :| 0 <= i < |cmds|
             && (Waited(cmds, i, now, earliest, timeoutMaximum)
                 || (cmds[i].timeout >= cmds[i].timeoutLimit && Waited(cmds, i, now, earliest, timeoutMinimum)));
    if Waited(cmds, i, now, earliest, timeoutMaximum) {
      LongerWaits(cmds, i, now, earliest, timeoutMinimum, timeoutMaximum);
    }
  }

  lemma WaitedIsDue(cmds: seq<Outgoing>, now: nat, earliest: nat, age: nat)
    ensures forall i :: 0 <= i < |cmds| && Waited(cmds, i, now, earliest, age) ==> Due(cmds[i], now)
  {
    hide Oldest;
  }

  /** When nothing has the time 0, it is the least of all times. */
  lemma OldestOfAll(cmds: seq<Outgoing>, n: nat, now: nat, earliest: nat, t: nat)
    requires n <= |cmds| && forall j :: 0 <= j < n ==> cmds[j].sentTime > 0
    ensures Oldest(cmds, n, now, earliest, t) <==> LeastFrom(cmds, 0, n, now, earliest, t)
  {
    if LeastFrom(cmds, 0, n, now, earliest, t) { assert Afresh(cmds, 0, now); }
  }

  /** A command goes on waiting, or goes back to be sent again, and never both or neither. */
  lemma {:induction false} NobodyIsLost(cmds: seq<Outgoing>, n: nat, now: nat, i: nat)
    requires i < n <= |cmds|
    ensures |Unexpired(cmds, n, now)| + |Backed(cmds, n, now)| == n
    ensures if Due(cmds[i], now) then cmds[i].(timeout := cmds[i].timeout * 2) in Backed(cmds, n, now)
            else cmds[i] in Unexpired(cmds, n, now)
  {
    if i < n - 1 {
      NobodyIsLost(cmds, n - 1, now, i);
    } else if n > 1 {
      NobodyIsLost(cmds, n - 1, now, 0);
    }
  }
}
