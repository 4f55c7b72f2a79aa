/** What the rendezvous is for: a host and a guest that joins it can come to be connected with each other. */
module Meetings {
  import opened Collections
  import opened Sessions
  import opened Rendezvous

  // ----- a host before its first guest, and a guest before it joins

  /** A host without a session: it has yet to be given its id, to ask, to be served, or it was refused. */
  ghost predicate Asking(c: Client) {
    || (c.status == Idle && !c.over)
    || (c.status == TcpListening && !c.stopped && !c.over && c.down == [] && c.changed && c.up == [])
    || (c.status == TcpListening && !c.stopped && !c.over && c.down == [] && !c.changed && |c.up| == 1
        && c.up[0].Waiting?)
    || (c.status == TcpListening && !c.changed && c.up == []
        && forall i :: 0 <= i < |c.down| ==> c.down[i].WaitResult? && c.down[i].error != NoError)
  }

  /** A host with a session that nobody has joined yet. */
  ghost predicate Expecting(c: Client) {
    && !c.stopped && !c.over && c.up == []
    && ((c.status == TcpListening && !c.changed && c.down == [WaitResult(NoError)])
        || (c.status == TcpConnected && c.down == []))
  }

  ghost predicate Quiet(b: Book, id: Id, c: Client) {
    if c.role == Host then
      && (id !in b.sessions ==> Asking(c))
      && (id in b.sessions && id !in b.left && b.sessions[id].status == TcpListening ==> Expecting(c))
    else Spent(c) || (!c.stopped && !c.over)
  }

  ghost predicate AllQuiet(w: World) {
    forall id :: id in w.clients ==> Quiet(w.book, id, w.clients[id])
  }

  /** One client changes, and nothing else. */
  lemma ChangeIsQuiet(w: World, id: Id, c: Client)
    requires AllQuiet(w) && Quiet(w.book, id, c)
    ensures AllQuiet(Changed(w, id, c))
  {
    hide Quiet;
  }

  lemma ReceiveIsQuiet(b: Book, id: Id, c: Client)
    requires Fits(b, id, c) && Quiet(b, id, c) && c.down != []
    ensures Quiet(b, id, Received(c.(down := c.down[1..]), c.down[0]))
  {
    hide Fits, Party, HostSide, FitsGuest;
    FitsAt(b, id, c);
    var d := Received(c.(down := c.down[1..]), c.down[0]);
    if c.role == Guest && c.status != Idle {
      NoSecondId(c, id);
      if Spent(c) { SpentAfter(c); } else { FreshIsUntold(c); }
    }
  }

  lemma TurnIsQuiet(b: Book, id: Id, c: Client)
    requires Fits(b, id, c) && Quiet(b, id, c) && (c.changed || c.stopped)
    ensures Quiet(b, id, Turned(c))
  {
    hide Fits, Party, HostSide, FitsGuest;
    FitsAt(b, id, c);
    if c.role == Guest && Spent(c) { TurnedSpent(c); }
  }

  lemma KeepAliveIsQuiet(b: Book, id: Id, c: Client, peerid: Id)
    requires Fits(b, id, c) && Quiet(b, id, c)
    ensures Quiet(b, id, KeptAlive(c, peerid))
  {
    hide Fits, Party, HostSide, FitsGuest;
    FitsAt(b, id, c);
    var d := KeptAlive(c, peerid);
    if c.role == Guest && Spent(c) && d != c {
      assert forall i :: 0 <= i < |d.up| ==> d.up[i] == if i < |c.up| then c.up[i] else Report(c.tcpid, c.keyword);
    }
  }

  lemma GiveUpIsQuiet(b: Book, id: Id, c: Client)
    requires Fits(b, id, c) && Quiet(b, id, c) && c.status !in {Idle, TcpListening, TcpConnected}
    ensures Quiet(b, id, GivenUp(c))
  {
    hide Fits, Party, HostSide, FitsGuest;
    FitsAt(b, id, c);
    var d := GivenUp(c);
    if c.role == Guest {
      assert Spent(c);
      assert forall i :: 0 <= i < |d.up| ==> d.up[i] == if i < |c.up| then c.up[i] else Proxying(c.tcpid, c.keyword);
    }
  }

  // ----- what the server does

  lemma {:induction false} AllToldAt(cs: map<Id, Client>, sends: seq<Send>, x: Id)
    ensures x in AllTold(cs, sends) <==> x in cs
    ensures x in cs ==> AllTold(cs, sends)[x] == cs[x].(down := AllTold(cs, sends)[x].down)
    ensures x in cs && (forall i :: 0 <= i < |sends| ==> sends[i].to != x) ==> AllTold(cs, sends)[x] == cs[x]
    decreases |sends|
  {
    if sends != [] {
      AllToldAt(Told(cs, sends[0]), sends[1..], x);
      assert forall i :: 0 <= i < |sends[1..]| ==> sends[1..][i] == sends[i + 1];
    }
  }

  /** A guest may be told anything. */
  lemma GuestToldIsQuiet(b: Book, b': Book, id: Id, c: Client, d: Client)
    requires Quiet(b, id, c) && c.role == Guest && d == c.(down := d.down)
    ensures Quiet(b', id, d)
  {
    assert HasReport(c) == HasReport(d);
  }

  /** So may a host whose session is not listening, or has lost a guest. */
  lemma HostToldIsQuiet(b: Book, id: Id, d: Client)
    requires d.role == Host && id in b.sessions && (id in b.left || b.sessions[id].status != TcpListening)
    ensures Quiet(b, id, d)
  {
  }

  /** A reply that leaves a session as it is tells nobody; one that does not, tells its host and guests. */
  ghost predicate Proper(w: World, b: Book, h: Id, r: Reply) {
    && h in w.book.sessions && b.sessions == w.book.sessions && w.book.left <= b.left <= w.book.left + {h}
    && (forall i :: 0 <= i < |r.sends| && r.sends[i].to in w.clients ==>
          r.sends[i].to == h || w.clients[r.sends[i].to].role == Guest)
    && (r.session.status == TcpListening && h !in b.left ==> r.session == w.book.sessions[h] && r.sends == [])
  }

  lemma AppliedIsQuiet(w: World, b: Book, h: Id, r: Reply)
    requires AllQuiet(w) && Proper(w, b, h, r)
    ensures AllQuiet(Applied(w.(book := b), h, r))
  {
    var w' := Applied(w.(book := b), h, r);
    forall x | x in w'.clients ensures Quiet(w'.book, x, w'.clients[x]) {
      AllToldAt(w.clients, r.sends, x);
      assert Quiet(w.book, x, w.clients[x]);
      if w.clients[x].role == Guest {
        GuestToldIsQuiet(w.book, w'.book, x, w.clients[x], w'.clients[x]);
      } else if x == h && (h in b.left || r.session.status != TcpListening) {
        HostToldIsQuiet(w'.book, x, w'.clients[x]);
      }
    }
  }

  lemma AnsweredIsQuiet(w: World, id: Id, p: Down)
    requires AllQuiet(w) && id in w.clients && Quiet(w.book, id, w.clients[id].(down := w.clients[id].down + [p]))
    ensures AllQuiet(Answered(w, id, p))
  {
    hide Quiet;
    ChangeIsQuiet(w, id, w.clients[id].(down := w.clients[id].down + [p]));
  }

  lemma GuestsAre(w: World, h: Id)
    requires Inv(w) && h in w.book.sessions
    ensures var s := w.book.sessions[h];
      && s.host == h && Sound(s) && h in w.clients && w.clients[h].role == Host
      && (s.guest.Some? ==> s.guest.value in w.clients && w.clients[s.guest.value].role == Guest)
  {
    hide Fits;
    SessionAt(w, h);
  }

  lemma DatagramIsQuiet(w: World, role: Role, keyword: Keyword, source: Endpoint)
    requires Inv(w) && AllQuiet(w)
    ensures AllQuiet(Arrived(w, role, keyword, source))
  {
    hide Inv, AllQuiet, AllTold;
    match Holder(w.book.sessions, keyword)
    case None =>
    case Some(h) =>
      GuestsAre(w, h);
      AppliedIsQuiet(w, w.book, h, if role == Host then UdpListens(w.book.sessions[h], source)
                                   else UdpConnects(w.book.sessions[h], source));
  }

  lemma SucceededIsQuiet(w: World, id: Id, keyword: Keyword)
    requires Inv(w) && AllQuiet(w)
    ensures AllQuiet(Succeeded(w, id, keyword))
  {
    hide Inv, AllQuiet, AllTold;
    match Holder(w.book.sessions, keyword)
    case None =>
    case Some(h) =>
      GuestsAre(w, h);
      AppliedIsQuiet(w, w.book.(reported := w.book.reported + {(h, id)}), h, Reports(w.book.sessions[h], id));
  }

  /** A client whose link is not empty is neither expecting anybody nor, if it is a host, without a session. */
  ghost predicate Answerable(b: Book, id: Id, c: Client) {
    c.role == Guest || (id in b.sessions && (id in b.left || b.sessions[id].status != TcpListening))
  }

  lemma AnswerableIsQuiet(b: Book, id: Id, c: Client, p: Down)
    requires Quiet(b, id, c) && Answerable(b, id, c)
    ensures Quiet(b, id, c.(down := c.down + [p]))
  {
    if c.role == Guest { GuestToldIsQuiet(b, b, id, c, c.(down := c.down + [p])); }
  }

  lemma RelayedIsQuiet(w: World, id: Id, keyword: Keyword)
    requires Inv(w) && AllQuiet(w) && id in w.clients && Answerable(w.book, id, w.clients[id])
    ensures AllQuiet(Relayed(w, id, keyword))
  {
    hide Inv, AllTold, Quiet, Answerable;
    match Holder(w.book.sessions, keyword)
    case None =>
      AnswerableIsQuiet(w.book, id, w.clients[id], ProxyResult(KeywordNotFound, 0));
      AnsweredIsQuiet(w, id, ProxyResult(KeywordNotFound, 0));
    case Some(h) =>
      GuestsAre(w, h);
      var r := AsksForProxy(w.book.sessions[h]);
      if r.error != NoError {
        AnswerableIsQuiet(w.book, id, w.clients[id], ProxyResult(r.error, 0));
        AnsweredIsQuiet(w, id, ProxyResult(r.error, 0));
      } else {
        AppliedIsQuiet(w, w.book, h, r);
      }
  }

  lemma JoinedIsQuiet(w: World, id: Id, keyword: Keyword)
    requires Inv(w) && AllQuiet(w) && id in w.clients && w.clients[id].role == Guest
    ensures AllQuiet(Rendezvous.Joined(w, id, keyword))
  {
    hide Inv, AllTold, Quiet;
    match Holder(w.book.sessions, keyword)
    case None =>
      AnswerableIsQuiet(w.book, id, w.clients[id], ConnectResult(KeywordNotFound));
      AnsweredIsQuiet(w, id, ConnectResult(KeywordNotFound));
    case Some(h) =>
      GuestsAre(w, h);
      var r := TcpConnects(w.book.sessions[h], id);
      if r.error != NoError {
        AnswerableIsQuiet(w.book, id, w.clients[id], ConnectResult(r.error));
        AnsweredIsQuiet(w, id, ConnectResult(r.error));
      } else {
        AppliedIsQuiet(w, w.book, h, r);
      }
  }

  /** A host whose request has just been taken off its link. */
  ghost predicate Asked(c: Client) {
    c.status == TcpListening && !c.stopped && !c.over && c.down == [] && !c.changed && c.up == []
  }

  lemma RegisteredIsQuiet(w: World, id: Id)
    requires Inv(w) && AllQuiet(w) && id in w.clients && w.clients[id].role == Host
    requires if id in w.book.sessions then Answerable(w.book, id, w.clients[id]) else Asked(w.clients[id])
    ensures AllQuiet(Registered(w, id, w.clients[id].keyword))
  {
    hide Inv, Told;
    var c := w.clients[id];
    if Holder(w.book.sessions, c.keyword).Some? {
      if id in w.book.sessions {
        AnswerableIsQuiet(w.book, id, c, WaitResult(KeywordDuplicate));
      } else {
        assert [] + [WaitResult(KeywordDuplicate)] == [WaitResult(KeywordDuplicate)];
      }
      AnsweredIsQuiet(w, id, WaitResult(KeywordDuplicate));
    } else {
      if id in w.book.sessions { KeywordIsClients(w, id); }
      OpenedIsQuiet(w, id);
    }
  }

  lemma OpenedIsQuiet(w: World, id: Id)
    requires Inv(w) && AllQuiet(w) && id in w.clients && w.clients[id].role == Host && id !in w.book.sessions
    requires Asked(w.clients[id])
    ensures var b := w.book.(sessions := w.book.sessions[id := Opened(id, w.clients[id].keyword)]);
            AllQuiet(Answered(w.(book := b), id, WaitResult(NoError)))
  {
    hide Inv, Asking;
    var b := w.book.(sessions := w.book.sessions[id := Opened(id, w.clients[id].keyword)]);
    var w' := Answered(w.(book := b), id, WaitResult(NoError));
    assert [] + [WaitResult(NoError)] == [WaitResult(NoError)];
    forall x | x in w'.clients ensures Quiet(w'.book, x, w'.clients[x]) {
      assert Quiet(w.book, x, w.clients[x]);
    }
  }

  lemma PopIsQuiet(b: Book, id: Id, c: Client)
    requires Fits(b, id, c) && Quiet(b, id, c) && c.up != []
    ensures var d := c.(up := c.up[1..]);
      && Quiet(b, id, d)
      && (c.role == Host && id !in b.sessions ==> c.up[0].Waiting? && Asked(d))
      && (c.role == Guest || id in b.sessions ==> Answerable(b, id, d))
  {
    hide Fits, Party, HostSide, FitsGuest;
    FitsAt(b, id, c);
    PoppedFits(b, id, c);
  }

  lemma ServeIsQuiet(w: World, id: Id)
    requires Inv(w) && AllQuiet(w) && id in w.clients && w.clients[id].up != []
    ensures var c := w.clients[id]; AllQuiet(Served(Changed(w, id, c.(up := c.up[1..])), c.up[0]))
  {
    hide Inv, Fits, Quiet, Answerable, Asked, Registered, Rendezvous.Joined, Succeeded, Relayed;
    var c := w.clients[id];
    var d := c.(up := c.up[1..]);
    var v := Changed(w, id, d);
    FitsIn(w, id);
    FitsAt(w.book, id, c);
    PopIsQuiet(w.book, id, c);
    PopKeeps(w, id);
    ChangeIsQuiet(w, id, d);
    assert c.up[0].tcpid == id && c.up[0].keyword == c.keyword;
    match c.up[0]
    case Waiting(_, _) => RegisteredIsQuiet(v, id);
    case Connect(_, keyword) => JoinedIsQuiet(v, id, keyword);
    case Report(_, keyword) => SucceededIsQuiet(v, id, keyword);
    case Proxying(_, keyword) => RelayedIsQuiet(v, id, keyword);
  }

  lemma EndIsQuiet(w: World, id: Id)
    requires Inv(w) && AllQuiet(w) && id in w.clients
    ensures AllQuiet(Ended(w, id))
  {
    hide Inv, AllTold;
    match GuestIn(w.book.sessions, id)
    case Some(h) =>
      GuestsAre(w, h);
      var b := w.book.(left := w.book.left + {h});
      var v := Applied(w.(book := b), h, GuestLeaves(w.book.sessions[h]));
      AppliedIsQuiet(w, b, h, GuestLeaves(w.book.sessions[h]));
      ForgottenIsQuiet(v, id);
    case None =>
      var v := w.(book := w.book.(sessions := w.book.sessions - {id}, left := w.book.left - {id}));
      forall x | x in Forgotten(v, id).clients ensures Quiet(Forgotten(v, id).book, x, Forgotten(v, id).clients[x]) {
        assert Quiet(w.book, x, w.clients[x]);
      }
  }

  lemma ForgottenIsQuiet(w: World, id: Id)
    requires AllQuiet(w)
    ensures AllQuiet(Forgotten(w, id))
  {
    forall x | x in Forgotten(w, id).clients ensures Quiet(Forgotten(w, id).book, x, Forgotten(w, id).clients[x]) {
      assert Quiet(w.book, x, w.clients[x]);
    }
  }

  lemma AcceptIsQuiet(w: World, id: Id, role: Role, keyword: Keyword)
    requires Inv(w) && AllQuiet(w) && id !in w.clients
    ensures AllQuiet(Changed(w, id, NewClient(id, role, keyword)))
  {
    hide Inv;
    if id in w.book.sessions { GuestsAre(w, id); }
    var w' := Changed(w, id, NewClient(id, role, keyword));
    forall x | x in w'.clients ensures Quiet(w'.book, x, w'.clients[x]) {
      if x != id { assert Quiet(w.book, x, w.clients[x]); }
    }
  }

  lemma QuietAt(w: World, id: Id)
    requires Inv(w) && AllQuiet(w) && id in w.clients
    ensures Fits(w.book, id, w.clients[id]) && Quiet(w.book, id, w.clients[id])
  {
    hide Fits, Quiet;
  }

  lemma NextIsQuiet(w: World, s: Step, w': World)
    requires Inv(w) && AllQuiet(w) && Next(w, s, w')
    ensures AllQuiet(w')
  {
    hide Inv, AllQuiet, Quiet, Fits, Ended, Served, Arrived, Received, Turned, KeptAlive, GivenUp;
    match s
    case Accept(id, role, keyword) => AcceptIsQuiet(w, id, role, keyword);
    case Receive(id) =>
      QuietAt(w, id);
      ReceiveIsQuiet(w.book, id, w.clients[id]);
      ChangeIsQuiet(w, id, Received(w.clients[id].(down := w.clients[id].down[1..]), w.clients[id].down[0]));
    case Wake(id) =>
      QuietAt(w, id);
      TurnIsQuiet(w.book, id, w.clients[id]);
      ChangeIsQuiet(w, id, Turned(w.clients[id]));
    case KeepAlive(id, peerid) =>
      QuietAt(w, id);
      KeepAliveIsQuiet(w.book, id, w.clients[id], peerid);
      ChangeIsQuiet(w, id, KeptAlive(w.clients[id], peerid));
    case GiveUp(id) =>
      QuietAt(w, id);
      GiveUpIsQuiet(w.book, id, w.clients[id]);
      ChangeIsQuiet(w, id, GivenUp(w.clients[id]));
    case Serve(id) => ServeIsQuiet(w, id);
    case Datagram(role, keyword, source) => DatagramIsQuiet(w, role, keyword, source);
    case End(id) => EndIsQuiet(w, id);
  }

  lemma {:induction false} RunIsQuiet(ws: seq<World>, steps: seq<Step>, n: nat)
    requires Run(ws, steps) && n < |ws|
    ensures Inv(ws[n]) && AllQuiet(ws[n])
  {
    hide Next, Inv, AllQuiet;
    if n > 0 {
      RunIsQuiet(ws, steps, n - 1);
      assert Next(ws[n - 1], steps[n - 1], ws[n]);
      NextKeeps(ws[n - 1], steps[n - 1], ws[n]);
      NextIsQuiet(ws[n - 1], steps[n - 1], ws[n]);
    } else {
      StartIsQuiet();
    }
  }

  lemma StartIsQuiet()
    ensures Inv(Initial()) && AllQuiet(Initial())
  {
  }

  // ----- steps that lead on

  /** Some steps lead from one world to another. */
  ghost predicate Course(t: Trace, from: World, to: World) {
    && |t.worlds| == |t.steps| + 1 && t.worlds[0] == from && t.worlds[|t.steps|] == to
    && forall i :: 0 <= i < |t.steps| ==> Next(t.worlds[i], t.steps[i], t.worlds[i + 1])
  }

  lemma CourseNext(t: Trace, from: World, w: World, s: Step, w': World) returns (t': Trace)
    requires Course(t, from, w) && Next(w, s, w')
    ensures Course(t', from, w') && t'.steps == t.steps + [s]
  {
    hide Next;
    t' := Trace(t.worlds + [w'], t.steps + [s]);
    forall i | 0 <= i < |t'.steps| ensures Next(t'.worlds[i], t'.steps[i], t'.worlds[i + 1]) {
      if i < |t.steps| { assert Next(t.worlds[i], t.steps[i], t.worlds[i + 1]); }
    }
  }

  /** A session, its host and its guest. */
  datatype Pair = Pair(h: Id, g: Id, s: Session, host: Client, guest: Client)

  ghost predicate In(p: Pair, w: World) {
    && Inv(w) && p.h != p.g && p.s.guest == Some(p.g) && p.s.host == p.h
    && p.h in w.book.sessions && w.book.sessions[p.h] == p.s
    && p.h in w.clients && w.clients[p.h] == p.host && p.g in w.clients && w.clients[p.g] == p.guest
    && p.host.role == Host && p.guest.role == Guest
    && p.host.tcpid == p.h && p.guest.tcpid == p.g
    && p.host.keyword == p.s.keyword && p.guest.keyword == p.s.keyword
    && !p.host.stopped && !p.host.over && !p.guest.stopped && !p.guest.over
  }

  /** A packet that stops nobody. */
  predicate Harmless(q: Down) {
    || q == WaitResult(NoError) || q == StartUdp || q.ClientInfo? || q == P2pResult
    || (q.ProxyResult? && q.error == NoError)
  }

  /** The host takes the next packet off its link, and its loop looks at the change of status. */
  lemma HostTakes(t: Trace, from: World, w: World, p: Pair, q: Down, rest: seq<Down>) returns (t': Trace, w': World)
    requires Course(t, from, w) && In(p, w) && p.host.down == [q] + rest
    requires var c := Received(p.host.(down := rest), q);
      c.changed && c.status != TcpListening && c.status != ProxyRequest
    requires Harmless(q)
    ensures In(p.(host := Received(p.host.(down := rest), q).(changed := false)), w') && Course(t', from, w')
    ensures t'.steps == t.steps + [Receive(p.h), Wake(p.h)]
  {
    hide Inv, Course;
    assert p.host.down[1..] == rest;
    var c := Received(p.host.(down := rest), q);
    var v := Changed(w, p.h, c);
    NextKeeps(w, Receive(p.h), v);
    t' := CourseNext(t, from, w, Receive(p.h), v);
    w' := Changed(v, p.h, Turned(c));
    NextKeeps(v, Wake(p.h), w');
    t' := CourseNext(t', from, v, Wake(p.h), w');
    assert t.steps + [Receive(p.h)] + [Wake(p.h)] == t.steps + [Receive(p.h), Wake(p.h)];
  }

  lemma GuestTakes(t: Trace, from: World, w: World, p: Pair, q: Down, rest: seq<Down>) returns (t': Trace, w': World)
    requires Course(t, from, w) && In(p, w) && p.guest.down == [q] + rest
    requires var c := Received(p.guest.(down := rest), q);
      c.changed && c.status != TcpConnected && c.status != ProxyRequest
    requires Harmless(q)
    ensures In(p.(guest := Received(p.guest.(down := rest), q).(changed := false)), w') && Course(t', from, w')
    ensures t'.steps == t.steps + [Receive(p.g), Wake(p.g)]
  {
    hide Inv, Course;
    assert p.guest.down[1..] == rest;
    var c := Received(p.guest.(down := rest), q);
    var v := Changed(w, p.g, c);
    NextKeeps(w, Receive(p.g), v);
    t' := CourseNext(t, from, w, Receive(p.g), v);
    w' := Changed(v, p.g, Turned(c));
    NextKeeps(v, Wake(p.g), w');
    t' := CourseNext(t', from, v, Wake(p.g), w');
    assert t.steps + [Receive(p.g)] + [Wake(p.g)] == t.steps + [Receive(p.g), Wake(p.g)];
  }

  /** What says only that the guest may go on changes nothing. */
  lemma GuestGoesOn(t: Trace, from: World, w: World, p: Pair, rest: seq<Down>) returns (t': Trace, w': World)
    requires Course(t, from, w) && In(p, w) && p.guest.down == [ConnectResult(NoError)] + rest
    ensures In(p.(guest := p.guest.(down := rest)), w') && Course(t', from, w')
    ensures t'.steps == t.steps + [Receive(p.g)]
  {
    hide Inv, Course;
    assert p.guest.down[1..] == rest;
    w' := Changed(w, p.g, p.guest.(down := rest));
    NextKeeps(w, Receive(p.g), w');
    t' := CourseNext(t, from, w, Receive(p.g), w');
  }

  /** A datagram of the host's tells the server where the host is. */
  lemma HostIsSeen(t: Trace, from: World, w: World, p: Pair, e: Endpoint) returns (t': Trace, w': World)
    requires Course(t, from, w) && In(p, w) && p.s.status == TcpConnected
    ensures Course(t', from, w') && t'.steps == t.steps + [Datagram(Host, p.s.keyword, e)]
    ensures In(p.(s := p.s.(hostInfo := e, status := UdpListening),
                  guest := p.guest.(down := p.guest.down + [StartUdp])), w')
  {
    hide Inv, Course;
    HolderIs(w, p.h);
    w' := Arrived(w, Host, p.s.keyword, e);
    Told1(w, Send(p.g, StartUdp));
    NextKeeps(w, Datagram(Host, p.s.keyword, e), w');
    t' := CourseNext(t, from, w, Datagram(Host, p.s.keyword, e), w');
  }

  /** A datagram of the guest's tells the server where the guest is, and the server tells both. */
  lemma GuestIsSeen(t: Trace, from: World, w: World, p: Pair, e: Endpoint) returns (t': Trace, w': World)
    requires Course(t, from, w) && In(p, w) && p.s.status == UdpListening
    ensures Course(t', from, w') && t'.steps == t.steps + [Datagram(Guest, p.s.keyword, e)]
    ensures In(p.(s := p.s.(guestInfo := e, status := Punching),
                  host := p.host.(down := p.host.down + [ClientInfo(p.h, e)]),
                  guest := p.guest.(down := p.guest.down + [ClientInfo(p.h, p.s.hostInfo)])), w')
  {
    hide Inv, Course;
    HolderIs(w, p.h);
    w' := Arrived(w, Guest, p.s.keyword, e);
    Told2(w, Send(p.h, ClientInfo(p.h, e)), Send(p.g, ClientInfo(p.h, p.s.hostInfo)));
    NextKeeps(w, Datagram(Guest, p.s.keyword, e), w');
    t' := CourseNext(t, from, w, Datagram(Guest, p.s.keyword, e), w');
  }

  /** A keep-alive of the other side's has come through to both. */
  lemma BothAreReached(t: Trace, from: World, w: World, p: Pair) returns (t': Trace, w': World)
    requires Course(t, from, w) && In(p, w) && p.host.status == p.guest.status == Punching
    requires p.host.peerid == p.guest.peerid == p.h && p.host.up == p.guest.up == []
    ensures In(p.(host := p.host.(up := [Report(p.h, p.s.keyword)]),
                  guest := p.guest.(up := [Report(p.g, p.s.keyword)])), w') && Course(t', from, w')
    ensures t'.steps == t.steps + [KeepAlive(p.h, p.h), KeepAlive(p.g, p.h)]
  {
    hide Inv, Course;
    assert [] + [Report(p.h, p.s.keyword)] == [Report(p.h, p.s.keyword)];
    assert [] + [Report(p.g, p.s.keyword)] == [Report(p.g, p.s.keyword)];
    var v := Changed(w, p.h, KeptAlive(p.host, p.h));
    NextKeeps(w, KeepAlive(p.h, p.h), v);
    t' := CourseNext(t, from, w, KeepAlive(p.h, p.h), v);
    w' := Changed(v, p.g, KeptAlive(p.guest, p.h));
    NextKeeps(v, KeepAlive(p.g, p.h), w');
    t' := CourseNext(t', from, v, KeepAlive(p.g, p.h), w');
    assert t.steps + [KeepAlive(p.h, p.h)] + [KeepAlive(p.g, p.h)]
        == t.steps + [KeepAlive(p.h, p.h), KeepAlive(p.g, p.h)];
  }

  /** The host's report is served; it is the first. */
  lemma HostReports(t: Trace, from: World, w: World, p: Pair) returns (t': Trace, w': World)
    requires Course(t, from, w) && In(p, w) && p.host.up == [Report(p.h, p.s.keyword)]
    requires p.s.status == Punching && !p.s.hostOK && !p.s.guestOK
    ensures In(p.(s := p.s.(hostOK := true), host := p.host.(up := [])), w') && Course(t', from, w')
    ensures t'.steps == t.steps + [Serve(p.h)]
  {
    hide Inv, Course;
    assert p.host.up[1..] == [];
    var v := Changed(w, p.h, p.host.(up := []));
    PopKeeps(w, p.h);
    HolderIs(v, p.h);
    Told0(v);
    w' := Served(v, p.host.up[0]);
    NextKeeps(w, Serve(p.h), w');
    t' := CourseNext(t, from, w, Serve(p.h), w');
  }

  /** The guest's report is served; with it the session is connected. */
  lemma GuestReports(t: Trace, from: World, w: World, p: Pair) returns (t': Trace, w': World)
    requires Course(t, from, w) && In(p, w) && p.guest.up == [Report(p.g, p.s.keyword)]
    requires p.s.status == Punching && p.s.hostOK && !p.s.guestOK
    ensures In(p.(s := p.s.(guestOK := true, status := Connected),
                  host := p.host.(down := p.host.down + [P2pResult]),
                  guest := p.guest.(up := [], down := p.guest.down + [P2pResult])), w') && Course(t', from, w')
    ensures t'.steps == t.steps + [Serve(p.g)]
  {
    hide Inv, Course;
    assert p.guest.up[1..] == [];
    var v := Changed(w, p.g, p.guest.(up := []));
    PopKeeps(w, p.g);
    HolderIs(v, p.h);
    Told2(v, Send(p.h, P2pResult), Send(p.g, P2pResult));
    w' := Served(v, p.guest.up[0]);
    NextKeeps(w, Serve(p.g), w');
    t' := CourseNext(t, from, w, Serve(p.g), w');
  }

  // ----- from the guest's joining on

  /** The steps from there: both begin, the addresses are exchanged through the server, both reach each other and say
      so. */
  function Beginnings(h: Id, g: Id, keyword: Keyword, here: Endpoint): seq<Step> {
    [Receive(h), Wake(h), Receive(g), Datagram(Host, keyword, here), Receive(g), Wake(g)]
  }

  function Exchange(h: Id, g: Id, keyword: Keyword, there: Endpoint): seq<Step> {
    [Datagram(Guest, keyword, there), Receive(h), Wake(h), Receive(g), Wake(g)]
  }

  function Success(h: Id, g: Id): seq<Step> {
    [KeepAlive(h, h), KeepAlive(g, h), Serve(h), Serve(g), Receive(h), Wake(h), Receive(g), Wake(g)]
  }

  /** Both have been told to begin, and nothing else. */
  ghost predicate Beginning(p: Pair) {
    && p.host.role == Host && p.guest.role == Guest
    && p.s.status == TcpConnected && !p.s.hostOK && !p.s.guestOK
    && p.host.status == TcpConnected && p.host.up == [] && p.host.down == [StartUdp]
    && p.guest.status == TcpConnected && p.guest.up == [] && p.guest.down == [ConnectResult(NoError)]
  }

  /** Both wait for the address of the other; only the host's is known. */
  ghost predicate Awaiting(p: Pair, here: Endpoint) {
    && p.host.role == Host && p.guest.role == Guest
    && p.s.status == UdpListening && p.s.hostInfo == here && !p.s.hostOK && !p.s.guestOK
    && p.host.status == UdpListening && p.host.up == [] && p.host.down == []
    && p.guest.status == UdpConnected && p.guest.up == [] && p.guest.down == []
  }

  /** Both sides and the server agree on where they are, in a state of the session and the clients. */
  ghost predicate Agreed(p: Pair, status: Status, here: Endpoint, there: Endpoint) {
    && p.s.status == status && p.s.hostInfo == here && p.s.guestInfo == there
    && p.host.status == status && Holds(p.host, p.h, there) && p.host.up == [] && p.host.down == []
    && p.guest.status == status && Holds(p.guest, p.h, here) && p.guest.up == [] && p.guest.down == []
  }

  lemma TheyBegin(t: Trace, from: World, w: World, p: Pair, here: Endpoint)
    returns (t': Trace, w': World, p': Pair)
    requires Course(t, from, w) && In(p, w) && Beginning(p)
    ensures Course(t', from, w') && In(p', w') && p'.h == p.h && p'.g == p.g && p'.s.keyword == p.s.keyword
    ensures t'.steps == t.steps + Beginnings(p.h, p.g, p.s.keyword, here) && Awaiting(p', here)
  {
    hide In, Course;
    t', w' := HostTakes(t, from, w, p, StartUdp, []);
    p' := p.(host := Received(p.host.(down := []), StartUdp).(changed := false));
    t', w' := GuestGoesOn(t', from, w', p', []);
    p' := p'.(guest := p'.guest.(down := []));
    t', w' := HostIsSeen(t', from, w', p', here);
    assert [] + [StartUdp] == [StartUdp];
    p' := p'.(s := p'.s.(hostInfo := here, status := UdpListening), guest := p'.guest.(down := [StartUdp]));
    t', w' := GuestTakes(t', from, w', p', StartUdp, []);
    p' := p'.(guest := Received(p'.guest.(down := []), StartUdp).(changed := false));
  }

  lemma TheyExchange(t: Trace, from: World, w: World, p: Pair, here: Endpoint, there: Endpoint)
    returns (t': Trace, w': World, p': Pair)
    requires Course(t, from, w) && In(p, w) && Awaiting(p, here)
    ensures Course(t', from, w') && In(p', w') && p'.h == p.h && p'.g == p.g && p'.s.keyword == p.s.keyword
    ensures t'.steps == t.steps + Exchange(p.h, p.g, p.s.keyword, there)
    ensures Agreed(p', Punching, here, there) && !p'.s.hostOK && !p'.s.guestOK
  {
    hide In, Course;
    t', w' := GuestIsSeen(t, from, w, p, there);
    assert [] + [ClientInfo(p.h, there)] == [ClientInfo(p.h, there)];
    assert [] + [ClientInfo(p.h, here)] == [ClientInfo(p.h, here)];
    p' := p.(s := p.s.(guestInfo := there, status := Punching),
             host := p.host.(down := [ClientInfo(p.h, there)]), guest := p.guest.(down := [ClientInfo(p.h, here)]));
    t', w' := HostTakes(t', from, w', p', ClientInfo(p.h, there), []);
    p' := p'.(host := Received(p'.host.(down := []), ClientInfo(p.h, there)).(changed := false));
    t', w' := GuestTakes(t', from, w', p', ClientInfo(p.h, here), []);
    p' := p'.(guest := Received(p'.guest.(down := []), ClientInfo(p.h, here)).(changed := false));
  }

  lemma TheyReport(t: Trace, from: World, w: World, p: Pair, here: Endpoint, there: Endpoint)
    returns (t': Trace, w': World, p': Pair)
    requires Course(t, from, w) && In(p, w) && Agreed(p, Punching, here, there) && !p.s.hostOK && !p.s.guestOK
    ensures Course(t', from, w') && In(p', w') && p'.h == p.h && p'.g == p.g && p'.s.keyword == p.s.keyword
    ensures t'.steps == t.steps + Success(p.h, p.g)
    ensures Agreed(p', Connected, here, there) && p'.s.hostOK && p'.s.guestOK
  {
    hide In, Course;
    t', w' := BothAreReached(t, from, w, p);
    p' := p.(host := p.host.(up := [Report(p.h, p.s.keyword)]), guest := p.guest.(up := [Report(p.g, p.s.keyword)]));
    t', w' := HostReports(t', from, w', p');
    p' := p'.(s := p'.s.(hostOK := true), host := p'.host.(up := []));
    t', w' := GuestReports(t', from, w', p');
    assert [] + [P2pResult] == [P2pResult];
    p' := p'.(s := p'.s.(guestOK := true, status := Connected), host := p'.host.(down := [P2pResult]),
              guest := p'.guest.(up := [], down := [P2pResult]));
    t', w' := HostTakes(t', from, w', p', P2pResult, []);
    p' := p'.(host := Received(p'.host.(down := []), P2pResult).(changed := false));
    t', w' := GuestTakes(t', from, w', p', P2pResult, []);
    p' := p'.(guest := Received(p'.guest.(down := []), P2pResult).(changed := false));
  }

  function Dance(h: Id, g: Id, keyword: Keyword, here: Endpoint, there: Endpoint): seq<Step> {
    Beginnings(h, g, keyword, here) + Exchange(h, g, keyword, there) + Success(h, g)
  }

  lemma TheyMeet(t: Trace, from: World, w: World, p: Pair, here: Endpoint, there: Endpoint)
    returns (t': Trace, w': World, p': Pair)
    requires Course(t, from, w) && In(p, w) && Beginning(p)
    ensures Course(t', from, w') && In(p', w') && p'.h == p.h && p'.g == p.g
    ensures t'.steps == t.steps + Dance(p.h, p.g, p.s.keyword, here, there)
    ensures Agreed(p', Connected, here, there)
  {
    hide In, Course, Beginnings, Exchange, Success, Beginning, Awaiting;
    t', w', p' := TheyBegin(t, from, w, p, here);
    t', w', p' := TheyExchange(t', from, w', p', here, there);
    t', w', p' := TheyReport(t', from, w', p', here, there);
  }

  // ----- or both turn to the server

  /** The guest gives up the exchange, the server answers both, and both relay from then on. */
  function Relay(h: Id, g: Id): seq<Step> {
    [GiveUp(g), Serve(g), Receive(h), Wake(h), Receive(g), Wake(g)]
  }

  /** The guest's request to relay is served. */
  lemma GuestGivesUp(t: Trace, from: World, w: World, p: Pair) returns (t': Trace, w': World)
    requires Course(t, from, w) && In(p, w) && p.guest.status == UdpConnected && p.guest.up == []
    ensures In(p.(host := p.host.(down := p.host.down + [ProxyResult(NoError, p.h)]),
                  guest := p.guest.(status := ProxyRequest, down := p.guest.down + [ProxyResult(NoError, p.h)])), w')
    ensures Course(t', from, w') && t'.steps == t.steps + [GiveUp(p.g), Serve(p.g)]
  {
    hide Inv, Course;
    var c := p.guest.(status := ProxyRequest, up := [Proxying(p.g, p.s.keyword)]);
    assert [] + [Proxying(p.g, p.s.keyword)] == [Proxying(p.g, p.s.keyword)] && c.up[1..] == [];
    var v := Changed(w, p.g, c);
    NextKeeps(w, GiveUp(p.g), v);
    t' := CourseNext(t, from, w, GiveUp(p.g), v);
    var u := Changed(v, p.g, c.(up := []));
    PopKeeps(v, p.g);
    HolderIs(u, p.h);
    Told2(u, Send(p.h, ProxyResult(NoError, p.h)), Send(p.g, ProxyResult(NoError, p.h)));
    w' := Served(u, c.up[0]);
    assert u.book.sessions[p.h := p.s] == u.book.sessions;
    NextKeeps(v, Serve(p.g), w');
    t' := CourseNext(t', from, v, Serve(p.g), w');
    assert t.steps + [GiveUp(p.g)] + [Serve(p.g)] == t.steps + [GiveUp(p.g), Serve(p.g)];
  }

  lemma TheyRelay(t: Trace, from: World, w: World, p: Pair, here: Endpoint)
    returns (t': Trace, w': World, p': Pair)
    requires Course(t, from, w) && In(p, w) && Awaiting(p, here)
    ensures Course(t', from, w') && In(p', w') && p'.h == p.h && p'.g == p.g && p'.s == p.s
    ensures t'.steps == t.steps + Relay(p.h, p.g) && p'.host.status == p'.guest.status == Proxy
  {
    hide In, Course;
    t', w' := GuestGivesUp(t, from, w, p);
    assert [] + [ProxyResult(NoError, p.h)] == [ProxyResult(NoError, p.h)];
    p' := p.(host := p.host.(down := [ProxyResult(NoError, p.h)]),
             guest := p.guest.(status := ProxyRequest, down := [ProxyResult(NoError, p.h)]));
    t', w' := HostTakes(t', from, w', p', ProxyResult(NoError, p.h), []);
    p' := p'.(host := Received(p'.host.(down := []), ProxyResult(NoError, p.h)).(changed := false));
    t', w' := GuestTakes(t', from, w', p', ProxyResult(NoError, p.h), []);
    p' := p'.(guest := Received(p'.guest.(down := []), ProxyResult(NoError, p.h)).(changed := false));
  }

  // ----- every guest can be met

  /** The step by which a guest has joined a session, and nobody is being stopped. */
  ghost predicate Joins(w: World, g: Id, w': World, h: Id) {
    && Next(w, Serve(g), w') && h in w.book.sessions && w.book.sessions[h].guest == None
    && h in w'.book.sessions && w'.book.sessions[h].guest == Some(g)
    && h in w.clients && !Stopping(w.clients[h])
  }

  /** A request to connect to this session was served. */
  ghost predicate Connects(w: World, g: Id, w': World, h: Id) {
    && g in w.clients && h in w.book.sessions && w.clients[g].up != []
    && var c := w.clients[g];
       && c.up[0] == Connect(g, w.book.sessions[h].keyword) && w.book.sessions[h].status == TcpListening
       && w' == Applied(Changed(w, g, c.(up := c.up[1..])), h, TcpConnects(w.book.sessions[h], g))
  }

  /** Nothing else gives a session a guest. */
  lemma OnlyConnectJoins(w: World, g: Id, w': World, h: Id)
    requires Inv(w) && Joins(w, g, w', h)
    ensures Connects(w, g, w', h)
  {
    hide Inv, AllTold, Fits, Signed;
    var c := w.clients[g];
    FitsIn(w, g);
    FitsAt(w.book, g, c);
    NamedIn(c, g);
    GuestsAre(w, h);
    match c.up[0]
    case Waiting(_, _) =>
    case Connect(_, keyword) =>
    case Report(_, keyword) =>
    case Proxying(_, keyword) =>
  }

  lemma NamedIn(c: Client, id: Id)
    requires Signed(c, id) && c.up != []
    ensures c.up[0].tcpid == id && c.up[0].keyword == c.keyword
  {
  }

  /** What is known of a host that was joined by nobody yet, and is not being stopped. */
  lemma HostExpects(w: World, h: Id)
    requires Inv(w) && AllQuiet(w) && h in w.book.sessions && w.book.sessions[h].guest == None
    requires h in w.clients && !Stopping(w.clients[h])
    ensures Expecting(w.clients[h]) && w.clients[h].role == Host && w.clients[h].tcpid == h
    ensures var s := w.book.sessions[h]; s.host == h && s.keyword == w.clients[h].keyword && !s.hostOK && !s.guestOK
  {
    hide Inv, Fits, Party, Aware, Own, Warned, FitsGuest, AllQuiet;
    QuietAt(w, h);
    FitsAt(w.book, h, w.clients[h]);
    GuestsAre(w, h);
    KeywordIsClients(w, h);
    SessionFactsAt(w, h);
    NoReportYet(w.clients[h], w.book.sessions[h], (h, h) in w.book.reported, w.book.sessions[h].guestInfo);
  }

  lemma NoReportYet(c: Client, s: Session, said: bool, info: Endpoint)
    requires s.status == TcpListening
    ensures Party(c, s, said, info) ==> !said
  {
  }

  /** What is known of a guest whose request is the next to be served. */
  lemma GuestAsks(w: World, g: Id)
    requires Inv(w) && AllQuiet(w) && g in w.clients && w.clients[g].up != [] && w.clients[g].up[0].Connect?
    ensures var c := w.clients[g];
      && c.role == Guest && c.tcpid == g && c.status == TcpConnected && !c.stopped && !c.over && c.down == []
      && c.up[1..] == [] && c.up[0].keyword == c.keyword
  {
    hide Inv, Fits, Party, HostSide, FitsGuest, AllQuiet;
    var c := w.clients[g];
    QuietAt(w, g);
    FitsAt(w.book, g, c);
    NamedIn(c, g);
    assert c.role == Guest && !Spent(c);
    NotSpentAt(w.book, g, c);
  }

  /** What the step comes to. */
  lemma JoinedAt(w: World, g: Id, w': World, h: Id) returns (p: Pair)
    requires Inv(w) && AllQuiet(w) && Joins(w, g, w', h)
    ensures In(p, w') && p.h == h && p.g == g && p.s.keyword == w.book.sessions[h].keyword
    ensures p.s.status == TcpConnected && !p.s.hostOK && !p.s.guestOK
    ensures p.host.role == Host && p.guest.role == Guest && p.host.up == [] && p.guest.up == []
    ensures p.guest.status == TcpConnected && p.guest.down == [ConnectResult(NoError)]
    ensures (p.host.status == TcpConnected && p.host.down == [StartUdp])
         || (p.host.status == TcpListening && p.host.down == [WaitResult(NoError), StartUdp])
  {
    hide Inv, AllQuiet, AllTold, Next, Stopping;
    OnlyConnectJoins(w, g, w', h);
    HostExpects(w, h);
    JoinsIs(w, g, w', h);
    GuestAsks(w, g);
    NextKeeps(w, Serve(g), w');
    var c := w.clients[g];
    var v := Changed(w, g, c.(up := c.up[1..]));
    Told2(v, Send(g, ConnectResult(NoError)), Send(h, StartUdp));
    assert [] + [ConnectResult(NoError)] == [ConnectResult(NoError)] && [] + [StartUdp] == [StartUdp];
    assert [WaitResult(NoError)] + [StartUdp] == [WaitResult(NoError), StartUdp];
    p := Pair(h, g, w'.book.sessions[h], w'.clients[h], w'.clients[g]);
  }

  lemma JoinsIs(w: World, g: Id, w': World, h: Id)
    requires Joins(w, g, w', h)
    ensures Next(w, Serve(g), w') && g in w.clients && w.clients[g].up != []
  {
  }

  /** The host may have to learn first that it may wait. */
  lemma HostIsReady(w: World, p: Pair) returns (t: Trace, w': World, p': Pair)
    requires In(p, w) && p.host.role == Host && p.host.status == TcpListening
    requires p.host.down == [WaitResult(NoError), StartUdp]
    ensures Course(t, w, w') && In(p', w') && p' == p.(host := p'.host)
    ensures p'.host.role == Host && p'.host.status == TcpConnected && p'.host.up == p.host.up
    ensures p'.host.down == [StartUdp] && t.steps == [Receive(p.h), Wake(p.h)]
  {
    hide In;
    assert p.host.down == [WaitResult(NoError)] + [StartUdp];
    t, w' := HostTakes(Trace([w], []), w, w, p, WaitResult(NoError), [StartUdp]);
    p' := p.(host := Received(p.host.(down := [StartUdp]), WaitResult(NoError)).(changed := false));
    assert [] + [Receive(p.h), Wake(p.h)] == [Receive(p.h), Wake(p.h)];
  }

  /** In every run: when a guest has joined a session, and its host is not being stopped, then whatever the two
      addresses are, some further steps lead to a world in which the server, the host and the guest are connected and
      agree on both addresses, and neither side has stopped. */
  lemma EveryGuestCanBeMet(ws: seq<World>, steps: seq<Step>, n: nat, h: Id, g: Id, here: Endpoint, there: Endpoint)
    returns (t: Trace, w: World)
    requires Run(ws, steps) && n < |steps| && steps[n] == Serve(g) && Joins(ws[n], g, ws[n + 1], h)
    ensures Course(t, ws[n + 1], w) && h in w.book.sessions && h in w.clients && g in w.clients
    ensures var s, host, guest := w.book.sessions[h], w.clients[h], w.clients[g];
      && s.status == Connected && s.guest == Some(g) && s.hostInfo == here && s.guestInfo == there
      && host.status == Connected && host.peerid == h && host.remote == there && !host.stopped && !host.over
      && guest.status == Connected && guest.peerid == h && guest.remote == here && !guest.stopped && !guest.over
    ensures var keyword := ws[n].book.sessions[h].keyword;
      t.steps == (if ws[n].clients[h].status == TcpListening then [Receive(h), Wake(h)] else [])
                 + Dance(h, g, keyword, here, there)
  {
    hide In, Course, AllQuiet, Inv, Next, Joins, Dance;
    RunIsQuiet(ws, steps, n);
    var p := JoinedAt(ws[n], g, ws[n + 1], h);
    HostStatusStays(ws[n], g, ws[n + 1], h);
    var w0 := ws[n + 1];
    PairAt(p, w0);
    if p.host.status == TcpListening {
      t, w0, p := HostIsReady(w0, p);
    } else {
      t := Trace([w0], []);
      NoStepsYet(w0);
    }
    t, w, p := TheyMeet(t, ws[n + 1], w0, p, here, there);
    PairAt(p, w);
  }

  /** And some others to one in which both relay. */
  lemma EveryGuestCanBeRelayed(ws: seq<World>, steps: seq<Step>, n: nat, h: Id, g: Id, here: Endpoint)
    returns (t: Trace, w: World)
    requires Run(ws, steps) && n < |steps| && steps[n] == Serve(g) && Joins(ws[n], g, ws[n + 1], h)
    ensures Course(t, ws[n + 1], w) && h in w.book.sessions && h in w.clients && g in w.clients
    ensures w.book.sessions[h].guest == Some(g) && w.clients[h].status == w.clients[g].status == Proxy
    ensures !w.clients[h].stopped && !w.clients[h].over && !w.clients[g].stopped && !w.clients[g].over
    ensures var keyword := ws[n].book.sessions[h].keyword;
      t.steps == (if ws[n].clients[h].status == TcpListening then [Receive(h), Wake(h)] else [])
                 + (Beginnings(h, g, keyword, here) + Relay(h, g))
  {
    hide In, Course, AllQuiet, Inv, Next, Joins, Beginnings, Relay, Awaiting;
    RunIsQuiet(ws, steps, n);
    var p := JoinedAt(ws[n], g, ws[n + 1], h);
    HostStatusStays(ws[n], g, ws[n + 1], h);
    var w0 := ws[n + 1];
    PairAt(p, w0);
    if p.host.status == TcpListening {
      t, w0, p := HostIsReady(w0, p);
    } else {
      t := Trace([w0], []);
      NoStepsYet(w0);
    }
    t, w, p := TheyBegin(t, ws[n + 1], w0, p, here);
    t, w, p := TheyRelay(t, ws[n + 1], w, p, here);
    PairAt(p, w);
  }

  lemma NoStepsYet(w: World)
    ensures Course(Trace([w], []), w, w)
  {
  }

  lemma PairAt(p: Pair, w: World)
    requires In(p, w)
    ensures p.h in w.book.sessions && w.book.sessions[p.h] == p.s && p.s.guest == Some(p.g)
    ensures p.h in w.clients && w.clients[p.h] == p.host && p.g in w.clients && w.clients[p.g] == p.guest
    ensures !p.host.stopped && !p.host.over && !p.guest.stopped && !p.guest.over
  {
    hide Inv;
  }

  lemma HostStatusStays(w: World, g: Id, w': World, h: Id)
    requires Inv(w) && Joins(w, g, w', h)
    ensures h in w.clients && h in w'.clients && w'.clients[h].status == w.clients[h].status
    ensures h in w.book.sessions
  {
    hide Inv, AllTold;
    OnlyConnectJoins(w, g, w', h);
    var v := Changed(w, g, w.clients[g].(up := w.clients[g].up[1..]));
    AllToldAt(v.clients, TcpConnects(w.book.sessions[h], g).sends, h);
  }

  // ----- what is answered

  /** What stops a client: a refusal of its request to wait or to relay, and if it is a host, a reset. */
  lemma StopsExactly(c: Client, p: Down)
    ensures Received(c, p).stopped <==>
      || c.stopped || (p.WaitResult? && p.error != NoError)
      || (p.ProxyResult? && p.error != NoError) || (p == Reset && c.role == Host)
  {
  }

  /** A packet is taken off the link of a client, and only that client is told something. */
  ghost predicate Answers(w: World, id: Id, w': World, b: Book, p: Down) {
    && id in w.clients && w.clients[id].up != [] && w'.book == b
    && w'.clients == w.clients[id := w.clients[id].(up := w.clients[id].up[1..], down := w.clients[id].down + [p])]
  }

  /** The guest has joined the session, and both sides have been told. */
  ghost predicate Admits(w: World, g: Id, w': World, h: Id) {
    && Connects(w, g, w', h) && h in w'.book.sessions && w'.book.sessions[h].guest == Some(g)
    && g in w'.clients && w'.clients[g].down == w.clients[g].down + [ConnectResult(NoError)]
    && h in w.clients && h in w'.clients && w'.clients[h].down == w.clients[h].down + [StartUdp]
  }

  lemma ConnectAt(w: World, g: Id, w': World, keyword: Keyword, h: Id)
    requires Inv(w) && AllQuiet(w) && Next(w, Serve(g), w')
    requires g in w.clients && w.clients[g].up != [] && w.clients[g].up[0] == Connect(g, keyword)
    requires h in w.book.sessions && w.book.sessions[h].keyword == keyword
    ensures if w.book.sessions[h].status == TcpListening then Admits(w, g, w', h)
            else Answers(w, g, w', w.book, ConnectResult(StateMismatch))
  {
    hide Inv, AllQuiet, AllTold;
    var v := Changed(w, g, w.clients[g].(up := w.clients[g].up[1..]));
    GuestAsks(w, g);
    GuestsAre(w, h);
    HolderIs(w, h);
    Told2(v, Send(g, ConnectResult(NoError)), Send(h, StartUdp));
  }

  /** In every run a request to connect is refused exactly when there is no session with its keyword, or it is not
      listening; else the guest joins it, and the host is told to begin. */
  lemma ConnectIsAnswered(ws: seq<World>, steps: seq<Step>, n: nat, g: Id, keyword: Keyword)
    requires Run(ws, steps) && n < |steps| && steps[n] == Serve(g)
    requires g in ws[n].clients && ws[n].clients[g].up != [] && ws[n].clients[g].up[0] == Connect(g, keyword)
    ensures (forall h :: h in ws[n].book.sessions ==> ws[n].book.sessions[h].keyword != keyword) ==>
              Answers(ws[n], g, ws[n + 1], ws[n].book, ConnectResult(KeywordNotFound))
    ensures forall h :: h in ws[n].book.sessions && ws[n].book.sessions[h].keyword == keyword ==>
              if ws[n].book.sessions[h].status == TcpListening then Admits(ws[n], g, ws[n + 1], h)
              else Answers(ws[n], g, ws[n + 1], ws[n].book, ConnectResult(StateMismatch))
  {
    RunStep(ws, steps, n);
    RunIsQuiet(ws, steps, n);
    hide Run, Inv, AllQuiet, Admits;
    forall h | h in ws[n].book.sessions && ws[n].book.sessions[h].keyword == keyword
      ensures if ws[n].book.sessions[h].status == TcpListening then Admits(ws[n], g, ws[n + 1], h)
              else Answers(ws[n], g, ws[n + 1], ws[n].book, ConnectResult(StateMismatch))
    {
      ConnectAt(ws[n], g, ws[n + 1], keyword, h);
    }
  }

  /** In every run a host is refused exactly when its keyword is in use; else its session is opened. */
  lemma WaitIsAnswered(ws: seq<World>, steps: seq<Step>, n: nat, id: Id, keyword: Keyword)
    requires Run(ws, steps) && n < |steps| && steps[n] == Serve(id)
    requires id in ws[n].clients && ws[n].clients[id].up != [] && ws[n].clients[id].up[0] == Waiting(id, keyword)
    ensures var w, w' := ws[n], ws[n + 1];
      if exists h :: h in w.book.sessions && w.book.sessions[h].keyword == keyword then
        Answers(w, id, w', w.book, WaitResult(KeywordDuplicate))
      else
        Answers(w, id, w', w.book.(sessions := w.book.sessions[id := Opened(id, keyword)]), WaitResult(NoError))
  {
    RunStep(ws, steps, n);
    hide Run, Inv, AllQuiet;
  }

  lemma RunStep(ws: seq<World>, steps: seq<Step>, n: nat)
    requires Run(ws, steps) && n < |steps|
    ensures Next(ws[n], steps[n], ws[n + 1])
  {
    hide Next;
  }

  // ----- the run of one host and one guest

  lemma Onward(t: Trace, w: World, t': Trace, w': World) returns (whole: Trace)
    requires Ends(t, w) && Course(t', w, w')
    ensures Ends(whole, w') && whole.steps == t.steps + t'.steps
  {
    hide Next;
    whole := Trace(t.worlds + t'.worlds[1..], t.steps + t'.steps);
    forall i | 0 <= i < |whole.steps| ensures Next(whole.worlds[i], whole.steps[i], whole.worlds[i + 1]) {
      if i < |t.steps| {
        assert Next(t.worlds[i], t.steps[i], t.worlds[i + 1]);
      } else {
        var j := i - |t.steps|;
        assert Next(t'.worlds[j], t'.steps[j], t'.worlds[j + 1]);
      }
    }
  }

  lemma GuestAsksHost() returns (t: Trace, w: World)
    ensures Ends(t, w)
    ensures t.steps == [Accept(1, Host, "k"), Receive(1), Wake(1), Serve(1), Accept(2, Guest, "k"), Receive(2), Wake(2)]
    ensures w.book == Book(map[1 := SessionAs(None, NO_ENDPOINT, NO_ENDPOINT, TcpListening)], {}, {})
    ensures w.clients == map[1 := HostAt(0, NO_ENDPOINT, TcpListening, false, [], [WaitResult(NoError)]),
                             2 := GuestAt(2, [Connect(2, "k")], [])]
  {
    hide Ends, Next;
    t, w := HostRegisters();
    t, w := Arrives(t, w, 2, Guest);
    assert w.clients[2].up == [Connect(2, "k")];
  }

  lemma GuestJoinsHost() returns (t: Trace, w: World)
    ensures Ends(t, w) && |t.steps| == 8 && t.steps[7] == Serve(2) && Joins(t.worlds[7], 2, w, 1)
    ensures t.steps == [Accept(1, Host, "k"), Receive(1), Wake(1), Serve(1), Accept(2, Guest, "k"), Receive(2), Wake(2),
                        Serve(2)]
    ensures t.worlds[7].clients[1].status == TcpListening && t.worlds[7].book.sessions[1].keyword == "k"
  {
    hide Ends, Next;
    var t0, w0 := GuestAsksHost();
    w := ServesConnect(w0);
    EndsAt(t0, w0);
    t := EndsNext(t0, w0, Serve(2), w);
    assert t.worlds[7] == w0;
  }

  lemma ServesConnect(w: World) returns (w': World)
    requires w.book == Book(map[1 := SessionAs(None, NO_ENDPOINT, NO_ENDPOINT, TcpListening)], {}, {})
    requires w.clients == map[1 := HostAt(0, NO_ENDPOINT, TcpListening, false, [], [WaitResult(NoError)]),
                              2 := GuestAt(2, [Connect(2, "k")], [])]
    ensures Next(w, Serve(2), w') && Joins(w, 2, w', 1)
  {
    hide AllTold;
    var c := w.clients[2];
    assert c.up[1..] == [];
    var v := Changed(w, 2, c.(up := []));
    Told2(v, Send(2, ConnectResult(NoError)), Send(1, StartUdp));
    OnlyHolder(SessionAs(None, NO_ENDPOINT, NO_ENDPOINT, TcpListening));
    w' := Served(v, Connect(2, "k"));
    assert w' == Applied(v, 1, TcpConnects(v.book.sessions[1], 2));
  }

  lemma EndsAt(t: Trace, w: World)
    requires Ends(t, w)
    ensures |t.worlds| == |t.steps| + 1 && t.worlds[|t.steps|] == w
  {
  }

  function WholeDance(): seq<Step> {
    [Accept(1, Host, "k"), Receive(1), Wake(1), Serve(1), Accept(2, Guest, "k"), Receive(2), Wake(2), Serve(2),
     Receive(1), Wake(1), Receive(1), Wake(1), Receive(2), Datagram(Host, "k", HERE), Receive(2), Wake(2),
     Datagram(Guest, "k", THERE), Receive(1), Wake(1), Receive(2), Wake(2), KeepAlive(1, 1), KeepAlive(2, 1),
     Serve(1), Serve(2), Receive(1), Wake(1), Receive(2), Wake(2)]
  }

  lemma WholeDanceIs(s: seq<Step>, t: seq<Step>)
    requires s == [Accept(1, Host, "k"), Receive(1), Wake(1), Serve(1), Accept(2, Guest, "k"), Receive(2), Wake(2),
                   Serve(2)]
    requires t == [Receive(1), Wake(1)] + Dance(1, 2, "k", HERE, THERE)
    ensures s + t == WholeDance()
  {
  }

  /** All of it: host 1 asks to wait and guest 2 to be connected, both with the keyword "k", and at the end both are
      connected with each other. */
  lemma HostAndGuestMeet() returns (t: Trace, w: World)
    ensures Ends(t, w) && t.steps == WholeDance() && 1 in w.clients && 2 in w.clients && 1 in w.book.sessions
    ensures w.book.sessions[1].status == Connected && w.book.sessions[1].guest == Some(2)
    ensures w.clients[1].status == Connected && w.clients[1].remote == THERE
    ensures w.clients[2].status == Connected && w.clients[2].remote == HERE
  {
    hide Next, Joins, Course, Dance, WholeDance;
    var t0, w0 := GuestJoinsHost();
    var t1;
    t1, w := EveryGuestCanBeMet(t0.worlds, t0.steps, 7, 1, 2, HERE, THERE);
    WholeDanceIs(t0.steps, t1.steps);
    t := Onward(t0, w0, t1, w);
  }
}
