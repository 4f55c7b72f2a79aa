/** The rendezvous protocol as a whole: any number of hosts and guests, one server, one FIFO link per client and
    direction, and datagrams that say anything at any time.  Each handler is one step. */
module Rendezvous {
  import opened Collections
  import opened Sessions

  /** The server's sessions, by the host's id.  `left` and `reported` are history: the hosts whose first guest has left,
      and who has reported success to whose session. */
  datatype Book = Book(sessions: map<Id, Session>, left: set<Id>, reported: set<(Id, Id)>)

  datatype World = World(clients: map<Id, Client>, book: Book)

  datatype Step =
    | Accept(id: Id, role: Role, keyword: Keyword)
    | Receive(id: Id)
    | Wake(id: Id)
    | KeepAlive(id: Id, peerid: Id)
    | GiveUp(id: Id)
    | Serve(id: Id)
    | Datagram(role: Role, keyword: Keyword, source: Endpoint)
    | End(id: Id)

  // ----- steps

  function Told(cs: map<Id, Client>, s: Send): map<Id, Client> {
    if s.to in cs then cs[s.to := cs[s.to].(down := cs[s.to].down + [s.packet])] else cs
  }

  function AllTold(cs: map<Id, Client>, sends: seq<Send>): map<Id, Client> {
    if sends == [] then cs else AllTold(Told(cs, sends[0]), sends[1..])
  }

  /** FindP2PConnection: a keyword belongs to one session at most. */
  ghost function Holder(sessions: map<Id, Session>, keyword: Keyword): (h: Option<Id>)
    ensures h.Some? ==> h.value in sessions && sessions[h.value].keyword == keyword
    ensures h.None? ==> forall i :: i in sessions ==> sessions[i].keyword != keyword
  {
    if i :| i in sessions && sessions[i].keyword == keyword then Some(i) else None
  }

  /** The session that a link is the guest of. */
  ghost function GuestIn(sessions: map<Id, Session>, id: Id): (h: Option<Id>)
    ensures h.Some? ==> h.value in sessions && sessions[h.value].guest == Some(id)
    ensures h.None? ==> forall i :: i in sessions ==> sessions[i].guest != Some(id)
  {
    if i :| i in sessions && sessions[i].guest == Some(id) then Some(i) else None
  }

  function Applied(w: World, h: Id, r: Reply): World {
    World(AllTold(w.clients, r.sends), w.book.(sessions := w.book.sessions[h := r.session]))
  }

  function Answered(w: World, to: Id, p: Down): World {
    w.(clients := Told(w.clients, Send(to, p)))
  }

  ghost function Registered(w: World, id: Id, keyword: Keyword): World {
    if Holder(w.book.sessions, keyword).Some? then Answered(w, id, WaitResult(KeywordDuplicate))
    else
      Answered(w.(book := w.book.(sessions := w.book.sessions[id := Opened(id, keyword)])), id, WaitResult(NoError))
  }

  ghost function Joined(w: World, id: Id, keyword: Keyword): World {
    match Holder(w.book.sessions, keyword)
    case None => Answered(w, id, ConnectResult(KeywordNotFound))
    case Some(h) =>
      var r := TcpConnects(w.book.sessions[h], id);
      if r.error != NoError then Answered(w, id, ConnectResult(r.error)) else Applied(w, h, r)
  }

  ghost function Succeeded(w: World, id: Id, keyword: Keyword): World {
    match Holder(w.book.sessions, keyword)
    case None => w
    case Some(h) =>
      Applied(w.(book := w.book.(reported := w.book.reported + {(h, id)})), h, Reports(w.book.sessions[h], id))
  }

  ghost function Relayed(w: World, id: Id, keyword: Keyword): World {
    match Holder(w.book.sessions, keyword)
    case None => Answered(w, id, ProxyResult(KeywordNotFound, 0))
    case Some(h) =>
      var r := AsksForProxy(w.book.sessions[h]);
      if r.error != NoError then Answered(w, id, ProxyResult(r.error, 0)) else Applied(w, h, r)
  }

  /** CP2PServer::RecvTCPPacketProcess: the packet's id, not its link, says who sent it. */
  ghost function Served(w: World, u: Up): World {
    if u.tcpid !in w.clients then w
    else
      match u
      case Waiting(id, keyword) => Registered(w, id, keyword)
      case Connect(id, keyword) => Joined(w, id, keyword)
      case Report(id, keyword) => Succeeded(w, id, keyword)
      case Proxying(id, keyword) => Relayed(w, id, keyword)
  }

  /** CP2PServer::RecvUDPPacketProcess. */
  ghost function Arrived(w: World, role: Role, keyword: Keyword, source: Endpoint): World {
    match Holder(w.book.sessions, keyword)
    case None => w
    case Some(h) =>
      Applied(w, h,
              if role == Host then UdpListens(w.book.sessions[h], source) else UdpConnects(w.book.sessions[h], source))
  }

  function Forgotten(w: World, id: Id): World {
    World(w.clients - {id}, w.book.(reported := set p | p in w.book.reported && p.0 != id && p.1 != id))
  }

  /** CP2PServer::TCPEndProcess. */
  ghost function Ended(w: World, id: Id): World {
    match GuestIn(w.book.sessions, id)
    case Some(h) =>
      Forgotten(Applied(w.(book := w.book.(left := w.book.left + {h})), h, GuestLeaves(w.book.sessions[h])), id)
    case None =>
      Forgotten(w.(book := w.book.(sessions := w.book.sessions - {id}, left := w.book.left - {id})), id)
  }

  function NewClient(id: Id, role: Role, keyword: Keyword): Client {
    Client(role, keyword, 0, 0, NO_ENDPOINT, Idle, false, false, false, [], [Init(id)])
  }

  function Changed(w: World, id: Id, c: Client): World {
    w.(clients := w.clients[id := c])
  }

  ghost predicate Next(w: World, s: Step, w': World) {
    match s
    case Accept(id, role, keyword) => id !in w.clients && w' == Changed(w, id, NewClient(id, role, keyword))
    case Receive(id) =>
      && id in w.clients && w.clients[id].down != []
      && var c := w.clients[id]; w' == Changed(w, id, Received(c.(down := c.down[1..]), c.down[0]))
    case Wake(id) =>
      && id in w.clients && (w.clients[id].changed || w.clients[id].stopped) && !w.clients[id].over
      && w' == Changed(w, id, Turned(w.clients[id]))
    case KeepAlive(id, peerid) => id in w.clients && w' == Changed(w, id, KeptAlive(w.clients[id], peerid))
    case GiveUp(id) =>
      && id in w.clients && w.clients[id].status !in {Idle, TcpListening, TcpConnected}
      && w' == Changed(w, id, GivenUp(w.clients[id]))
    case Serve(id) =>
      && id in w.clients && w.clients[id].up != []
      && var c := w.clients[id]; w' == Served(Changed(w, id, c.(up := c.up[1..])), c.up[0])
    case Datagram(role, keyword, source) => w' == Arrived(w, role, keyword, source)
    case End(id) => id in w.clients && w' == Ended(w, id)
  }

  function Initial(): World {
    World(map[], Book(map[], {}, {}))
  }

  // ----- what every run keeps

  predicate HasReport(c: Client) {
    exists i :: 0 <= i < |c.up| && c.up[i].Report?
  }

  predicate HasPacket(c: Client, p: Down) {
    p in c.down
  }

  predicate Holds(c: Client, peerid: Id, info: Endpoint) {
    c.peerid == peerid && c.remote == info
  }

  predicate Meeting(c: Client) {
    c.status == Punching || c.status == Connected
  }

  /** What a session says about its guest, and about its host until the first guest leaves: `said` that this client's
      report was received, `info` the endpoint recorded for the other one. */
  ghost predicate Party(c: Client, s: Session, said: bool, info: Endpoint) {
    && (forall p, e :: HasPacket(c, ClientInfo(p, e)) ==> p == s.host && e == info && Paired(s))
    && (Meeting(c) || HasReport(c) || said ==> Holds(c, s.host, info) && Paired(s))
    && (HasPacket(c, P2pResult) || c.status == Connected ==> s.status == Connected)
  }

  /** What is left of a host's queue once its last StartUdp was taken: what it was told of its guest. */
  function Tail(down: seq<Down>): seq<Down> {
    if down == [] || (StartUdp !in down[1..] && down[0] != StartUdp) then down else Tail(down[1..])
  }

  /** What a host holds, or is about to be told, of the session's guest: it forgets the guest before at StartUdp. */
  ghost predicate Aware(c: Client, s: Session) {
    && (forall e, p :: ClientInfo(p, e) in Tail(c.down) ==> e == s.guestInfo && Paired(s))
    && (P2pResult in Tail(c.down) ==> s.status == Connected)
    && (StartUdp !in c.down ==>
          && (Meeting(c) ==> c.remote == s.guestInfo && Paired(s))
          && (c.status == Connected ==> s.status == Connected))
  }

  /** The peer's id that a host is told is its own. */
  ghost predicate Own(c: Client, id: Id) {
    && (forall p, e :: HasPacket(c, ClientInfo(p, e)) ==> p == id)
    && (Meeting(c) ==> c.peerid == id)
  }

  /** A host has been told to stop, or will be. */
  predicate Stopping(c: Client) {
    c.stopped || Reset in c.down
  }

  /** And will be before it hears of a guest again. */
  ghost predicate Warned(c: Client) {
    c.stopped || exists i, j :: 0 <= i < j < |c.down| && c.down[i] == Reset && c.down[j] == StartUdp
  }

  ghost predicate HostSide(c: Client, s: Session, left: bool) {
    && Own(c, s.host)
    && (s.guest.Some? ==> Aware(c, s) && (left ==> Warned(c)))
    && (left ==> Stopping(c))
  }

  /** A client's packets carry its own id and keyword; the first packet it gets gives it the id. */
  ghost predicate Signed(c: Client, id: Id) {
    && (forall i :: 0 <= i < |c.up| ==>
          && c.up[i].tcpid == id && c.up[i].keyword == c.keyword
          && if c.role == Host then !c.up[i].Connect? else !c.up[i].Waiting?)
    && if c.status == Idle then c.down == [Init(id)] && c.up == [] && !c.changed && !c.stopped
       else c.tcpid == id && forall i :: 0 <= i < |c.down| ==> !c.down[i].Init?
  }

  /** A host that has no session yet. */
  ghost predicate Unregistered(c: Client) {
    && (c.status == Idle || c.status == TcpListening)
    && (forall i :: 0 <= i < |c.up| ==> c.up[i].Waiting?)
    && (forall i :: 0 <= i < |c.down| ==> c.down[i].Init? || (c.down[i].WaitResult? && c.down[i].error != NoError))
  }

  /** A guest whose one request to connect has not been served. */
  ghost predicate Fresh(c: Client) {
    || c.status == Idle
    || (c.status == TcpConnected && c.down == [] && c.changed && c.up == [])
    || (c.status == TcpConnected && c.down == [] && !c.changed && |c.up| == 1 && c.up[0].Connect?)
  }

  /** A guest that will not ask to connect again. */
  ghost predicate Spent(c: Client) {
    && c.status != Idle && !(c.status == TcpConnected && c.changed)
    && (forall i :: 0 <= i < |c.up| ==> !c.up[i].Connect?)
    && (HasReport(c) ==> c.status != TcpConnected)
  }

  /** Who has reported success was told of a peer, and never starts again. */
  ghost predicate Reporter(b: Book, id: Id, c: Client) {
    if c.role == Host then id in b.sessions else Spent(c) && c.status != TcpConnected
  }

  ghost predicate Placed(b: Book, id: Id, c: Client) {
    if c.role == Host then if id in b.sessions then c.status != Idle else Unregistered(c)
    else id !in b.sessions && (Fresh(c) || Spent(c))
  }

  /** All that the server's book says about one client. */
  ghost predicate Fits(b: Book, id: Id, c: Client) {
    && Signed(c, id)
    && Placed(b, id, c)
    && (forall a :: (a, id) in b.reported ==> Reporter(b, id, c))
    && (id in b.sessions && id !in b.left ==>
          Party(c, b.sessions[id], (id, id) in b.reported, b.sessions[id].guestInfo))
    && (id in b.sessions ==> HostSide(c, b.sessions[id], id in b.left))
    && (forall h :: h in b.sessions && b.sessions[h].guest == Some(id) ==> FitsGuest(b, h, id, c))
  }

  ghost predicate FitsGuest(b: Book, h: Id, id: Id, c: Client)
    requires h in b.sessions
  {
    c.role == Guest && Spent(c) && Party(c, b.sessions[h], (h, id) in b.reported, b.sessions[h].hostInfo)
  }

  /** The flags of a first guest's session stand for reports that were received. */
  ghost predicate Counted(b: Book, h: Id, s: Session) {
    && (s.hostOK ==> (h, h) in b.reported)
    && (s.guestOK ==> s.guest.Some? && (h, s.guest.value) in b.reported)
    && (s.status == Connected <==> s.hostOK && s.guestOK)
  }

  ghost predicate Opposed(s: Session, t: Session) {
    s.keyword != t.keyword && (s.guest.None? || s.guest != t.guest)
  }

  ghost predicate SessionFits(w: World, h: Id)
    requires h in w.book.sessions
  {
    var s := w.book.sessions[h];
    && s.host == h && h in w.clients && w.clients[h].role == Host && w.clients[h].keyword == s.keyword
    && Sound(s)
    && (s.guest.Some? ==> s.guest.value in w.clients && w.clients[s.guest.value].role == Guest)
    && (h !in w.book.left ==> Counted(w.book, h, s))
    && (forall g :: g in w.book.sessions && g != h ==> Opposed(s, w.book.sessions[g]))
  }

  ghost predicate Inv(w: World) {
    && (forall id :: id in w.clients ==> Fits(w.book, id, w.clients[id]))
    && (forall h :: h in w.book.sessions ==> SessionFits(w, h))
    && w.book.left <= w.book.sessions.Keys
    && (forall a, x :: (a, x) in w.book.reported ==> a in w.book.sessions && x in w.clients)
  }

  // ----- one client changes

  lemma ClientChanged(w: World, id: Id, c: Client)
    requires Inv(w) && id in w.clients && Fits(w.book, id, c)
    requires c.role == w.clients[id].role && c.keyword == w.clients[id].keyword
    ensures Inv(Changed(w, id, c))
  {
    hide Fits, Sound, Counted, Opposed;
    var w' := Changed(w, id, c);
    forall h | h in w'.book.sessions ensures SessionFits(w', h) {
      assert SessionFits(w, h);
    }
  }

  /** What a packet other than the first can change of a client. */
  lemma ReceivedIs(c: Client, p: Down)
    requires !p.Init?
    ensures var d := Received(c, p);
      && d.down == c.down && d.up == c.up && d.role == c.role && d.keyword == c.keyword && d.tcpid == c.tcpid
      && (Holds(d, c.peerid, c.remote) || (p.ClientInfo? && Holds(d, p.peerid, p.endpoint)))
      && (Meeting(d) ==> Meeting(c) || (p.ClientInfo? && Holds(d, p.peerid, p.endpoint)))
      && (d.status == Connected ==> c.status == Connected || p == P2pResult)
      && (p == StartUdp ==> !Meeting(d))
      && (c.status != Idle ==> d.status != Idle)
      && (c.stopped || (p == Reset && c.role == Host) ==> d.stopped)
  {
  }

  lemma SignedAfter(c: Client, id: Id)
    requires Signed(c, id) && c.down != [] && c.status != Idle
    ensures Signed(Received(c.(down := c.down[1..]), c.down[0]), id)
  {
    hide Received;
    ReceivedIs(c.(down := c.down[1..]), c.down[0]);
  }

  lemma PartyAfter(c: Client, s: Session, said: bool, info: Endpoint)
    requires Party(c, s, said, info) && c.down != [] && !c.down[0].Init?
    ensures Party(Received(c.(down := c.down[1..]), c.down[0]), s, said, info)
  {
    hide Received;
    var d := c.(down := c.down[1..]);
    ReceivedIs(d, c.down[0]);
    assert HasPacket(c, c.down[0]);
    forall p | HasPacket(d, p) ensures HasPacket(c, p) {
    }
    assert HasReport(d) == HasReport(c);
    assert HasReport(Received(d, c.down[0])) == HasReport(d);
  }

  lemma OwnAfter(c: Client, id: Id)
    requires Own(c, id) && c.down != [] && !c.down[0].Init?
    ensures Own(Received(c.(down := c.down[1..]), c.down[0]), id)
  {
    hide Received;
    var d := c.(down := c.down[1..]);
    ReceivedIs(d, c.down[0]);
    assert HasPacket(c, c.down[0]);
    assert forall p :: HasPacket(d, p) ==> HasPacket(c, p);
  }

  lemma TailAfter(down: seq<Down>)
    requires down != []
    ensures StartUdp in down[1..] ==> Tail(down) == Tail(down[1..])
    ensures StartUdp !in down[1..] ==>
      Tail(down[1..]) == down[1..] && Tail(down) == if down[0] == StartUdp then down[1..] else down
  {
    if StartUdp !in down[1..] { TailIsAll(down[1..]); }
  }

  lemma TailIsAll(down: seq<Down>)
    requires StartUdp !in down
    ensures Tail(down) == down
  {
  }

  lemma AwareAfter(c: Client, s: Session)
    requires Aware(c, s) && c.down != [] && !c.down[0].Init?
    ensures Aware(Received(c.(down := c.down[1..]), c.down[0]), s)
  {
    hide Received;
    var rest := c.down[1..];
    ReceivedIs(c.(down := rest), c.down[0]);
    TailAfter(c.down);
    assert c.down == [c.down[0]] + rest;
    if StartUdp !in rest && c.down[0] != StartUdp { assert c.down[0] in Tail(c.down); }
  }

  lemma WarnedAfter(c: Client)
    requires Warned(c) && c.down != [] && !c.down[0].Init? && c.role == Host
    ensures Warned(Received(c.(down := c.down[1..]), c.down[0]))
  {
    hide Received;
    var d := Received(c.(down := c.down[1..]), c.down[0]);
    ReceivedIs(c.(down := c.down[1..]), c.down[0]);
    if !c.stopped && c.down[0] != Reset {
      var i, j :| 0 <= i < j < |c.down| && c.down[i] == Reset && c.down[j] == StartUdp;
      assert d.down[i - 1] == Reset && d.down[j - 1] == StartUdp;
    }
  }

  lemma WarnedMore(c: Client, p: Down)
    ensures Warned(c) || (p == StartUdp && Stopping(c)) ==> Warned(c.(down := c.down + [p]))
  {
    var d := c.(down := c.down + [p]);
    if Warned(c) && !c.stopped {
      var i, j :| 0 <= i < j < |c.down| && c.down[i] == Reset && c.down[j] == StartUdp;
      assert d.down[i] == Reset && d.down[j] == StartUdp;
    } else if p == StartUdp && Reset in c.down {
      var i :| 0 <= i < |c.down| && c.down[i] == Reset;
      assert d.down[i] == Reset && d.down[|c.down|] == StartUdp;
    }
  }

  lemma HostSideAfter(c: Client, s: Session, left: bool)
    requires HostSide(c, s, left) && c.down != [] && !c.down[0].Init? && c.role == Host
    ensures HostSide(Received(c.(down := c.down[1..]), c.down[0]), s, left)
  {
    hide Received, Aware, Own, Warned;
    ReceivedIs(c.(down := c.down[1..]), c.down[0]);
    OwnAfter(c, s.host);
    if s.guest.Some? { AwareAfter(c, s); }
    if s.guest.Some? && left { WarnedAfter(c); }
    assert c.down == [c.down[0]] + c.down[1..];
  }

  lemma SpentAfter(c: Client)
    requires Spent(c) && c.down != [] && !c.down[0].Init? && c.role == Guest
    ensures var d := Received(c.(down := c.down[1..]), c.down[0]);
            Spent(d) && (c.status != TcpConnected ==> d.status != TcpConnected)
  {
    var d := Received(c.(down := c.down[1..]), c.down[0]);
    assert d.up == c.up;
    assert HasReport(d) == HasReport(c);
  }

  /** Fits, taken apart. */
  lemma FitsAt(b: Book, id: Id, c: Client)
    requires Fits(b, id, c)
    ensures Signed(c, id)
    ensures Placed(b, id, c)
    ensures forall a :: (a, id) in b.reported ==> Reporter(b, id, c)
    ensures id in b.sessions && id !in b.left ==>
      Party(c, b.sessions[id], (id, id) in b.reported, b.sessions[id].guestInfo)
    ensures id in b.sessions ==> HostSide(c, b.sessions[id], id in b.left)
    ensures forall h :: h in b.sessions && b.sessions[h].guest == Some(id) ==> FitsGuest(b, h, id, c)
  {
    hide Signed, Unregistered, Fresh, Spent, Reporter, Party, FitsGuest, HostSide;
  }

  /** A client that got its id fits when it does on each count that concerns it. */
  lemma FitsFrom(b: Book, id: Id, c: Client)
    requires Signed(c, id)
    requires Placed(b, id, c)
    requires forall a :: (a, id) in b.reported ==> Reporter(b, id, c)
    requires id in b.sessions && id !in b.left ==>
      Party(c, b.sessions[id], (id, id) in b.reported, b.sessions[id].guestInfo)
    requires id in b.sessions ==> HostSide(c, b.sessions[id], id in b.left)
    requires forall h :: h in b.sessions && b.sessions[h].guest == Some(id) ==> FitsGuest(b, h, id, c)
    ensures Fits(b, id, c)
  {
    hide Signed, Unregistered, Fresh, Spent, Reporter, Party, FitsGuest, HostSide;
  }

  /** What must be shown of a client that stays what it is to the book. */
  lemma FitsStill(b: Book, id: Id, c: Client, d: Client)
    requires Fits(b, id, c) && c.role == d.role && d.status != Idle && Signed(d, id)
    requires c.role == Host && id !in b.sessions ==> Unregistered(d)
    requires c.role == Guest ==> Spent(c) && Spent(d) && (c.status != TcpConnected ==> d.status != TcpConnected)
    requires forall s, said, info :: Party(c, s, said, info) ==> Party(d, s, said, info)
    requires c.role == Host ==> forall s, left :: HostSide(c, s, left) ==> HostSide(d, s, left)
    ensures Fits(b, id, d)
  {
    hide Signed, Unregistered, Fresh, Spent, Party, Fits, HostSide;
    FitsAt(b, id, c);
    FitsFrom(b, id, d);
  }

  lemma FirstPacketIsId(b: Book, id: Id, c: Client)
    requires Fits(b, id, c) && c.status == Idle
    ensures c.down == [Init(id)]
    ensures Fits(b, id, Received(c.(down := []), Init(id)))
  {
    hide Party, Fits, HostSide;
    FitsAt(b, id, c);
    FitsFrom(b, id, Received(c.(down := []), Init(id)));
  }

  lemma UnregisteredAfter(c: Client)
    requires Unregistered(c) && c.role == Host && c.down != [] && !c.down[0].Init?
    ensures Unregistered(Received(c.(down := c.down[1..]), c.down[0]))
  {
  }

  lemma FitsIn(w: World, id: Id)
    requires Inv(w) && id in w.clients
    ensures Fits(w.book, id, w.clients[id])
  {
  }

  lemma NoSecondId(c: Client, id: Id)
    requires Signed(c, id) && c.status != Idle && c.down != []
    ensures !c.down[0].Init?
  {
  }

  lemma FreshIsUntold(c: Client)
    requires c.status != Idle && c.down != []
    ensures !Fresh(c)
  {
  }

  lemma ReceiveKeeps(w: World, id: Id)
    requires Inv(w) && id in w.clients && w.clients[id].down != []
    ensures var c := w.clients[id]; Inv(Changed(w, id, Received(c.(down := c.down[1..]), c.down[0])))
  {
    hide Inv, Fits, Signed, Unregistered, Spent, Party, Fresh, HostSide;
    var c := w.clients[id];
    var d := Received(c.(down := c.down[1..]), c.down[0]);
    FitsIn(w, id);
    if c.status == Idle {
      FirstPacketIsId(w.book, id, c);
      assert c.down[1..] == [];
    } else {
      FitsAt(w.book, id, c);
      SignedAfter(c, id);
      NoSecondId(c, id);
      if c.role == Host && id !in w.book.sessions { UnregisteredAfter(c); }
      if c.role == Guest {
        FreshIsUntold(c);
        SpentAfter(c);
      }
      forall s, said, info | Party(c, s, said, info) ensures Party(d, s, said, info) { PartyAfter(c, s, said, info); }
      if c.role == Host {
        forall s, left | HostSide(c, s, left) ensures HostSide(d, s, left) { HostSideAfter(c, s, left); }
      }
      FitsStill(w.book, id, c, d);
    }
    ClientChanged(w, id, d);
  }

  lemma FitsWithoutParty(b: Book, id: Id, c: Client)
    requires Signed(c, id) && Placed(b, id, c)
    requires forall a :: (a, id) !in b.reported
    requires id !in b.sessions
    requires forall h :: h in b.sessions ==> b.sessions[h].guest != Some(id)
    ensures Fits(b, id, c)
  {
    hide Signed, Placed, Party;
  }

  /** A guest that has not been served is in no session and has reported nothing. */
  lemma NotSpentAt(b: Book, id: Id, c: Client)
    requires Fits(b, id, c) && c.role == Guest && !Spent(c)
    ensures Fresh(c) && id !in b.sessions
    ensures forall a :: (a, id) !in b.reported
    ensures forall h :: h in b.sessions ==> b.sessions[h].guest != Some(id)
  {
    hide Signed, Fresh, Spent, Party, Fits;
    FitsAt(b, id, c);
    assert !Reporter(b, id, c);
    assert forall h :: h in b.sessions ==> !FitsGuest(b, h, id, c);
  }

  lemma TurnedSigned(c: Client, id: Id)
    requires Signed(c, id) && (c.changed || c.stopped) && c.status != Idle
    ensures Signed(Turned(c), id)
  {
  }

  lemma TurnedParty(c: Client, s: Session, said: bool, info: Endpoint)
    requires Party(c, s, said, info)
    ensures Party(Turned(c), s, said, info)
  {
    var d := Turned(c);
    forall i | 0 <= i < |d.up| && d.up[i].Report? ensures HasReport(c) { assert c.up[i].Report?; }
    forall p | HasPacket(d, p) ensures HasPacket(c, p) {
    }
  }

  lemma TurnedSpent(c: Client)
    requires Spent(c) && c.role == Guest
    ensures Spent(Turned(c))
  {
    var d := Turned(c);
    assert d.up == c.up && HasReport(d) == HasReport(c);
  }

  lemma TurnedFresh(c: Client)
    requires Fresh(c) && c.role == Guest && c.status != Idle
    ensures Fresh(Turned(c))
  {
  }

  /** What a client appends to its link, and a turn of its loop, change nothing of what it was told. */
  lemma HostSideSame(c: Client, d: Client, s: Session, left: bool)
    requires HostSide(c, s, left) && d.down == c.down && d.peerid == c.peerid && d.remote == c.remote
    requires d.stopped == c.stopped && (d.status == c.status || !Meeting(d))
    ensures HostSide(d, s, left)
  {
    assert forall p :: HasPacket(d, p) == HasPacket(c, p);
  }

  lemma WakeKeeps(w: World, id: Id)
    requires Inv(w) && id in w.clients && (w.clients[id].changed || w.clients[id].stopped)
    ensures Inv(Changed(w, id, Turned(w.clients[id])))
  {
    hide Inv, Fits, Signed, Spent, Party, Fresh, HostSide;
    var c := w.clients[id];
    var d := Turned(c);
    FitsIn(w, id);
    FitsAt(w.book, id, c);
    WokenIsBegun(w.book, id, c);
    TurnedSigned(c, id);
    if c.role == Guest && !Spent(c) {
      NotSpentAt(w.book, id, c);
      TurnedFresh(c);
      FitsWithoutParty(w.book, id, d);
    } else {
      if c.role == Guest { TurnedSpent(c); }
      forall s, said, info | Party(c, s, said, info) ensures Party(d, s, said, info) { TurnedParty(c, s, said, info); }
      forall s, left | HostSide(c, s, left) ensures HostSide(d, s, left) { HostSideSame(c, d, s, left); }
      FitsStill(w.book, id, c, d);
    }
    ClientChanged(w, id, d);
  }

  lemma WokenIsBegun(b: Book, id: Id, c: Client)
    requires Signed(c, id) && (c.changed || c.stopped)
    ensures c.status != Idle
  {
  }

  /** Only a client that was told of its peer reports, and it says so of what it was told. */
  lemma KeepAliveKeeps(w: World, id: Id, peerid: Id)
    requires Inv(w) && id in w.clients
    ensures Inv(Changed(w, id, KeptAlive(w.clients[id], peerid)))
  {
    hide Inv, Fits;
    var c := w.clients[id];
    var d := KeptAlive(c, peerid);
    FitsIn(w, id);
    if d != c {
      hide Fits, Party, HostSide;
      FitsAt(w.book, id, c);
      assert d.down == c.down;
      forall s, said, info | Party(c, s, said, info)
        ensures Party(d, s, said, info)
      {
        PartyReports(c, d, s, said, info);
      }
      forall s, left | HostSide(c, s, left) ensures HostSide(d, s, left) { HostSideSame(c, d, s, left); }
      FitsStill(w.book, id, c, d);
    }
    ClientChanged(w, id, d);
  }

  lemma PartyReports(c: Client, d: Client, s: Session, said: bool, info: Endpoint)
    requires Party(c, s, said, info) && c.status == Punching && d == c.(up := d.up)
    ensures Party(d, s, said, info)
  {
    assert Meeting(c);
    assert forall p :: HasPacket(d, p) == HasPacket(c, p);
  }

  lemma GiveUpKeeps(w: World, id: Id)
    requires Inv(w) && id in w.clients && w.clients[id].status !in {Idle, TcpListening, TcpConnected}
    ensures Inv(Changed(w, id, GivenUp(w.clients[id])))
  {
    hide Inv, Fits, Party, HostSide;
    var c := w.clients[id];
    var d := GivenUp(c);
    FitsIn(w, id);
    FitsAt(w.book, id, c);
    forall s, said, info | Party(c, s, said, info) ensures Party(d, s, said, info) { PartyGivesUp(c, s, said, info); }
    forall s, left | HostSide(c, s, left) ensures HostSide(d, s, left) { HostSideSame(c, d, s, left); }
    FitsStill(w.book, id, c, d);
    ClientChanged(w, id, d);
  }

  lemma PartyGivesUp(c: Client, s: Session, said: bool, info: Endpoint)
    requires Party(c, s, said, info)
    ensures Party(GivenUp(c), s, said, info)
  {
    var d := GivenUp(c);
    forall i | 0 <= i < |d.up| && d.up[i].Report? ensures HasReport(c) { assert c.up[i].Report?; }
    assert forall p :: HasPacket(d, p) == HasPacket(c, p);
  }

  // ----- the server takes a packet off a client's link

  lemma PoppedParty(c: Client, s: Session, said: bool, info: Endpoint)
    requires Party(c, s, said, info) && c.up != []
    ensures Party(c.(up := c.up[1..]), s, said, info)
  {
    var d := c.(up := c.up[1..]);
    forall i | 0 <= i < |d.up| && d.up[i].Report? ensures HasReport(c) { assert c.up[i + 1].Report?; }
    assert forall p :: HasPacket(d, p) == HasPacket(c, p);
  }

  lemma PoppedSpent(c: Client)
    requires (Spent(c) || Fresh(c)) && c.up != [] && c.status != Idle
    ensures Spent(c.(up := c.up[1..]))
  {
    var d := c.(up := c.up[1..]);
    forall i | 0 <= i < |d.up| && d.up[i].Report? ensures HasReport(c) { assert c.up[i + 1].Report?; }
  }

  lemma PoppedFits(b: Book, id: Id, c: Client)
    requires Fits(b, id, c) && c.up != []
    ensures Fits(b, id, c.(up := c.up[1..])) && c.status != Idle
    ensures c.role == Guest ==> Spent(c.(up := c.up[1..]))
  {
    hide Fits, Party, Fresh, Spent, HostSide;
    var d := c.(up := c.up[1..]);
    FitsAt(b, id, c);
    if c.role == Guest { PoppedSpent(c); }
    if c.role == Guest && !Spent(c) {
      NotSpentAt(b, id, c);
      FitsWithoutParty(b, id, d);
    } else {
      forall s, said, info | Party(c, s, said, info) ensures Party(d, s, said, info) { PoppedParty(c, s, said, info); }
      forall s, left | HostSide(c, s, left) ensures HostSide(d, s, left) { HostSideSame(c, d, s, left); }
      FitsStill(b, id, c, d);
    }
  }

  lemma PopKeeps(w: World, id: Id)
    requires Inv(w) && id in w.clients && w.clients[id].up != []
    ensures var c := w.clients[id];
      && Inv(Changed(w, id, c.(up := c.up[1..]))) && c.status != Idle
      && (c.role == Guest ==> Spent(c.(up := c.up[1..])))
  {
    hide Inv, Fits, Spent;
    var c := w.clients[id];
    FitsIn(w, id);
    PoppedFits(w.book, id, c);
    ClientChanged(w, id, c.(up := c.up[1..]));
  }

  // ----- the server tells a client something

  /** A session lets one of its clients be told this. */
  predicate Allowed(s: Session, info: Endpoint, p: Down) {
    && (p.ClientInfo? ==> p.peerid == s.host && p.endpoint == info && Paired(s))
    && (p.P2pResult? ==> s.status == Connected)
  }

  predicate Unpromising(p: Down) {
    !p.Init? && !p.ClientInfo? && !p.P2pResult?
  }

  /** A client that can be told p without harm. */
  ghost predicate Tellable(b: Book, id: Id, c: Client, p: Down) {
    && c.status != Idle && !p.Init? && (c.role == Guest ==> Spent(c))
    && (c.role == Host && id !in b.sessions ==> p.WaitResult? && p.error != NoError)
    && (id in b.sessions ==> Allowed(b.sessions[id], b.sessions[id].guestInfo, p))
    && (forall h :: h in b.sessions && b.sessions[h].guest == Some(id)
          ==> Allowed(b.sessions[h], b.sessions[h].hostInfo, p))
  }

  lemma ToldParty(c: Client, s: Session, said: bool, info: Endpoint, p: Down)
    requires Party(c, s, said, info) && Allowed(s, info, p)
    ensures Party(c.(down := c.down + [p]), s, said, info)
  {
    var d := c.(down := c.down + [p]);
    assert HasReport(d) == HasReport(c);
    forall q | HasPacket(d, q) ensures q == p || HasPacket(c, q) {
    }
  }

  lemma {:induction false} TailMore(down: seq<Down>, p: Down)
    ensures Tail(down + [p]) == if p == StartUdp then [] else Tail(down) + [p]
  {
    if down == [] {
      assert [p][1..] == [];
    } else {
      TailMore(down[1..], p);
      assert (down + [p])[1..] == down[1..] + [p];
      assert StartUdp in down[1..] + [p] <==> StartUdp in down[1..] || p == StartUdp;
    }
  }

  lemma ToldHostSide(c: Client, s: Session, left: bool, p: Down)
    requires HostSide(c, s, left) && Allowed(s, s.guestInfo, p)
    ensures HostSide(c.(down := c.down + [p]), s, left)
  {
    hide Warned;
    var d := c.(down := c.down + [p]);
    TailMore(c.down, p);
    WarnedMore(c, p);
    assert forall q :: q in d.down <==> q in c.down || q == p;
    assert forall q :: HasPacket(d, q) ==> HasPacket(c, q) || q == p;
  }

  lemma ToldPlaced(b: Book, id: Id, c: Client, p: Down)
    requires Placed(b, id, c) && Signed(c, id) && Tellable(b, id, c, p)
    ensures Placed(b, id, c.(down := c.down + [p])) && Signed(c.(down := c.down + [p]), id)
    ensures c.role == Guest ==> Spent(c.(down := c.down + [p]))
  {
    var d := c.(down := c.down + [p]);
    assert d.up == c.up && HasReport(d) == HasReport(c);
    assert forall i :: 0 <= i < |d.down| ==> d.down[i] == if i < |c.down| then c.down[i] else p;
  }

  lemma ToldFits(b: Book, id: Id, c: Client, p: Down)
    requires Fits(b, id, c) && Tellable(b, id, c, p)
    ensures Fits(b, id, c.(down := c.down + [p]))
  {
    hide Fits, Party, Spent, Signed, Placed, Allowed, HostSide;
    var d := c.(down := c.down + [p]);
    FitsAt(b, id, c);
    ToldPlaced(b, id, c, p);
    if id in b.sessions {
      ToldHostSide(c, b.sessions[id], id in b.left, p);
      if id !in b.left { ToldParty(c, b.sessions[id], (id, id) in b.reported, b.sessions[id].guestInfo, p); }
    }
    forall h | h in b.sessions && b.sessions[h].guest == Some(id) ensures FitsGuest(b, h, id, d) {
      assert FitsGuest(b, h, id, c);
      ToldParty(c, b.sessions[h], (h, id) in b.reported, b.sessions[h].hostInfo, p);
    }
    FitsFrom(b, id, d);
  }

  lemma ToldKeeps(w: World, to: Id, p: Down)
    requires Inv(w) && to in w.clients && Tellable(w.book, to, w.clients[to], p)
    ensures Inv(w.(clients := Told(w.clients, Send(to, p))))
  {
    hide Inv, Fits, Tellable;
    var c := w.clients[to];
    FitsIn(w, to);
    ToldFits(w.book, to, c, p);
    ClientChanged(w, to, c.(down := c.down + [p]));
    assert w.(clients := Told(w.clients, Send(to, p))) == Changed(w, to, c.(down := c.down + [p]));
  }

  // ----- the book changes

  /** From s to t nothing is taken back that the clients were told. */
  ghost predicate Follows(s: Session, t: Session) {
    || !Paired(s)
    || (Paired(t) && t.host == s.host && t.hostInfo == s.hostInfo && t.guestInfo == s.guestInfo
        && (s.status == Connected ==> t.status == Connected))
  }

  lemma PartyFollows(c: Client, s: Session, t: Session, said: bool, i: Endpoint, j: Endpoint)
    requires Party(c, s, said, i) && Follows(s, t) && (Paired(s) ==> i == j)
    ensures Party(c, t, said, j)
  {
  }

  /** The session of h becomes t; `left` may come to hold h. */
  ghost predicate Moves(w: World, b: Book, h: Id, t: Session) {
    && h in w.book.sessions && b.sessions == w.book.sessions[h := t] && b.reported == w.book.reported
    && (b.left == w.book.left
        || (b.left == w.book.left + {h} && t.guest.None? && h in w.clients && Stopping(w.clients[h])))
    && t.host == w.book.sessions[h].host == h && t.keyword == w.book.sessions[h].keyword && Sound(t)
    && (Follows(w.book.sessions[h], t) || (h in b.left && t.guest.None?))
    && (h !in b.left ==> Counted(b, h, t))
    && (t.guest.Some? && t.guest != w.book.sessions[h].guest ==>
          && NewGuest(w, b, h, t.guest.value)
          && h in w.clients && Aware(w.clients[h], t) && (h in b.left ==> Warned(w.clients[h])))
  }

  ghost predicate NewGuest(w: World, b: Book, h: Id, g: Id) {
    && g in w.clients && w.clients[g].role == Guest && h in b.sessions && FitsGuest(b, h, g, w.clients[g])
    && forall i :: i in w.book.sessions ==> w.book.sessions[i].guest != Some(g)
  }

  lemma MovesAt(w: World, b: Book, h: Id, t: Session)
    requires Moves(w, b, h, t)
    ensures b.sessions == w.book.sessions[h := t] && b.reported == w.book.reported && h in w.book.sessions
    ensures w.book.left <= b.left <= w.book.left + {h}
  {
  }

  lemma MovesHost(w: World, b: Book, h: Id, t: Session, c: Client)
    requires Moves(w, b, h, t) && Fits(w.book, h, c) && h !in b.left
    ensures Party(c, t, (h, h) in b.reported, t.guestInfo)
  {
    hide Fits, Party, Counted, Sound, NewGuest;
    FitsAt(w.book, h, c);
    PartyFollows(c, w.book.sessions[h], t, (h, h) in b.reported, w.book.sessions[h].guestInfo, t.guestInfo);
  }

  lemma MovesHostSide(w: World, b: Book, h: Id, t: Session)
    requires Moves(w, b, h, t) && h in w.clients && Fits(w.book, h, w.clients[h])
    ensures HostSide(w.clients[h], t, h in b.left)
  {
    hide Fits, Party, Counted, Sound, NewGuest;
    FitsAt(w.book, h, w.clients[h]);
    assert HostSide(w.clients[h], w.book.sessions[h], h in w.book.left);
  }

  lemma MovesGuest(w: World, b: Book, h: Id, t: Session, id: Id, c: Client)
    requires Moves(w, b, h, t) && Fits(w.book, id, c) && t.guest == Some(id) && id in w.clients && c == w.clients[id]
    ensures FitsGuest(b, h, id, c)
  {
    hide Fits, Party, Counted, Sound, Spent;
    if t.guest == w.book.sessions[h].guest {
      FitsAt(w.book, id, c);
      assert FitsGuest(w.book, h, id, c);
      PartyFollows(c, w.book.sessions[h], t, (h, id) in b.reported, w.book.sessions[h].hostInfo, t.hostInfo);
    }
  }

  lemma MovesFits(w: World, b: Book, h: Id, t: Session, id: Id)
    requires Moves(w, b, h, t) && id in w.clients && Fits(w.book, id, w.clients[id])
    ensures Fits(b, id, w.clients[id])
  {
    hide Fits, Party, Spent, Signed, Fresh, Unregistered, Moves, HostSide;
    var c := w.clients[id];
    FitsAt(w.book, id, c);
    MovesAt(w, b, h, t);
    if id == h {
      MovesHostSide(w, b, h, t);
      if id !in b.left { MovesHost(w, b, h, t, c); }
    }
    forall g | g in b.sessions && b.sessions[g].guest == Some(id) ensures FitsGuest(b, g, id, c) {
      if g == h { MovesGuest(w, b, h, t, id, c); } else { assert FitsGuest(w.book, g, id, c); }
    }
    FitsFrom(b, id, c);
  }

  lemma MovesSessions(w: World, b: Book, h: Id, t: Session, g: Id)
    requires Moves(w, b, h, t) && g in w.book.sessions
    requires forall i :: i in w.book.sessions ==> SessionFits(w, i)
    ensures SessionFits(World(w.clients, b), g)
  {
    hide Fits, Party, Spent, FitsGuest, Sound, Follows, Aware;
    var s := w.book.sessions[g];
    assert SessionFits(w, g);
    assert SessionFits(w, h);
    if t.guest.Some? && t.guest == w.book.sessions[h].guest {
      forall i | i in w.book.sessions && i != h ensures Opposed(t, b.sessions[i]) {
        assert Opposed(w.book.sessions[h], w.book.sessions[i]);
      }
    }
    forall i | i in b.sessions && i != g ensures Opposed(b.sessions[g], b.sessions[i]) {
      assert SessionFits(w, i);
      assert Opposed(s, w.book.sessions[i]);
    }
  }

  lemma MovesKeeps(w: World, b: Book, h: Id, t: Session)
    requires Inv(w) && Moves(w, b, h, t)
    ensures Inv(World(w.clients, b))
  {
    hide Fits, Moves, SessionFits;
    var w' := World(w.clients, b);
    forall id | id in w.clients ensures Fits(b, id, w.clients[id]) { MovesFits(w, b, h, t, id); }
    MovesAt(w, b, h, t);
    assert b.sessions.Keys == w.book.sessions.Keys && b.left <= b.sessions.Keys;
    forall g | g in b.sessions ensures SessionFits(w', g) { MovesSessions(w, b, h, t, g); }
  }

  /** A host's session is opened. */
  lemma OpenedFits(b: Book, id: Id, c: Client, keyword: Keyword, x: Id)
    requires Fits(b, x, c) && id !in b.sessions && id !in b.left
    requires x == id ==> c.role == Host && c.status != Idle && forall a :: (a, x) !in b.reported
    requires c.role == Guest ==> x != id
    ensures Fits(b.(sessions := b.sessions[id := Opened(id, keyword)]), x, c)
  {
    hide Fits, Party, Spent, Signed, Fresh, HostSide;
    var b' := b.(sessions := b.sessions[id := Opened(id, keyword)]);
    FitsAt(b, x, c);
    if x == id { UnregisteredParty(c, Opened(id, keyword), (id, id) in b.reported, NO_ENDPOINT); }
    assert x == id ==> x !in b.left;
    forall h | h in b'.sessions && b'.sessions[h].guest == Some(x) ensures FitsGuest(b', h, x, c) {
      assert FitsGuest(b, h, x, c);
    }
    FitsFrom(b', x, c);
  }

  lemma UnregisteredParty(c: Client, s: Session, said: bool, info: Endpoint)
    requires Unregistered(c) && !said
    ensures Party(c, s, said, info) && (s.guest.None? ==> HostSide(c, s, false))
  {
  }

  lemma OpenKeeps(w: World, id: Id, keyword: Keyword)
    requires Inv(w) && id in w.clients && id !in w.book.sessions && Holder(w.book.sessions, keyword).None?
    requires var c := w.clients[id]; c.role == Host && c.status != Idle && c.keyword == keyword
    ensures Inv(w.(book := w.book.(sessions := w.book.sessions[id := Opened(id, keyword)])))
  {
    hide Fits;
    var b := w.book.(sessions := w.book.sessions[id := Opened(id, keyword)]);
    forall x | x in w.clients ensures Fits(b, x, w.clients[x]) {
      if x == id { HostUnreported(w, id); }
      OpenedFits(w.book, id, w.clients[x], keyword, x);
    }
    forall h | h in b.sessions ensures SessionFits(World(w.clients, b), h) {
      if h != id { assert SessionFits(w, h); }
    }
  }

  lemma HostUnreported(w: World, id: Id)
    requires Inv(w) && id in w.clients && id !in w.book.sessions && w.clients[id].role == Host
    ensures forall a :: (a, id) !in w.book.reported
  {
    hide Inv, Fits, Signed, Placed, Party, FitsGuest;
    FitsIn(w, id);
    FitsAt(w.book, id, w.clients[id]);
    assert !Reporter(w.book, id, w.clients[id]);
  }

  /** A report is received. */
  lemma ReportedParty(c: Client, s: Session, said: bool, info: Endpoint)
    requires Party(c, s, said, info) && HasReport(c)
    ensures Party(c, s, true, info)
  {
  }

  lemma ReporterFrom(b: Book, id: Id, c: Client)
    requires HasReport(c) && Signed(c, id) && Placed(b, id, c)
    ensures Reporter(b, id, c)
  {
    var i :| 0 <= i < |c.up| && c.up[i].Report?;
    assert c.up[i].Report?;
  }

  lemma ReportedFits(b: Book, h: Id, id: Id, x: Id, c: Client)
    requires Fits(b, x, c) && h in b.sessions && (x == id ==> HasReport(c))
    ensures Fits(b.(reported := b.reported + {(h, id)}), x, c)
  {
    hide Fits, Party, Spent, Signed, Fresh, Unregistered, HasReport, HostSide;
    var b' := b.(reported := b.reported + {(h, id)});
    FitsAt(b, x, c);
    if x == id { ReporterFrom(b, x, c); }
    assert forall a :: (a, x) in b'.reported ==> Reporter(b', x, c) by {
      assert Reporter(b, x, c) ==> Reporter(b', x, c);
    }
    if x in b.sessions && x !in b.left && x == id {
      ReportedParty(c, b.sessions[x], (x, x) in b.reported, b.sessions[x].guestInfo);
    }
    forall g | g in b'.sessions && b'.sessions[g].guest == Some(x) ensures FitsGuest(b', g, x, c) {
      assert FitsGuest(b, g, x, c);
      if x == id { ReportedParty(c, b.sessions[g], (g, x) in b.reported, b.sessions[g].hostInfo); }
    }
    FitsFrom(b', x, c);
  }

  lemma ReportedKeeps(w: World, h: Id, id: Id)
    requires Inv(w) && h in w.book.sessions && id in w.clients && HasReport(w.clients[id])
    ensures Inv(w.(book := w.book.(reported := w.book.reported + {(h, id)})))
  {
    hide Fits, HasReport, Sound, Opposed;
    var b := w.book.(reported := w.book.reported + {(h, id)});
    forall x | x in w.clients ensures Fits(b, x, w.clients[x]) { ReportedFits(w.book, h, id, x, w.clients[x]); }
    forall g | g in b.sessions ensures SessionFits(World(w.clients, b), g) { assert SessionFits(w, g); }
  }

  /** A link ends, and with it the session of which it was the host. */
  function Without(b: Book, id: Id): Book {
    Book(b.sessions - {id}, b.left - {id}, set p | p in b.reported && p.0 != id && p.1 != id)
  }

  lemma WithoutFits(b: Book, id: Id, x: Id, c: Client)
    requires Fits(b, x, c) && x != id
    ensures Fits(Without(b, id), x, c)
  {
    hide Fits, Party, Spent, Signed, Fresh, Unregistered, HostSide;
    var b' := Without(b, id);
    FitsAt(b, x, c);
    assert x in b'.sessions <==> x in b.sessions;
    assert forall a :: (a, x) in b'.reported ==> Reporter(b', x, c) by {
      assert Reporter(b, x, c) ==> Reporter(b', x, c);
    }
    forall h | h in b'.sessions && b'.sessions[h].guest == Some(x) ensures FitsGuest(b', h, x, c) {
      assert FitsGuest(b, h, x, c);
    }
    FitsFrom(b', x, c);
  }

  lemma CloseKeeps(w: World, id: Id)
    requires Inv(w) && forall h :: h in w.book.sessions ==> w.book.sessions[h].guest != Some(id)
    ensures Inv(World(w.clients - {id}, Without(w.book, id)))
  {
    hide Fits, Sound;
    var w' := World(w.clients - {id}, Without(w.book, id));
    forall x | x in w'.clients ensures Fits(w'.book, x, w'.clients[x]) { WithoutFits(w.book, id, x, w.clients[x]); }
    forall h | h in w'.book.sessions ensures SessionFits(w', h) { assert SessionFits(w, h); }
  }

  // ----- every step of the server keeps it

  lemma SessionAt(w: World, h: Id)
    requires Inv(w) && h in w.book.sessions
    ensures SessionFits(w, h)
  {
  }

  /** A session's host is there to be told. */
  lemma HostTellable(w: World, h: Id, p: Down)
    requires Inv(w) && h in w.book.sessions && !p.Init?
    requires Allowed(w.book.sessions[h], w.book.sessions[h].guestInfo, p)
    ensures h in w.clients && Tellable(w.book, h, w.clients[h], p)
  {
    hide Inv, Party, Sound, Signed, Counted, Opposed, Allowed, HostSide;
    SessionAt(w, h);
    FitsIn(w, h);
    assert forall g :: g in w.book.sessions && w.book.sessions[g].guest == Some(h) ==>
        FitsGuest(w.book, g, h, w.clients[h]);
  }

  /** So is its guest. */
  lemma GuestTellable(w: World, h: Id, p: Down)
    requires Inv(w) && h in w.book.sessions && w.book.sessions[h].guest.Some? && !p.Init?
    requires Allowed(w.book.sessions[h], w.book.sessions[h].hostInfo, p)
    ensures var g := w.book.sessions[h].guest.value; g in w.clients && Tellable(w.book, g, w.clients[g], p)
  {
    hide Inv, Party, Sound, Signed, Counted, Allowed, Fits, HostSide;
    var g := w.book.sessions[h].guest.value;
    SessionAt(w, h);
    FitsIn(w, g);
    FitsAt(w.book, g, w.clients[g]);
    assert FitsGuest(w.book, h, g, w.clients[g]);
    assert forall i :: i in w.book.sessions && i != h ==> Opposed(w.book.sessions[h], w.book.sessions[i]);
  }

  lemma LeftAreHosts(w: World)
    requires Inv(w)
    ensures w.book.left <= w.book.sessions.Keys
  {
  }

  lemma Told0(w: World)
    ensures AllTold(w.clients, []) == w.clients
  {
  }

  lemma Told1(w: World, a: Send)
    ensures AllTold(w.clients, [a]) == Told(w.clients, a)
  {
    assert [a][1..] == [];
  }

  lemma Told2(w: World, a: Send, b: Send)
    ensures AllTold(w.clients, [a, b]) == Told(Told(w.clients, a), b)
  {
    Told1(w.(clients := Told(w.clients, a)), b);
    assert [a, b][1..] == [b];
  }

  lemma HostToldKeeps(w: World, h: Id, p: Down)
    requires Inv(w) && h in w.book.sessions && !p.Init?
    requires Allowed(w.book.sessions[h], w.book.sessions[h].guestInfo, p)
    ensures Inv(w.(clients := Told(w.clients, Send(h, p))))
  {
    hide Inv, Tellable, Allowed, Told;
    HostTellable(w, h, p);
    ToldKeeps(w, h, p);
  }

  lemma GuestToldKeeps(w: World, h: Id, p: Down)
    requires Inv(w) && h in w.book.sessions && w.book.sessions[h].guest.Some? && !p.Init?
    requires Allowed(w.book.sessions[h], w.book.sessions[h].hostInfo, p)
    ensures Inv(w.(clients := Told(w.clients, Send(w.book.sessions[h].guest.value, p))))
  {
    hide Inv, Tellable, Allowed, Told;
    GuestTellable(w, h, p);
    ToldKeeps(w, w.book.sessions[h].guest.value, p);
  }

  /** Both sides of a session are told something it allows. */
  lemma BothToldKeep(w: World, h: Id, p: Down, q: Down)
    requires Inv(w) && h in w.book.sessions && w.book.sessions[h].guest.Some? && !p.Init? && !q.Init?
    requires Allowed(w.book.sessions[h], w.book.sessions[h].guestInfo, p)
    requires Allowed(w.book.sessions[h], w.book.sessions[h].hostInfo, q)
    ensures var g := w.book.sessions[h].guest.value;
            && Inv(w.(clients := AllTold(w.clients, [Send(h, p), Send(g, q)])))
            && Inv(w.(clients := AllTold(w.clients, [Send(g, q), Send(h, p)])))
  {
    hide Inv, Allowed, Told, AllTold;
    var g := w.book.sessions[h].guest.value;
    HostToldKeeps(w, h, p);
    GuestToldKeeps(w.(clients := Told(w.clients, Send(h, p))), h, q);
    GuestToldKeeps(w, h, q);
    HostToldKeeps(w.(clients := Told(w.clients, Send(g, q))), h, p);
    Told2(w, Send(h, p), Send(g, q));
    Told2(w, Send(g, q), Send(h, p));
  }

  function WithSession(w: World, h: Id, s: Session): World {
    w.(book := w.book.(sessions := w.book.sessions[h := s]))
  }

  lemma SessionFactsAt(w: World, h: Id)
    requires Inv(w) && h in w.book.sessions
    ensures var s := w.book.sessions[h]; s.host == h && Sound(s) && (h !in w.book.left ==> Counted(w.book, h, s))
  {
    hide Fits, Sound, Counted, Opposed;
    SessionAt(w, h);
  }

  /** The session of h becomes t, and nobody is told. */
  lemma SessionKeeps(w: World, h: Id, t: Session)
    requires Inv(w) && h in w.book.sessions && t.host == h && t.keyword == w.book.sessions[h].keyword && Sound(t)
    requires t.guest == w.book.sessions[h].guest
    requires Follows(w.book.sessions[h], t) && (h !in w.book.left ==> Counted(WithSession(w, h, t).book, h, t))
    ensures Inv(WithSession(w, h, t))
  {
    hide Inv, Follows, Counted, Sound, Stopping, Aware, Warned;
    SessionFactsAt(w, h);
    MovesKeeps(w, WithSession(w, h, t).book, h, t);
  }

  lemma UdpListensKeeps(w: World, h: Id, e: Endpoint)
    requires Inv(w) && h in w.book.sessions
    ensures Inv(Applied(w, h, UdpListens(w.book.sessions[h], e)))
  {
    hide Inv, Told, AllTold;
    var s := w.book.sessions[h];
    var r := UdpListens(s, e);
    SessionFactsAt(w, h);
    SessionKeeps(w, h, r.session);
    var v := WithSession(w, h, r.session);
    if r.error == NoError {
      GuestToldKeeps(v, h, StartUdp);
      Told1(w, r.sends[0]);
    } else {
      Told0(w);
    }
  }

  lemma UdpConnectsKeeps(w: World, h: Id, e: Endpoint)
    requires Inv(w) && h in w.book.sessions
    ensures Inv(Applied(w, h, UdpConnects(w.book.sessions[h], e)))
  {
    hide Inv, Told, AllTold;
    var s := w.book.sessions[h];
    var r := UdpConnects(s, e);
    SessionFactsAt(w, h);
    SessionKeeps(w, h, r.session);
    var v := WithSession(w, h, r.session);
    if r.error == NoError {
      BothToldKeep(v, h, ClientInfo(h, e), ClientInfo(h, s.hostInfo));
    } else {
      Told0(w);
    }
  }

  lemma ReportsCounted(b: Book, h: Id, s: Session, id: Id)
    requires Sound(s) && Counted(b, h, s) && (h, id) in b.reported && s.host == h
    ensures Counted(b.(sessions := b.sessions[h := Reports(s, id).session]), h, Reports(s, id).session)
  {
  }

  lemma ReportsKeeps(w: World, h: Id, id: Id)
    requires Inv(w) && h in w.book.sessions && (h, id) in w.book.reported
    ensures Inv(Applied(w, h, Reports(w.book.sessions[h], id)))
  {
    hide Inv, Told, AllTold, Counted;
    var s := w.book.sessions[h];
    var r := Reports(s, id);
    SessionFactsAt(w, h);
    if h !in w.book.left { ReportsCounted(w.book, h, s, id); }
    SessionKeeps(w, h, r.session);
    var v := WithSession(w, h, r.session);
    if r.sends != [] {
      BothToldKeep(v, h, P2pResult, P2pResult);
    } else {
      Told0(w);
    }
  }

  lemma ProxyKeeps(w: World, h: Id)
    requires Inv(w) && h in w.book.sessions
    ensures Inv(Applied(w, h, AsksForProxy(w.book.sessions[h])))
  {
    hide Inv, Told, AllTold, Sound, Counted;
    var s := w.book.sessions[h];
    SessionFactsAt(w, h);
    assert w.book.sessions[h := s] == w.book.sessions;
    if s.guest.Some? {
      BothToldKeep(w, h, ProxyResult(NoError, h), ProxyResult(NoError, h));
    } else {
      Told0(w);
    }
  }

  /** A guest whose request to connect was just taken off its link has been told nothing yet. */
  ghost predicate Ready(w: World, id: Id) {
    && id in w.clients
    && var c := w.clients[id];
       && c.role == Guest && Spent(c) && c.status == TcpConnected && c.down == [] && c.up == []
       && (forall a :: (a, id) !in w.book.reported)
       && (forall h :: h in w.book.sessions ==> w.book.sessions[h].guest != Some(id))
  }

  lemma PoppedConnectIsReady(w: World, id: Id)
    requires Inv(w) && id in w.clients && w.clients[id].up != [] && w.clients[id].up[0].Connect?
    ensures var c := w.clients[id]; Ready(Changed(w, id, c.(up := c.up[1..])), id)
  {
    hide Inv, Fits, Party;
    var c := w.clients[id];
    FitsIn(w, id);
    FitsAt(w.book, id, c);
    assert c.role == Guest && !Spent(c);
    NotSpentAt(w.book, id, c);
    assert c.up[1..] == [];
    PoppedSpent(c);
  }

  lemma TcpConnectsMoves(w: World, h: Id, id: Id)
    requires Inv(w) && h in w.book.sessions && Ready(w, id)
    ensures TcpConnects(w.book.sessions[h], id).error == NoError ==>
      var r := TcpConnects(w.book.sessions[h], id); var v := World(AllTold(w.clients, r.sends), w.book);
      Moves(v, WithSession(v, h, r.session).book, h, r.session)
  {
    hide Inv, Fits, Party, Spent, Counted, Warned, Stopping;
    var s := w.book.sessions[h];
    var r := TcpConnects(s, id);
    SessionFactsAt(w, h);
    if r.error == NoError {
      HostIsThere(w, h);
      Told2(w, Send(id, ConnectResult(NoError)), Send(h, StartUdp));
      var v := World(AllTold(w.clients, r.sends), w.book);
      GreetedParty(w.clients[id], r.session, r.session.hostInfo);
      TailMore(w.clients[h].down, StartUdp);
      HostStops(w, h);
      WarnedMore(w.clients[h], StartUdp);
      assert v.clients[h] == w.clients[h].(down := w.clients[h].down + [StartUdp]);
      assert StartUdp in v.clients[h].down;
      assert [] + [ConnectResult(NoError)] == [ConnectResult(NoError)];
      assert v.clients[id] == w.clients[id].(down := [ConnectResult(NoError)]);
      GreetedSpent(w.clients[id]);
      var b := WithSession(v, h, r.session).book;
      assert FitsGuest(b, h, id, v.clients[id]);
      assert NewGuest(v, b, h, id);
      assert Aware(v.clients[h], r.session);
      assert Sound(r.session);
      assert Follows(s, r.session);
      NewCounted(w.book, h, s, r.session);
    }
  }

  lemma NewCounted(b: Book, h: Id, s: Session, t: Session)
    requires h !in b.left ==> Counted(b, h, s)
    requires s.guest.None? && t.hostOK == s.hostOK && t.guestOK == s.guestOK && !Paired(s) && !Paired(t)
    ensures h !in b.left ==> Counted(b.(sessions := b.sessions[h := t]), h, t)
  {
  }

  lemma HostIsThere(w: World, h: Id)
    requires Inv(w) && h in w.book.sessions
    ensures h in w.clients && w.clients[h].role == Host
  {
    hide Fits;
    SessionAt(w, h);
  }

  lemma HostStops(w: World, h: Id)
    requires Inv(w) && h in w.book.sessions && h in w.clients
    ensures h in w.book.left ==> Stopping(w.clients[h])
  {
    hide Inv, Party, Aware, Own, Warned, Stopping;
    FitsIn(w, h);
    FitsAt(w.book, h, w.clients[h]);
  }

  /** A guest that was told nothing but that it may go on. */
  lemma GreetedParty(c: Client, s: Session, info: Endpoint)
    requires c.status == TcpConnected && c.down == [] && c.up == []
    ensures Party(c.(down := [ConnectResult(NoError)]), s, false, info)
  {
    var d := c.(down := [ConnectResult(NoError)]);
    assert !HasReport(d) && forall p :: HasPacket(d, p) ==> p == ConnectResult(NoError);
  }

  lemma GreetedSpent(c: Client)
    requires Spent(c) && c.up == []
    ensures Spent(c.(down := [ConnectResult(NoError)]))
  {
    assert !HasReport(c.(down := [ConnectResult(NoError)]));
  }

  lemma TcpConnectsKeeps(w: World, h: Id, id: Id)
    requires Inv(w) && h in w.book.sessions && Ready(w, id)
    requires TcpConnects(w.book.sessions[h], id).error == NoError
    ensures Inv(Applied(w, h, TcpConnects(w.book.sessions[h], id)))
  {
    hide Inv, Told, AllTold, Moves, Ready, Spent;
    var r := TcpConnects(w.book.sessions[h], id);
    SessionFactsAt(w, h);
    TcpConnectsMoves(w, h, id);
    ReadyAt(w, id);
    AnsweredKeeps(w, id, ConnectResult(NoError));
    HostToldKeeps(w.(clients := Told(w.clients, r.sends[0])), h, StartUdp);
    Told2(w, r.sends[0], r.sends[1]);
    var v := World(AllTold(w.clients, r.sends), w.book);
    MovesKeeps(v, WithSession(v, h, r.session).book, h, r.session);
  }

  lemma ReadyAt(w: World, id: Id)
    requires Ready(w, id)
    ensures id in w.clients && w.clients[id].role == Guest && Spent(w.clients[id]) && w.clients[id].status != Idle
  {
    hide Spent;
  }

  /** A client that is not waiting to be served can be given any answer that promises nothing; a host without a session
      only a refusal. */
  lemma AnsweredKeeps(w: World, id: Id, p: Down)
    requires Inv(w) && id in w.clients && Unpromising(p) && w.clients[id].status != Idle
    requires if w.clients[id].role == Guest then Spent(w.clients[id])
             else id in w.book.sessions || (p.WaitResult? && p.error != NoError)
    ensures Inv(Answered(w, id, p))
  {
    hide Inv, Spent, Told;
    ToldKeeps(w, id, p);
  }

  lemma RegisteredKeeps(w: World, id: Id)
    requires Inv(w) && id in w.clients && w.clients[id].role == Host && w.clients[id].status != Idle
    ensures Inv(Registered(w, id, w.clients[id].keyword))
  {
    hide Inv, Told, Spent;
    var keyword := w.clients[id].keyword;
    if Holder(w.book.sessions, keyword).Some? {
      AnsweredKeeps(w, id, WaitResult(KeywordDuplicate));
    } else {
      if id in w.book.sessions { KeywordIsClients(w, id); }
      OpenKeeps(w, id, keyword);
      AnsweredKeeps(w.(book := w.book.(sessions := w.book.sessions[id := Opened(id, keyword)])), id,
                    WaitResult(NoError));
    }
  }

  lemma KeywordIsClients(w: World, h: Id)
    requires Inv(w) && h in w.book.sessions
    ensures h in w.clients && w.book.sessions[h].keyword == w.clients[h].keyword
  {
    hide Fits;
    SessionAt(w, h);
  }

  lemma JoinedKeeps(w: World, id: Id, keyword: Keyword)
    requires Inv(w) && Ready(w, id)
    ensures Inv(Joined(w, id, keyword))
  {
    hide Inv, Told, AllTold, Spent;
    match Holder(w.book.sessions, keyword)
    case None => AnsweredKeeps(w, id, ConnectResult(KeywordNotFound));
    case Some(h) =>
      var r := TcpConnects(w.book.sessions[h], id);
      if r.error != NoError { AnsweredKeeps(w, id, ConnectResult(r.error)); } else { TcpConnectsKeeps(w, h, id); }
  }

  lemma RelayedKeeps(w: World, id: Id, keyword: Keyword)
    requires Inv(w) && id in w.clients && w.clients[id].status != Idle
    requires if w.clients[id].role == Guest then Spent(w.clients[id]) else id in w.book.sessions
    ensures Inv(Relayed(w, id, keyword))
  {
    hide Inv, Told, AllTold, Spent;
    match Holder(w.book.sessions, keyword)
    case None => AnsweredKeeps(w, id, ProxyResult(KeywordNotFound, 0));
    case Some(h) =>
      var r := AsksForProxy(w.book.sessions[h]);
      if r.error != NoError { AnsweredKeeps(w, id, ProxyResult(r.error, 0)); } else { ProxyKeeps(w, h); }
  }

  /** Taking the report off the link after it was counted is the same as before. */
  lemma SucceededKeeps(w: World, id: Id, c: Client)
    requires Inv(w) && id in w.clients && w.clients[id].up != [] && w.clients[id].up[0].Report?
    requires c == w.clients[id].(up := w.clients[id].up[1..])
    ensures Inv(Succeeded(Changed(w, id, c), id, w.clients[id].up[0].keyword))
  {
    hide Inv, Told, AllTold, Spent;
    var keyword := w.clients[id].up[0].keyword;
    PopKeeps(w, id);
    match Holder(w.book.sessions, keyword)
    case None =>
    case Some(h) =>
      assert HasReport(w.clients[id]);
      ReportedKeeps(w, h, id);
      var v := w.(book := w.book.(reported := w.book.reported + {(h, id)}));
      PopKeeps(v, id);
      ReportsKeeps(Changed(v, id, c), h, id);
  }

  lemma ServeKeeps(w: World, id: Id)
    requires Inv(w) && id in w.clients && w.clients[id].up != []
    ensures var c := w.clients[id]; Inv(Served(Changed(w, id, c.(up := c.up[1..])), c.up[0]))
  {
    hide Inv, Spent, Fits, Party, Registered, Joined, Succeeded, Relayed, Ready;
    var c := w.clients[id];
    var v := Changed(w, id, c.(up := c.up[1..]));
    PopKeeps(w, id);
    FitsIn(w, id);
    FitsAt(w.book, id, c);
    assert c.up[0].tcpid == id && c.up[0].keyword == c.keyword;
    match c.up[0]
    case Waiting(_, _) => RegisteredKeeps(v, id);
    case Connect(_, keyword) => PoppedConnectIsReady(w, id); JoinedKeeps(v, id, keyword);
    case Report(_, _) => SucceededKeeps(w, id, c.(up := c.up[1..]));
    case Proxying(_, keyword) => RelayedKeeps(v, id, keyword);
  }

  lemma DatagramKeeps(w: World, role: Role, keyword: Keyword, source: Endpoint)
    requires Inv(w)
    ensures Inv(Arrived(w, role, keyword, source))
  {
    hide Inv;
    match Holder(w.book.sessions, keyword)
    case None =>
    case Some(h) => if role == Host { UdpListensKeeps(w, h, source); } else { UdpConnectsKeeps(w, h, source); }
  }

  lemma GuestLeavesMoves(w: World, h: Id)
    requires Inv(w) && h in w.book.sessions && h in w.clients && Stopping(w.clients[h])
    ensures var t := GuestLeaves(w.book.sessions[h]).session;
            Moves(w, WithSession(w, h, t).book.(left := w.book.left + {h}), h, t)
  {
    hide Inv;
    SessionFactsAt(w, h);
  }

  lemma GuestEndKeeps(w: World, h: Id, id: Id)
    requires Inv(w) && h in w.book.sessions && w.book.sessions[h].guest == Some(id)
    ensures
      var left := w.(book := w.book.(left := w.book.left + {h}));
      Inv(Forgotten(Applied(left, h, GuestLeaves(w.book.sessions[h])), id))
  {
    hide Inv, Moves, AllTold, Fits, Party, Stopping;
    var r := GuestLeaves(w.book.sessions[h]);
    var b := WithSession(w, h, r.session).book.(left := w.book.left + {h});
    SessionFactsAt(w, h);
    HostToldKeeps(w, h, Reset);
    Told1(w, r.sends[0]);
    var u := w.(clients := Told(w.clients, Send(h, Reset)));
    HostIsThere(w, h);
    ToldToStop(w.clients[h]);
    GuestLeavesMoves(u, h);
    MovesKeeps(u, b, h, r.session);
    var v := World(AllTold(w.clients, r.sends), b);
    GuestAlone(w, h, id);
    CloseKeeps(v, id);
    LeftAreHosts(v);
    assert id !in b.sessions;
    assert b.sessions - {id} == b.sessions && b.left - {id} == b.left;
  }

  lemma ToldToStop(c: Client)
    ensures Stopping(c.(down := c.down + [Reset]))
  {
    assert (c.down + [Reset])[|c.down|] == Reset;
  }

  lemma GuestAlone(w: World, h: Id, id: Id)
    requires Inv(w) && h in w.book.sessions && w.book.sessions[h].guest == Some(id)
    ensures id !in w.book.sessions
    ensures forall i :: i in w.book.sessions && i != h ==> w.book.sessions[i].guest != Some(id)
  {
    hide Fits, Sound, Counted;
    SessionAt(w, h);
    assert forall i :: i in w.book.sessions && i != h ==> Opposed(w.book.sessions[h], w.book.sessions[i]);
    assert id in w.book.sessions ==> SessionFits(w, id);
  }

  lemma EndKeeps(w: World, id: Id)
    requires Inv(w) && id in w.clients
    ensures Inv(Ended(w, id))
  {
    hide Inv, Told, AllTold;
    match GuestIn(w.book.sessions, id)
    case Some(h) => GuestEndKeeps(w, h, id);
    case None => CloseKeeps(w, id);
  }

  lemma AcceptKeeps(w: World, id: Id, role: Role, keyword: Keyword)
    requires Inv(w) && id !in w.clients
    ensures Inv(Changed(w, id, NewClient(id, role, keyword)))
  {
    hide Fits, Sound;
    var c := NewClient(id, role, keyword);
    var w' := Changed(w, id, c);
    assert id !in w.book.sessions by { if id in w.book.sessions { SessionAt(w, id); } }
    forall h | h in w.book.sessions
      ensures w.book.sessions[h].guest != Some(id) && SessionFits(w', h)
    {
      SessionAt(w, h);
    }
    FitsWithoutParty(w.book, id, c);
  }

  lemma NextKeeps(w: World, s: Step, w': World)
    requires Inv(w) && Next(w, s, w')
    ensures Inv(w')
  {
    hide Inv, Ended, Served, Arrived;
    match s
    case Accept(id, role, keyword) => AcceptKeeps(w, id, role, keyword);
    case Receive(id) => ReceiveKeeps(w, id);
    case Wake(id) => WakeKeeps(w, id);
    case KeepAlive(id, peerid) => KeepAliveKeeps(w, id, peerid);
    case GiveUp(id) => GiveUpKeeps(w, id);
    case Serve(id) => ServeKeeps(w, id);
    case Datagram(role, keyword, source) => DatagramKeeps(w, role, keyword, source);
    case End(id) => EndKeeps(w, id);
  }

  // ----- runs

  ghost predicate Run(ws: seq<World>, steps: seq<Step>) {
    && |ws| == |steps| + 1 && ws[0] == Initial()
    && forall i :: 0 <= i < |steps| ==> Next(ws[i], steps[i], ws[i + 1])
  }

  lemma {:induction false} RunKeeps(ws: seq<World>, steps: seq<Step>, n: nat)
    requires Run(ws, steps) && n < |ws|
    ensures Inv(ws[n])
  {
    hide Next;
    if n > 0 {
      hide Inv;
      RunKeeps(ws, steps, n - 1);
      assert Next(ws[n - 1], steps[n - 1], ws[n]);
      NextKeeps(ws[n - 1], steps[n - 1], ws[n]);
    }
  }

  predicate Agrees(c: Client, h: Id, info: Endpoint, s: Session) {
    Holds(c, h, info) && Paired(s)
  }

  /** In every state of every run, whichever guest a session has: a guest that is punching or connected holds the host's
      id and the endpoint that the server recorded for the host; a host that is holds its own id, and the endpoint that
      the server recorded for the guest, once it has taken all StartUdp off its link. */
  lemma BothSidesAgree(ws: seq<World>, steps: seq<Step>, n: nat, h: Id)
    requires Run(ws, steps) && n < |ws|
    requires h in ws[n].book.sessions && ws[n].book.sessions[h].guest.Some?
    ensures var s := ws[n].book.sessions[h]; var cs := ws[n].clients;
            && h in cs && s.guest.value in cs
            && (Meeting(cs[s.guest.value]) ==> Agrees(cs[s.guest.value], h, s.hostInfo, s))
            && (Meeting(cs[h]) ==> cs[h].peerid == h)
            && (Meeting(cs[h]) && StartUdp !in cs[h].down ==> Agrees(cs[h], h, s.guestInfo, s))
  {
    hide Run, Next, Inv, Fits, Sound, Counted;
    RunKeeps(ws, steps, n);
    SidesAt(ws[n], h);
  }

  /** And exactly when does such a host not agree: StartUdp is still on its link, and either nobody has told it of its
      guest yet or it holds another endpoint.  Then an earlier guest has left, and it has been told to stop or will be
      before it takes that StartUdp. */
  lemma HostDisagreesExactly(ws: seq<World>, steps: seq<Step>, n: nat, h: Id)
    requires Run(ws, steps) && n < |ws|
    requires h in ws[n].book.sessions && ws[n].book.sessions[h].guest.Some?
    requires h in ws[n].clients && Meeting(ws[n].clients[h])
    ensures var s := ws[n].book.sessions[h]; var c := ws[n].clients[h];
            && (!Agrees(c, h, s.guestInfo, s) <==> StartUdp in c.down && (!Paired(s) || c.remote != s.guestInfo))
            && (!Agrees(c, h, s.guestInfo, s) ==> h in ws[n].book.left && Warned(c))
  {
    hide Run, Next, Inv, Fits, Sound, Counted, Warned;
    RunKeeps(ws, steps, n);
    SidesAt(ws[n], h);
  }

  /** In every state of every run a host that has taken the StartUdp for a later guest has been told to stop. */
  lemma LaterGuestMeetsStoppedHost(ws: seq<World>, steps: seq<Step>, n: nat, h: Id)
    requires Run(ws, steps) && n < |ws|
    requires h in ws[n].book.left && h in ws[n].book.sessions && ws[n].book.sessions[h].guest.Some?
    requires h in ws[n].clients && StartUdp !in ws[n].clients[h].down
    ensures ws[n].clients[h].stopped
  {
    hide Run, Next, Inv, Fits, Sound, Counted, Aware, Own;
    RunKeeps(ws, steps, n);
    SidesAt(ws[n], h);
  }

  lemma SidesAt(w: World, h: Id)
    requires Inv(w) && h in w.book.sessions && w.book.sessions[h].guest.Some?
    ensures var s := w.book.sessions[h]; var g := s.guest.value;
            && s.host == h && h in w.clients && g in w.clients && (h !in w.book.left ==> Counted(w.book, h, s))
            && HostSide(w.clients[h], s, h in w.book.left)
            && (h !in w.book.left ==> Party(w.clients[h], s, (h, h) in w.book.reported, s.guestInfo))
            && Party(w.clients[g], s, (h, g) in w.book.reported, s.hostInfo)
  {
    hide Inv, Fits, Sound, Counted, Party, HostSide;
    var s := w.book.sessions[h];
    SessionAt(w, h);
    FitsIn(w, h);
    FitsAt(w.book, h, w.clients[h]);
    FitsIn(w, s.guest.value);
    FitsAt(w.book, s.guest.value, w.clients[s.guest.value]);
    assert FitsGuest(w.book, h, s.guest.value, w.clients[s.guest.value]);
  }

  /** A side is connected only after the server has received a report of success from both; and then both had been told
      of each other, and still hold what they were told. */
  lemma ConnectedAfterBothReported(ws: seq<World>, steps: seq<Step>, n: nat, h: Id)
    requires Run(ws, steps) && n < |ws|
    requires h in ws[n].book.sessions && h !in ws[n].book.left && ws[n].book.sessions[h].guest.Some?
    requires var s := ws[n].book.sessions[h]; var cs := ws[n].clients;
             (h in cs && cs[h].status == Connected) || (s.guest.value in cs && cs[s.guest.value].status == Connected)
    ensures var s := ws[n].book.sessions[h]; var cs := ws[n].clients;
            && (h, h) in ws[n].book.reported && (h, s.guest.value) in ws[n].book.reported
            && h in cs && Holds(cs[h], h, s.guestInfo)
            && s.guest.value in cs && Holds(cs[s.guest.value], h, s.hostInfo)
  {
    hide Run, Next, Inv, Fits, Sound;
    RunKeeps(ws, steps, n);
    SidesAt(ws[n], h);
  }

  lemma GuestIs(w: World, h: Id, id: Id)
    requires Inv(w) && h in w.book.sessions && w.book.sessions[h].guest == Some(id)
    ensures GuestIn(w.book.sessions, id) == Some(h) && id !in w.book.sessions
  {
    hide Inv;
    GuestAlone(w, h, id);
  }

  lemma HolderIs(w: World, h: Id)
    requires Inv(w) && h in w.book.sessions
    ensures Holder(w.book.sessions, w.book.sessions[h].keyword) == Some(h)
  {
    hide Inv;
    SessionAt(w, h);
    assert forall i :: i in w.book.sessions && i != h ==> Opposed(w.book.sessions[h], w.book.sessions[i]);
  }

  lemma FirstGuestEnds(w: World, h: Id, first: Id) returns (w': World)
    requires Inv(w) && h in w.book.sessions && w.book.sessions[h].guest == Some(first) && first in w.clients
    ensures Next(w, End(first), w') && Inv(w') && h in w.clients && h in w'.clients && h in w'.book.sessions
    ensures w'.book.sessions[h] == GuestLeaves(w.book.sessions[h]).session && h in w'.book.left
    ensures w'.clients[h] == w.clients[h].(down := w.clients[h].down + [Reset])
    ensures forall i :: i in w.clients && i != first && i != h ==> i in w'.clients && w'.clients[i] == w.clients[i]
  {
    hide Inv;
    GuestIs(w, h, first);
    SessionAt(w, h);
    Told1(w.(book := w.book.(left := w.book.left + {h})), Send(h, Reset));
    w' := Ended(w, first);
    EndKeeps(w, first);
  }

  lemma LaterGuestJoins(w: World, h: Id, later: Id) returns (w': World)
    requires Inv(w) && h in w.book.sessions && h in w.clients && w.book.sessions[h].status == TcpListening
    requires later in w.clients && later != h && w.clients[later].up != []
    requires w.clients[later].up[0] == Connect(later, w.book.sessions[h].keyword)
    ensures Next(w, Serve(later), w') && h in w'.book.sessions && h in w'.clients
    ensures w'.book.sessions[h] == TcpConnects(w.book.sessions[h], later).session && w'.book.left == w.book.left
    ensures w'.clients[h] == w.clients[h].(down := w.clients[h].down + [StartUdp])
  {
    hide Inv;
    SessionAt(w, h);
    HolderIs(w, h);
    var v := Changed(w, later, w.clients[later].(up := w.clients[later].up[1..]));
    Told2(v, Send(later, ConnectResult(NoError)), Send(h, StartUdp));
    w' := Served(v, w.clients[later].up[0]);
  }

  /** Such a disagreement does come about: when a guest's link ends while the host is punching or connected, and another
      guest connects next, the host still is, with what it was told of the first one, until it takes what it was just
      told off its link. */
  lemma LaterGuestIsNotMet(ws: seq<World>, steps: seq<Step>, n: nat, h: Id, first: Id, later: Id)
    returns (w1: World, w2: World)
    requires Run(ws, steps) && n < |ws|
    requires h in ws[n].book.sessions && ws[n].book.sessions[h].guest == Some(first) && first in ws[n].clients
    requires h in ws[n].clients && Meeting(ws[n].clients[h])
    requires later in ws[n].clients && later != first && later != h && ws[n].clients[later].up != []
    requires ws[n].clients[later].up[0] == Connect(later, ws[n].book.sessions[h].keyword)
    ensures Next(ws[n], End(first), w1) && Next(w1, Serve(later), w2)
    ensures h in w2.book.left && h in w2.book.sessions && w2.book.sessions[h].guest == Some(later)
    ensures w2.book.sessions[h].status == TcpConnected && !Paired(w2.book.sessions[h])
    ensures h in w2.clients && w2.clients[h].status == ws[n].clients[h].status
    ensures Holds(w2.clients[h], ws[n].clients[h].peerid, ws[n].clients[h].remote)
    ensures w2.clients[h].down == ws[n].clients[h].down + [Reset] + [StartUdp]
  {
    hide Run, Next, Inv;
    RunKeeps(ws, steps, n);
    w1 := FirstGuestEnds(ws[n], h, first);
    w2 := LaterGuestJoins(w1, h, later);
  }

  // ----- a run that comes to this: host 1, its first guest 2, and guest 3, all with the keyword "k"

  const HERE := Endpoint(10, 1)
  const THERE := Endpoint(20, 2)

  function HostAt(peerid: Id, remote: Endpoint, status: Status, changed: bool, up: seq<Up>, down: seq<Down>): Client {
    Client(Host, "k", 1, peerid, remote, status, changed, false, false, up, down)
  }

  function GuestAt(id: Id, up: seq<Up>, down: seq<Down>): Client {
    Client(Guest, "k", id, 0, NO_ENDPOINT, TcpConnected, false, false, false, up, down)
  }

  function SessionAs(guest: Option<Id>, here: Endpoint, there: Endpoint, status: Status): Session {
    Session("k", 1, guest, false, false, here, there, status)
  }

  datatype Trace = Trace(worlds: seq<World>, steps: seq<Step>)

  ghost predicate Ends(t: Trace, w: World) {
    |t.worlds| == |t.steps| + 1 && Run(t.worlds, t.steps) && t.worlds[|t.steps|] == w
  }

  lemma EndsNext(t: Trace, w: World, s: Step, w': World) returns (t': Trace)
    requires Ends(t, w) && Next(w, s, w')
    ensures Ends(t', w') && t'.steps == t.steps + [s] && t'.worlds == t.worlds + [w']
  {
    hide Next;
    t' := Trace(t.worlds + [w'], t.steps + [s]);
    forall i | 0 <= i < |t'.steps| ensures Next(t'.worlds[i], t'.steps[i], t'.worlds[i + 1]) {
      if i < |t.steps| { assert Next(t.worlds[i], t.steps[i], t.worlds[i + 1]); }
    }
  }

  lemma Arrives(t: Trace, w: World, id: Id, role: Role) returns (t': Trace, w': World)
    requires Ends(t, w) && id !in w.clients
    ensures Ends(t', w') && w'.book == w.book
    ensures w'.clients == w.clients[id := Woken(Received(NewClient(id, role, "k").(down := []), Init(id)))]
    ensures t'.steps == t.steps + [Accept(id, role, "k"), Receive(id), Wake(id)]
  {
    hide Ends;
    var w1 := Changed(w, id, NewClient(id, role, "k"));
    var t1 := EndsNext(t, w, Accept(id, role, "k"), w1);
    var w2, t2 := Takes(t1, w1, id, Init(id), []);
    w' := Changed(w2, id, Woken(w2.clients[id]));
    t' := EndsNext(t2, w2, Wake(id), w');
  }

  lemma Takes(t: Trace, w: World, id: Id, p: Down, rest: seq<Down>) returns (w': World, t': Trace)
    requires Ends(t, w) && id in w.clients && w.clients[id].down == [p] + rest
    ensures Ends(t', w') && w' == Changed(w, id, Received(w.clients[id].(down := rest), p))
    ensures t'.steps == t.steps + [Receive(id)]
  {
    hide Ends;
    assert w.clients[id].down[1..] == rest;
    w' := Changed(w, id, Received(w.clients[id].(down := rest), p));
    t' := EndsNext(t, w, Receive(id), w');
  }

  lemma HostRegisters() returns (t: Trace, w: World)
    ensures Ends(t, w) && w.book == Book(map[1 := SessionAs(None, NO_ENDPOINT, NO_ENDPOINT, TcpListening)], {}, {})
    ensures w.clients == map[1 := HostAt(0, NO_ENDPOINT, TcpListening, false, [], [WaitResult(NoError)])]
    ensures t.steps == [Accept(1, Host, "k"), Receive(1), Wake(1), Serve(1)]
  {
    var w1;
    t, w1 := Arrives(Trace([Initial()], []), Initial(), 1, Host);
    var c := w1.clients[1];
    assert c == HostAt(0, NO_ENDPOINT, TcpListening, false, [Waiting(1, "k")], []);
    assert c.up[1..] == [] && c.down + [WaitResult(NoError)] == [WaitResult(NoError)];
    w := Served(Changed(w1, 1, c.(up := [])), c.up[0]);
    t := EndsNext(t, w1, Serve(1), w);
  }

  function Waiting3(host: Client, guest: Client): map<Id, Client> {
    map[1 := host, 2 := guest, 3 := GuestAt(3, [Connect(3, "k")], [])]
  }

  lemma GuestsArrive() returns (t: Trace, w: World)
    ensures Ends(t, w) && w.book == Book(map[1 := SessionAs(None, NO_ENDPOINT, NO_ENDPOINT, TcpListening)], {}, {})
    ensures w.clients == Waiting3(HostAt(0, NO_ENDPOINT, TcpListening, false, [], [WaitResult(NoError)]),
                                  GuestAt(2, [Connect(2, "k")], []))
  {
    hide Ends;
    t, w := HostRegisters();
    t, w := Arrives(t, w, 2, Guest);
    t, w := Arrives(t, w, 3, Guest);
    assert w.clients[2].up == [Connect(2, "k")] && w.clients[3].up == [Connect(3, "k")];
  }

  lemma OnlyHolder(s: Session)
    ensures Holder(map[1 := s], s.keyword) == Some(1)
  {
    assert 1 in map[1 := s];
  }

  lemma FirstGuestJoins() returns (t: Trace, w: World)
    ensures Ends(t, w)
    ensures w.book == Book(map[1 := SessionAs(Some(2), NO_ENDPOINT, NO_ENDPOINT, TcpConnected)], {}, {})
    ensures w.clients ==
            Waiting3(HostAt(0, NO_ENDPOINT, TcpListening, false, [], [WaitResult(NoError), StartUdp]),
                     GuestAt(2, [], [ConnectResult(NoError)]))
  {
    hide Ends;
    var w0;
    t, w0 := GuestsArrive();
    var v := Changed(w0, 2, w0.clients[2].(up := []));
    assert w0.clients[2].up[1..] == [];
    Told2(v, Send(2, ConnectResult(NoError)), Send(1, StartUdp));
    OnlyHolder(SessionAs(None, NO_ENDPOINT, NO_ENDPOINT, TcpListening));
    w := Served(v, Connect(2, "k"));
    assert w == Applied(v, 1, TcpConnects(v.book.sessions[1], 2));
    t := EndsNext(t, w0, Serve(2), w);
    assert w.clients[2].down == [ConnectResult(NoError)];
    assert w.clients[1].down == [WaitResult(NoError), StartUdp];
  }

  lemma AddressesAreSent() returns (t: Trace, w: World)
    ensures Ends(t, w) && w.book == Book(map[1 := SessionAs(Some(2), HERE, THERE, Punching)], {}, {})
    ensures w.clients ==
            Waiting3(HostAt(0, NO_ENDPOINT, TcpListening, false, [],
                            [WaitResult(NoError), StartUdp, ClientInfo(1, THERE)]),
                     GuestAt(2, [], [ConnectResult(NoError), StartUdp, ClientInfo(1, HERE)]))
  {
    hide Ends;
    var w0;
    t, w0 := FirstGuestJoins();
    OnlyHolder(w0.book.sessions[1]);
    Told1(w0, Send(2, StartUdp));
    var w1 := Arrived(w0, Host, "k", HERE);
    t := EndsNext(t, w0, Datagram(Host, "k", HERE), w1);
    assert w1.clients[2].down == [ConnectResult(NoError), StartUdp];
    assert w1.book == Book(map[1 := SessionAs(Some(2), HERE, NO_ENDPOINT, UdpListening)], {}, {});
    OnlyHolder(w1.book.sessions[1]);
    Told2(w1, Send(1, ClientInfo(1, THERE)), Send(2, ClientInfo(1, HERE)));
    w := Arrived(w1, Guest, "k", THERE);
    t := EndsNext(t, w1, Datagram(Guest, "k", THERE), w);
    assert w.clients[1].down == [WaitResult(NoError), StartUdp, ClientInfo(1, THERE)];
    assert w.clients[2].down == [ConnectResult(NoError), StartUdp, ClientInfo(1, HERE)];
  }

  lemma HostPunches() returns (t: Trace, w: World)
    ensures Ends(t, w) && w.book == Book(map[1 := SessionAs(Some(2), HERE, THERE, Punching)], {}, {})
    ensures w.clients == Waiting3(HostAt(1, THERE, Punching, true, [], []),
                                  GuestAt(2, [], [ConnectResult(NoError), StartUdp, ClientInfo(1, HERE)]))
  {
    hide Ends;
    t, w := AddressesAreSent();
    w, t := Takes(t, w, 1, WaitResult(NoError), [StartUdp, ClientInfo(1, THERE)]);
    w, t := Takes(t, w, 1, StartUdp, [ClientInfo(1, THERE)]);
    w, t := Takes(t, w, 1, ClientInfo(1, THERE), []);
  }

  /** The whole run: guest 2 leaves and guest 3 joins, while host 1 is punching at the address of guest 2. */
  lemma HostPunchesAtFormerGuest() returns (t: Trace, w: World)
    ensures Ends(t, w) && 1 in w.book.sessions && w.book.sessions[1].guest == Some(3)
    ensures w.book.sessions[1].status == TcpConnected
    ensures 1 in w.clients && w.clients[1].status == Punching && Holds(w.clients[1], 1, THERE)
  {
    hide Next, Run;
    var w0;
    t, w0 := HostPunches();
    var w1;
    w1, w := LaterGuestIsNotMet(t.worlds, t.steps, |t.steps|, 1, 2, 3);
    t := EndsNext(t, w0, End(2), w1);
    t := EndsNext(t, w1, Serve(3), w);
  }

  /** In every state of every run a keyword has at most one session, and a link is in at most one. */
  lemma SessionsAreApart(ws: seq<World>, steps: seq<Step>, n: nat, h: Id, g: Id)
    requires Run(ws, steps) && n < |ws|
    requires h in ws[n].book.sessions && g in ws[n].book.sessions && h != g
    ensures var s := ws[n].book.sessions[h]; var t := ws[n].book.sessions[g];
            && s.keyword != t.keyword && s.host != t.host && s.guest != Some(t.host)
            && (s.guest.Some? ==> s.guest != t.guest && s.guest != Some(s.host))
  {
    hide Run, Next, Fits, Sound, Counted;
    RunKeeps(ws, steps, n);
    SessionAt(ws[n], h);
    SessionAt(ws[n], g);
  }
}
