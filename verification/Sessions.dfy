/** The rendezvous protocol of clovertun: what the server does with one keyword's session, what a client does with a
    packet from the server, and the classes that do it in place. */
module Sessions {
  import opened Collections

  type Id = nat
  type Keyword = string

  datatype Endpoint = Endpoint(address: nat, port: nat)
  datatype Role = Host | Guest
  datatype Error = NoError | KeywordDuplicate | KeywordNotFound | StateMismatch | ProxyFail
  datatype Status =
    Idle | TcpListening | TcpConnected | UdpListening | UdpConnected | Punching | Connected | ProxyRequest | Proxy

  const NO_ENDPOINT := Endpoint(0, 0)

  /** Packets from the server to a client. */
  datatype Down =
    | Init(tcpid: Id)
    | WaitResult(error: Error)
    | Reset
    | ConnectResult(error: Error)
    | StartUdp
    | ClientInfo(peerid: Id, endpoint: Endpoint)
    | P2pResult
    | ProxyResult(error: Error, peerid: Id)

  /** Packets from a client to the server; each names its sender by the id it was given. */
  datatype Up =
    | Waiting(tcpid: Id, keyword: Keyword)
    | Connect(tcpid: Id, keyword: Keyword)
    | Report(tcpid: Id, keyword: Keyword)
    | Proxying(tcpid: Id, keyword: Keyword)

  datatype Send = Send(to: Id, packet: Down)

  // ----- one session, at the server

  datatype Session = Session(keyword: Keyword, host: Id, guest: Option<Id>, hostOK: bool, guestOK: bool,
                             hostInfo: Endpoint, guestInfo: Endpoint, status: Status)

  datatype Reply = Reply(error: Error, session: Session, sends: seq<Send>)

  function Opened(host: Id, keyword: Keyword): Session {
    Session(keyword, host, None, false, false, NO_ENDPOINT, NO_ENDPOINT, TcpListening)
  }

  function TcpConnects(s: Session, guest: Id): Reply {
    if s.status != TcpListening then Reply(StateMismatch, s, [])
    else
      Reply(NoError,
            s.(guest := Some(guest), hostInfo := NO_ENDPOINT, guestInfo := NO_ENDPOINT, status := TcpConnected),
            [Send(guest, ConnectResult(NoError)), Send(s.host, StartUdp)])
  }

  function UdpListens(s: Session, e: Endpoint): Reply {
    if s.status != TcpConnected || s.guest.None? then Reply(StateMismatch, s, [])
    else Reply(NoError, s.(hostInfo := e, status := UdpListening), [Send(s.guest.value, StartUdp)])
  }

  function UdpConnects(s: Session, e: Endpoint): Reply {
    if s.status != UdpListening || s.guest.None? then Reply(StateMismatch, s, [])
    else
      Reply(NoError, s.(guestInfo := e, status := Punching),
            [Send(s.host, ClientInfo(s.host, e)), Send(s.guest.value, ClientInfo(s.host, s.hostInfo))])
  }

  function Reports(s: Session, from: Id): Reply {
    if s.status != Punching || s.guest.None? then Reply(StateMismatch, s, [])
    else
      var s' := s.(hostOK := s.hostOK || from == s.host, guestOK := s.guestOK || Some(from) == s.guest);
      if s'.hostOK && s'.guestOK then
        Reply(NoError, s'.(status := Connected), [Send(s.host, P2pResult), Send(s.guest.value, P2pResult)])
      else Reply(NoError, s', [])
  }

  function GuestLeaves(s: Session): Reply {
    Reply(NoError, s.(guest := None, hostInfo := NO_ENDPOINT, guestInfo := NO_ENDPOINT, status := TcpListening),
          [Send(s.host, Reset)])
  }

  function AsksForProxy(s: Session): Reply {
    if s.guest.None? then Reply(ProxyFail, s, [])
    else Reply(NoError, s,
               [Send(s.host, ProxyResult(NoError, s.host)), Send(s.guest.value, ProxyResult(NoError, s.host))])
  }

  /** Both have been told of each other. */
  predicate Paired(s: Session) {
    s.status == Punching || s.status == Connected
  }

  /** There is a guest exactly when the session is past listening. */
  predicate Sound(s: Session) {
    && (s.guest.None? <==> s.status == TcpListening)
    && (s.status == TcpConnected || s.status == UdpListening || Paired(s) || s.status == TcpListening)
  }

  /** The flags of the two success reports outlive the guest: in a session whose first guest was connected and left, the
      next guest's session is CONNECTED as soon as either side has reported. */
  lemma OneReportIsEnoughForSecondGuest(s: Session, guest: Id, h: Endpoint, g: Endpoint, from: Id)
    requires Sound(s) && s.status == Connected && s.hostOK && s.guestOK && (from == s.host || from == guest)
    ensures var s1 := TcpConnects(GuestLeaves(s).session, guest).session;
            var s2 := UdpConnects(UdpListens(s1, h).session, g).session;
            && s2.status == Punching && s2.guest == Some(guest)
            && Reports(s2, from).session.status == Connected
  {
  }

  /** When a guest joins: one report alone can never connect the new session exactly when both flags are clear then. */
  lemma OneReportIsTooFewExactly(s: Session, guest: Id, h: Endpoint, g: Endpoint)
    requires Sound(s) && s.status == TcpListening && guest != s.host
    ensures var s1 := UdpConnects(UdpListens(TcpConnects(s, guest).session, h).session, g).session;
            && s1.status == Punching
            && ((forall from :: Reports(s1, from).session.status != Connected) <==> !s.hostOK && !s.guestOK)
  {
    var s1 := UdpConnects(UdpListens(TcpConnects(s, guest).session, h).session, g).session;
    var from := if s.hostOK then guest else s.host;
    assert s.hostOK || s.guestOK ==> Reports(s1, from).session.status == Connected;
  }

  /** CP2PConnection; its links are named by their tcp ids. */
  class P2PConnection {
    const keyword: Keyword
    const mainTcpId: Id
    var connTcp: Option<Id>
    var mainUdpOK: bool
    var connUdpOK: bool
    var mainUdpServer: Endpoint
    var connUdpServer: Endpoint
    var status: Status

    function Value(): Session
      reads this
    {
      Session(keyword, mainTcpId, connTcp, mainUdpOK, connUdpOK, mainUdpServer, connUdpServer, status)
    }

    constructor (tcpid: Id, keyword: Keyword)
      ensures Value() == Opened(tcpid, keyword)
    {
      this.keyword, mainTcpId, connTcp := keyword, tcpid, None;
      mainUdpOK, connUdpOK, mainUdpServer, connUdpServer := false, false, NO_ENDPOINT, NO_ENDPOINT;
      status := TcpListening;
    }

    method TCPConnected(server: Id) returns (error: Error, sends: seq<Send>)
      modifies this
      ensures Reply(error, Value(), sends) == TcpConnects(old(Value()), server)
    {
      if status != TcpListening { return StateMismatch, []; }
      connTcp := Some(server);
      mainUdpServer, connUdpServer := NO_ENDPOINT, NO_ENDPOINT;
      status := TcpConnected;
      sends := [Send(server, ConnectResult(NoError))];
      sends := sends + [Send(mainTcpId, StartUdp)];
      error := NoError;
    }

    method UDPListening(clientInfo: Endpoint) returns (error: Error, sends: seq<Send>)
      requires Sound(Value())
      modifies this
      ensures Sound(Value()) && Reply(error, Value(), sends) == UdpListens(old(Value()), clientInfo)
    {
      if status != TcpConnected { return StateMismatch, []; }
      mainUdpServer := clientInfo;
      status := UdpListening;
      sends := [Send(connTcp.value, StartUdp)];
      error := NoError;
    }

    method UDPConnected(clientInfo: Endpoint) returns (error: Error, sends: seq<Send>)
      requires Sound(Value())
      modifies this
      ensures Sound(Value()) && Reply(error, Value(), sends) == UdpConnects(old(Value()), clientInfo)
    {
      if status != UdpListening { return StateMismatch, []; }
      connUdpServer := clientInfo;
      status := UdpConnected;
      sends := [Send(mainTcpId, ClientInfo(mainTcpId, connUdpServer))];
      sends := sends + [Send(connTcp.value, ClientInfo(mainTcpId, mainUdpServer))];
      status := Punching;
      error := NoError;
    }

    method SetP2POK(server: Id) returns (error: Error, sends: seq<Send>)
      requires Sound(Value())
      modifies this
      ensures Sound(Value()) && Reply(error, Value(), sends) == Reports(old(Value()), server)
    {
      if status != Punching { return StateMismatch, []; }
      if mainTcpId == server { mainUdpOK := true; }
      if connTcp == Some(server) { connUdpOK := true; }
      if mainUdpOK && connUdpOK { status := Connected; }
      sends := [];
      if mainUdpOK && connUdpOK {
        sends := sends + [Send(mainTcpId, P2pResult)];
        sends := sends + [Send(connTcp.value, P2pResult)];
      }
      error := NoError;
    }

    method ConnTCPDisconnect() returns (sends: seq<Send>)
      modifies this
      ensures Sound(Value()) && Reply(NoError, Value(), sends) == GuestLeaves(old(Value()))
    {
      connTcp := None;
      mainUdpServer, connUdpServer := NO_ENDPOINT, NO_ENDPOINT;
      status := TcpListening;
      sends := [Send(mainTcpId, Reset)];
    }

    method TCPProxyRequest() returns (error: Error, sends: seq<Send>)
      ensures Reply(error, Value(), sends) == AsksForProxy(Value())
    {
      if connTcp == None { return ProxyFail, []; }
      sends := [Send(mainTcpId, ProxyResult(NoError, mainTcpId))];
      sends := sends + [Send(connTcp.value, ProxyResult(NoError, mainTcpId))];
      error := NoError;
    }
  }

  // ----- a client

  /** `changed` is the status-change event, `stopped` the stop event, and `over` says that the client's loop has ended;
      `up` and `down` are the two directions of the client's link. */
  datatype Client = Client(role: Role, keyword: Keyword, tcpid: Id, peerid: Id, remote: Endpoint, status: Status,
                           changed: bool, stopped: bool, over: bool, up: seq<Up>, down: seq<Down>)

  /** Where a client waits for the address of its peer. */
  function Exchanging(role: Role): Status {
    if role == Host then UdpListening else UdpConnected
  }

  /** A client takes one packet from the server. */
  function Received(c: Client, p: Down): Client {
    match p
    case Init(tcpid) =>
      if c.role == Host then c.(tcpid := tcpid, peerid := 0, status := TcpListening, changed := true)
      else c.(tcpid := tcpid, status := TcpConnected, changed := true)
    case WaitResult(error) =>
      if error != NoError then c.(stopped := true)
      else if c.role == Host && c.status == TcpListening then c.(status := TcpConnected, changed := true)
      else c
    case StartUdp => c.(status := Exchanging(c.role), changed := true)
    case ClientInfo(peerid, endpoint) =>
      if c.status == Exchanging(c.role) then
        c.(peerid := peerid, remote := endpoint, status := Punching, changed := true)
      else c
    case P2pResult => if c.status == Punching then c.(status := Connected, changed := true) else c
    case ProxyResult(error, _) =>
      if error != NoError then c.(stopped := true) else c.(status := Proxy, changed := true)
    case Reset => if c.role == Host then c.(stopped := true) else c
    case ConnectResult(_) => c
  }

  /** A turn of the client's loop after its status changed. */
  function Woken(c: Client): Client {
    if c.role == Host && c.status == TcpListening then
      c.(changed := false, up := c.up + [Waiting(c.tcpid, c.keyword)])
    else if c.role == Guest && c.status == TcpConnected then
      c.(changed := false, up := c.up + [Connect(c.tcpid, c.keyword)])
    else if c.status == ProxyRequest then c
    else c.(changed := false)
  }

  /** A turn of the client's loop: a change of status is looked at before the stop event. */
  function Turned(c: Client): Client {
    if c.changed then Woken(c) else c.(over := true)
  }

  /** A keep-alive datagram arrives that names a peer. */
  function KeptAlive(c: Client, peerid: Id): Client {
    if peerid == c.peerid && c.status == Punching then c.(up := c.up + [Report(c.tcpid, c.keyword)]) else c
  }

  /** The exchange of addresses was tried ten times. */
  function GivenUp(c: Client): Client {
    c.(status := ProxyRequest, up := c.up + [Proxying(c.tcpid, c.keyword)])
  }

  /** The fields of a CP2PClient that the protocol uses; what it sends to the server is appended to `sent`. */
  class P2PClient {
    const role: Role
    const keyword: Keyword
    var tcpid: Id
    var peerid: Id
    var remoteClientInfo: Endpoint
    var status: Status
    var statusChange: bool
    var stopEvent: bool
    var over: bool
    var sent: seq<Up>

    function Value(down: seq<Down>): Client
      reads this
    {
      Client(role, keyword, tcpid, peerid, remoteClientInfo, status, statusChange, stopEvent, over, sent, down)
    }

    constructor (role: Role, keyword: Keyword)
      ensures Value([]) == Client(role, keyword, 0, 0, NO_ENDPOINT, Idle, false, false, false, [], [])
    {
      this.role, this.keyword, tcpid, peerid, remoteClientInfo := role, keyword, 0, 0, NO_ENDPOINT;
      status, statusChange, stopEvent, over, sent := Idle, false, false, false, [];
    }

    /** CP2PHost::RecvTCPPacketProcess. */
    method HostReceives(packet: Down, ghost down: seq<Down>)
      requires role == Host
      modifies this
      ensures Value(down) == Received(old(Value(down)), packet)
    {
      match packet
      case Init(id) =>
        tcpid := id;
        peerid := 0;
        status := TcpListening;
        statusChange := true;
      case WaitResult(error) =>
        if error != NoError {
          stopEvent := true;
        } else if status == TcpListening {
          status := TcpConnected;
          statusChange := true;
        }
      case StartUdp =>
        status := UdpListening;
        statusChange := true;
      case ClientInfo(id, endpoint) =>
        if status == UdpListening {
          peerid := id;
          remoteClientInfo := endpoint;
          status := Punching;
          statusChange := true;
        }
      case P2pResult =>
        if status == Punching {
          status := Connected;
          statusChange := true;
        }
      case ProxyResult(error, _) =>
        if error != NoError {
          stopEvent := true;
        } else {
          status := Proxy;
          statusChange := true;
        }
      case Reset => stopEvent := true;
      case ConnectResult(_) =>
    }

    /** CP2PGuest::RecvTCPPacketProcess. */
    method GuestReceives(packet: Down, ghost down: seq<Down>)
      requires role == Guest
      modifies this
      ensures Value(down) == Received(old(Value(down)), packet)
    {
      match packet
      case Init(id) =>
        tcpid := id;
        status := TcpConnected;
        statusChange := true;
      case StartUdp =>
        status := UdpConnected;
        statusChange := true;
      case ClientInfo(id, endpoint) =>
        if status == UdpConnected {
          peerid := id;
          remoteClientInfo := endpoint;
          status := Punching;
          statusChange := true;
        }
      case P2pResult =>
        if status == Punching {
          status := Connected;
          statusChange := true;
        }
      case ProxyResult(error, _) =>
        if error != NoError {
          stopEvent := true;
        } else {
          status := Proxy;
          statusChange := true;
        }
      case WaitResult(error) =>
        if error != NoError { stopEvent := true; }
      case Reset =>
      case ConnectResult(_) =>
    }

    /** One turn of the loop of CP2PHost::Accept or CP2PGuest::Connect, up to the handlers that wait. */
    method Turn(ghost down: seq<Down>)
      requires !over && (statusChange || stopEvent)
      modifies this
      ensures Value(down) == Turned(old(Value(down)))
    {
      if !statusChange {
        over := true;
        return;
      }
      if role == Host && status == TcpListening {
        statusChange := false;
        sent := sent + [Waiting(tcpid, keyword)];
      } else if role == Guest && status == TcpConnected {
        statusChange := false;
        sent := sent + [Connect(tcpid, keyword)];
      } else if status != ProxyRequest {
        statusChange := false;
      }
    }

    /** CP2PClient::RecvUDPPacketProcess for UPT_KEEPALIVE. */
    method KeepAliveReceived(id: Id, ghost down: seq<Down>)
      modifies this
      ensures Value(down) == KeptAlive(old(Value(down)), id)
    {
      if id == peerid {
        if status == Punching { sent := sent + [Report(tcpid, keyword)]; }
      }
    }
  }

  // ----- the registry of links

  const ID_LIMIT := 0x1_0000_0000

  /** CP2PServer::CreateTCPID: ids are 32 bits wide and are given in turn, skipping those still in use. */
  class TcpRegistry<Link> {
    var tcpList: map<Id, Link>
    var tcpid: Id

    ghost predicate Valid()
      reads this
    {
      tcpid < 0x1_0000_0000 && |tcpList| < 0x1_0000_0000 && forall id :: id in tcpList ==> id < 0x1_0000_0000
    }

    method CreateTCPID(tcp: Link) returns (id: Id)
      requires Valid()
      modifies this
      ensures id < 0x1_0000_0000 && id !in old(tcpList) && tcpList == old(tcpList)[id := tcp]
      ensures tcpid == (id + 1) % 0x1_0000_0000
      ensures forall i :: 0 <= i < 0x1_0000_0000 && InTurn(old(tcpid), i) < InTurn(old(tcpid), id) ==> i in old(tcpList)
    {
      hide InTurn;
      ghost var start := tcpid;
      ghost var seen: set<Id> := {};
      TurnsAt(start, start);
      while tcpid in tcpList
        invariant tcpid < ID_LIMIT && tcpList == old(tcpList) && InTurn(start, tcpid) == |seen|
        invariant seen <= tcpList.Keys && |seen| <= |tcpList|
        invariant forall i :: 0 <= i < ID_LIMIT ==> (i in seen <==> InTurn(start, i) < |seen|)
        decreases |tcpList| - |seen|
      {
        TurnsAt(start, tcpid);
        seen := seen + {tcpid};
        SubsetSize(seen, tcpList.Keys);
        tcpid := (tcpid + 1) % ID_LIMIT;
      }
      id := tcpid;
      tcpList := tcpList[id := tcp];
      tcpid := (tcpid + 1) % ID_LIMIT;
    }
  }

  /** How many ids are tried before `id`, from `start`. */
  function InTurn(start: Id, id: int): nat {
    (id - start) % ID_LIMIT
  }

  lemma TurnsAt(start: Id, id: Id)
    requires start < ID_LIMIT && id < ID_LIMIT
    ensures InTurn(start, start) == 0
    ensures InTurn(start, id) + 1 < ID_LIMIT ==> InTurn(start, (id + 1) % ID_LIMIT) == InTurn(start, id) + 1
    ensures forall i :: 0 <= i < ID_LIMIT && InTurn(start, i) == InTurn(start, id) ==> i == id
  {
    assert forall i :: 0 <= i < ID_LIMIT ==> InTurn(start, i) == if i < start then i - start + ID_LIMIT else i - start;
  }
}
