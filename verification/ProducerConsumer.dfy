/** The producer-consumer server of 44_high-load_server/producer_consumer/task4.c: the server puts each
    request in a queue, confirms it to the client, lets any service process it and sends the outcome to the
    client too.  A client counts two replies down before it sends its next request.  Every send may fail. */
module ProducerConsumer {
  import opened Counting
  import opened Marking
  import opened Runs

  /** `Asked` is a request (also as the raw socket echoes it to its sender); the others are replies. */
  datatype Kind = Asked | Plain | Processed

  datatype Packet = Packet(addr: nat, id: int, data: string, kind: Kind)

  datatype Server = Listen | Enqueue(p: Packet) | Acknowledge(p: Packet) | Poll | Answer(p: Packet)

  datatype Service = Idle | Busy(p: Packet)

  /** `plain` and `processed` (history) say which of the two replies are outstanding. */
  datatype Client = Client(wait: nat, mid: int, message: string, inbox: seq<Packet>, stopped: bool,
                           plain: nat, processed: nat, sent: nat, received: nat)

  datatype State = State(
    socket: seq<Packet>, requests: seq<Packet>, replies: seq<Packet>,
    server: Server, services: seq<Service>, clients: seq<Client>,
    lost: multiset<(nat, Kind)>)    // history: replies that a failed send made impossible

  /** A process and what the environment decides: whether sends succeed, the line typed, and whether the
      raw socket shows the client its own packet. */
  datatype Action = Serve(ok: bool) | Work(service: nat, ok: bool)
                  | Act(client: nat, typed: string, ok: bool, echo: bool)

  // ---------------------------------------------------------------------------------------------
  // Machine integers
  // ---------------------------------------------------------------------------------------------

  /** Conversion to `unsigned short`. */
  function U16(x: int): int {
    x % 0x1_0000
  }

  /** Conversion to a signed `char`. */
  function C8(x: int): int {
    (x + 128) % 256 - 128
  }

  predicate IsChar(x: int) {
    -128 <= x <= 127
  }

  /** The server's id + 1 is the id that the client waits for, for every `char`, and a client never takes
      its own request for a reply.  The reset of `mid` at USHRT_MAX never happens. */
  lemma ReplyIdMatches(mid: int)
    requires IsChar(mid)
    ensures U16(U16(mid) + 1) == U16(mid + 1)
    ensures U16(mid) != U16(mid + 1)
    ensures IsChar(C8(mid + 1)) && C8(mid + 1) != 0xFFFF
  {
  }

  // ---------------------------------------------------------------------------------------------
  // Steps
  // ---------------------------------------------------------------------------------------------

  function Tail<T>(s: seq<T>): seq<T> {
    if s == [] then s else s[1..]
  }

  function Deliver(clients: seq<Client>, p: Packet, kind: Kind): seq<Client> {
    if p.addr < |clients| then
      var c := clients[p.addr];
      clients[p.addr := c.(inbox := c.inbox + [Packet(p.addr, U16(p.id + 1), p.data, kind)])]
    else clients
  }

  function ServerAfter(server: Server, socket: seq<Packet>, replies: seq<Packet>, ok: bool): Server {
    match server
    case Listen => if socket == [] then Poll else Enqueue(socket[0])
    case Enqueue(p) => if ok then Acknowledge(p) else Poll
    case Acknowledge(_) => Poll
    case Poll => if replies == [] then Listen else Answer(replies[0])
    case Answer(_) => Listen
  }

  function ClientsServed(clients: seq<Client>, server: Server, ok: bool): seq<Client> {
    match server
    case Acknowledge(p) => if ok then Deliver(clients, p, Plain) else clients
    case Answer(p) => if ok then Deliver(clients, p, Processed) else clients
    case _ => clients
  }

  function ServerLoses(server: Server, ok: bool): multiset<(nat, Kind)> {
    match server
    case Enqueue(p) => if ok then multiset{} else multiset{(p.addr, Plain), (p.addr, Processed)}
    case Acknowledge(p) => if ok then multiset{} else multiset{(p.addr, Plain)}
    case Answer(p) => if ok then multiset{} else multiset{(p.addr, Processed)}
    case _ => multiset{}
  }

  /** One statement of the server's loop. */
  function ServerStep(s: State, ok: bool): State {
    State(if s.server == Listen then Tail(s.socket) else s.socket,
          if s.server.Enqueue? && ok then s.requests + [s.server.p] else s.requests,
          if s.server == Poll then Tail(s.replies) else s.replies,
          ServerAfter(s.server, s.socket, s.replies, ok),
          s.services,
          ClientsServed(s.clients, s.server, ok),
          s.lost + ServerLoses(s.server, ok))
  }

  /** A service takes the oldest request, then sends the outcome. */
  function ServiceStep(s: State, i: nat, ok: bool): State
    requires i < |s.services|
  {
    match s.services[i]
    case Idle =>
      if s.requests == [] then s
      else s.(requests := s.requests[1..], services := s.services[i := Busy(s.requests[0])])
    case Busy(p) =>
      if ok then s.(replies := s.replies + [p.(data := Process(p.data))], services := s.services[i := Idle])
      else s.(services := s.services[i := Idle], lost := s.lost + multiset{(p.addr, Processed)})
  }

  predicate Quits(typed: string) {
    typed == "q" || typed == "quit"
  }

  function Request(c: nat, mid: int, typed: string): Packet {
    Packet(c, U16(mid), typed, Asked)
  }

  /** One turn of a client's loop: send a request, or take one packet and count it if its id matches. */
  function ClientAfter(x: Client, c: nat, typed: string, ok: bool, echo: bool): Client {
    if x.stopped then x
    else if x.wait == 0 then
      if Quits(typed) then x.(stopped := true)
      else if !ok then x
      else x.(wait := 2, message := typed, plain := 1, processed := 1, sent := x.sent + 1,
              inbox := if echo then x.inbox + [Request(c, x.mid, typed)] else x.inbox)
    else if x.inbox == [] then x
    else if x.inbox[0].id != U16(x.mid + 1) then x.(inbox := x.inbox[1..])
    else
      x.(inbox := x.inbox[1..], wait := x.wait - 1, mid := if x.wait == 1 then C8(x.mid + 1) else x.mid,
         plain := if x.inbox[0].kind == Plain && x.plain > 0 then x.plain - 1 else x.plain,
         processed := if x.inbox[0].kind == Processed && x.processed > 0 then x.processed - 1 else x.processed,
         received := x.received + 1)
  }

  predicate Requests(x: Client, typed: string, ok: bool) {
    !x.stopped && x.wait == 0 && !Quits(typed) && ok
  }

  function ClientStep(s: State, c: nat, typed: string, ok: bool, echo: bool): State
    requires c < |s.clients|
  {
    var x := s.clients[c];
    s.(socket := if Requests(x, typed, ok) then s.socket + [Request(c, x.mid, typed)] else s.socket,
       clients := s.clients[c := ClientAfter(x, c, typed, ok, echo)])
  }

  function Step(s: State, a: Action): State {
    match a
    case Serve(ok) => ServerStep(s, ok)
    case Work(i, ok) => if i < |s.services| then ServiceStep(s, i, ok) else s
    case Act(c, typed, ok, echo) => if c < |s.clients| then ClientStep(s, c, typed, ok, echo) else s
  }

  function Exec(s: State, schedule: seq<Action>): State {
    Run(Step, s, schedule)
  }

  ghost predicate Init(s: State) {
    && s.socket == [] && s.requests == [] && s.replies == [] && s.server == Listen && s.lost == multiset{}
    && (forall i :: 0 <= i < |s.services| ==> s.services[i] == Idle)
    && (forall c :: 0 <= c < |s.clients| ==> s.clients[c] == Client(0, 0, "", [], false, 0, 0, 0, 0))
  }

  // ---------------------------------------------------------------------------------------------
  // Token accounting
  // ---------------------------------------------------------------------------------------------

  function From(c: nat): Packet -> nat {
    (p: Packet) => if p.addr == c then 1 else 0
  }

  function Working(c: nat): Service -> nat {
    (v: Service) => if v.Busy? && v.p.addr == c then 1 else 0
  }

  function OfKind(kind: Kind): Packet -> nat {
    (p: Packet) => if p.kind == kind then 1 else 0
  }

  /** The replies of a kind to client `c` that the server holds in its hands. */
  function InHand(server: Server, c: nat, kind: Kind): nat {
    match server
    case Enqueue(p) => if p.addr == c then 1 else 0
    case Acknowledge(p) => if p.addr == c && kind == Plain then 1 else 0
    case Answer(p) => if p.addr == c && kind == Processed then 1 else 0
    case _ => 0
  }

  /** The processed replies to client `c` on their way through the queues and the services. */
  function InQueues(s: State, c: nat): nat {
    Sum(s.requests, From(c)) + Sum(s.services, Working(c)) + Sum(s.replies, From(c))
  }

  /** The replies of a kind that client `c` will still get, wherever they are. */
  function Owed(s: State, c: nat, kind: Kind): nat
    requires c < |s.clients|
  {
    Sum(s.socket, From(c)) + InHand(s.server, c, kind) + (if kind == Processed then InQueues(s, c) else 0)
      + Sum(s.clients[c].inbox, OfKind(kind))
  }

  function Outstanding(x: Client, kind: Kind): nat {
    if kind == Plain then x.plain else x.processed
  }

  ghost predicate Balanced(s: State, c: nat, kind: Kind)
    requires c < |s.clients|
  {
    Owed(s, c, kind) + s.lost[(c, kind)] == Outstanding(s.clients[c], kind)
  }

  // ---------------------------------------------------------------------------------------------
  // Ids and data
  // ---------------------------------------------------------------------------------------------

  /** A request under way is the one that its client is waiting for. */
  predicate Current(clients: seq<Client>, p: Packet) {
    && p.addr < |clients|
    && p.id == U16(clients[p.addr].mid)
    && p.data == clients[p.addr].message
  }

  predicate Answered(clients: seq<Client>, p: Packet) {
    && p.addr < |clients|
    && p.id == U16(clients[p.addr].mid)
    && p.data == Process(clients[p.addr].message)
  }

  predicate GoodServer(clients: seq<Client>, server: Server) {
    match server
    case Enqueue(p) => Current(clients, p)
    case Acknowledge(p) => Current(clients, p)
    case Answer(p) => Answered(clients, p)
    case _ => true
  }

  predicate GoodService(clients: seq<Client>, v: Service) {
    v.Busy? ==> Current(clients, v.p)
  }

  /** A socket buffer: the client's own request at the very front if at all, then replies to it. */
  predicate GoodInbox(x: Client, p: Packet, first: bool) {
    match p.kind
    case Asked => first && p.id == U16(x.mid)
    case Plain => p.id == U16(x.mid + 1) && p.data == x.message
    case Processed => p.id == U16(x.mid + 1) && p.data == Process(x.message)
  }

  predicate GoodClient(x: Client) {
    && IsChar(x.mid)
    && x.wait == x.plain + x.processed && x.plain <= 1 && x.processed <= 1
    && x.received + x.wait == 2 * x.sent
    && (x.wait == 0 ==> x.inbox == [])
    && (x.stopped ==> x.wait == 0)
    && (forall j :: 0 <= j < |x.inbox| ==> GoodInbox(x, x.inbox[j], j == 0))
  }

  ghost predicate AllCurrent(clients: seq<Client>, ps: seq<Packet>) {
    forall j :: 0 <= j < |ps| ==> Current(clients, ps[j])
  }

  ghost predicate AllAnswered(clients: seq<Client>, ps: seq<Packet>) {
    forall j :: 0 <= j < |ps| ==> Answered(clients, ps[j])
  }

  ghost predicate AllBusyRight(clients: seq<Client>, services: seq<Service>) {
    forall i :: 0 <= i < |services| ==> GoodService(clients, services[i])
  }

  ghost predicate Tidy(s: State) {
    && AllCurrent(s.clients, s.socket) && AllCurrent(s.clients, s.requests) && AllAnswered(s.clients, s.replies)
    && GoodServer(s.clients, s.server)
    && AllBusyRight(s.clients, s.services)
    && (forall c :: 0 <= c < |s.clients| ==> GoodClient(s.clients[c]))
  }

  ghost predicate Inv(s: State) {
    && Tidy(s)
    && (forall c, kind :: 0 <= c < |s.clients| && kind != Asked ==> Balanced(s, c, kind))
  }

  // ---------------------------------------------------------------------------------------------
  // The accounts balance
  // ---------------------------------------------------------------------------------------------

  /** The replies of a kind that the server's step puts in client `c`'s socket buffer. */
  function Delivered(server: Server, ok: bool, c: nat, kind: Kind): nat {
    match server
    case Acknowledge(p) => if ok && p.addr == c && kind == Plain then 1 else 0
    case Answer(p) => if ok && p.addr == c && kind == Processed then 1 else 0
    case _ => 0
  }

  lemma InboxAfterServer(clients: seq<Client>, server: Server, ok: bool, c: nat, kind: Kind)
    requires c < |clients| && kind != Asked
    ensures var after := ClientsServed(clients, server, ok);
            && |after| == |clients|
            && after[c].plain == clients[c].plain && after[c].processed == clients[c].processed
            && Sum(after[c].inbox, OfKind(kind)) == Sum(clients[c].inbox, OfKind(kind)) + Delivered(server, ok, c, kind)
  {
    match server
    case Acknowledge(p) => SumSnoc(clients[c].inbox, Packet(p.addr, U16(p.id + 1), p.data, Plain), OfKind(kind));
    case Answer(p) => SumSnoc(clients[c].inbox, Packet(p.addr, U16(p.id + 1), p.data, Processed), OfKind(kind));
    case _ =>
  }

  /** What the server takes in, it holds, passes on, delivers or loses. */
  lemma ServerFlow(s: State, ok: bool, c: nat, kind: Kind)
    requires kind != Asked
    ensures var t := ServerStep(s, ok);
            Sum(t.socket, From(c)) + InHand(t.server, c, kind)
              + (if kind == Processed then Sum(t.requests, From(c)) + Sum(t.replies, From(c)) else 0)
              + ServerLoses(s.server, ok)[(c, kind)] + Delivered(s.server, ok, c, kind)
            == Sum(s.socket, From(c)) + InHand(s.server, c, kind)
              + (if kind == Processed then Sum(s.requests, From(c)) + Sum(s.replies, From(c)) else 0)
  {
    match s.server
    case Listen => if s.socket != [] { SumTail(s.socket, From(c)); }
    case Enqueue(p) => SumSnoc(s.requests, p, From(c));
    case Poll => if s.replies != [] { SumTail(s.replies, From(c)); }
    case _ =>
  }

  lemma ServerBalanced(s: State, ok: bool, c: nat, kind: Kind)
    requires c < |s.clients| && kind != Asked && Balanced(s, c, kind)
    ensures c < |ServerStep(s, ok).clients| && Balanced(ServerStep(s, ok), c, kind)
  {
    InboxAfterServer(s.clients, s.server, ok, c, kind);
    ServerFlow(s, ok, c, kind);
  }

  lemma ServiceBalanced(s: State, i: nat, ok: bool, c: nat, kind: Kind)
    requires i < |s.services| && c < |s.clients| && kind != Asked && Balanced(s, c, kind)
    ensures Balanced(ServiceStep(s, i, ok), c, kind)
  {
    match s.services[i]
    case Idle =>
      if s.requests != [] {
        SumTail(s.requests, From(c));
        SumUpdate(s.services, i, Busy(s.requests[0]), Working(c));
      }
    case Busy(p) =>
      SumSnoc(s.replies, p.(data := Process(p.data)), From(c));
      SumUpdate(s.services, i, Idle, Working(c));
  }

  /** What a client's turn does to its own account; the packet that matches is always a reply. */
  lemma ClientAccount(x: Client, c: nat, typed: string, ok: bool, echo: bool, kind: Kind)
    requires GoodClient(x) && kind != Asked && Sum(x.inbox, OfKind(kind)) <= Outstanding(x, kind)
    ensures var y := ClientAfter(x, c, typed, ok, echo);
            Outstanding(y, kind) + Sum(x.inbox, OfKind(kind))
              == Outstanding(x, kind) + Sum(y.inbox, OfKind(kind)) + (if Requests(x, typed, ok) then 1 else 0)
  {
    if x.wait == 0 {
      SumSnoc(x.inbox, Request(c, x.mid, typed), OfKind(kind));
    } else if x.inbox != [] {
      assert GoodInbox(x, x.inbox[0], true);
      ReplyIdMatches(x.mid);
      SumTail(x.inbox, OfKind(kind));
    }
  }

  lemma ClientBalanced(s: State, c: nat, typed: string, ok: bool, echo: bool, d: nat, kind: Kind)
    requires c < |s.clients| && d < |s.clients| && kind != Asked && Balanced(s, d, kind) && GoodClient(s.clients[c])
    ensures d < |ClientStep(s, c, typed, ok, echo).clients| && Balanced(ClientStep(s, c, typed, ok, echo), d, kind)
  {
    SumSnoc(s.socket, Request(c, s.clients[c].mid, typed), From(d));
    if c == d {
      ClientAccount(s.clients[c], c, typed, ok, echo, kind);
    }
  }

  // ---------------------------------------------------------------------------------------------
  // Everything under way belongs to the request that its client waits for
  // ---------------------------------------------------------------------------------------------

  lemma SumIsZero<T>(s: seq<T>, f: T -> nat)
    requires Sum(s, f) == 0
    ensures forall j :: 0 <= j < |s| ==> f(s[j]) == 0
  {
    forall j | 0 <= j < |s| ensures f(s[j]) == 0 {
      SumPart(s, j, f);
    }
  }

  /** A client that is owed nothing has nothing under way anywhere. */
  ghost predicate Absent(s: State, c: nat) {
    && Avoids(s.socket, c) && Avoids(s.requests, c) && Avoids(s.replies, c)
    && NoneWorks(s.services, c) && !Holds(s.server, c)
  }

  ghost predicate Avoids(ps: seq<Packet>, c: nat) {
    forall j :: 0 <= j < |ps| ==> ps[j].addr != c
  }

  ghost predicate NoneWorks(services: seq<Service>, c: nat) {
    forall i :: 0 <= i < |services| && services[i].Busy? ==> services[i].p.addr != c
  }

  predicate Holds(server: Server, c: nat) {
    (server.Enqueue? || server.Acknowledge? || server.Answer?) && server.p.addr == c
  }

  lemma NothingUnderWay(s: State, c: nat)
    requires c < |s.clients| && s.clients[c].plain == 0 && s.clients[c].processed == 0
    requires Balanced(s, c, Plain) && Balanced(s, c, Processed)
    ensures Absent(s, c)
    ensures forall j :: 0 <= j < |s.clients[c].inbox| ==> s.clients[c].inbox[j].kind == Asked
  {
    SumIsZero(s.socket, From(c));
    SumIsZero(s.requests, From(c));
    SumIsZero(s.replies, From(c));
    SumIsZero(s.services, Working(c));
    SumIsZero(s.clients[c].inbox, OfKind(Plain));
    SumIsZero(s.clients[c].inbox, OfKind(Processed));
    forall i | 0 <= i < |s.services| && s.services[i].Busy? ensures s.services[i].p.addr != c {
      assert Working(c)(s.services[i]) == 0;
    }
    forall j | 0 <= j < |s.clients[c].inbox| ensures s.clients[c].inbox[j].kind == Asked {
      assert OfKind(Plain)(s.clients[c].inbox[j]) == 0 && OfKind(Processed)(s.clients[c].inbox[j]) == 0;
    }
    forall j | 0 <= j < |s.socket| ensures s.socket[j].addr != c {
      assert From(c)(s.socket[j]) == 0;
    }
    forall j | 0 <= j < |s.requests| ensures s.requests[j].addr != c {
      assert From(c)(s.requests[j]) == 0;
    }
    forall j | 0 <= j < |s.replies| ensures s.replies[j].addr != c {
      assert From(c)(s.replies[j]) == 0;
    }
  }

  ghost predicate SameRequests(a: seq<Client>, b: seq<Client>) {
    |a| == |b| && forall c :: 0 <= c < |a| ==> a[c].mid == b[c].mid && a[c].message == b[c].message
  }

  lemma DeliverGood(clients: seq<Client>, p: Packet, kind: Kind)
    requires forall c :: 0 <= c < |clients| ==> GoodClient(clients[c])
    requires (kind == Plain && Current(clients, p)) || (kind == Processed && Answered(clients, p))
    requires clients[p.addr].wait > 0
    ensures var after := Deliver(clients, p, kind);
            SameRequests(clients, after) && forall c :: 0 <= c < |after| ==> GoodClient(after[c])
  {
    ReplyIdMatches(clients[p.addr].mid);
  }

  lemma ServedClientsGood(s: State, ok: bool)
    requires Inv(s)
    ensures var after := ClientsServed(s.clients, s.server, ok);
            SameRequests(s.clients, after) && forall c :: 0 <= c < |after| ==> GoodClient(after[c])
  {
    match s.server
    case Acknowledge(p) =>
      assert Balanced(s, p.addr, Plain) && GoodClient(s.clients[p.addr]);
      DeliverGood(s.clients, p, Plain);
    case Answer(p) =>
      assert Balanced(s, p.addr, Processed) && GoodClient(s.clients[p.addr]);
      DeliverGood(s.clients, p, Processed);
    case _ =>
  }

  lemma ServerTidy(s: State, ok: bool)
    requires Inv(s)
    ensures Tidy(ServerStep(s, ok))
  {
    ServedClientsGood(s, ok);
    var t := ServerStep(s, ok);
    assert AllCurrent(s.clients, t.socket) && AllCurrent(s.clients, t.requests) && AllAnswered(s.clients, t.replies);
    assert GoodServer(s.clients, t.server);
    forall i | 0 <= i < |t.services| ensures GoodService(t.clients, t.services[i]) {
      assert GoodService(s.clients, s.services[i]);
    }
  }

  lemma ServiceTidy(s: State, i: nat, ok: bool)
    requires Tidy(s) && i < |s.services|
    ensures Tidy(ServiceStep(s, i, ok))
  {
    assert GoodService(s.clients, s.services[i]);
  }

  lemma NotAnEcho(x: Client, inbox: seq<Packet>)
    requires inbox != [] && forall j :: 0 <= j < |inbox| ==> GoodInbox(x, inbox[j], false)
    ensures inbox[0].kind != Asked
  {
    assert GoodInbox(x, inbox[0], false);
  }

  /** A client in the middle of a request keeps its id and its message until the last reply. */
  lemma ClientGood(x: Client, c: nat, typed: string, ok: bool, echo: bool)
    requires GoodClient(x)
    requires var y := ClientAfter(x, c, typed, ok, echo);
             y.wait == 0 ==> forall j :: 0 <= j < |y.inbox| ==> y.inbox[j].kind == Asked
    requires var y := ClientAfter(x, c, typed, ok, echo);
             y.wait == y.plain + y.processed && y.plain <= 1 && y.processed <= 1
    ensures var y := ClientAfter(x, c, typed, ok, echo);
            && GoodClient(y)
            && (y.wait > 0 && x.wait > 0 ==> y.mid == x.mid && y.message == x.message)
            && (y.mid != x.mid || y.message != x.message ==> x.wait == 0 || y.wait == 0)
  {
    if !x.stopped && x.wait > 0 && x.inbox != [] {
      assert GoodInbox(x, x.inbox[0], true);
      ReplyIdMatches(x.mid);
      var y := ClientAfter(x, c, typed, ok, echo);
      forall j | 0 <= j < |y.inbox| ensures GoodInbox(x, y.inbox[j], false) {
        assert GoodInbox(x, x.inbox[j + 1], false);
      }
      if y.inbox != [] {
        NotAnEcho(x, y.inbox);
      }
    }
  }

  /** A counted packet pays off one outstanding reply of its kind. */
  lemma ClientCounts(x: Client, c: nat, typed: string, ok: bool, echo: bool)
    requires GoodClient(x)
    requires Sum(x.inbox, OfKind(Plain)) <= x.plain && Sum(x.inbox, OfKind(Processed)) <= x.processed
    ensures var y := ClientAfter(x, c, typed, ok, echo);
            y.wait == y.plain + y.processed && y.plain <= 1 && y.processed <= 1
  {
    if x.inbox != [] {
      assert GoodInbox(x, x.inbox[0], true);
      ReplyIdMatches(x.mid);
      SumPart(x.inbox, 0, OfKind(Plain));
      SumPart(x.inbox, 0, OfKind(Processed));
    }
  }

  predicate Keeps(x: Client, y: Client) {
    y.mid == x.mid && y.message == x.message
  }

  /** Replacing a client that nothing is under way for, or that keeps its request, upsets nobody. */
  lemma PacketsStayGood(clients: seq<Client>, c: nat, y: Client, ps: seq<Packet>)
    requires c < |clients| && (Keeps(clients[c], y) || Avoids(ps, c))
    ensures AllCurrent(clients, ps) ==> AllCurrent(clients[c := y], ps)
    ensures AllAnswered(clients, ps) ==> AllAnswered(clients[c := y], ps)
  {
  }

  lemma WorkersStayGood(clients: seq<Client>, c: nat, y: Client, server: Server, services: seq<Service>)
    requires c < |clients| && (Keeps(clients[c], y) || (NoneWorks(services, c) && !Holds(server, c)))
    requires GoodServer(clients, server) && AllBusyRight(clients, services)
    ensures GoodServer(clients[c := y], server) && AllBusyRight(clients[c := y], services)
  {
    forall i | 0 <= i < |services| ensures GoodService(clients[c := y], services[i]) {
      assert GoodService(clients, services[i]);
    }
  }

  /** A client changes its id or its message only when nothing of its own is under way. */
  lemma ClientChangesAlone(s: State, c: nat, typed: string, ok: bool, echo: bool)
    requires c < |s.clients| && GoodClient(s.clients[c]) && Balanced(s, c, Plain) && Balanced(s, c, Processed)
    requires var t := ClientStep(s, c, typed, ok, echo);
             Balanced(t, c, Plain) && Balanced(t, c, Processed)
    ensures var y := ClientAfter(s.clients[c], c, typed, ok, echo);
            GoodClient(y) && (Keeps(s.clients[c], y) || Absent(s, c))
  {
    var t := ClientStep(s, c, typed, ok, echo);
    var x, y := s.clients[c], ClientAfter(s.clients[c], c, typed, ok, echo);
    ClientCounts(x, c, typed, ok, echo);
    if x.wait == 0 {
      NothingUnderWay(s, c);
    }
    if y.wait == 0 {
      NothingUnderWay(t, c);
    }
    ClientGood(x, c, typed, ok, echo);
  }

  lemma ClientTidy(s: State, c: nat, typed: string, ok: bool, echo: bool)
    requires Tidy(s) && c < |s.clients| && Balanced(s, c, Plain) && Balanced(s, c, Processed)
    requires Balanced(ClientStep(s, c, typed, ok, echo), c, Plain)
    requires Balanced(ClientStep(s, c, typed, ok, echo), c, Processed)
    ensures Tidy(ClientStep(s, c, typed, ok, echo))
  {
    var x, y := s.clients[c], ClientAfter(s.clients[c], c, typed, ok, echo);
    ClientChangesAlone(s, c, typed, ok, echo);
    PacketsStayGood(s.clients, c, y, s.socket);
    PacketsStayGood(s.clients, c, y, s.requests);
    PacketsStayGood(s.clients, c, y, s.replies);
    WorkersStayGood(s.clients, c, y, s.server, s.services);
    assert Requests(x, typed, ok) ==> Current(s.clients[c := y], Request(c, x.mid, typed));
  }

  // ---------------------------------------------------------------------------------------------
  // Every run
  // ---------------------------------------------------------------------------------------------

  lemma ServerInv(s: State, ok: bool)
    requires Inv(s)
    ensures Inv(ServerStep(s, ok)) && |ServerStep(s, ok).clients| == |s.clients|
  {
    ServerTidy(s, ok);
    InboxSizes(s.clients, s.server, ok);
    forall c, kind | 0 <= c < |s.clients| && kind != Asked ensures Balanced(ServerStep(s, ok), c, kind) {
      ServerBalanced(s, ok, c, kind);
    }
  }

  lemma InboxSizes(clients: seq<Client>, server: Server, ok: bool)
    ensures |ClientsServed(clients, server, ok)| == |clients|
  {
  }

  lemma ServiceInv(s: State, i: nat, ok: bool)
    requires Inv(s) && i < |s.services|
    ensures Inv(ServiceStep(s, i, ok)) && |ServiceStep(s, i, ok).clients| == |s.clients|
  {
    ServiceTidy(s, i, ok);
    forall c, kind | 0 <= c < |s.clients| && kind != Asked ensures Balanced(ServiceStep(s, i, ok), c, kind) {
      ServiceBalanced(s, i, ok, c, kind);
    }
  }

  lemma ClientInv(s: State, c: nat, typed: string, ok: bool, echo: bool)
    requires Inv(s) && c < |s.clients|
    ensures Inv(ClientStep(s, c, typed, ok, echo)) && |ClientStep(s, c, typed, ok, echo).clients| == |s.clients|
  {
    forall d, kind | 0 <= d < |s.clients| && kind != Asked
      ensures Balanced(ClientStep(s, c, typed, ok, echo), d, kind) {
      assert GoodClient(s.clients[c]);
      ClientBalanced(s, c, typed, ok, echo, d, kind);
    }
    ClientTidy(s, c, typed, ok, echo);
  }

  lemma InitBalanced(s: State, c: nat, kind: Kind)
    requires Init(s) && c < |s.clients|
    ensures Balanced(s, c, kind)
  {
    SumZero(s.services, Working(c));
  }

  lemma InitInv(s: State)
    requires Init(s)
    ensures Inv(s)
  {
    forall c, kind | 0 <= c < |s.clients| && kind != Asked ensures Balanced(s, c, kind) {
      InitBalanced(s, c, kind);
    }
  }

  lemma StepInv(s: State, a: Action)
    requires Inv(s)
    ensures Inv(Step(s, a)) && |Step(s, a).clients| == |s.clients|
  {
    match a
    case Serve(ok) => ServerInv(s, ok);
    case Work(i, ok) => if i < |s.services| { ServiceInv(s, i, ok); }
    case Act(c, typed, ok, echo) => if c < |s.clients| { ClientInv(s, c, typed, ok, echo); }
  }

  lemma {:induction false} ExecInv(s: State, schedule: seq<Action>)
    requires Init(s)
    ensures Inv(Exec(s, schedule)) && |Exec(s, schedule).clients| == |s.clients|
    decreases |schedule|
  {
    if schedule == [] {
      InitInv(s);
    } else {
      ExecInv(s, schedule[..|schedule| - 1]);
      StepInv(Exec(s, schedule[..|schedule| - 1]), schedule[|schedule| - 1]);
    }
  }

  /** What every run keeps, for one client. */
  lemma ExecAccount(s0: State, schedule: seq<Action>, c: nat)
    requires Init(s0) && c < |s0.clients|
    ensures var s := Exec(s0, schedule);
            c < |s.clients| && GoodClient(s.clients[c]) && Balanced(s, c, Plain) && Balanced(s, c, Processed)
  {
    ExecInv(s0, schedule);
  }

  lemma AccountsAddUp(s: State, c: nat)
    requires c < |s.clients| && GoodClient(s.clients[c]) && Balanced(s, c, Plain) && Balanced(s, c, Processed)
    ensures s.clients[c].wait == Owed(s, c, Plain) + Owed(s, c, Processed) + s.lost[(c, Plain)] + s.lost[(c, Processed)]
    ensures Owed(s, c, Plain) <= 1 && Owed(s, c, Processed) <= 1
    ensures s.clients[c].received + s.clients[c].wait == 2 * s.clients[c].sent
  {
  }

  /** The wait counter is the number of replies still to come, of each kind at most one, wherever they
      are, and of replies that a failed send made impossible; two replies are counted for each request. */
  lemma WaitCountsReplies(s0: State, schedule: seq<Action>, c: nat)
    requires Init(s0) && c < |s0.clients|
    ensures var s := Exec(s0, schedule);
            && c < |s.clients|
            && s.clients[c].wait
               == Owed(s, c, Plain) + Owed(s, c, Processed) + s.lost[(c, Plain)] + s.lost[(c, Processed)]
            && Owed(s, c, Plain) <= 1 && Owed(s, c, Processed) <= 1
            && s.clients[c].received + s.clients[c].wait == 2 * s.clients[c].sent
  {
    ExecAccount(s0, schedule, c);
    AccountsAddUp(Exec(s0, schedule), c);
  }

  predicate Succeeds(a: Action) {
    a.ok
  }

  lemma StepLosesNothing(s: State, a: Action)
    requires Succeeds(a) && s.lost == multiset{}
    ensures Step(s, a).lost == multiset{}
  {
  }

  /** Without failing sends nothing is lost, so that a waiting client always has a reply on its way. */
  lemma {:induction false} NothingLostWithoutFailures(s0: State, schedule: seq<Action>)
    requires Init(s0) && forall a :: a in schedule ==> Succeeds(a)
    ensures Exec(s0, schedule).lost == multiset{}
    decreases |schedule|
  {
    if schedule == [] {
    } else {
      var before := schedule[..|schedule| - 1];
      assert forall a :: a in before ==> a in schedule;
      NothingLostWithoutFailures(s0, before);
      StepLosesNothing(Exec(s0, before), schedule[|schedule| - 1]);
    }
  }

  // ---------------------------------------------------------------------------------------------
  // Failed sends
  // ---------------------------------------------------------------------------------------------

  /** A send that would have brought client `c` closer to its replies fails. */
  predicate FailsFor(s: State, a: Action, c: nat) {
    match a
    case Serve(ok) => !ok && Holds(s.server, c)
    case Work(i, ok) => !ok && i < |s.services| && s.services[i].Busy? && s.services[i].p.addr == c
    case Act(_, _, _, _) => false
  }

  function FailedSends(s0: State, schedule: seq<Action>, c: nat): nat
    decreases |schedule|
  {
    if schedule == [] then 0
    else
      var before, a := schedule[..|schedule| - 1], schedule[|schedule| - 1];
      FailedSends(s0, before, c) + if FailsFor(Exec(s0, before), a, c) then 1 else 0
  }

  function Loss(s: State, c: nat): nat {
    s.lost[(c, Plain)] + s.lost[(c, Processed)]
  }

  lemma StepLoss(s: State, a: Action, c: nat)
    ensures if FailsFor(s, a, c) then Loss(Step(s, a), c) > Loss(s, c) else Loss(Step(s, a), c) == Loss(s, c)
  {
  }

  /** Replies to a client are lost exactly in failed sends for it, and for good. */
  lemma {:induction false} LostInFailedSends(s0: State, schedule: seq<Action>, c: nat)
    requires Init(s0)
    ensures Loss(Exec(s0, schedule), c) > 0 <==> FailedSends(s0, schedule, c) > 0
    ensures FailedSends(s0, schedule, c) <= Loss(Exec(s0, schedule), c)
    decreases |schedule|
  {
    if schedule == [] {
    } else {
      LostInFailedSends(s0, schedule[..|schedule| - 1], c);
      StepLoss(Exec(s0, schedule[..|schedule| - 1]), schedule[|schedule| - 1], c);
    }
  }

  lemma {:induction false} LossNeverShrinks(s: State, schedule: seq<Action>, c: nat)
    ensures Loss(s, c) <= Loss(Exec(s, schedule), c)
    decreases |schedule|
  {
    if schedule == [] {
    } else {
      LossNeverShrinks(s, schedule[..|schedule| - 1], c);
      StepLoss(Exec(s, schedule[..|schedule| - 1]), schedule[|schedule| - 1], c);
    }
  }

  /** Once nothing of a client is under way, the client still waits if and only if a send for it failed, and
      for as many replies as were lost. */
  lemma WaitsInVainIffLost(s0: State, schedule: seq<Action>, c: nat)
    requires Init(s0) && c < |s0.clients|
    ensures var s := Exec(s0, schedule);
            && c < |s.clients|
            && (Absent(s, c) && s.clients[c].inbox == [] ==>
                  s.clients[c].wait == Loss(s, c) && (s.clients[c].wait > 0 <==> FailedSends(s0, schedule, c) > 0))
  {
    ExecAccount(s0, schedule, c);
    LostInFailedSends(s0, schedule, c);
    var s := Exec(s0, schedule);
    if Absent(s, c) && s.clients[c].inbox == [] {
      AccountsAddUp(s, c);
      AbsentOwesNothing(s, c);
    }
  }

  lemma ExecThree(s: State, a: Action, b: Action, d: Action, c: nat)
    ensures Exec(s, [a, b, d]) == Step(Step(Step(s, a), b), d)
    ensures FailsFor(Step(Step(s, a), b), d, c) ==> FailedSends(s, [a, b, d], c) > 0
  {
    hide Step, FailsFor;
    var three, two, one := [a, b, d], [a, b], [a];
    assert three[..2] == two && two[..1] == one && one[..0] == [];
    RunOne(Step, s, a);
    assert Exec(s, one) == Step(s, a);
    assert Exec(s, two) == Step(Step(s, a), b);
  }

  lemma QueueRefuses(s0: State)
    requires Init(s0) && s0.clients != []
    ensures var s := Step(Step(s0, Act(0, "x", true, false)), Serve(true));
            && s.server == Enqueue(Request(0, 0, "x")) && s.socket == [] && s.requests == [] && s.replies == []
            && s.services == s0.services && |s.clients| > 0 && s.clients[0].wait == 2 && s.clients[0].inbox == []
  {
    assert Step(s0, Act(0, "x", true, false)).socket == [Request(0, 0, "x")];
  }

  /** The first request of client 0 is received and then refused by the queue: nothing is under way any more,
      and the client waits for two replies. */
  lemma OneRefusalIsEnough(s0: State)
    requires Init(s0) && s0.clients != []
    ensures var schedule := [Act(0, "x", true, false), Serve(true), Serve(false)];
            var s := Exec(s0, schedule);
            && |s.clients| > 0 && s.clients[0].wait == 2
            && Absent(s, 0) && s.clients[0].inbox == [] && FailedSends(s0, schedule, 0) > 0
  {
    hide Exec, FailedSends;
    ExecThree(s0, Act(0, "x", true, false), Serve(true), Serve(false), 0);
    QueueRefuses(s0);
  }

  ghost predicate Waiting(s: State, c: nat) {
    c < |s.clients| && s.clients[c].wait > 0
  }

  /** What the server has in hand, and one for the look at an empty queue that the next message needs. */
  function ServerLoad(s: State): nat {
    match s.server
    case Listen => if s.socket == [] then 1 else 0
    case Enqueue(_) => 10
    case Acknowledge(_) => 3
    case Poll => if s.replies == [] then 1 else 0
    case Answer(_) => 3
  }

  function IsBusy(v: Service): nat {
    if v.Busy? then 1 else 0
  }

  /** Steps that the messages under way still need, those in other clients' buffers aside. */
  function Pending(s: State, c: nat): nat
    requires c < |s.clients|
  {
    12 * |s.socket| + 6 * |s.requests| + 5 * Sum(s.services, IsBusy) + 4 * |s.replies|
      + |s.clients[c].inbox| + ServerLoad(s)
  }

  predicate ServerIdle(s: State) {
    (s.server == Listen || s.server == Poll) && s.socket == [] && s.replies == []
  }

  lemma ServeShrinks(s: State, c: nat)
    requires c < |s.clients| && !ServerIdle(s)
    ensures var t := Step(s, Serve(true)); |t.clients| == |s.clients| && Pending(t, c) < Pending(s, c)
  {
  }

  lemma WorkShrinks(s: State, i: nat, c: nat)
    requires c < |s.clients| && i < |s.services| && (s.services[i].Busy? || s.requests != [])
    ensures var t := Step(s, Work(i, true)); |t.clients| == |s.clients| && Pending(t, c) < Pending(s, c)
  {
    hide Sum;
    var t := Step(s, Work(i, true));
    SumUpdate(s.services, i, t.services[i], IsBusy);
  }

  lemma ActShrinks(s: State, c: nat)
    requires c < |s.clients| && s.clients[c].wait > 0 && !s.clients[c].stopped && s.clients[c].inbox != []
    ensures var t := Step(s, Act(c, "", true, true)); |t.clients| == |s.clients| && Pending(t, c) < Pending(s, c)
  {
  }

  lemma NothingPending(s: State, c: nat)
    requires c < |s.clients| && ServerIdle(s) && s.requests == [] && s.clients[c].inbox == []
    requires forall i :: 0 <= i < |s.services| ==> !s.services[i].Busy?
    requires GoodClient(s.clients[c]) && Balanced(s, c, Plain) && Balanced(s, c, Processed)
    ensures s.clients[c].wait == Loss(s, c)
  {
    AbsentOwesNothing(s, c);
    AccountsAddUp(s, c);
  }

  /** Some step brings a waiting client that lost nothing closer to its replies. */
  lemma NextStep(s: State, c: nat) returns (a: Action)
    requires Inv(s) && Waiting(s, c) && Loss(s, c) == 0 && s.services != []
    ensures Succeeds(a)
    ensures var t := Step(s, a); c < |t.clients| && Pending(t, c) < Pending(s, c)
  {
    var x := s.clients[c];
    assert GoodClient(x) && Balanced(s, c, Plain) && Balanced(s, c, Processed);
    hide Inv, Pending, Step, Balanced;
    if x.inbox != [] {
      a := Act(c, "", true, true);
      ActShrinks(s, c);
    } else if i :| 0 <= i < |s.services| && s.services[i].Busy? {
      a := Work(i, true);
      WorkShrinks(s, i, c);
    } else if s.requests != [] {
      a := Work(0, true);
      WorkShrinks(s, 0, c);
    } else {
      a := Serve(true);
      if ServerIdle(s) {
        NothingPending(s, c);
      }
      ServeShrinks(s, c);
    }
  }

  lemma {:induction false} CanBeServed(s: State, c: nat) returns (rest: seq<Action>)
    requires Inv(s) && c < |s.clients| && Loss(s, c) == 0 && s.services != []
    ensures c < |Exec(s, rest).clients| && !Waiting(Exec(s, rest), c)
    decreases Pending(s, c)
  {
    if !Waiting(s, c) {
      rest := [];
    } else {
      var a := NextStep(s, c);
      StepInv(s, a);
      StepLoss(s, a, c);
      KeepsServices(s, a);
      rest := CanBeServed(Step(s, a), c);
      RunAppend(Step, s, [a], rest);
      RunOne(Step, s, a);
      rest := [a] + rest;
    }
  }

  lemma KeepsServices(s: State, a: Action)
    ensures |Step(s, a).services| == |s.services|
  {
  }

  lemma {:induction false} ExecKeepsServices(s: State, schedule: seq<Action>)
    ensures |Exec(s, schedule).services| == |s.services|
    decreases |schedule|
  {
    if schedule == [] {
    } else {
      ExecKeepsServices(s, schedule[..|schedule| - 1]);
      KeepsServices(Exec(s, schedule[..|schedule| - 1]), schedule[|schedule| - 1]);
    }
  }

  /** With at least one service: a client waits for ever, whatever happens next, if and only if a send for it
      has failed.  Otherwise some continuation serves it. */
  lemma WaitsForEverIffSendFailed(s0: State, schedule: seq<Action>, c: nat)
    requires Init(s0) && c < |s0.clients| && s0.services != []
    ensures (forall rest :: Waiting(Exec(s0, schedule + rest), c)) <==> FailedSends(s0, schedule, c) > 0
  {
    LostInFailedSends(s0, schedule, c);
    var s := Exec(s0, schedule);
    if FailedSends(s0, schedule, c) > 0 {
      forall rest ensures Waiting(Exec(s0, schedule + rest), c) {
        RunAppend(Step, s0, schedule, rest);
        LossNeverShrinks(s, rest, c);
        ExecAccount(s0, schedule + rest, c);
        AccountsAddUp(Exec(s0, schedule + rest), c);
      }
    } else {
      ExecInv(s0, schedule);
      ExecKeepsServices(s0, schedule);
      var rest := CanBeServed(s, c);
      RunAppend(Step, s0, schedule, rest);
      assert !Waiting(Exec(s0, schedule + rest), c);
    }
  }

  lemma AbsentOwesNothing(s: State, c: nat)
    requires c < |s.clients| && Absent(s, c) && s.clients[c].inbox == []
    ensures Owed(s, c, Plain) == 0 && Owed(s, c, Processed) == 0
  {
    SumZero(s.socket, From(c));
    SumZero(s.requests, From(c));
    SumZero(s.replies, From(c));
    SumZero(s.services, Working(c));
  }

  /** When a client may send its next request, nothing of the earlier ones is left anywhere, whatever
      failed before. */
  lemma NoStaleReplies(s0: State, schedule: seq<Action>, c: nat)
    requires Init(s0) && c < |s0.clients|
    ensures var s := Exec(s0, schedule);
            c < |s.clients| && (s.clients[c].wait == 0 ==> Absent(s, c) && s.clients[c].inbox == [])
  {
    ExecAccount(s0, schedule, c);
    if Exec(s0, schedule).clients[c].wait == 0 {
      NothingUnderWay(Exec(s0, schedule), c);
    }
  }

  /** A client counts the next packet exactly if it is a reply, not its own echo, and the reply carries the
      message of the current request, as it was or as a service made it. */
  predicate CountsOnlyReplies(x: Client) {
    x.inbox != [] ==>
      var p := x.inbox[0];
      && (p.id == U16(x.mid + 1) <==> p.kind != Asked)
      && (p.kind == Plain ==> p.data == x.message)
      && (p.kind == Processed ==> IsMarked(x.message, p.data))
  }

  lemma FrontOfInbox(x: Client)
    requires GoodClient(x)
    ensures CountsOnlyReplies(x)
  {
    if x.inbox != [] {
      ReplyIdMatches(x.mid);
      ProcessMarks(x.message);
      assert GoodInbox(x, x.inbox[0], true);
    }
  }

  lemma CountsExactlyTheReplies(s0: State, schedule: seq<Action>, c: nat)
    requires Init(s0) && c < |s0.clients|
    ensures c < |Exec(s0, schedule).clients| && CountsOnlyReplies(Exec(s0, schedule).clients[c])
  {
    ExecAccount(s0, schedule, c);
    FrontOfInbox(Exec(s0, schedule).clients[c]);
  }

  // ---------------------------------------------------------------------------------------------
  // Which ids the requests carry
  // ---------------------------------------------------------------------------------------------

  /** Requests that have been answered twice. */
  function Finished(x: Client): int {
    x.sent - if x.wait > 0 then 1 else 0
  }

  /** `v` is `n` in a signed char. */
  predicate CharOf(n: int, v: int) {
    -128 <= v <= 127 && (n - v) % 256 == 0
  }

  /** `id` is `n` in a signed char that is then widened to an unsigned short. */
  predicate IdOf(n: int, id: int) {
    0 <= id < 0x1_0000 && (CharOf(n, id) || CharOf(n, id - 0x1_0000))
  }

  lemma NextChar(n: int, v: int)
    requires CharOf(n, v)
    ensures CharOf(n + 1, C8(v + 1))
  {
  }

  lemma ServedIds(clients: seq<Client>, server: Server, ok: bool, c: nat)
    requires c < |clients|
    ensures var after := ClientsServed(clients, server, ok);
            |after| == |clients| && after[c].mid == clients[c].mid && Finished(after[c]) == Finished(clients[c])
  {
  }

  lemma TurnNumbers(x: Client, c: nat, typed: string, ok: bool, echo: bool)
    requires CharOf(Finished(x), x.mid)
    ensures var y := ClientAfter(x, c, typed, ok, echo); CharOf(Finished(y), y.mid)
  {
    hide CharOf, C8, U16;
    NextChar(Finished(x), x.mid);
  }

  /** In every run a client's id is the number of its finished requests, in a signed char. */
  lemma {:induction false} IdCountsRequests(s0: State, schedule: seq<Action>, c: nat)
    requires Init(s0) && c < |s0.clients|
    ensures var s := Exec(s0, schedule); c < |s.clients| && CharOf(Finished(s.clients[c]), s.clients[c].mid)
    decreases |schedule|
  {
    if schedule == [] {
    } else {
      var s, a := Exec(s0, schedule[..|schedule| - 1]), schedule[|schedule| - 1];
      IdCountsRequests(s0, schedule[..|schedule| - 1], c);
      hide CharOf;
      match a
      case Serve(ok) => ServedIds(s.clients, s.server, ok, c);
      case Work(_, _) =>
      case Act(d, typed, ok, echo) => if d == c { TurnNumbers(s.clients[c], c, typed, ok, echo); }
    }
  }

  /** A client that is free to send sends what was typed under the next id, waits for two replies, and may see its own
      packet in its raw socket; after `q` or `quit` it never sends again. */
  ghost predicate SendsNext(s: State, t: State, c: nat, typed: string, echo: bool)
    requires c < |s.clients| == |t.clients|
  {
    var x, y, k := s.clients[c], t.clients[c], |s.socket|;
    if x.stopped || x.wait > 0 then y.sent == x.sent && t.socket == s.socket && y.stopped == x.stopped
    else if typed == "q" || typed == "quit" then y == x.(stopped := true) && t.socket == s.socket
    else && y.sent == x.sent + 1 && y.wait == 2 && y.message == typed && !y.stopped
         && |t.socket| == k + 1 && t.socket[..k] == s.socket
         && t.socket[k].addr == c && t.socket[k].data == typed && IdOf(x.sent, t.socket[k].id)
         && y.inbox == if echo then x.inbox + [t.socket[k]] else x.inbox
  }

  lemma TurnSendsNext(s: State, c: nat, typed: string, echo: bool)
    requires c < |s.clients| && CharOf(Finished(s.clients[c]), s.clients[c].mid)
    ensures |Step(s, Act(c, typed, true, echo)).clients| == |s.clients|
    ensures SendsNext(s, Step(s, Act(c, typed, true, echo)), c, typed, echo)
  {
    WidenedId(Finished(s.clients[c]), s.clients[c].mid);
    hide CharOf, IdOf, U16, C8;
  }

  /** In every run request number `n` of a client, counted from 0, carries its text and the id `n`. */
  lemma RequestsAreNumbered(s0: State, schedule: seq<Action>, c: nat, typed: string, echo: bool)
    requires Init(s0) && c < |s0.clients|
    ensures var s, t := Exec(s0, schedule), Exec(s0, schedule + [Act(c, typed, true, echo)]);
            c < |s.clients| == |t.clients| && SendsNext(s, t, c, typed, echo)
  {
    var a := Act(c, typed, true, echo);
    RunAppend(Step, s0, schedule, [a]);
    RunOne(Step, Exec(s0, schedule), a);
    IdCountsRequests(s0, schedule, c);
    hide Step, SendsNext;
    TurnSendsNext(Exec(s0, schedule), c, typed, echo);
  }

  lemma WidenedId(n: int, v: int)
    requires CharOf(n, v)
    ensures IdOf(n, U16(v))
  {
  }

  lemma SameCharEvery256(m: int, n: int, v: int, w: int)
    requires CharOf(m, v) && CharOf(n, w)
    ensures v == w <==> (m - n) % 256 == 0
  {
    var i, j := (m - v) / 256, (n - w) / 256;
    assert m - n == 256 * (i - j) + (v - w);
  }

  /** Two requests carry the same id exactly if their numbers differ by a multiple of 256; two in a row never do. */
  lemma SameIdEvery256(m: int, n: int, a: int, b: int)
    requires IdOf(m, a) && IdOf(n, b)
    ensures a == b <==> (m - n) % 256 == 0
    ensures n == m + 1 ==> a != b
  {
    var v, w := if CharOf(m, a) then a else a - 0x1_0000, if CharOf(n, b) then b else b - 0x1_0000;
    SameCharEvery256(m, n, v, w);
    assert -1 % 256 == 255;
  }

  // ---------------------------------------------------------------------------------------------
  // The program, in place
  // ---------------------------------------------------------------------------------------------

  /** The server's socket, the two queues and the processes. */
  class System {
    var socket: seq<Packet>
    var requests: seq<Packet>
    var replies: seq<Packet>
    var server: Server
    var services: seq<Service>
    var clients: seq<Client>
    ghost var lost: multiset<(nat, Kind)>

    ghost function Model(): State
      reads this
    {
      State(socket, requests, replies, server, services, clients, lost)
    }

    ghost predicate Valid()
      reads this
    {
      Inv(Model())
    }

    constructor (serviceCount: nat, clientCount: nat)
      ensures Valid() && Init(Model()) && |services| == serviceCount && |clients| == clientCount
    {
      socket, requests, replies, server, lost := [], [], [], Listen, multiset{};
      services := seq(serviceCount, _ => Idle);
      clients := seq(clientCount, _ => Client.Client(0, 0, "", [], false, 0, 0, 0, 0));
      new;
      InitInv(Model());
    }

    /** The server looks for a datagram. */
    method ReceiveDatagram()
      requires Valid() && server == Listen
      modifies this`server, this`socket
      ensures Valid() && Model() == ServerStep(old(Model()), true)
    {
      hide Inv;
      ServerInv(Model(), true);
      assert lost + multiset{} == lost;
      if socket == [] {
        server := Poll;
      } else {
        server, socket := Enqueue(socket[0]), socket[1..];
      }
    }

    /** The server puts the datagram in the request queue; `ok` is the outcome. */
    method QueueRequest(ok: bool)
      requires Valid() && server.Enqueue?
      modifies this`server, this`requests, this`lost
      ensures Valid() && Model() == ServerStep(old(Model()), ok)
    {
      hide Inv;
      ServerInv(Model(), ok);
      assert lost + multiset{} == lost;
      var p := server.p;
      if ok {
        requests, server := requests + [p], Acknowledge(p);
      } else {
        server, lost := Poll, lost + multiset{(p.addr, Plain), (p.addr, Processed)};
      }
    }

    /** The server sends the plain reply. */
    method SendPlainReply(ok: bool)
      requires Valid() && server.Acknowledge?
      modifies this`server, this`clients, this`lost
      ensures Valid() && Model() == ServerStep(old(Model()), ok)
    {
      hide Inv;
      ServerInv(Model(), ok);
      assert lost + multiset{} == lost;
      SendReply(server.p, Plain, ok);
      server := Poll;
    }

    /** The server looks for a processed message. */
    method ReceiveProcessed()
      requires Valid() && server == Poll
      modifies this`server, this`replies
      ensures Valid() && Model() == ServerStep(old(Model()), true)
    {
      hide Inv;
      ServerInv(Model(), true);
      assert lost + multiset{} == lost;
      if replies == [] {
        server := Listen;
      } else {
        server, replies := Answer(replies[0]), replies[1..];
      }
    }

    /** The server sends the processed reply. */
    method SendProcessedReply(ok: bool)
      requires Valid() && server.Answer?
      modifies this`server, this`clients, this`lost
      ensures Valid() && Model() == ServerStep(old(Model()), ok)
    {
      hide Inv;
      ServerInv(Model(), ok);
      assert lost + multiset{} == lost;
      SendReply(server.p, Processed, ok);
      server := Listen;
    }

    /** `send_message_reply`: the id plus one, as an unsigned short. */
    method SendReply(p: Packet, kind: Kind, ok: bool)
      modifies this`clients, this`lost
      ensures clients == if ok then Deliver(old(clients), p, kind) else old(clients)
      ensures lost == if ok then old(lost) else old(lost) + multiset{(p.addr, kind)}
    {
      if !ok {
        lost := lost + multiset{(p.addr, kind)};
      } else if p.addr < |clients| {
        var x := clients[p.addr];
        clients := clients[p.addr := x.(inbox := x.inbox + [Packet(p.addr, U16(p.id + 1), p.data, kind)])];
      }
    }

    /** One statement of a service's loop. */
    method ServiceTurn(i: nat, ok: bool)
      requires Valid() && i < |services|
      modifies this`services, this`requests, this`replies, this`lost
      ensures Valid() && Model() == ServiceStep(old(Model()), i, ok)
    {
      hide Inv;
      ServiceInv(Model(), i, ok);
      match services[i] {
        case Idle =>
          if requests != [] {
            services, requests := services[i := Busy(requests[0])], requests[1..];
          }
        case Busy(p) =>
          if ok {
            replies := replies + [p.(data := Process(p.data))];
          } else {
            lost := lost + multiset{(p.addr, Processed)};
          }
          services := services[i := Idle];
      }
    }

    /** A client that waits for nothing sends a line. */
    method ClientSends(c: nat, typed: string, ok: bool, echo: bool)
      requires Valid() && c < |clients| && !clients[c].stopped && clients[c].wait == 0
      modifies this`clients, this`socket
      ensures Valid() && Model() == ClientStep(old(Model()), c, typed, ok, echo)
    {
      hide Inv;
      ClientInv(Model(), c, typed, ok, echo);
      var x := clients[c];
      if Quits(typed) {
        x := x.(stopped := true);
      } else if ok {
        var p := Request(c, x.mid, typed);
        socket := socket + [p];
        x := x.(wait := 2, message := typed, plain := 1, processed := 1, sent := x.sent + 1,
                inbox := if echo then x.inbox + [p] else x.inbox);
      }
      clients := clients[c := x];
    }

    /** A client that waits takes a packet, if there is one, and counts it if its id is the expected one. */
    method ClientReceives(c: nat)
      requires Valid() && c < |clients| && clients[c].wait > 0
      modifies this`clients
      ensures Valid() && Model() == ClientStep(old(Model()), c, "", true, true)
    {
      assert GoodClient(clients[c]);
      hide Inv;
      ClientInv(Model(), c, "", true, true);
      var x := Counted(clients[c], c);
      clients := clients[c := x];
    }

    static method Counted(before: Client, c: nat) returns (x: Client)
      requires GoodClient(before) && before.wait > 0
      ensures x == ClientAfter(before, c, "", true, true)
    {
      x := before;
      if x.inbox != [] {
        var p := x.inbox[0];
        x := x.(inbox := x.inbox[1..]);
        if p.id == U16(x.mid + 1) {
          x := x.(wait := x.wait - 1, received := x.received + 1,
                  plain := if p.kind == Plain && x.plain > 0 then x.plain - 1 else x.plain,
                  processed := if p.kind == Processed && x.processed > 0 then x.processed - 1 else x.processed);
          if x.wait == 0 {
            ReplyIdMatches(x.mid);
            x := x.(mid := C8(x.mid + 1));
            if x.mid == 0xFFFF {
              x := x.(mid := 0);
            }
          }
        }
      }
    }
  }
}
