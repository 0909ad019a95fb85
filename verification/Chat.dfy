/** The chat of 39_message_queue/mq_chats/task1.c and 40_semaphore/sph_chats/task2.c.  Both programs run the
    same server and clients; they differ in what carries the messages:
      - a System V queue (`fifo`), which hands out the first message of the asked type and may refuse one;
      - slots in shared memory (`lossless`), which hand out any message of the asked type and refuse none; which
        one that is and when a write finds no room is what `SlotChat` adds.
    Every single send or receive is one atomic step, so that clients run between any two of the server's. */
module Chat {
  import opened Counting
  import opened Filtering
  import opened Numerals
  import opened Runs

  const ID_REQUEST := 1
  const ID_SET := 2
  const POST_REQUEST := 3
  const OUT_CHAT := 4
  const MAGIC_NUMBER := 5

  const SERVER_NAME := "MAIN QUESTION ANSWER IS 42"

  datatype Kind = Said | Left | Joined

  /** `tag` is history: the process that wrote a post, or the place in the relay log of a copied post. */
  datatype Message = Message(mtype: int, kind: Kind, name: string, id: int, text: string, tag: int)

  /** The server's place in its loop; `next` is the index of the `for` loop that it is in. */
  datatype Server = Command | Register | Assign(name: string) | Approve(id: nat, name: string)
                  | Announce(next: nat, id: nat, name: string)
                  | Collect | Relay(next: nat, post: Message)
                  | Dismiss | Release(freed: int, text: string) | Farewell(next: nat, text: string)
                  | Closing(next: nat) | Closed

  datatype ClientPc = Entry | Drain | Input | Leaving | Gone | Ejected

  /** `said` (history) are the posts that it sent, `shown` the posts that it displayed. */
  datatype Client = Client(pc: ClientPc, name: string, id: int, waiting: bool, said: seq<string>, shown: seq<Message>)

  datatype History = History(
    posted: seq<Message>,           // posts in sending order
    log: seq<Message>,              // posts in the order in which the server took them
    recipients: seq<set<nat>>,      // for each of them, the ids to relay it to
    arrived: seq<seq<Message>>,     // for each id, the copies taken by its holders
    lost: multiset<nat>,            // ids in messages that were refused
    dropped: multiset<(int, nat)>,  // copies (place in the log, id) that were refused
    turnedAway: nat)                // registration requests that were taken but got no id

  datatype State = State(
    fifo: bool, lossless: bool,
    box: seq<Message>,              // messages under way, oldest first
    taken: seq<bool>, server: Server, lastName: string,
    clients: seq<Client>,
    past: History)

  /** Which message of the asked type a receive gets. */
  datatype Pick = Nothing | At(index: nat)

  datatype Typed = Silence | Quit | Text(text: string)

  /** One step and what the environment decides about it: the message received, whether a send succeeds,
      the keyboard, the interrupt flag and the bytes of an uninitialised buffer. */
  datatype Action = Serve(pick: Pick, ok: bool, quit: bool, garbage: string)
                  | Act(client: nat, pick: Pick, ok: bool, stop: bool, typed: Typed)

  // ---------------------------------------------------------------------------------------------
  // Messages
  // ---------------------------------------------------------------------------------------------

  function SetAddressee(id: int): int {
    MAGIC_NUMBER + id
  }

  /** The server's own id, for a pool of `k` ids. */
  function ServerId(k: nat): int {
    k + 41
  }

  function IdSet(k: nat, id: nat): Message {
    Message(ID_SET, Said, SERVER_NAME, ServerId(k), Decimal(id), 0)
  }

  function CopyTo(k: nat, id: nat, post: Message, place: int): Message {
    Message(SetAddressee(id), Said, post.name, ServerId(k), post.text, place)
  }

  function Notice(k: nat, id: nat, kind: Kind, name: string, text: string): Message {
    Message(SetAddressee(id), kind, name, ServerId(k), text, 0)
  }

  /** What a statement does to the messages under way. */
  datatype Op = Blocked | Keep | Put(m: Message) | Refused(m: Message) | Get(index: nat, m: Message)

  function Apply(box: seq<Message>, op: Op): seq<Message> {
    match op
    case Put(m) => box + [m]
    case Get(k, _) => Without(box, k)
    case _ => box
  }

  /** A receive gets no message only if there is none of the type, and from a queue only the first. */
  predicate Available(box: seq<Message>, fifo: bool, mtype: int, pick: Pick) {
    match pick
    case Nothing => forall k :: 0 <= k < |box| ==> box[k].mtype != mtype
    case At(k) => k < |box| && box[k].mtype == mtype
                  && (fifo ==> forall j :: 0 <= j < k ==> box[j].mtype != mtype)
  }

  function Receive(box: seq<Message>, fifo: bool, mtype: int, pick: Pick): (op: Op)
    ensures op.Get? ==> op.index < |box| && op.m == box[op.index] && op.m.mtype == mtype
    ensures op.Get? && fifo ==> forall j :: 0 <= j < op.index ==> box[j].mtype != mtype
    ensures op.Keep? ==> forall k :: 0 <= k < |box| ==> box[k].mtype != mtype
    ensures op.Get? || op.Keep? || op.Blocked?
  {
    if !Available(box, fifo, mtype, pick) then Blocked
    else if pick == Nothing then Keep
    else Get(pick.index, box[pick.index])
  }

  function Send(m: Message, ok: bool): Op {
    if ok then Put(m) else Refused(m)
  }

  // ---------------------------------------------------------------------------------------------
  // The server
  // ---------------------------------------------------------------------------------------------

  function FirstFree(taken: seq<bool>): (i: nat)
    ensures i <= |taken|
    ensures i < |taken| ==> !taken[i]
    ensures forall j :: 0 <= j < i ==> taken[j]
  {
    if taken == [] || !taken[0] then 0 else 1 + FirstFree(taken[1..])
  }

  /** The ids that a post goes to: every taken one but the sender's. */
  function Recipients(taken: seq<bool>, sender: int): set<nat> {
    set x: nat | x < |taken| && taken[x] && sender != x
  }

  function ServerOp(s: State, pick: Pick, ok: bool): Op {
    var k := |s.taken|;
    match s.server
    case Register => Receive(s.box, s.fifo, ID_REQUEST, pick)
    case Approve(id, _) => Send(IdSet(k, id), ok)
    case Announce(j, id, name) =>
      if j < k && j != id && s.taken[j] then Send(Notice(k, j, Joined, SERVER_NAME, name), ok) else Keep
    case Collect => Receive(s.box, s.fifo, POST_REQUEST, pick)
    case Relay(i, m) =>
      if i < k && m.id != i && s.taken[i] then Send(CopyTo(k, i, m, |s.past.log| - 1), ok) else Keep
    case Dismiss => Receive(s.box, s.fifo, OUT_CHAT, pick)
    case Farewell(i, text) => if i < k && s.taken[i] then Send(Notice(k, i, Left, s.lastName, text), ok) else Keep
    case Closing(i) => if i < k && s.taken[i] then Send(Notice(k, i, Left, SERVER_NAME, "end job"), ok) else Keep
    case _ => Keep
  }

  function TakenAfter(taken: seq<bool>, server: Server): seq<bool> {
    match server
    case Assign(_) => var i := FirstFree(taken); if i < |taken| then taken[i := true] else taken
    case Release(id, _) => if 0 <= id < |taken| then taken[id := false] else taken
    case _ => taken
  }

  /** Where the server goes: registration, then one post, then one leave, then round again. */
  function ServerAfter(taken: seq<bool>, server: Server, op: Op, quit: bool): Server {
    var k := |taken|;
    match server
    case Command => if quit then Closing(0) else Register
    case Register => if op.Get? then Assign(op.m.name) else Collect
    case Assign(name) => if FirstFree(taken) < k then Approve(FirstFree(taken), name) else Collect
    case Approve(id, name) => if op.Put? then Announce(0, id, name) else Collect
    case Announce(j, id, name) => if j < k then Announce(j + 1, id, name) else Collect
    case Collect => if op.Get? then Relay(0, op.m) else Dismiss
    case Relay(i, m) => if i < k then Relay(i + 1, m) else Dismiss
    case Dismiss => if op.Get? then Release(op.m.id, op.m.text) else Command
    case Release(_, text) => Farewell(0, text)
    case Farewell(i, text) => if i < k then Farewell(i + 1, text) else Command
    case Closing(i) => if i < k then Closing(i + 1) else Closed
    case Closed => Closed
  }

  function ServerPast(past: History, taken: seq<bool>, server: Server, op: Op): History {
    match server
    case Assign(_) => if FirstFree(taken) == |taken| then past.(turnedAway := past.turnedAway + 1) else past
    case Approve(id, _) =>
      if op.Refused? then past.(lost := past.lost + multiset{id}, turnedAway := past.turnedAway + 1) else past
    case Collect =>
      if op.Get? then past.(log := past.log + [op.m], recipients := past.recipients + [Recipients(taken, op.m.id)])
      else past
    case Relay(i, _) =>
      if op.Refused? then past.(dropped := past.dropped + multiset{(|past.log| - 1, i)}) else past
    case _ => past
  }

  /** One statement of the server.  When no post came, the name in its buffer is whatever was there. */
  function ServerStep(s: State, pick: Pick, ok: bool, quit: bool, garbage: string): State {
    var op := ServerOp(s, pick, ok);
    if op == Blocked then s
    else State(s.fifo, s.lossless, Apply(s.box, op),
               TakenAfter(s.taken, s.server),
               ServerAfter(s.taken, s.server, op, quit),
               if s.server != Collect then s.lastName else if op.Get? then op.m.name else garbage,
               s.clients,
               ServerPast(s.past, s.taken, s.server, op))
  }

  // ---------------------------------------------------------------------------------------------
  // The clients
  // ---------------------------------------------------------------------------------------------

  /** An id first; then messages until there is none; then one line of input.  Client `c` leaves with a
      message only if it has an id. */
  function ClientOp(x: Client, c: nat, box: seq<Message>, fifo: bool, pick: Pick, ok: bool, stop: bool,
                    typed: Typed): Op {
    match x.pc
    case Entry =>
      if stop || x.id != -1 then Keep
      else if !x.waiting then Send(Message(ID_REQUEST, Joined, x.name, x.id, x.name, 0), ok)
      else Receive(box, fifo, ID_SET, pick)
    case Drain => if stop then Keep else Receive(box, fifo, SetAddressee(x.id), pick)
    case Input => if typed.Text? then Send(Message(POST_REQUEST, Said, x.name, x.id, typed.text, c), ok) else Keep
    case Leaving => Send(Message(OUT_CHAT, Left, x.name, x.id, x.name, 0), ok)
    case Gone => Keep
    case Ejected => Keep
  }

  /** A farewell in the server's name ends a client at once. */
  function ClientAfter(x: Client, op: Op, stop: bool, typed: Typed): Client {
    match x.pc
    case Entry =>
      if stop then x.(pc := if x.id == -1 then Gone else Leaving)
      else if x.id != -1 then x.(pc := Drain)
      else if !x.waiting then x.(waiting := op.Put?)
      else if op.Get? then x.(id := Atoi(op.m.text), pc := Drain)
      else x
    case Drain =>
      if !op.Get? then x.(pc := Input)
      else if op.m.kind == Said then x.(shown := x.shown + [op.m])
      else if op.m.kind == Left && op.m.name == SERVER_NAME then x.(pc := Ejected)
      else x
    case Input =>
      if typed == Quit then x.(pc := Leaving)
      else if op.Put? then x.(pc := Entry, said := x.said + [op.m.text])
      else x.(pc := Entry)
    case Leaving => x.(pc := Gone)
    case Gone => x
    case Ejected => x
  }

  function ClientPast(past: History, x: Client, op: Op): History {
    match x.pc
    case Drain =>
      if op.Get? && op.m.kind == Said && 0 <= x.id < |past.arrived|
      then past.(arrived := past.arrived[x.id := past.arrived[x.id] + [op.m]])
      else past
    case Input => if op.Put? then past.(posted := past.posted + [op.m]) else past
    case Leaving => if op.Refused? && x.id >= 0 then past.(lost := past.lost + multiset{x.id as nat}) else past
    case _ => past
  }

  /** One statement of client `c`. */
  function ClientStep(s: State, c: nat, pick: Pick, ok: bool, stop: bool, typed: Typed): State
    requires c < |s.clients|
  {
    var x := s.clients[c];
    var op := ClientOp(x, c, s.box, s.fifo, pick, ok, stop, typed);
    if op == Blocked then s
    else State(s.fifo, s.lossless, Apply(s.box, op), s.taken, s.server, s.lastName,
               s.clients[c := ClientAfter(x, op, stop, typed)],
               ClientPast(s.past, x, op))
  }

  /** A lossless transport never refuses. */
  function Step(s: State, a: Action): State {
    if s.lossless && !a.ok then s
    else
      match a
      case Serve(pick, ok, quit, garbage) => ServerStep(s, pick, ok, quit, garbage)
      case Act(c, pick, ok, stop, typed) => if c < |s.clients| then ClientStep(s, c, pick, ok, stop, typed) else s
  }

  function Exec(s: State, schedule: seq<Action>): State {
    Run(Step, s, schedule)
  }

  ghost predicate Init(s: State) {
    && s.box == [] && s.server == Command
    && (forall i :: 0 <= i < |s.taken| ==> !s.taken[i])
    && (forall c :: 0 <= c < |s.clients| ==>
          s.clients[c].pc == Entry && s.clients[c].id == -1 && !s.clients[c].waiting
          && s.clients[c].said == [] && s.clients[c].shown == [])
    && s.past.posted == [] && s.past.log == [] && s.past.recipients == []
    && |s.past.arrived| == |s.taken| && (forall i :: 0 <= i < |s.past.arrived| ==> s.past.arrived[i] == [])
    && s.past.lost == multiset{} && s.past.dropped == multiset{} && s.past.turnedAway == 0
  }

  // ---------------------------------------------------------------------------------------------
  // Shape
  // ---------------------------------------------------------------------------------------------

  /** Every id that a message or a process carries is one of the pool. */
  predicate GoodMessage(k: nat, m: Message) {
    && (m.mtype == ID_SET ==> Atoi(m.text) < k)
    && (m.mtype == OUT_CHAT ==> 0 <= m.id < k)
  }

  predicate GoodClient(k: nat, x: Client) {
    && -1 <= x.id < k
    && (x.pc in {Drain, Input, Leaving, Ejected} ==> x.id >= 0)
    && (x.id == -1 ==> x.shown == [])
  }

  predicate GoodServer(k: nat, v: Server) {
    match v
    case Approve(id, _) => id < k
    case Announce(_, id, _) => id < k
    case Release(id, _) => 0 <= id < k
    case _ => true
  }

  ghost predicate GoodBox(k: nat, box: seq<Message>) {
    forall j :: 0 <= j < |box| ==> GoodMessage(k, box[j])
  }

  ghost predicate GoodClients(k: nat, clients: seq<Client>) {
    forall c :: 0 <= c < |clients| ==> GoodClient(k, clients[c])
  }

  /** While the server relays, the last entry of its log is the post in hand, and no id changes hands. */
  ghost predicate GoodRelay(taken: seq<bool>, server: Server, log: seq<Message>, recipients: seq<set<nat>>) {
    && |recipients| == |log|
    && (server.Relay? ==>
          && |log| > 0 && log[|log| - 1] == server.post
          && recipients[|log| - 1] == Recipients(taken, server.post.id))
  }

  ghost predicate Shape(s: State) {
    && GoodBox(|s.taken|, s.box)
    && GoodClients(|s.taken|, s.clients)
    && GoodServer(|s.taken|, s.server)
    && GoodRelay(s.taken, s.server, s.past.log, s.past.recipients)
    && |s.past.arrived| == |s.taken|
    && (s.lossless ==> s.past.lost == multiset{} && s.past.dropped == multiset{})
  }

  lemma ApplyGood(k: nat, box: seq<Message>, op: Op)
    requires GoodBox(k, box) && (op.Put? ==> GoodMessage(k, op.m))
    ensures GoodBox(k, Apply(box, op))
  {
  }

  lemma ServerOpGood(s: State, pick: Pick, ok: bool)
    requires GoodBox(|s.taken|, s.box) && GoodServer(|s.taken|, s.server)
    ensures var op := ServerOp(s, pick, ok); op.Put? || op.Get? ==> GoodMessage(|s.taken|, op.m)
    ensures s.server.Dismiss? && ServerOp(s, pick, ok).Get? ==> ServerOp(s, pick, ok).m.mtype == OUT_CHAT
    ensures ok ==> !ServerOp(s, pick, ok).Refused?
  {
    if s.server.Approve? {
      AtoiDecimal(s.server.id);
    }
  }

  lemma ServerAfterGood(taken: seq<bool>, server: Server, op: Op, quit: bool)
    requires GoodServer(|taken|, server)
    requires server.Dismiss? && op.Get? ==> GoodMessage(|taken|, op.m) && op.m.mtype == OUT_CHAT
    ensures GoodServer(|taken|, ServerAfter(taken, server, op, quit))
  {
  }

  lemma RelayGood(past: History, taken: seq<bool>, server: Server, op: Op, quit: bool)
    requires GoodRelay(taken, server, past.log, past.recipients)
    ensures var p := ServerPast(past, taken, server, op);
            GoodRelay(TakenAfter(taken, server), ServerAfter(taken, server, op, quit), p.log, p.recipients)
  {
  }

  lemma ServerShape(s: State, pick: Pick, ok: bool, quit: bool, garbage: string)
    requires Shape(s) && (s.lossless ==> ok)
    ensures Shape(ServerStep(s, pick, ok, quit, garbage))
  {
    var op := ServerOp(s, pick, ok);
    ServerOpGood(s, pick, ok);
    ApplyGood(|s.taken|, s.box, op);
    ServerAfterGood(s.taken, s.server, op, quit);
    RelayGood(s.past, s.taken, s.server, op, quit);
    assert |TakenAfter(s.taken, s.server)| == |s.taken|;
    assert ServerPast(s.past, s.taken, s.server, op).arrived == s.past.arrived;
  }

  lemma ClientOpGood(k: nat, x: Client, c: nat, box: seq<Message>, fifo: bool, pick: Pick, ok: bool, stop: bool,
                     typed: Typed)
    requires GoodBox(k, box) && GoodClient(k, x)
    ensures var op := ClientOp(x, c, box, fifo, pick, ok, stop, typed);
            && (op.Put? || op.Get? ==> GoodMessage(k, op.m))
            && (ok ==> !op.Refused?)
            && GoodClient(k, ClientAfter(x, op, stop, typed))
  {
  }

  lemma ClientShape(s: State, c: nat, pick: Pick, ok: bool, stop: bool, typed: Typed)
    requires Shape(s) && (s.lossless ==> ok) && c < |s.clients|
    ensures Shape(ClientStep(s, c, pick, ok, stop, typed))
  {
    ClientOpGood(|s.taken|, s.clients[c], c, s.box, s.fifo, pick, ok, stop, typed);
    ApplyGood(|s.taken|, s.box, ClientOp(s.clients[c], c, s.box, s.fifo, pick, ok, stop, typed));
  }

  // ---------------------------------------------------------------------------------------------
  // An id is in one place
  // ---------------------------------------------------------------------------------------------

  /** A message that carries id `i` between the server and a client. */
  function Carries(i: nat): Message -> nat {
    (m: Message) => if (m.mtype == ID_SET && Atoi(m.text) == i) || (m.mtype == OUT_CHAT && m.id == i) then 1 else 0
  }

  function Holds(i: nat): Client -> nat {
    (c: Client) => if c.id == i && c.pc != Gone then 1 else 0
  }

  /** The server between marking and sending an id, or between receiving and freeing it. */
  function InHand(server: Server, i: nat): nat {
    match server
    case Approve(id, _) => if id == i then 1 else 0
    case Release(id, _) => if id == i then 1 else 0
    case _ => 0
  }

  function Free(taken: seq<bool>, i: nat): nat {
    if i < |taken| && taken[i] then 0 else 1
  }

  /** The number of places that id `i` is in: free, in the server's hands, under way, held, or lost. */
  function Places(s: State, i: nat): nat {
    Free(s.taken, i) + InHand(s.server, i) + Sum(s.box, Carries(i)) + Sum(s.clients, Holds(i)) + s.past.lost[i]
  }

  /** What an operation adds to a weight over the messages under way, and what it takes away. */
  function Gain(op: Op, f: Message -> nat): nat {
    if op.Put? then f(op.m) else 0
  }

  function Loss(op: Op, f: Message -> nat): nat {
    if op.Get? then f(op.m) else 0
  }

  lemma ApplySum(box: seq<Message>, op: Op, f: Message -> nat)
    requires op.Get? ==> op.index < |box| && op.m == box[op.index]
    ensures Sum(Apply(box, op), f) + Loss(op, f) == Sum(box, f) + Gain(op, f)
  {
    match op
    case Put(m) => SumSnoc(box, m, f);
    case Get(k, _) => SumRemove(box, k, f);
    case _ =>
  }

  /** Only the approval carries an id away from the server, and only a leave brings one back. */
  lemma ServerCarries(s: State, pick: Pick, ok: bool, i: nat)
    ensures var op := ServerOp(s, pick, ok);
            && Gain(op, Carries(i)) == (if s.server.Approve? && op.Put? && s.server.id == i then 1 else 0)
            && Loss(op, Carries(i)) == (if s.server.Dismiss? && op.Get? && op.m.id == i then 1 else 0)
  {
    if s.server.Approve? {
      AtoiDecimal(s.server.id);
    }
  }

  /** The server's statements balance: what leaves its own state is in the message that it sends. */
  lemma ServerBalance(s: State, pick: Pick, ok: bool, quit: bool, i: nat)
    requires i < |s.taken| && (InHand(s.server, i) == 1 ==> Free(s.taken, i) == 0)
    ensures var op := ServerOp(s, pick, ok);
            Free(TakenAfter(s.taken, s.server), i) + InHand(ServerAfter(s.taken, s.server, op, quit), i)
              + Gain(op, Carries(i)) + ServerPast(s.past, s.taken, s.server, op).lost[i]
            == Free(s.taken, i) + InHand(s.server, i) + Loss(op, Carries(i)) + s.past.lost[i]
  {
    ServerCarries(s, pick, ok, i);
    assert s.server.Approve? ==> ServerOp(s, pick, ok).Put? || ServerOp(s, pick, ok).Refused?;
    hide ServerOp, Carries, Gain, Loss;
  }

  lemma ServerPlaces(s: State, pick: Pick, ok: bool, quit: bool, garbage: string, i: nat)
    requires i < |s.taken| && Places(s, i) == 1
    ensures Places(ServerStep(s, pick, ok, quit, garbage), i) == 1
  {
    hide Sum;
    ServerBalance(s, pick, ok, quit, i);
    ApplySum(s.box, ServerOp(s, pick, ok), Carries(i));
  }

  lemma ClientBalance(past: History, k: nat, x: Client, c: nat, box: seq<Message>, fifo: bool, pick: Pick, ok: bool,
                      stop: bool, typed: Typed, i: nat)
    requires GoodClient(k, x)
    ensures var op := ClientOp(x, c, box, fifo, pick, ok, stop, typed);
            Holds(i)(ClientAfter(x, op, stop, typed)) + Gain(op, Carries(i)) + ClientPast(past, x, op).lost[i]
            == Holds(i)(x) + Loss(op, Carries(i)) + past.lost[i]
  {
  }

  lemma ClientPlaces(s: State, c: nat, pick: Pick, ok: bool, stop: bool, typed: Typed, i: nat)
    requires Shape(s) && c < |s.clients|
    ensures Places(ClientStep(s, c, pick, ok, stop, typed), i) == Places(s, i)
  {
    hide Sum;
    var x := s.clients[c];
    var op := ClientOp(x, c, s.box, s.fifo, pick, ok, stop, typed);
    ClientBalance(s.past, |s.taken|, x, c, s.box, s.fifo, pick, ok, stop, typed, i);
    ApplySum(s.box, op, Carries(i));
    SumUpdate(s.clients, c, ClientAfter(x, op, stop, typed), Holds(i));
  }

  lemma InitPlaces(s: State, i: nat)
    requires Init(s) && i < |s.taken|
    ensures Places(s, i) == 1
  {
    SumZero(s.clients, Holds(i));
  }

  // ---------------------------------------------------------------------------------------------
  // Every post reaches every recipient once
  // ---------------------------------------------------------------------------------------------

  /** A copy, to id `x`, of the post at place `k` of the log. */
  function Copy(x: nat, k: int): Message -> nat {
    (m: Message) => if m.mtype == SetAddressee(x) && m.kind == Said && m.tag == k then 1 else 0
  }

  /** One if the server has dealt with recipient `x` of the post at place `k`. */
  function Due(past: History, server: Server, k: int, x: nat): nat
    requires |past.recipients| == |past.log|
  {
    if 0 <= k < |past.log| && x in past.recipients[k] && !(server.Relay? && k == |past.log| - 1 && server.next <= x)
    then 1 else 0
  }

  /** The copies of post `k` to id `x`: under way, taken by a holder of the id, or refused. */
  function Copies(box: seq<Message>, past: History, k: int, x: nat): nat
    requires x < |past.arrived|
  {
    Sum(box, Copy(x, k)) + Sum(past.arrived[x], Copy(x, k)) + past.dropped[(k, x)]
  }

  ghost predicate Accounted(s: State, k: int, x: nat)
    requires Shape(s) && x < |s.taken|
  {
    Copies(s.box, s.past, k, x) == Due(s.past, s.server, k, x)
  }

  lemma ServerCopies(s: State, pick: Pick, ok: bool, k: int, x: nat)
    requires x < |s.taken|
    ensures var op := ServerOp(s, pick, ok);
            && Loss(op, Copy(x, k)) == 0
            && Gain(op, Copy(x, k)) ==
                 (if s.server.Relay? && op.Put? && s.server.next == x && k == |s.past.log| - 1 then 1 else 0)
  {
  }

  lemma ServerDue(past: History, taken: seq<bool>, server: Server, op: Op, quit: bool, k: int, x: nat)
    requires GoodRelay(taken, server, past.log, past.recipients) && x < |taken|
    requires server.Relay? ==>
               (op.Put? || op.Refused?
                <==> server.next < |taken| && server.post.id != server.next && taken[server.next])
    ensures var after := ServerPast(past, taken, server, op);
            && |after.recipients| == |after.log| && after.arrived == past.arrived
            && (if server.Relay? && op.Put? && server.next == x && k == |past.log| - 1 then 1 else 0)
                 + after.dropped[(k, x)] + Due(past, server, k, x)
               == Due(after, ServerAfter(taken, server, op, quit), k, x) + past.dropped[(k, x)]
  {
  }

  lemma ServerParts(s: State, pick: Pick, ok: bool, quit: bool, garbage: string)
    ensures var op, t := ServerOp(s, pick, ok), ServerStep(s, pick, ok, quit, garbage);
            if op == Blocked then t == s
            else && t.box == Apply(s.box, op) && t.server == ServerAfter(s.taken, s.server, op, quit)
                 && t.past == ServerPast(s.past, s.taken, s.server, op)
  {
  }

  /** The server makes a copy, or loses one, exactly when it deals with a recipient. */
  lemma ServerAccount(s: State, pick: Pick, ok: bool, quit: bool, k: int, x: nat)
    requires GoodRelay(s.taken, s.server, s.past.log, s.past.recipients) && x < |s.taken|
    ensures var op := ServerOp(s, pick, ok);
            var after := ServerPast(s.past, s.taken, s.server, op);
            && |after.recipients| == |after.log| && after.arrived == s.past.arrived
            && Loss(op, Copy(x, k)) == 0
            && Gain(op, Copy(x, k)) + after.dropped[(k, x)] + Due(s.past, s.server, k, x)
               == Due(after, ServerAfter(s.taken, s.server, op, quit), k, x) + s.past.dropped[(k, x)]
  {
    ServerCopies(s, pick, ok, k, x);
    ServerDue(s.past, s.taken, s.server, ServerOp(s, pick, ok), quit, k, x);
  }

  lemma ServerAccounted(s: State, pick: Pick, ok: bool, quit: bool, garbage: string, k: int, x: nat)
    requires Shape(s) && Shape(ServerStep(s, pick, ok, quit, garbage)) && x < |s.taken| && Accounted(s, k, x)
    ensures Accounted(ServerStep(s, pick, ok, quit, garbage), k, x)
  {
    ServerParts(s, pick, ok, quit, garbage);
    ServerAccount(s, pick, ok, quit, k, x);
    ApplySum(s.box, ServerOp(s, pick, ok), Copy(x, k));
    hide Sum, Shape, ServerOp, ServerStep, ServerPast, ServerAfter, Apply, Due, Gain, Loss;
  }

  lemma ClientCopies(past: History, i: nat, y: Client, c: nat, box: seq<Message>, fifo: bool, pick: Pick, ok: bool,
                     stop: bool, typed: Typed, k: int, x: nat)
    requires GoodClient(i, y) && x < i == |past.arrived|
    ensures var op := ClientOp(y, c, box, fifo, pick, ok, stop, typed);
            var after := ClientPast(past, y, op);
            && Gain(op, Copy(x, k)) == 0
            && after.dropped == past.dropped && after.log == past.log && after.recipients == past.recipients
            && |after.arrived| == |past.arrived|
            && Sum(after.arrived[x], Copy(x, k)) == Sum(past.arrived[x], Copy(x, k)) + Loss(op, Copy(x, k))
  {
    var op := ClientOp(y, c, box, fifo, pick, ok, stop, typed);
    if op.Get? {
      SumSnoc(past.arrived[x], op.m, Copy(x, k));
    }
  }

  lemma ClientAccounted(s: State, c: nat, pick: Pick, ok: bool, stop: bool, typed: Typed, k: int, x: nat)
    requires Shape(s) && c < |s.clients| && Shape(ClientStep(s, c, pick, ok, stop, typed)) && x < |s.taken|
    requires Accounted(s, k, x)
    ensures Accounted(ClientStep(s, c, pick, ok, stop, typed), k, x)
  {
    hide Sum;
    ClientCopies(s.past, |s.taken|, s.clients[c], c, s.box, s.fifo, pick, ok, stop, typed, k, x);
    ApplySum(s.box, ClientOp(s.clients[c], c, s.box, s.fifo, pick, ok, stop, typed), Copy(x, k));
  }

  // ---------------------------------------------------------------------------------------------
  // Copies say what was posted
  // ---------------------------------------------------------------------------------------------

  predicate IsCopy(m: Message) {
    m.mtype >= MAGIC_NUMBER && m.kind == Said
  }

  /** A copy repeats the name and the text of its place in the log. */
  predicate Genuine(log: seq<Message>, m: Message) {
    IsCopy(m) ==> 0 <= m.tag < |log| && m.name == log[m.tag].name && m.text == log[m.tag].text
  }

  ghost predicate AllGenuine(log: seq<Message>, ms: seq<Message>) {
    forall j :: 0 <= j < |ms| ==> Genuine(log, ms[j])
  }

  ghost predicate Displayed(log: seq<Message>, ms: seq<Message>) {
    forall j :: 0 <= j < |ms| ==> IsCopy(ms[j]) && Genuine(log, ms[j])
  }

  ghost predicate Truthful(s: State) {
    AllGenuine(s.past.log, s.box) && forall c :: 0 <= c < |s.clients| ==> Displayed(s.past.log, s.clients[c].shown)
  }

  lemma ApplyGenuine(log: seq<Message>, box: seq<Message>, op: Op)
    requires AllGenuine(log, box) && (op.Put? ==> Genuine(log, op.m))
    ensures AllGenuine(log, Apply(box, op))
  {
  }

  lemma GenuineGrows(log: seq<Message>, m: Message, ms: seq<Message>)
    ensures AllGenuine(log, ms) ==> AllGenuine(log + [m], ms)
    ensures Displayed(log, ms) ==> Displayed(log + [m], ms)
  {
  }

  lemma ServerTruthful(s: State, pick: Pick, ok: bool, quit: bool, garbage: string)
    requires Shape(s) && Truthful(s)
    ensures Truthful(ServerStep(s, pick, ok, quit, garbage))
  {
    var op := ServerOp(s, pick, ok);
    assert op.Put? ==> Genuine(s.past.log, op.m);
    ApplyGenuine(s.past.log, s.box, op);
    if s.server.Collect? && op.Get? {
      GenuineGrows(s.past.log, op.m, Apply(s.box, op));
      forall c | 0 <= c < |s.clients| ensures Displayed(s.past.log + [op.m], s.clients[c].shown) {
        GenuineGrows(s.past.log, op.m, s.clients[c].shown);
      }
    }
  }

  lemma ClientTruthful(s: State, c: nat, pick: Pick, ok: bool, stop: bool, typed: Typed)
    requires Shape(s) && c < |s.clients| && Truthful(s)
    ensures Truthful(ClientStep(s, c, pick, ok, stop, typed))
  {
    var x := s.clients[c];
    var op := ClientOp(x, c, s.box, s.fifo, pick, ok, stop, typed);
    ApplyGenuine(s.past.log, s.box, op);
    assert Displayed(s.past.log, ClientAfter(x, op, stop, typed).shown);
    assert ClientPast(s.past, x, op).log == s.past.log;
  }

  // ---------------------------------------------------------------------------------------------
  // A queue keeps the order
  // ---------------------------------------------------------------------------------------------

  function IsPost(): Message -> bool {
    (m: Message) => m.mtype == POST_REQUEST
  }

  function IsCopyTo(x: nat): Message -> bool {
    (m: Message) => m.mtype == SetAddressee(x) && m.kind == Said
  }

  /** The texts that process `c` posted, in order. */
  function Own(posted: seq<Message>, c: nat): seq<string> {
    Texts(posted, (m: Message) => m.tag == c, (m: Message) => m.text)
  }

  ghost predicate Credited(s: State) {
    forall c :: 0 <= c < |s.clients| ==> Own(s.past.posted, c) == s.clients[c].said
  }

  lemma OwnSnoc(posted: seq<Message>, m: Message, c: nat)
    ensures Own(posted + [m], c) == if m.tag == c then Own(posted, c) + [m.text] else Own(posted, c)
  {
    TextsSnoc(posted, m, (x: Message) => x.tag == c, (x: Message) => x.text);
  }

  lemma ClientPosts(past: History, x: Client, c: nat, box: seq<Message>, fifo: bool, pick: Pick, ok: bool, stop: bool,
                    typed: Typed)
    ensures var op := ClientOp(x, c, box, fifo, pick, ok, stop, typed);
            var posted, said := ClientPast(past, x, op).posted, ClientAfter(x, op, stop, typed).said;
            if x.pc == Input && op.Put?
            then posted == past.posted + [op.m] && op.m.tag == c && said == x.said + [op.m.text]
            else posted == past.posted && said == x.said
  {
  }

  lemma ClientCredited(s: State, c: nat, pick: Pick, ok: bool, stop: bool, typed: Typed)
    requires c < |s.clients| && Credited(s)
    ensures Credited(ClientStep(s, c, pick, ok, stop, typed))
  {
    var t := ClientStep(s, c, pick, ok, stop, typed);
    var op := ClientOp(s.clients[c], c, s.box, s.fifo, pick, ok, stop, typed);
    ClientPosts(s.past, s.clients[c], c, s.box, s.fifo, pick, ok, stop, typed);
    forall d | 0 <= d < |t.clients| ensures Own(t.past.posted, d) == t.clients[d].said {
      assert Own(s.past.posted, d) == s.clients[d].said;
      if op.Put? {
        OwnSnoc(s.past.posted, op.m, d);
      }
    }
  }

  /** The server takes the posts of a queue in sending order. */
  ghost predicate LogFollowsPosts(box: seq<Message>, past: History) {
    past.log + Filter(box, IsPost()) == past.posted
  }

  /** What the server sends and receives. */
  lemma ServerTraffic(s: State, pick: Pick, ok: bool)
    ensures var op := ServerOp(s, pick, ok);
            && (op.Put? ==> op.m.mtype != POST_REQUEST)
            && (op.Put? && IsCopy(op.m) && op.m.mtype != ID_SET ==>
                  s.server.Relay? && op.m.mtype == SetAddressee(s.server.next) && op.m.tag == |s.past.log| - 1)
            && (op.Get? ==>
                  && op.index < |s.box| && op.m == s.box[op.index] && op.m.mtype < MAGIC_NUMBER
                  && (op.m.mtype == POST_REQUEST <==> s.server.Collect?)
                  && (s.fifo ==> forall j :: 0 <= j < op.index ==> s.box[j].mtype != op.m.mtype))
  {
  }

  lemma ServerLogs(past: History, taken: seq<bool>, server: Server, op: Op)
    ensures var after := ServerPast(past, taken, server, op);
            && after.posted == past.posted && after.arrived == past.arrived
            && after.log == if server.Collect? && op.Get? then past.log + [op.m] else past.log
  {
  }

  lemma ServerLog(s: State, pick: Pick, ok: bool)
    requires s.fifo && LogFollowsPosts(s.box, s.past)
    ensures var op := ServerOp(s, pick, ok);
            LogFollowsPosts(Apply(s.box, op), ServerPast(s.past, s.taken, s.server, op))
  {
    hide Filter;
    var op := ServerOp(s, pick, ok);
    ServerTraffic(s, pick, ok);
    ServerLogs(s.past, s.taken, s.server, op);
    match op
    case Put(m) => FilterSnoc(s.box, m, IsPost());
    case Get(k, m) =>
      FilterRemove(s.box, k, IsPost());
      var rest := Filter(Without(s.box, k), IsPost());
      assert s.past.log + ([m] + rest) == (s.past.log + [m]) + rest;
    case _ =>
  }

  lemma ClientLog(past: History, x: Client, c: nat, box: seq<Message>, pick: Pick, ok: bool, stop: bool, typed: Typed)
    requires LogFollowsPosts(box, past) && (x.pc == Drain ==> x.id >= 0)
    ensures var op := ClientOp(x, c, box, true, pick, ok, stop, typed);
            LogFollowsPosts(Apply(box, op), ClientPast(past, x, op))
  {
    hide Filter;
    var op := ClientOp(x, c, box, true, pick, ok, stop, typed);
    match op
    case Put(m) => FilterSnoc(box, m, IsPost());
    case Get(k, m) => FilterRemove(box, k, IsPost());
    case _ =>
  }

  /** Copies at ascending places of the log, all below a limit. */
  ghost predicate Ascending(ms: seq<Message>, limit: int) {
    && (forall j :: 0 <= j < |ms| ==> ms[j].tag < limit)
    && (forall i, j :: 0 <= i < j < |ms| ==> ms[i].tag < ms[j].tag)
  }

  /** The places of the log that id `x` may have been sent. */
  function Limit(log: seq<Message>, server: Server, x: nat): int {
    if server.Relay? && server.next <= x then |log| - 1 else |log|
  }

  /** What was received through an id, followed by what is still under way to it, is in log order. */
  ghost predicate Channel(received: seq<Message>, box: seq<Message>, x: nat, limit: int) {
    Ascending(received + Filter(box, IsCopyTo(x)), limit)
  }

  ghost predicate Ordered(s: State) {
    && LogFollowsPosts(s.box, s.past)
    && (forall x :: 0 <= x < |s.past.arrived| ==> Channel(s.past.arrived[x], s.box, x, Limit(s.past.log, s.server, x)))
    && (forall c :: 0 <= c < |s.clients| && s.clients[c].id >= 0 ==>
          Channel(s.clients[c].shown, s.box, s.clients[c].id, Limit(s.past.log, s.server, s.clients[c].id)))
  }

  lemma ServerLimit(past: History, taken: seq<bool>, server: Server, op: Op, quit: bool, x: nat)
    requires x < |taken|
    ensures var was := Limit(past.log, server, x);
            var now := Limit(ServerPast(past, taken, server, op).log, ServerAfter(taken, server, op, quit), x);
            was <= now && (server.Relay? && server.next == x ==> was == |past.log| - 1 < now)
  {
  }

  lemma ServerFilter(s: State, pick: Pick, ok: bool, x: nat)
    ensures var op := ServerOp(s, pick, ok);
            var before, after := Filter(s.box, IsCopyTo(x)), Filter(Apply(s.box, op), IsCopyTo(x));
            || after == before
            || (op.Put? && after == before + [op.m] && s.server.Relay? && s.server.next == x
                  && op.m.tag == |s.past.log| - 1)
  {
    hide Filter;
    var op := ServerOp(s, pick, ok);
    ServerTraffic(s, pick, ok);
    match op
    case Put(m) => FilterSnoc(s.box, m, IsCopyTo(x));
    case Get(k, m) => FilterRemove(s.box, k, IsCopyTo(x));
    case _ =>
  }

  lemma ServerChannel(s: State, pick: Pick, ok: bool, quit: bool, received: seq<Message>, x: nat)
    requires x < |s.taken| && Channel(received, s.box, x, Limit(s.past.log, s.server, x))
    ensures var op := ServerOp(s, pick, ok);
            Channel(received, Apply(s.box, op), x,
                    Limit(ServerPast(s.past, s.taken, s.server, op).log, ServerAfter(s.taken, s.server, op, quit), x))
  {
    var op := ServerOp(s, pick, ok);
    ServerFilter(s, pick, ok, x);
    ServerLimit(s.past, s.taken, s.server, op, quit, x);
    var before, after := Filter(s.box, IsCopyTo(x)), Filter(Apply(s.box, op), IsCopyTo(x));
    if after != before {
      assert received + (before + [op.m]) == (received + before) + [op.m];
    }
  }

  /** A client's operation moves at most the first copy off the channel of its own id. */
  lemma ClientFilter(y: Client, c: nat, box: seq<Message>, pick: Pick, ok: bool, stop: bool, typed: Typed, x: nat)
    requires y.pc == Drain ==> y.id >= 0
    ensures var op := ClientOp(y, c, box, true, pick, ok, stop, typed);
            if y.pc == Drain && op.Get? && y.id == x && op.m.kind == Said
            then Filter(box, IsCopyTo(x)) == [op.m] + Filter(Apply(box, op), IsCopyTo(x))
            else Filter(box, IsCopyTo(x)) == Filter(Apply(box, op), IsCopyTo(x))
  {
    hide Filter;
    var op := ClientOp(y, c, box, true, pick, ok, stop, typed);
    match op
    case Put(m) => FilterSnoc(box, m, IsCopyTo(x));
    case Get(k, m) => FilterRemove(box, k, IsCopyTo(x));
    case _ =>
  }

  /** A subsequence of an ascending sequence is ascending. */
  lemma AscendingPart(whole: seq<Message>, part: seq<Message>, at: seq<nat>, limit: int)
    requires Ascending(whole, limit) && |at| == |part|
    requires forall i :: 0 <= i < |at| ==> at[i] < |whole| && part[i] == whole[at[i]]
    requires forall i, j :: 0 <= i < j < |at| ==> at[i] < at[j]
    ensures Ascending(part, limit)
  {
  }

  lemma AscendingWithout(a: seq<Message>, m: Message, b: seq<Message>, limit: int)
    requires Ascending(a + ([m] + b), limit)
    ensures Ascending(a + b, limit) && Ascending(b, limit) && Ascending(a + [m] + b, limit)
  {
    assert a + [m] + b == a + ([m] + b);
    AscendingPart(a + ([m] + b), a + b, seq(|a + b|, i => if i < |a| then i else i + 1), limit);
    AscendingSuffix(a, b, limit);
  }

  lemma AscendingSuffix(a: seq<Message>, b: seq<Message>, limit: int)
    requires Ascending(a + b, limit)
    ensures Ascending(b, limit)
  {
    forall i | 0 <= i < |b| ensures b[i] == (a + b)[|a| + i] {
    }
  }

  lemma ServerOrdered(s: State, pick: Pick, ok: bool, quit: bool, garbage: string)
    requires Shape(s) && s.fifo && Ordered(s)
    ensures Ordered(ServerStep(s, pick, ok, quit, garbage))
  {
    var op := ServerOp(s, pick, ok);
    if op != Blocked {
      ServerLog(s, pick, ok);
      ServerLogs(s.past, s.taken, s.server, op);
      forall x | 0 <= x < |s.past.arrived|
        ensures Channel(s.past.arrived[x], Apply(s.box, op), x,
                        Limit(ServerPast(s.past, s.taken, s.server, op).log,
                              ServerAfter(s.taken, s.server, op, quit), x))
      {
        ServerChannel(s, pick, ok, quit, s.past.arrived[x], x);
      }
      forall c | 0 <= c < |s.clients| && s.clients[c].id >= 0
        ensures Channel(s.clients[c].shown, Apply(s.box, op), s.clients[c].id,
                        Limit(ServerPast(s.past, s.taken, s.server, op).log,
                              ServerAfter(s.taken, s.server, op, quit), s.clients[c].id))
      {
        ServerChannel(s, pick, ok, quit, s.clients[c].shown, s.clients[c].id);
      }
    }
  }

  /** What a client receives leaves every channel in order: its own, and any other one on the same id. */
  lemma ClientChannel(y: Client, c: nat, box: seq<Message>, pick: Pick, ok: bool, stop: bool, typed: Typed,
                      received: seq<Message>, x: nat, limit: int)
    requires (y.pc == Drain ==> y.id >= 0) && Channel(received, box, x, limit)
    ensures var op := ClientOp(y, c, box, true, pick, ok, stop, typed);
            && Channel(received, Apply(box, op), x, limit)
            && Channel([], Apply(box, op), x, limit)
            && (y.pc == Drain && op.Get? && y.id == x && op.m.kind == Said ==>
                  Channel(received + [op.m], Apply(box, op), x, limit))
  {
    var op := ClientOp(y, c, box, true, pick, ok, stop, typed);
    var before, after := Filter(box, IsCopyTo(x)), Filter(Apply(box, op), IsCopyTo(x));
    ClientFilter(y, c, box, pick, ok, stop, typed, x);
    if before == after {
      AscendingSuffix(received, after, limit);
    }
    if op.Get? && before == [op.m] + after {
      AscendingWithout(received, op.m, after, limit);
    }
    assert [] + after == after;
  }

  lemma ClientReceipt(past: History, x: Client, c: nat, box: seq<Message>, fifo: bool, pick: Pick, ok: bool,
                      stop: bool, typed: Typed)
    requires GoodClient(|past.arrived|, x)
    ensures var op := ClientOp(x, c, box, fifo, pick, ok, stop, typed);
            var y, after := ClientAfter(x, op, stop, typed), ClientPast(past, x, op);
            && after.log == past.log
            && (if x.pc == Drain && op.Get? && op.m.kind == Said
                then after.arrived == past.arrived[x.id := past.arrived[x.id] + [op.m]]
                      && y.shown == x.shown + [op.m] && y.id == x.id
                else after.arrived == past.arrived && y.shown == x.shown && (y.id == x.id || (x.id == -1 && op.Get?)))
  {
  }

  lemma ClientOrdered(s: State, c: nat, pick: Pick, ok: bool, stop: bool, typed: Typed)
    requires Shape(s) && s.fifo && Ordered(s) && c < |s.clients| && Shape(ClientStep(s, c, pick, ok, stop, typed))
    ensures Ordered(ClientStep(s, c, pick, ok, stop, typed))
  {
    var t := ClientStep(s, c, pick, ok, stop, typed);
    var y := s.clients[c];
    var op := ClientOp(y, c, s.box, true, pick, ok, stop, typed);
    if op != Blocked {
      ClientLog(s.past, y, c, s.box, pick, ok, stop, typed);
      ClientReceipt(s.past, y, c, s.box, true, pick, ok, stop, typed);
      forall x | 0 <= x < |t.past.arrived|
        ensures Channel(t.past.arrived[x], t.box, x, Limit(t.past.log, t.server, x))
      {
        ClientChannel(y, c, s.box, pick, ok, stop, typed, s.past.arrived[x], x, Limit(s.past.log, s.server, x));
      }
      forall d | 0 <= d < |t.clients| && t.clients[d].id >= 0
        ensures Channel(t.clients[d].shown, t.box, t.clients[d].id, Limit(t.past.log, t.server, t.clients[d].id))
      {
        var x := t.clients[d].id;
        var received := if s.clients[d].id == -1 then s.past.arrived[x] else s.clients[d].shown;
        ClientChannel(y, c, s.box, pick, ok, stop, typed, received, x, Limit(s.past.log, s.server, x));
      }
    }
  }

  // ---------------------------------------------------------------------------------------------
  // Every run
  // ---------------------------------------------------------------------------------------------

  /** What never changes in a run. */
  predicate SameSystem(s: State, t: State) {
    |t.taken| == |s.taken| && |t.clients| == |s.clients| && t.fifo == s.fifo && t.lossless == s.lossless
  }

  ghost predicate Inv(s: State) {
    && Shape(s)
    && (forall i :: 0 <= i < |s.taken| ==> Places(s, i) == 1)
    && (forall k, x :: 0 <= x < |s.taken| ==> Accounted(s, k, x))
    && Truthful(s) && Credited(s)
    && (s.fifo ==> Ordered(s))
  }

  lemma InitInv(s: State)
    requires Init(s)
    ensures Inv(s)
  {
    forall i | 0 <= i < |s.taken| ensures Places(s, i) == 1 {
      InitPlaces(s, i);
    }
  }

  lemma ServerInv(s: State, pick: Pick, ok: bool, quit: bool, garbage: string)
    requires Inv(s) && (s.lossless ==> ok)
    ensures Inv(ServerStep(s, pick, ok, quit, garbage)) && SameSystem(s, ServerStep(s, pick, ok, quit, garbage))
  {
    var t := ServerStep(s, pick, ok, quit, garbage);
    ServerShape(s, pick, ok, quit, garbage);
    assert |t.taken| == |s.taken| && t.fifo == s.fifo;
    forall i | 0 <= i < |s.taken| ensures Places(t, i) == 1 {
      ServerPlaces(s, pick, ok, quit, garbage, i);
    }
    forall k, x | 0 <= x < |s.taken| ensures Accounted(t, k, x) {
      ServerAccounted(s, pick, ok, quit, garbage, k, x);
    }
    ServerTruthful(s, pick, ok, quit, garbage);
    ServerLogs(s.past, s.taken, s.server, ServerOp(s, pick, ok));
    if s.fifo {
      ServerOrdered(s, pick, ok, quit, garbage);
    }
  }

  lemma ClientInv(s: State, c: nat, pick: Pick, ok: bool, stop: bool, typed: Typed)
    requires Inv(s) && (s.lossless ==> ok) && c < |s.clients|
    ensures Inv(ClientStep(s, c, pick, ok, stop, typed)) && SameSystem(s, ClientStep(s, c, pick, ok, stop, typed))
  {
    var t := ClientStep(s, c, pick, ok, stop, typed);
    ClientShape(s, c, pick, ok, stop, typed);
    forall i | 0 <= i < |s.taken| ensures Places(t, i) == 1 {
      ClientPlaces(s, c, pick, ok, stop, typed, i);
    }
    forall k, x | 0 <= x < |s.taken| ensures Accounted(t, k, x) {
      ClientAccounted(s, c, pick, ok, stop, typed, k, x);
    }
    ClientTruthful(s, c, pick, ok, stop, typed);
    ClientCredited(s, c, pick, ok, stop, typed);
    if s.fifo {
      ClientOrdered(s, c, pick, ok, stop, typed);
    }
  }

  lemma StepInv(s: State, a: Action)
    requires Inv(s)
    ensures Inv(Step(s, a)) && SameSystem(s, Step(s, a))
  {
    if s.lossless ==> a.ok {
      match a
      case Serve(pick, ok, quit, garbage) => ServerInv(s, pick, ok, quit, garbage);
      case Act(c, pick, ok, stop, typed) => if c < |s.clients| { ClientInv(s, c, pick, ok, stop, typed); }
    }
  }

  lemma {:induction false} ExecInv(s: State, schedule: seq<Action>)
    requires Init(s)
    ensures Inv(Exec(s, schedule)) && SameSystem(s, Exec(s, schedule))
    decreases |schedule|
  {
    if schedule == [] {
      InitInv(s);
    } else {
      var before := schedule[..|schedule| - 1];
      ExecInv(s, before);
      StepInv(Exec(s, before), schedule[|schedule| - 1]);
    }
  }

  /** Every id of the pool is free, in the server's hands, in one message, held by one client or lost in a
      refused message, and only one of these; nothing is ever lost on a lossless transport. */
  lemma IdConserved(s0: State, schedule: seq<Action>, i: nat)
    requires Init(s0) && i < |s0.taken|
    ensures Places(Exec(s0, schedule), i) == 1
    ensures s0.lossless ==> Exec(s0, schedule).past.lost == multiset{}
  {
    ExecInv(s0, schedule);
  }

  /** No two clients of a run hold the same id, and the id of a client is never free. */
  lemma IdsNeverShared(s0: State, schedule: seq<Action>, a: nat, b: nat)
    requires Init(s0) && a < b < |Exec(s0, schedule).clients|
    requires var s := Exec(s0, schedule); s.clients[a].pc != Gone && s.clients[b].pc != Gone && s.clients[a].id >= 0
    ensures var s := Exec(s0, schedule);
            && s.clients[a].id != s.clients[b].id && s.clients[a].id < |s.taken| && s.taken[s.clients[a].id]
  {
    var s := Exec(s0, schedule);
    var i := s.clients[a].id;
    ExecInv(s0, schedule);
    assert Places(s, i) == 1;
    SumPair(s.clients, a, b, Holds(i));
    SumPart(s.clients, a, Holds(i));
  }

  /** Once the server has dealt with a recipient of a post, there is exactly one copy for it: under way,
      taken once, or refused; and there is none for anybody else. */
  lemma ExactlyOneCopy(s0: State, schedule: seq<Action>, k: nat, x: nat)
    requires Init(s0) && x < |s0.taken|
    ensures var s := Exec(s0, schedule);
            && |s.past.recipients| == |s.past.log| && |s.past.arrived| == |s0.taken|
            && Copies(s.box, s.past, k, x) == Due(s.past, s.server, k, x) <= 1
            && Sum(s.past.arrived[x], Copy(x, k)) <= 1
            && (s.lossless ==> s.past.dropped == multiset{})
  {
    ExecInv(s0, schedule);
    assert Accounted(Exec(s0, schedule), k, x);
  }

  /** What a client of the queue displayed is a subsequence of the relay log. */
  ghost predicate Subsequence(shown: seq<Message>, log: seq<Message>, places: seq<int>) {
    && |places| == |shown|
    && (forall j :: 0 <= j < |places| ==>
          0 <= places[j] < |log| && shown[j].name == log[places[j]].name && shown[j].text == log[places[j]].text)
    && (forall i, j :: 0 <= i < j < |places| ==> places[i] < places[j])
  }

  lemma ShownFollowsLog(s0: State, schedule: seq<Action>, c: nat)
    requires Init(s0) && s0.fifo && c < |Exec(s0, schedule).clients|
    ensures var s := Exec(s0, schedule); exists places :: Subsequence(s.clients[c].shown, s.past.log, places)
  {
    var s := Exec(s0, schedule);
    ShownAscending(s0, schedule, c);
    var shown := s.clients[c].shown;
    var places := seq(|shown|, j requires 0 <= j < |shown| => shown[j].tag);
    assert Subsequence(shown, s.past.log, places);
  }

  lemma ShownAscending(s0: State, schedule: seq<Action>, c: nat)
    requires Init(s0) && s0.fifo && c < |Exec(s0, schedule).clients|
    ensures var s := Exec(s0, schedule);
            Ascending(s.clients[c].shown, |s.past.log|) && Displayed(s.past.log, s.clients[c].shown)
  {
    var s := Exec(s0, schedule);
    ExecInv(s0, schedule);
    var shown := s.clients[c].shown;
    assert GoodClient(|s.taken|, s.clients[c]);
    if s.clients[c].id >= 0 {
      var rest := Filter(s.box, IsCopyTo(s.clients[c].id));
      forall j | 0 <= j < |shown| ensures (shown + rest)[j] == shown[j] {
      }
    }
  }

  /** Two clients of the queue that both display two posts display them in the same order. */
  lemma SameOrderForAll(s0: State, schedule: seq<Action>, c: nat, d: nat, i: nat, j: nat, i': nat, j': nat)
    requires Init(s0) && s0.fifo
    requires var s := Exec(s0, schedule);
             && c < |s.clients| && d < |s.clients|
             && i < j < |s.clients[c].shown| && i' < |s.clients[d].shown| && j' < |s.clients[d].shown|
             && s.clients[c].shown[i].tag == s.clients[d].shown[i'].tag
             && s.clients[c].shown[j].tag == s.clients[d].shown[j'].tag
    ensures i' < j'
  {
    ShownAscending(s0, schedule, c);
    ShownAscending(s0, schedule, d);
  }

  /** The server's log is a prefix of the posts in sending order, and of these each client's own are the
      ones that it sent, in its order. */
  lemma LogInSendingOrder(s0: State, schedule: seq<Action>, c: nat)
    requires Init(s0) && c < |Exec(s0, schedule).clients|
    ensures var s := Exec(s0, schedule);
            && Own(s.past.posted, c) == s.clients[c].said
            && (s.fifo ==> s.past.log <= s.past.posted && Own(s.past.log, c) <= s.clients[c].said)
  {
    var s := Exec(s0, schedule);
    ExecInv(s0, schedule);
    if s.fifo {
      TextsPrefix(s.past.posted, |s.past.log|, (m: Message) => m.tag == c, (m: Message) => m.text);
      assert s.past.posted[..|s.past.log|] == s.past.log;
    }
  }
}
