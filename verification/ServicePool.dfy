/** The elastic pool of 44_high-load_server/multyproc_pool/arc/task3.c: the server hands each client a service
    of its own, adds a block of services when all are busy and drops the last block when it is idle.  The
    server and the services talk through one message queue, with a message type for each direction of each
    service. */
module ServicePool {
  import opened Arithmetic
  import opened Counting
  import opened Filtering
  import opened Marking
  import opened Runs

  datatype Status = Available | Busy

  /** `mtype` and `data` are what the queue carries.  History: `stamp` is the number of the request, `sid` the
      service it was meant for, and `processed` tells an answer from a request. */
  datatype Message = Message(mtype: int, data: string, sid: nat, stamp: nat, processed: bool)

  /** What a service thread is working on. */
  datatype Hand = Empty | Full(m: Message)

  datatype Client = Outside | Connected(sid: nat)

  datatype Server = Listening | Polling(sid: nat)

  datatype Asked = Asked(sid: nat, text: string)

  /** A message that the server took as the answer of service `polled`. */
  datatype Taken = Taken(polled: nat, m: Message)

  /** History: the most services ever busy at once, the largest pool, the requests put in the queue and the
      answers taken from it. */
  datatype State = State(
    block: nat, pool: seq<Status>, hands: seq<Hand>, queue: seq<Message>, server: Server, clients: seq<Client>,
    peak: nat, largest: nat, asked: seq<Asked>, answered: seq<Taken>)

  /** A datagram that reaches the server, its look for an answer, or a service's turn; `ok` is the outcome of
      the send that follows. */
  datatype Action =
    Connect(client: nat, ok: bool) | Data(client: nat, text: string, ok: bool) | Poll | Close(client: nat)
  | Serve(service: nat, ok: bool)

  // ---------------------------------------------------------------------------------------------
  // The pool
  // ---------------------------------------------------------------------------------------------

  function FirstFrom(pool: seq<Status>, i: nat): (r: nat)
    requires i <= |pool|
    ensures i <= r <= |pool|
    ensures forall j :: i <= j < r ==> pool[j] == Busy
    ensures r < |pool| ==> pool[r] == Available
    decreases |pool| - i
  {
    if i == |pool| then i
    else match pool[i]
      case Available => i
      case Busy => FirstFrom(pool, i + 1)
  }

  /** The free service with the smallest id, or the size of the pool. */
  function FirstAvailable(pool: seq<Status>): (r: nat)
    ensures r <= |pool|
    ensures forall j :: 0 <= j < r ==> pool[j] == Busy
    ensures r < |pool| ==> pool[r] == Available
  {
    FirstFrom(pool, 0)
  }

  function Idle(n: nat): (r: seq<Status>)
    ensures |r| == n && forall i :: 0 <= i < n ==> r[i] == Available
  {
    seq(n, _ => Available)
  }

  /** The pool once the next client has a service: a new block joins if there is none free. */
  function AfterConnect(pool: seq<Status>, block: nat): seq<Status> {
    var i := FirstAvailable(pool);
    if i < |pool| then pool[i := Busy]
    else if block > 0 then (pool + Idle(block))[|pool| := Busy]
    else pool
  }

  predicate LastBlockFree(pool: seq<Status>, block: nat) {
    |pool| > block && forall i :: |pool| - block <= i < |pool| ==> pool[i] == Available
  }

  /** The pool once a client has given its service back: the last block goes if it is idle. */
  function AfterClose(pool: seq<Status>, sid: nat, block: nat): seq<Status>
    requires sid < |pool|
  {
    var freed := pool[sid := Available];
    if LastBlockFree(freed, block) then freed[..|freed| - block] else freed
  }

  function IsBusy(): Status -> nat {
    (s: Status) => if s == Busy then 1 else 0
  }

  function BusyCount(pool: seq<Status>): nat {
    Sum(pool, IsBusy())
  }

  predicate Blocks(n: nat, block: nat)
    requires block > 0
  {
    n == 0 || (n >= block && Blocks(n - block, block))
  }

  lemma {:induction false} BlocksDivide(n: nat, block: nat)
    requires block > 0
    ensures Blocks(n, block) <==> n % block == 0
  {
    if n >= block {
      BlocksDivide(n - block, block);
      SameRemainder(n, block);
    } else {
      RemainderIsUnique(n, block, 0, n);
    }
  }

  /** The smallest pool, made of whole blocks, that has room for `n` clients. */
  function RoundUp(n: nat, block: nat): nat
    requires block > 0
  {
    if n <= block then block else block + RoundUp(n - block, block)
  }

  lemma {:induction false} RoundUpFits(n: nat, block: nat)
    requires block > 0
    ensures Blocks(RoundUp(n, block), block) && n <= RoundUp(n, block) <= Max(block, n + block - 1)
  {
    if n <= block {
      assert Blocks(block - block, block);
    } else {
      RoundUpFits(n - block, block);
      assert RoundUp(n, block) - block == RoundUp(n - block, block);
    }
  }

  lemma {:induction false} RoundUpGrows(m: nat, n: nat, block: nat)
    requires block > 0 && m <= n
    ensures RoundUp(m, block) <= RoundUp(n, block)
  {
    if n <= block {
    } else if m <= block {
    } else {
      RoundUpGrows(m - block, n - block, block);
    }
  }

  /** One client more needs another block exactly if all blocks are full. */
  lemma {:induction false} RoundUpNext(n: nat, block: nat)
    requires block > 0
    ensures n < RoundUp(n, block) ==> RoundUp(n + 1, block) == RoundUp(n, block)
    ensures n > 0 && Blocks(n, block) ==> RoundUp(n, block) == n && RoundUp(n + 1, block) == n + block
  {
    if n <= block {
      assert n == block ==> RoundUp(n + 1, block) == block + RoundUp(1, block);
    } else {
      RoundUpNext(n - block, block);
      assert n + 1 - block == n - block + 1;
    }
  }

  lemma {:induction false} SumExtend(s: seq<Status>, t: seq<Status>, n: nat)
    requires n <= |t| && forall i :: 0 <= i < n ==> t[i] == Available
    ensures SumTo(s + t, |s| + n, IsBusy()) == BusyCount(s)
  {
    if n == 0 {
      SumToSame(s + t, s, |s|, IsBusy());
    } else {
      SumExtend(s, t, n - 1);
      assert (s + t)[|s| + n - 1] == t[n - 1];
    }
  }

  lemma {:induction false} AllBusy(pool: seq<Status>, n: nat)
    requires n <= |pool| && forall i :: 0 <= i < n ==> pool[i] == Busy
    ensures SumTo(pool, n, IsBusy()) == n
  {
    if n == 0 {
    } else {
      AllBusy(pool, n - 1);
    }
  }

  /** One more service is busy.  The pool grows only if all its services were busy. */
  lemma ConnectCounts(pool: seq<Status>, block: nat)
    requires block > 0 && Blocks(|pool|, block)
    ensures var after := AfterConnect(pool, block);
            && BusyCount(after) == BusyCount(pool) + 1
            && Blocks(|after|, block)
            && (|after| == |pool| || |after| == RoundUp(BusyCount(after), block))
            && FirstAvailable(pool) <= BusyCount(pool)
  {
    var i := FirstAvailable(pool);
    AllBusy(pool, i);
    SumToGrows(pool, i, |pool|, IsBusy());
    if i < |pool| {
      SumUpdate(pool, i, Busy, IsBusy());
    } else {
      SumExtend(pool, Idle(block), block);
      SumUpdate(pool + Idle(block), |pool|, Busy, IsBusy());
      assert |pool| + block - block == |pool|;
      assert pool != [] ==> BusyCount(pool) == |pool|;
      RoundUpNext(|pool|, block);
    }
  }

  lemma DropIdle(pool: seq<Status>, n: nat)
    requires n <= |pool| && forall i :: |pool| - n <= i < |pool| ==> pool[i] == Available
    ensures BusyCount(pool[..|pool| - n]) == BusyCount(pool)
  {
    var kept := pool[..|pool| - n];
    SumExtend(kept, pool[|kept|..], n);
    assert kept + pool[|kept|..] == pool;
  }

  /** One service less is busy, in a pool that stays made of whole blocks and never becomes empty. */
  lemma CloseCounts(pool: seq<Status>, sid: nat, block: nat)
    requires block > 0 && Blocks(|pool|, block) && sid < |pool| && pool[sid] == Busy
    ensures var after := AfterClose(pool, sid, block);
            && BusyCount(after) + 1 == BusyCount(pool)
            && Blocks(|after|, block) && block <= |after| <= |pool|
  {
    SumUpdate(pool, sid, Available, IsBusy());
    if LastBlockFree(pool[sid := Available], block) {
      DropIdle(pool[sid := Available], block);
    }
    hide Sum;
  }

  /** Only idle services go, and all that stay but the closed one keep their state. */
  lemma CloseKeepsBusy(pool: seq<Status>, sid: nat, block: nat, i: nat)
    requires sid < |pool| && i < |pool| && i != sid && pool[i] == Busy
    ensures i < |AfterClose(pool, sid, block)| && AfterClose(pool, sid, block)[i] == Busy
  {
    assert pool[sid := Available][i] == Busy;
  }

  lemma ConnectKeepsBusy(pool: seq<Status>, block: nat, i: nat)
    requires i < |pool| && pool[i] == Busy
    ensures i < |AfterConnect(pool, block)| && AfterConnect(pool, block)[i] == Busy && i != FirstAvailable(pool)
  {
  }

  /** Closing gives back the very pool that the connection found, except when that pool ended in an idle
      block: then this block goes. */
  lemma CloseUndoesConnect(pool: seq<Status>, block: nat)
    requires block > 0 && Blocks(|pool|, block) && pool != []
    ensures FirstAvailable(pool) < |AfterConnect(pool, block)|
    ensures AfterClose(AfterConnect(pool, block), FirstAvailable(pool), block) == pool <==> !LastBlockFree(pool, block)
  {
    var i, after := FirstAvailable(pool), AfterConnect(pool, block);
    if i < |pool| {
      assert after[i := Available] == pool;
    } else {
      assert after[i := Available] == pool + Idle(block);
      assert (pool + Idle(block))[..|pool|] == pool;
      assert pool[|pool| - 1] == Busy;
    }
  }

  // ---------------------------------------------------------------------------------------------
  // Message types
  // ---------------------------------------------------------------------------------------------

  function RequestType(sid: nat): int {
    sid + 1
  }

  /** USHRT_MAX / 2 - (sid + 1) */
  function ReplyType(sid: nat): int {
    0xFFFF / 2 - (sid + 1)
  }

  /** With ids below `n`, no request is of the type of an answer. */
  ghost predicate Separate(n: nat) {
    forall a: nat, b: nat :: a < n && b < n ==> RequestType(a) != ReplyType(b)
  }

  /** The two kinds of types stay apart exactly while there are no more than 16383 services: the request to
      service 16383 is of the same type as the answer of service 16382. */
  lemma SeparateExactlyUpTo16383(n: nat)
    ensures Separate(n) <==> n <= 16383
    ensures RequestType(16383) == ReplyType(16382)
  {
    if n > 16383 {
      assert RequestType(16383) == ReplyType(16382);
    }
  }

  // ---------------------------------------------------------------------------------------------
  // Steps
  // ---------------------------------------------------------------------------------------------

  function FirstOfTypeFrom(queue: seq<Message>, mtype: int, k: nat): (r: nat)
    requires k <= |queue|
    ensures k <= r <= |queue|
    ensures forall j :: k <= j < r ==> queue[j].mtype != mtype
    ensures r < |queue| ==> queue[r].mtype == mtype
    decreases |queue| - k
  {
    if k == |queue| || queue[k].mtype == mtype then k else FirstOfTypeFrom(queue, mtype, k + 1)
  }

  /** Where `msgrcv` finds the first message of a type. */
  function FirstOfType(queue: seq<Message>, mtype: int): (r: nat)
    ensures r <= |queue|
    ensures forall j :: 0 <= j < r ==> queue[j].mtype != mtype
    ensures r < |queue| ==> queue[r].mtype == mtype
  {
    FirstOfTypeFrom(queue, mtype, 0)
  }

  function Max(a: nat, b: nat): nat {
    if a < b then b else a
  }

  /** As many threads as services: new ones start with empty hands, dropped ones are cancelled. */
  function Resized(hands: seq<Hand>, n: nat): seq<Hand> {
    if n <= |hands| then hands[..n] else hands + seq(n - |hands|, _ => Empty)
  }

  function ConnectStep(s: State, c: nat, ok: bool): State
    requires c < |s.clients|
  {
    if s.server != Listening || s.clients[c].Connected? || s.block == 0 then s
    else
      var pool := AfterConnect(s.pool, s.block);
      s.(pool := pool, hands := Resized(s.hands, |pool|),
         clients := if ok then s.clients[c := Connected(FirstAvailable(s.pool))] else s.clients,
         peak := Max(s.peak, BusyCount(pool)), largest := Max(s.largest, |pool|))
  }

  function Request(sid: nat, text: string, stamp: nat): Message {
    Message(RequestType(sid), text, sid, stamp, false)
  }

  function Answer(service: nat, m: Message): Message {
    Message(ReplyType(service), Process(m.data), m.sid, m.stamp, true)
  }

  function DataStep(s: State, c: nat, text: string, ok: bool): State
    requires c < |s.clients|
  {
    if s.server != Listening || !s.clients[c].Connected? || !ok then s
    else
      var sid := s.clients[c].sid;
      s.(queue := s.queue + [Request(sid, text, |s.asked|)], asked := s.asked + [Asked(sid, text)],
            server := Polling(sid))
  }

  function PollStep(s: State): State {
    if s.server == Listening then s
    else
      var k := FirstOfType(s.queue, ReplyType(s.server.sid));
      s.(server := Listening, queue := Without(s.queue, k),
         answered := if k < |s.queue| then s.answered + [Taken(s.server.sid, s.queue[k])] else s.answered)
  }

  function CloseStep(s: State, c: nat): State
    requires c < |s.clients|
  {
    if s.server != Listening || !s.clients[c].Connected? || s.clients[c].sid >= |s.pool| then s
    else
      var pool := AfterClose(s.pool, s.clients[c].sid, s.block);
      s.(pool := pool, hands := Resized(s.hands, |pool|), clients := s.clients[c := Outside])
  }

  function TakeStep(s: State, i: nat): State
    requires i < |s.hands|
  {
    var k := FirstOfType(s.queue, RequestType(i));
    s.(queue := Without(s.queue, k), hands := s.hands[i := if k < |s.queue| then Full(s.queue[k]) else Empty])
  }

  function AnswerStep(s: State, i: nat, ok: bool): State
    requires i < |s.hands| && s.hands[i].Full?
  {
    s.(queue := if ok then s.queue + [Answer(i, s.hands[i].m)] else s.queue, hands := s.hands[i := Empty])
  }

  function ServeStep(s: State, i: nat, ok: bool): State
    requires i < |s.hands|
  {
    if s.hands[i] == Empty then TakeStep(s, i) else AnswerStep(s, i, ok)
  }

  function Step(s: State, a: Action): State {
    match a
    case Connect(c, ok) => if c < |s.clients| then ConnectStep(s, c, ok) else s
    case Data(c, text, ok) => if c < |s.clients| then DataStep(s, c, text, ok) else s
    case Poll => PollStep(s)
    case Close(c) => if c < |s.clients| then CloseStep(s, c) else s
    case Serve(i, ok) => if i < |s.hands| then ServeStep(s, i, ok) else s
  }

  function Exec(s: State, schedule: seq<Action>): State {
    Run(Step, s, schedule)
  }

  ghost predicate Init(s: State) {
    && s.block > 0 && s.pool == Idle(s.block) && s.hands == Resized([], s.block)
    && s.queue == [] && s.asked == [] && s.answered == [] && s.server == Listening
    && (forall c :: 0 <= c < |s.clients| ==> s.clients[c] == Outside)
    && s.peak == 0 && s.largest == s.block
  }

  // ---------------------------------------------------------------------------------------------
  // The pool over every run
  // ---------------------------------------------------------------------------------------------

  ghost predicate PoolGood(s: State) {
    && s.block > 0 && Blocks(|s.pool|, s.block) && s.block <= |s.pool| <= s.largest
    && |s.hands| == |s.pool|
    && BusyCount(s.pool) <= s.peak
    && s.peak <= s.largest <= RoundUp(s.peak, s.block)
  }

  ghost predicate OwnServices(clients: seq<Client>, pool: seq<Status>) {
    && (forall c :: 0 <= c < |clients| && clients[c].Connected? ==>
          clients[c].sid < |pool| && pool[clients[c].sid] == Busy)
    && (forall c, d :: 0 <= c < d < |clients| && clients[c].Connected? && clients[d].Connected? ==>
          clients[c].sid != clients[d].sid)
  }

  /** Every id in use is below the number of services that were ever busy at once. */
  ghost predicate LowIds(s: State) {
    && (s.server.Polling? ==> s.server.sid < s.peak)
    && (forall c :: 0 <= c < |s.clients| && s.clients[c].Connected? ==> s.clients[c].sid < s.peak)
  }

  lemma ConnectOwns(clients: seq<Client>, pool: seq<Status>, block: nat, c: nat)
    requires OwnServices(clients, pool) && c < |clients| && !clients[c].Connected? && block > 0
    ensures OwnServices(clients, AfterConnect(pool, block))
    ensures OwnServices(clients[c := Connected(FirstAvailable(pool))], AfterConnect(pool, block))
  {
    forall d | 0 <= d < |clients| && clients[d].Connected?
      ensures var after := AfterConnect(pool, block);
              clients[d].sid < |after| && after[clients[d].sid] == Busy && clients[d].sid != FirstAvailable(pool)
    {
      ConnectKeepsBusy(pool, block, clients[d].sid);
    }
  }

  lemma CloseOwns(clients: seq<Client>, pool: seq<Status>, block: nat, c: nat)
    requires OwnServices(clients, pool) && c < |clients| && clients[c].Connected?
    ensures OwnServices(clients[c := Outside], AfterClose(pool, clients[c].sid, block))
  {
    forall d | 0 <= d < |clients| && d != c && clients[d].Connected?
      ensures var after := AfterClose(pool, clients[c].sid, block);
              clients[d].sid < |after| && after[clients[d].sid] == Busy
    {
      CloseKeepsBusy(pool, clients[c].sid, block, clients[d].sid);
    }
  }

  ghost predicate PoolInv(s: State) {
    PoolGood(s) && OwnServices(s.clients, s.pool) && LowIds(s)
  }

  lemma ConnectKeepsPool(s: State, c: nat, ok: bool)
    requires PoolInv(s) && c < |s.clients|
    ensures var t := ConnectStep(s, c, ok); PoolInv(t) && t.largest >= s.largest && t.peak >= s.peak
  {
    if s.server == Listening && !s.clients[c].Connected? {
      ConnectCounts(s.pool, s.block);
      SumAtMost(AfterConnect(s.pool, s.block), IsBusy());
      RoundUpGrows(s.peak, ConnectStep(s, c, ok).peak, s.block);
      RoundUpGrows(BusyCount(s.pool) + 1, ConnectStep(s, c, ok).peak, s.block);
      ConnectOwns(s.clients, s.pool, s.block, c);
    }
  }

  lemma CloseKeepsPool(s: State, c: nat)
    requires PoolInv(s) && c < |s.clients|
    ensures PoolInv(CloseStep(s, c))
  {
    if s.server == Listening && s.clients[c].Connected? {
      CloseCounts(s.pool, s.clients[c].sid, s.block);
      CloseOwns(s.clients, s.pool, s.block, c);
    }
  }

  lemma StepKeepsPool(s: State, a: Action)
    requires PoolInv(s)
    ensures var t := Step(s, a); PoolInv(t) && t.largest >= s.largest && t.peak >= s.peak && t.block == s.block
  {
    hide Sum, RoundUp, Blocks;
    match a
    case Connect(c, ok) => if c < |s.clients| { ConnectKeepsPool(s, c, ok); }
    case Close(c) => if c < |s.clients| { CloseKeepsPool(s, c); }
    case _ =>
      assert Step(s, a).pool == s.pool && Step(s, a).clients == s.clients;
  }

  // ---------------------------------------------------------------------------------------------
  // The traffic over every run
  // ---------------------------------------------------------------------------------------------

  /** A message is what its history says: a request as the client wrote it, or its answer, of the right type. */
  ghost predicate Genuine(asked: seq<Asked>, peak: nat, m: Message) {
    && m.sid < peak
    && m.stamp < |asked| && asked[m.stamp].sid == m.sid
    && m.mtype == (if m.processed then ReplyType(m.sid) else RequestType(m.sid))
    && m.data == (if m.processed then Process(asked[m.stamp].text) else asked[m.stamp].text)
  }

  ghost predicate QueueGenuine(asked: seq<Asked>, peak: nat, queue: seq<Message>) {
    forall k :: 0 <= k < |queue| ==> Genuine(asked, peak, queue[k])
  }

  /** A service works only on unprocessed requests to itself. */
  ghost predicate HandsGenuine(asked: seq<Asked>, peak: nat, hands: seq<Hand>) {
    forall i :: 0 <= i < |hands| && hands[i].Full? ==>
      Genuine(asked, peak, hands[i].m) && !hands[i].m.processed && hands[i].m.sid == i
  }

  /** The server takes for an answer of a service only that. */
  ghost predicate AnsweredGenuine(asked: seq<Asked>, peak: nat, answered: seq<Taken>) {
    forall k :: 0 <= k < |answered| ==>
      Genuine(asked, peak, answered[k].m) && answered[k].m.processed && answered[k].m.sid == answered[k].polled
  }

  /** Of two messages of one service, `x` stems from the earlier request. */
  predicate Before(x: Message, y: Message) {
    x.sid == y.sid ==> x.stamp < y.stamp
  }

  /** The order of the requests of each service survives: answers taken, answers in the queue, the request in
      hand, requests in the queue. */
  ghost predicate QueueOrdered(queue: seq<Message>) {
    && (forall j, k :: 0 <= j < k < |queue| && queue[j].processed == queue[k].processed ==> Before(queue[j], queue[k]))
    && (forall j, k :: 0 <= j < |queue| && 0 <= k < |queue| && queue[j].processed && !queue[k].processed ==>
          Before(queue[j], queue[k]))
  }

  predicate Around(hand: Message, m: Message) {
    if m.processed then Before(m, hand) else Before(hand, m)
  }

  ghost predicate HandsOrdered(hands: seq<Hand>, queue: seq<Message>) {
    forall i, k :: 0 <= i < |hands| && hands[i].Full? && 0 <= k < |queue| ==> Around(hands[i].m, queue[k])
  }

  ghost predicate AnsweredOrdered(answered: seq<Taken>) {
    forall j, k :: 0 <= j < k < |answered| ==> Before(answered[j].m, answered[k].m)
  }

  ghost predicate AnsweredBeforeQueue(answered: seq<Taken>, queue: seq<Message>) {
    forall j, k :: 0 <= j < |answered| && 0 <= k < |queue| ==> Before(answered[j].m, queue[k])
  }

  ghost predicate AnsweredBeforeHands(answered: seq<Taken>, hands: seq<Hand>) {
    forall j, i :: 0 <= j < |answered| && 0 <= i < |hands| && hands[i].Full? ==> Before(answered[j].m, hands[i].m)
  }

  ghost predicate AllGenuine(s: State) {
    && QueueGenuine(s.asked, s.peak, s.queue)
    && HandsGenuine(s.asked, s.peak, s.hands)
    && AnsweredGenuine(s.asked, s.peak, s.answered)
  }

  ghost predicate AllOrdered(s: State) {
    && QueueOrdered(s.queue)
    && HandsOrdered(s.hands, s.queue)
    && AnsweredOrdered(s.answered)
    && AnsweredBeforeQueue(s.answered, s.queue)
    && AnsweredBeforeHands(s.answered, s.hands)
  }

  ghost predicate Traffic(s: State) {
    AllGenuine(s) && AllOrdered(s)
  }

  lemma TypesTell(asked: seq<Asked>, peak: nat, m: Message, sid: nat)
    requires Genuine(asked, peak, m) && sid + peak <= 32765
    ensures m.mtype == RequestType(sid) ==> !m.processed && m.sid == sid
    ensures m.mtype == ReplyType(sid) ==> m.processed && m.sid == sid
  {
    assert m.sid + sid < 32765;
    assert RequestType(sid) != ReplyType(m.sid) && RequestType(m.sid) != ReplyType(sid);
  }

  lemma WithoutOrdered(queue: seq<Message>, k: nat)
    requires QueueOrdered(queue) && k < |queue|
    ensures QueueOrdered(Without(queue, k))
  {
    var rest := Without(queue, k);
    assert forall j :: 0 <= j < |rest| ==> rest[j] == queue[if j < k then j else j + 1];
  }

  /** The first message of a type comes before every other message of its kind for its service. */
  lemma FirstIsOldest(asked: seq<Asked>, peak: nat, queue: seq<Message>, mtype: int, j: nat)
    requires QueueGenuine(asked, peak, queue) && QueueOrdered(queue)
    requires FirstOfType(queue, mtype) < |queue| && j < |queue| && j != FirstOfType(queue, mtype)
    requires queue[j].processed == queue[FirstOfType(queue, mtype)].processed
    ensures Before(queue[FirstOfType(queue, mtype)], queue[j])
  {
    var k := FirstOfType(queue, mtype);
    assert Genuine(asked, peak, queue[j]) && Genuine(asked, peak, queue[k]);
    if j < k {
      assert queue[j].mtype != mtype;
    }
  }

  // A request is put in the queue.

  lemma RequestGenuine(asked: seq<Asked>, peak: nat, queue: seq<Message>, hands: seq<Hand>, answered: seq<Taken>,
                       sid: nat, text: string)
    requires QueueGenuine(asked, peak, queue) && HandsGenuine(asked, peak, hands)
    requires AnsweredGenuine(asked, peak, answered)
    requires sid < peak
    ensures QueueGenuine(asked + [Asked(sid, text)], peak, queue + [Request(sid, text, |asked|)])
    ensures HandsGenuine(asked + [Asked(sid, text)], peak, hands)
    ensures AnsweredGenuine(asked + [Asked(sid, text)], peak, answered)
  {
  }

  lemma RequestOrdered(asked: seq<Asked>, peak: nat, queue: seq<Message>, hands: seq<Hand>, answered: seq<Taken>,
                       r: Message)
    requires QueueGenuine(asked, peak, queue) && HandsGenuine(asked, peak, hands)
    requires AnsweredGenuine(asked, peak, answered)
    requires !r.processed && r.stamp == |asked|
    ensures QueueOrdered(queue) ==> QueueOrdered(queue + [r])
    ensures HandsOrdered(hands, queue) ==> HandsOrdered(hands, queue + [r])
    ensures AnsweredBeforeQueue(answered, queue) ==> AnsweredBeforeQueue(answered, queue + [r])
  {
    assert forall k :: 0 <= k < |queue| ==> Genuine(asked, peak, queue[k]) && Before(queue[k], r);
  }

  // The server takes an answer.

  lemma TakenIsOldest(s: State, j: nat)
    requires Traffic(s) && s.server.Polling? && s.server.sid + s.peak <= 32765
    requires var k := FirstOfType(s.queue, ReplyType(s.server.sid)); k < |s.queue| && j < |s.queue| && j != k
    ensures Before(s.queue[FirstOfType(s.queue, ReplyType(s.server.sid))], s.queue[j])
  {
    var mtype := ReplyType(s.server.sid);
    TypesTell(s.asked, s.peak, s.queue[FirstOfType(s.queue, mtype)], s.server.sid);
    if s.queue[j].processed {
      FirstIsOldest(s.asked, s.peak, s.queue, mtype, j);
    }
  }

  lemma PollGenuine(s: State)
    requires AllGenuine(s) && s.server.Polling? && s.server.sid + s.peak <= 32765
    ensures AllGenuine(PollStep(s))
  {
    var k := FirstOfType(s.queue, ReplyType(s.server.sid));
    if k < |s.queue| {
      TypesTell(s.asked, s.peak, s.queue[k], s.server.sid);
    }
  }

  lemma TakenGoesLast(answered: seq<Taken>, queue: seq<Message>, hands: seq<Hand>, k: nat, polled: nat)
    requires k < |queue| && queue[k].processed && HandsOrdered(hands, queue)
    ensures AnsweredOrdered(answered) && AnsweredBeforeQueue(answered, queue) ==>
          AnsweredOrdered(answered + [Taken(polled, queue[k])])
    ensures AnsweredBeforeHands(answered, hands) ==> AnsweredBeforeHands(answered + [Taken(polled, queue[k])], hands)
  {
    assert forall i :: 0 <= i < |hands| && hands[i].Full? ==> Around(hands[i].m, queue[k]);
  }

  lemma TakenGoesBeforeQueue(answered: seq<Taken>, queue: seq<Message>, k: nat, polled: nat)
    requires k < |queue| && AnsweredBeforeQueue(answered, queue)
    requires forall j :: 0 <= j < |queue| && j != k ==> Before(queue[k], queue[j])
    ensures AnsweredBeforeQueue(answered + [Taken(polled, queue[k])], Without(queue, k))
  {
    var rest := Without(queue, k);
    assert forall j :: 0 <= j < |rest| ==> rest[j] == queue[if j < k then j else j + 1];
  }

  lemma HandsStayOrdered(hands: seq<Hand>, queue: seq<Message>, k: nat)
    requires HandsOrdered(hands, queue) && k < |queue|
    ensures HandsOrdered(hands, Without(queue, k))
  {
    var rest := Without(queue, k);
    assert forall j :: 0 <= j < |rest| ==> rest[j] == queue[if j < k then j else j + 1];
  }

  lemma PollOrdered(s: State)
    requires Traffic(s) && s.server.Polling? && s.server.sid + s.peak <= 32765
    ensures AllOrdered(PollStep(s))
  {
    var k := FirstOfType(s.queue, ReplyType(s.server.sid));
    if k < |s.queue| {
      TypesTell(s.asked, s.peak, s.queue[k], s.server.sid);
      WithoutOrdered(s.queue, k);
      HandsStayOrdered(s.hands, s.queue, k);
      forall j | 0 <= j < |s.queue| && j != k ensures Before(s.queue[k], s.queue[j]) {
        TakenIsOldest(s, j);
      }
      TakenGoesLast(s.answered, s.queue, s.hands, k, s.server.sid);
      TakenGoesBeforeQueue(s.answered, s.queue, k, s.server.sid);
    }
  }

  // A service takes a request.

  lemma TakeGenuine(s: State, i: nat)
    requires AllGenuine(s) && i < |s.hands| && i + s.peak <= 32765 && s.hands[i].Empty?
    ensures AllGenuine(TakeStep(s, i))
  {
    var k := FirstOfType(s.queue, RequestType(i));
    if k < |s.queue| {
      TypesTell(s.asked, s.peak, s.queue[k], i);
    }
  }

  lemma RequestIsBetween(s: State, i: nat, j: nat)
    requires Traffic(s) && i < |s.hands| && i + s.peak <= 32765
    requires var k := FirstOfType(s.queue, RequestType(i)); k < |s.queue| && j < |s.queue| && j != k
    ensures Around(s.queue[FirstOfType(s.queue, RequestType(i))], s.queue[j])
  {
    TypesTell(s.asked, s.peak, s.queue[FirstOfType(s.queue, RequestType(i))], i);
    if !s.queue[j].processed {
      FirstIsOldest(s.asked, s.peak, s.queue, RequestType(i), j);
    }
  }

  lemma TakeOrdered(s: State, i: nat)
    requires Traffic(s) && i < |s.hands| && i + s.peak <= 32765 && s.hands[i].Empty?
    ensures AllOrdered(TakeStep(s, i))
  {
    var k := FirstOfType(s.queue, RequestType(i));
    if k < |s.queue| {
      WithoutOrdered(s.queue, k);
      forall j | 0 <= j < |s.queue| && j != k ensures Around(s.queue[k], s.queue[j]) {
        RequestIsBetween(s, i, j);
      }
    }
  }

  // A service answers.

  lemma AnswerGenuine(s: State, i: nat, ok: bool)
    requires AllGenuine(s) && i < |s.hands| && s.hands[i].Full?
    ensures AllGenuine(AnswerStep(s, i, ok))
  {
    assert Genuine(s.asked, s.peak, s.hands[i].m);
  }

  lemma AnswerJoinsQueue(queue: seq<Message>, hand: Message, a: Message)
    requires QueueOrdered(queue) && a.processed && a.sid == hand.sid && a.stamp == hand.stamp
    requires forall j :: 0 <= j < |queue| ==> Around(hand, queue[j])
    ensures QueueOrdered(queue + [a])
  {
  }

  lemma AnswerLeavesHand(hands: seq<Hand>, i: nat, queue: seq<Message>, a: Message)
    requires HandsOrdered(hands, queue) && i < |hands| && hands[i].Full? && a.sid == hands[i].m.sid
    requires forall h :: 0 <= h < |hands| && h != i && hands[h].Full? ==> hands[h].m.sid != a.sid
    ensures HandsOrdered(hands[i := Empty], queue) && HandsOrdered(hands[i := Empty], queue + [a])
  {
  }

  lemma AnswerFollowsTaken(answered: seq<Taken>, hands: seq<Hand>, i: nat, queue: seq<Message>, a: Message)
    requires AnsweredBeforeQueue(answered, queue) && AnsweredBeforeHands(answered, hands)
    requires i < |hands| && hands[i].Full? && a.sid == hands[i].m.sid && a.stamp == hands[i].m.stamp
    ensures AnsweredBeforeQueue(answered, queue + [a]) && AnsweredBeforeHands(answered, hands[i := Empty])
  {
    assert forall j :: 0 <= j < |answered| ==> Before(answered[j].m, hands[i].m);
  }

  lemma AnswerOrdered(s: State, i: nat, ok: bool)
    requires Traffic(s) && i < |s.hands| && s.hands[i].Full?
    ensures AllOrdered(AnswerStep(s, i, ok))
  {
    var m := s.hands[i].m;
    AnswerJoinsQueue(s.queue, m, Answer(i, m));
    AnswerLeavesHand(s.hands, i, s.queue, Answer(i, m));
    AnswerFollowsTaken(s.answered, s.hands, i, s.queue, Answer(i, m));
  }

  // The pool changes its size.

  lemma ResizeKeepsTraffic(s: State, hands: seq<Hand>, peak: nat, largest: nat)
    requires Traffic(s) && peak >= s.peak
    requires forall i :: 0 <= i < |hands| && hands[i].Full? ==> i < |s.hands| && hands[i] == s.hands[i]
    ensures Traffic(s.(hands := hands, peak := peak, largest := largest))
  {
  }

  lemma ConnectKeepsTraffic(s: State, c: nat, ok: bool)
    requires Traffic(s) && c < |s.clients|
    ensures Traffic(ConnectStep(s, c, ok))
  {
    var t := ConnectStep(s, c, ok);
    if s.server == Listening && !s.clients[c].Connected? && s.block > 0 {
      ResizeKeepsTraffic(s, t.hands, t.peak, t.largest);
    }
  }

  lemma CloseKeepsTraffic(s: State, c: nat)
    requires Traffic(s) && c < |s.clients|
    ensures Traffic(CloseStep(s, c))
  {
    var t := CloseStep(s, c);
    ResizeKeepsTraffic(s, t.hands, t.peak, t.largest);
  }

  lemma DataKeepsTraffic(s: State, c: nat, text: string, ok: bool)
    requires Traffic(s) && c < |s.clients| && (s.clients[c].Connected? ==> s.clients[c].sid < s.peak)
    ensures Traffic(DataStep(s, c, text, ok))
  {
    if s.server == Listening && s.clients[c].Connected? && ok {
      RequestGenuine(s.asked, s.peak, s.queue, s.hands, s.answered, s.clients[c].sid, text);
      RequestOrdered(s.asked, s.peak, s.queue, s.hands, s.answered, Request(s.clients[c].sid, text, |s.asked|));
    }
  }

  lemma StepKeepsTraffic(s: State, a: Action)
    requires PoolInv(s) && Traffic(s) && s.peak + s.largest <= 32766
    ensures Traffic(Step(s, a))
  {
    match a
    case Connect(c, ok) => if c < |s.clients| { ConnectKeepsTraffic(s, c, ok); }
    case Data(c, text, ok) => if c < |s.clients| { DataKeepsTraffic(s, c, text, ok); }
    case Poll => if s.server.Polling? { PollGenuine(s); PollOrdered(s); }
    case Close(c) => if c < |s.clients| { CloseKeepsTraffic(s, c); }
    case Serve(i, ok) =>
      if i < |s.hands| {
        if s.hands[i].Empty? {
          TakeGenuine(s, i);
          TakeOrdered(s, i);
        } else {
          AnswerGenuine(s, i, ok);
          AnswerOrdered(s, i, ok);
        }
      }
  }

  // ---------------------------------------------------------------------------------------------
  // Every run
  // ---------------------------------------------------------------------------------------------

  ghost predicate Inv(s: State) {
    PoolInv(s) && (s.peak + s.largest <= 32766 ==> Traffic(s))
  }

  lemma StepInv(s: State, a: Action)
    requires Inv(s)
    ensures Inv(Step(s, a)) && Step(s, a).block == s.block
  {
    StepKeepsPool(s, a);
    if s.peak + s.largest <= 32766 {
      StepKeepsTraffic(s, a);
    }
  }

  lemma TakeInv(s: State, i: nat)
    requires Inv(s) && i < |s.hands| && s.hands[i] == Empty
    ensures Inv(TakeStep(s, i))
  {
    assert Step(s, Serve(i, true)) == TakeStep(s, i);
    StepInv(s, Serve(i, true));
  }

  lemma AnswerInv(s: State, i: nat, ok: bool)
    requires Inv(s) && i < |s.hands| && s.hands[i].Full?
    ensures Inv(AnswerStep(s, i, ok))
  {
    assert Step(s, Serve(i, ok)) == AnswerStep(s, i, ok);
    StepInv(s, Serve(i, ok));
  }

  lemma InitInv(s: State)
    requires Init(s)
    ensures Inv(s)
  {
    SumZero(s.pool, IsBusy());
    assert Blocks(s.block - s.block, s.block);
  }

  lemma {:induction false} ExecInv(s: State, schedule: seq<Action>)
    requires Init(s)
    ensures Inv(Exec(s, schedule)) && Exec(s, schedule).block == s.block
    decreases |schedule|
  {
    if schedule == [] {
      InitInv(s);
    } else {
      ExecInv(s, schedule[..|schedule| - 1]);
      StepInv(Exec(s, schedule[..|schedule| - 1]), schedule[|schedule| - 1]);
    }
  }

  /** The pool always consists of whole blocks, at least one, and was never larger than the most services
      ever busy at once needed. */
  lemma PoolFitsDemand(s0: State, schedule: seq<Action>)
    requires Init(s0)
    ensures var s := Exec(s0, schedule);
            && s.block == s0.block && |s.pool| % s0.block == 0
            && s0.block <= |s.pool| <= s.largest <= RoundUp(s.peak, s0.block) <= Max(s0.block, s.peak + s0.block - 1)
            && BusyCount(s.pool) <= s.peak
  {
    ExecInv(s0, schedule);
    BlocksDivide(|Exec(s0, schedule).pool|, s0.block);
    RoundUpFits(Exec(s0, schedule).peak, s0.block);
  }

  /** Connected clients hold distinct busy services of the pool, however it grew and shrank. */
  lemma ClientsOwnTheirServices(s0: State, schedule: seq<Action>, c: nat, d: nat)
    requires Init(s0) && c < d < |Exec(s0, schedule).clients|
    ensures var s := Exec(s0, schedule);
            && (s.clients[c].Connected? ==> s.clients[c].sid < |s.pool| && s.pool[s.clients[c].sid] == Busy)
            && (s.clients[c].Connected? && s.clients[d].Connected? ==> s.clients[c].sid != s.clients[d].sid)
  {
    ExecInv(s0, schedule);
  }

  /** A service works only on unprocessed requests to itself, as a client wrote them, and the server took for
      an answer of a service only that. */
  ghost predicate Routed(s: State) {
    && (forall i :: 0 <= i < |s.hands| && s.hands[i].Full? ==>
          var m := s.hands[i].m;
          !m.processed && m.stamp < |s.asked| && s.asked[m.stamp] == Asked(i, m.data))
    && (forall k :: 0 <= k < |s.answered| ==>
          var m := s.answered[k].m;
          && m.processed && m.stamp < |s.asked|
          && s.asked[m.stamp].sid == s.answered[k].polled && IsMarked(s.asked[m.stamp].text, m.data))
  }

  /** Messages are routed right while the largest pool and the most services ever busy at once add up to at
      most 32766; in particular while there were never more than 16383 services. */
  lemma MessagesGoWhereTheyBelong(s0: State, schedule: seq<Action>)
    requires Init(s0) && Exec(s0, schedule).peak + Exec(s0, schedule).largest <= 32766
    ensures Routed(Exec(s0, schedule))
  {
    ExecInv(s0, schedule);
    var s := Exec(s0, schedule);
    forall k | 0 <= k < |s.answered|
      ensures Genuine(s.asked, s.peak, s.answered[k].m) && s.answered[k].m.processed
      ensures IsMarked(s.asked[s.answered[k].m.stamp].text, s.answered[k].m.data)
    {
      ProcessMarks(s.asked[s.answered[k].m.stamp].text);
    }
  }

  /** Then the server also gets the answers of each service in the order of the requests, each at most once. */
  lemma AnswersKeepTheOrder(s0: State, schedule: seq<Action>, j: nat, k: nat)
    requires Init(s0) && Exec(s0, schedule).peak + Exec(s0, schedule).largest <= 32766
    requires j < k < |Exec(s0, schedule).answered|
    ensures var s := Exec(s0, schedule);
            s.answered[j].polled == s.answered[k].polled ==> s.answered[j].m.stamp < s.answered[k].m.stamp
  {
    ExecInv(s0, schedule);
    var s := Exec(s0, schedule);
    assert s.answered[j].m.sid == s.answered[j].polled && s.answered[k].m.sid == s.answered[k].polled;
    assert Before(s.answered[j].m, s.answered[k].m);
  }

  // ---------------------------------------------------------------------------------------------
  // The load
  // ---------------------------------------------------------------------------------------------

  function IsConnected(): Client -> nat {
    (x: Client) => if x.Connected? then 1 else 0
  }

  function Refused(a: Action): nat {
    if a.Connect? && !a.ok then 1 else 0
  }

  /** How many connect replies fail in a schedule.  The service that each of them announces stays busy for
      ever, since no client knows that it has it. */
  function Refusals(schedule: seq<Action>): nat
    decreases |schedule|
  {
    if schedule == [] then 0 else Refusals(schedule[..|schedule| - 1]) + Refused(schedule[|schedule| - 1])
  }

  /** A step makes no more services busy than it connects clients or refuses replies. */
  lemma StepBusy(s: State, a: Action)
    requires PoolInv(s)
    ensures var t := Step(s, a);
            && |t.clients| == |s.clients|
            && BusyCount(t.pool) + Sum(s.clients, IsConnected())
               <= BusyCount(s.pool) + Sum(t.clients, IsConnected()) + Refused(a)
            && t.peak <= Max(s.peak, BusyCount(t.pool))
  {
    hide Sum;
    match a
    case Connect(c, ok) =>
      if c < |s.clients| && s.server == Listening && !s.clients[c].Connected? {
        ConnectCounts(s.pool, s.block);
        SumUpdate(s.clients, c, Connected(FirstAvailable(s.pool)), IsConnected());
      }
    case Close(c) =>
      if c < |s.clients| && s.server == Listening && s.clients[c].Connected? {
        CloseCounts(s.pool, s.clients[c].sid, s.block);
        SumUpdate(s.clients, c, Outside, IsConnected());
      }
    case _ =>
  }

  /** Never are more services busy than there are clients and refused replies. */
  lemma {:induction false} BusyAtMost(s0: State, schedule: seq<Action>)
    requires Init(s0)
    ensures var s := Exec(s0, schedule);
            && |s.clients| == |s0.clients|
            && BusyCount(s.pool) <= Sum(s.clients, IsConnected()) + Refusals(schedule)
            && s.peak <= |s0.clients| + Refusals(schedule)
    decreases |schedule|
  {
    if schedule == [] {
      SumZero(s0.pool, IsBusy());
    } else {
      var before, a := schedule[..|schedule| - 1], schedule[|schedule| - 1];
      BusyAtMost(s0, before);
      ExecInv(s0, before);
      StepBusy(Exec(s0, before), a);
      SumAtMost(Exec(s0, schedule).clients, IsConnected());
      hide *;
    }
  }

  /** `n` services in use fit into the message types when a pool just large enough for them does. */
  predicate Fits(n: nat, block: nat)
    requires block > 0
  {
    n + RoundUp(n, block) <= 32766
  }

  lemma FitsBelow(m: nat, n: nat, block: nat)
    requires block > 0 && m <= n && Fits(n, block)
    ensures Fits(m, block)
  {
    RoundUpGrows(m, n, block);
  }

  /** Few enough clients and refused replies: every message goes where it belongs, and in order. */
  lemma FewClientsKeepApart(s0: State, schedule: seq<Action>)
    requires Init(s0) && Fits(|s0.clients| + Refusals(schedule), s0.block)
    ensures Routed(Exec(s0, schedule))
    ensures var taken := Exec(s0, schedule).answered;
            forall j, k :: 0 <= j < k < |taken| && taken[j].polled == taken[k].polled ==>
                  taken[j].m.stamp < taken[k].m.stamp
  {
    BusyAtMost(s0, schedule);
    PoolFitsDemand(s0, schedule);
    FitsBelow(Exec(s0, schedule).peak, |s0.clients| + Refusals(schedule), s0.block);
    MessagesGoWhereTheyBelong(s0, schedule);
    forall j, k | 0 <= j < k < |Exec(s0, schedule).answered|
      ensures var taken := Exec(s0, schedule).answered;
              taken[j].polled == taken[k].polled ==> taken[j].m.stamp < taken[k].m.stamp
    {
      AnswersKeepTheOrder(s0, schedule, j, k);
    }
  }

  // ---------------------------------------------------------------------------------------------
  // No request disappears
  // ---------------------------------------------------------------------------------------------

  function IsFull(hand: Hand): nat {
    if hand.Full? then 1 else 0
  }

  /** Requests that a step loses: one whose answer is refused, or those in the hands of cancelled services. */
  function LostBy(s: State, a: Action): nat {
    match a
    case Serve(i, ok) => if i < |s.hands| && s.hands[i].Full? && !ok then 1 else 0
    case Close(_) =>
      var n := |Step(s, a).pool|;
      if n < |s.hands| then Sum(s.hands[n..], IsFull) else 0
    case _ => 0
  }

  function LostIn(s: State, schedule: seq<Action>): nat
    decreases |schedule|
  {
    if schedule == [] then 0
    else LostIn(s, schedule[..|schedule| - 1]) + LostBy(Exec(s, schedule[..|schedule| - 1]), schedule[|schedule| - 1])
  }

  /** Requests and answers that are somewhere: in the queue, in a service's hands, or taken by the server. */
  function Kept(s: State): nat {
    |s.queue| + Sum(s.hands, IsFull) + |s.answered|
  }

  lemma {:induction false} SplitSum(hands: seq<Hand>, n: nat, k: nat)
    requires n <= |hands| && k <= |hands| - n
    ensures SumTo(hands, n + k, IsFull) == SumTo(hands[..n], n, IsFull) + SumTo(hands[n..], k, IsFull)
  {
    if k == 0 {
      SumToSame(hands, hands[..n], n, IsFull);
    } else {
      SplitSum(hands, n, k - 1);
    }
  }

  lemma {:induction false} EmptyHands(hands: seq<Hand>, more: seq<Hand>, n: nat)
    requires n <= |more| && forall i :: 0 <= i < n ==> more[i] == Empty
    ensures SumTo(hands + more, |hands| + n, IsFull) == Sum(hands, IsFull)
  {
    if n == 0 {
      SumToSame(hands + more, hands, |hands|, IsFull);
    } else {
      EmptyHands(hands, more, n - 1);
    }
  }

  lemma ResizedKeeps(hands: seq<Hand>, n: nat)
    ensures Sum(Resized(hands, n), IsFull) + (if n < |hands| then Sum(hands[n..], IsFull) else 0) == Sum(hands, IsFull)
  {
    if n <= |hands| {
      SplitSum(hands, n, |hands| - n);
    } else {
      EmptyHands(hands, seq(n - |hands|, _ => Empty), n - |hands|);
    }
  }

  lemma ServeKeeps(s: State, i: nat, ok: bool)
    requires i < |s.hands|
    ensures Kept(ServeStep(s, i, ok)) + (if s.hands[i].Full? && !ok then 1 else 0) == Kept(s)
    ensures ServeStep(s, i, ok).asked == s.asked
  {
    hide Sum;
    SumUpdate(s.hands, i, ServeStep(s, i, ok).hands[i], IsFull);
  }

  lemma StepKeeps(s: State, a: Action)
    requires PoolGood(s)
    ensures Kept(Step(s, a)) + LostBy(s, a) + |s.asked| == Kept(s) + |Step(s, a).asked|
  {
    hide PoolGood, Sum, Resized, AfterConnect, AfterClose, ServeStep;
    match a
    case Connect(c, ok) => ConnectKeeps(s, c, ok);
    case Close(c) => CloseKeeps(s, c);
    case Serve(i, ok) => if i < |s.hands| { ServeKeeps(s, i, ok); }
    case _ =>
  }

  lemma ConnectKeeps(s: State, c: nat, ok: bool)
    requires PoolGood(s)
    ensures Kept(Step(s, Connect(c, ok))) == Kept(s)
  {
    ResizedKeeps(s.hands, |AfterConnect(s.pool, s.block)|);
    assert |AfterConnect(s.pool, s.block)| >= |s.pool|;
    hide Sum, Resized, AfterConnect, PoolGood;
  }

  lemma CloseKeeps(s: State, c: nat)
    requires PoolGood(s)
    ensures Kept(Step(s, Close(c))) + LostBy(s, Close(c)) == Kept(s)
  {
    ResizedKeeps(s.hands, |Step(s, Close(c)).pool|);
    assert |s.hands| == |s.pool|;
    hide Sum, Resized, AfterClose, PoolGood;
  }

  /** In every run the requests that were put in the queue are as many as are still in it or in a service's hands, as
      answers were taken, and as were lost: in refused answers and with cancelled services. */
  lemma {:induction false} RequestsConserved(s0: State, schedule: seq<Action>)
    requires Init(s0)
    ensures var s := Exec(s0, schedule); |s.asked| == Kept(s) + LostIn(s0, schedule)
    decreases |schedule|
  {
    if schedule == [] {
      SumZero(s0.hands, IsFull);
    } else {
      RequestsConserved(s0, schedule[..|schedule| - 1]);
      ExecInv(s0, schedule[..|schedule| - 1]);
      StepKeeps(Exec(s0, schedule[..|schedule| - 1]), schedule[|schedule| - 1]);
      hide Kept, LostBy, Step, Init;
    }
  }

  /** The request that a datagram becomes: one of a connected client whose send into the queue succeeds. */
  function Accepted(s: State, a: Action): seq<Asked> {
    match a
    case Data(c, text, ok) =>
      if c < |s.clients| && s.clients[c].Connected? && s.server == Listening && ok
      then [Asked(s.clients[c].sid, text)] else []
    case _ => []
  }

  function AcceptedIn(s: State, schedule: seq<Action>): seq<Asked>
    decreases |schedule|
  {
    if schedule == [] then []
    else
      AcceptedIn(s, schedule[..|schedule| - 1])
        + Accepted(Exec(s, schedule[..|schedule| - 1]), schedule[|schedule| - 1])
  }

  lemma StepAsks(s: State, a: Action)
    ensures Step(s, a).asked == s.asked + Accepted(s, a)
  {
  }

  /** In every run the requests put in the queue are those that the clients sent to their own services and that the
      queue did not refuse, in sending order, with the texts that were typed. */
  lemma {:induction false} AskedAsSent(s0: State, schedule: seq<Action>)
    requires Init(s0)
    ensures Exec(s0, schedule).asked == AcceptedIn(s0, schedule)
    decreases |schedule|
  {
    if schedule == [] {
    } else {
      AskedAsSent(s0, schedule[..|schedule| - 1]);
      StepAsks(Exec(s0, schedule[..|schedule| - 1]), schedule[|schedule| - 1]);
    }
  }

  // ---------------------------------------------------------------------------------------------
  // One service too many
  // ---------------------------------------------------------------------------------------------

  /** `k` refused replies, then the connections of the first `n` clients. */
  function Connects(k: nat, n: nat): (schedule: seq<Action>)
    ensures n == 0 ==> Refusals(schedule) == k
  {
    if n > 0 then Connects(k, n - 1) + [Connect(n - 1, true)]
    else if k > 0 then
      var before := Connects(k - 1, 0);
      assert (before + [Connect(0, false)])[..|before|] == before;
      before + [Connect(0, false)]
    else []
  }

  lemma ExecSnoc(s: State, schedule: seq<Action>, a: Action)
    ensures Exec(s, schedule + [a]) == Step(Exec(s, schedule), a)
    ensures Refusals(schedule + [a]) == Refusals(schedule) + Refused(a)
  {
    assert (schedule + [a])[..|schedule|] == schedule;
  }

  /** The first `k` services are lost, the first `n` clients have the next ones, and nothing was sent. */
  ghost predicate Filled(s: State, k: nat, n: nat) {
    && s.server == Listening && s.queue == [] && s.asked == [] && s.answered == []
    && s.block > 0 && Blocks(|s.pool|, s.block) && |s.pool| == RoundUp(k + n, s.block) && n <= |s.clients|
    && (forall i :: 0 <= i < |s.pool| ==> s.pool[i] == if i < k + n then Busy else Available)
    && |s.hands| == |s.pool| && (forall i :: 0 <= i < |s.hands| ==> s.hands[i] == Empty)
    && (forall c :: 0 <= c < |s.clients| ==> s.clients[c] == if c < n then Connected(k + c) else Outside)
  }

  lemma NextService(pool: seq<Status>, n: nat, block: nat)
    requires block > 0 && Blocks(|pool|, block) && |pool| == RoundUp(n, block)
    requires forall i :: 0 <= i < |pool| ==> pool[i] == if i < n then Busy else Available
    ensures FirstAvailable(pool) == n
    ensures var after := AfterConnect(pool, block);
            && |after| == RoundUp(n + 1, block) && Blocks(|after|, block) && |after| >= |pool|
            && forall i :: 0 <= i < |after| ==> after[i] == if i < n + 1 then Busy else Available
  {
    RoundUpFits(n, block);
    RoundUpFits(n + 1, block);
    RoundUpNext(n, block);
    if n < |pool| {
      assert pool[n] == Available;
    }
  }

  lemma ConnectNext(s: State, k: nat, n: nat, ok: bool)
    requires Filled(s, k, n) && n < |s.clients| && (!ok ==> n == 0)
    ensures var t := Step(s, Connect(n, ok));
            && Filled(t, if ok then k else k + 1, if ok then n + 1 else n)
            && t.block == s.block && |t.clients| == |s.clients|
  {
    NextService(s.pool, k + n, s.block);
  }

  lemma {:induction false} ConnectAll(s0: State, k: nat, n: nat)
    requires Init(s0) && n <= |s0.clients| && s0.clients != []
    ensures var s := Exec(s0, Connects(k, n)); Filled(s, k, n) && s.block == s0.block && |s.clients| == |s0.clients|
    ensures Refusals(Connects(k, n)) == k
    decreases k + n
  {
    if n > 0 {
      hide Exec, Filled, Step;
      ConnectAll(s0, k, n - 1);
      ExecSnoc(s0, Connects(k, n - 1), Connect(n - 1, true));
      ConnectNext(Exec(s0, Connects(k, n - 1)), k, n - 1, true);
    } else if k > 0 {
      hide Exec, Filled, Step;
      ConnectAll(s0, k - 1, 0);
      ExecSnoc(s0, Connects(k - 1, 0), Connect(0, false));
      ConnectNext(Exec(s0, Connects(k - 1, 0)), k - 1, 0, false);
    } else {
      assert Blocks(s0.block - s0.block, s0.block);
    }
  }

  /** Client `c` sends to its service, which takes the request and answers. */
  lemma AnswerInQueue(s: State, k: nat, n: nat, c: nat)
    requires Filled(s, k, n) && c < n && k + c < |s.hands|
    ensures var a := k + c;
            var t := Step(Step(Step(s, Data(c, "a", true)), Serve(a, true)), Serve(a, true));
            t.queue == [Answer(a, Request(a, "a", 0))] && t.hands == s.hands
  {
    var a, request := k + c, Request(k + c, "a", 0);
    assert s.clients[c] == Connected(a);
    var s1 := Step(s, Data(c, "a", true));
    assert s1.queue == [request] && s1.hands == s.hands;
    assert FirstOfType(s1.queue, RequestType(a)) == 0;
    var s2 := Step(s1, Serve(a, true));
    assert s2.queue == [] && s2.hands == s.hands[a := Full(request)];
  }

  /** A service takes an answer that is of the type of its requests. */
  lemma AnswerGoesAstray(s: State, i: nat, m: Message)
    requires s.queue == [m] && m.processed && m.mtype == RequestType(i) && i < |s.hands| && s.hands[i] == Empty
    ensures !Routed(Step(s, Serve(i, true)))
  {
    assert FirstOfType(s.queue, RequestType(i)) == 0;
    assert Step(s, Serve(i, true)).hands[i] == Full(m);
  }

  lemma FourMore(s0: State, schedule: seq<Action>, a: Action, b: Action, c: Action, d: Action)
    returns (longer: seq<Action>)
    ensures Exec(s0, longer) == Step(Step(Step(Step(Exec(s0, schedule), a), b), c), d)
    ensures Refusals(longer) == Refusals(schedule) + Refused(a) + Refused(b) + Refused(c) + Refused(d)
  {
    hide *;
    ExecSnoc(s0, schedule, a);
    longer := schedule + [a];
    ExecSnoc(s0, longer, b);
    longer := longer + [b];
    ExecSnoc(s0, longer, c);
    longer := longer + [c];
    ExecSnoc(s0, longer, d);
    longer := longer + [d];
  }

  lemma AstrayFromFilled(s: State, k: nat, n: nat, i: nat)
    requires Filled(s, k, n) && n > 0 && i < |s.hands| && i + (k + n - 1) == 32765
    ensures var a := Serve(k + n - 1, true);
            !Routed(Step(Step(Step(Step(s, Data(n - 1, "a", true)), a), a), Serve(i, true)))
  {
    var a := k + n - 1;
    assert a < |s.hands| && s.hands[i] == Empty by {
      RoundUpFits(k + n, s.block);
    }
    var answer := Answer(a, Request(a, "a", 0));
    assert answer.processed && answer.mtype == RequestType(i);
    hide *;
    AnswerInQueue(s, k, n, n - 1);
    AnswerGoesAstray(Step(Step(Step(s, Data(n - 1, "a", true)), Serve(a, true)), Serve(a, true)), i, answer);
  }

  /** When the services in use do not fit, some run sends a service the answer of another one as a request. */
  lemma AnswerTakenForRequest(s0: State, refused: nat) returns (schedule: seq<Action>)
    requires Init(s0) && s0.clients != [] && !Fits(|s0.clients| + refused, s0.block)
    ensures Refusals(schedule) <= refused && !Routed(Exec(s0, schedule))
  {
    var all := |s0.clients| + refused;
    var m := if all <= 32766 then all else 32766;
    var k := if refused < m then refused else m - 1;
    var n := m - k;
    var i := 32766 - m;
    hide Exec, Connects, Refusals, Routed, Step;
    ConnectAll(s0, k, n);
    RoundUpFits(m, s0.block);
    AstrayFromFilled(Exec(s0, Connects(k, n)), k, n, i);
    hide *;
    schedule := FourMore(s0, Connects(k, n), Data(n - 1, "a", true), Serve(m - 1, true), Serve(m - 1, true),
                         Serve(i, true));
  }

  /** With at least one client: every run with at most so many refused connect replies routes all messages
      right if and only if the clients and the refusals together fit. */
  lemma RoutedExactlyWhenFitting(s0: State, refused: nat)
    requires Init(s0) && s0.clients != []
    ensures (forall schedule :: Refusals(schedule) <= refused ==> Routed(Exec(s0, schedule)))
            <==> Fits(|s0.clients| + refused, s0.block)
  {
    if Fits(|s0.clients| + refused, s0.block) {
      forall schedule | Refusals(schedule) <= refused ensures Routed(Exec(s0, schedule)) {
        FitsBelow(|s0.clients| + Refusals(schedule), |s0.clients| + refused, s0.block);
        FewClientsKeepApart(s0, schedule);
      }
    } else {
      var schedule := AnswerTakenForRequest(s0, refused);
    }
  }

  /** With the program's block of 10 the limit is 16380. */
  lemma FitsUpTo16380(n: nat, block: nat)
    requires block == 10
    ensures Fits(n, block) <==> n <= 16380
  {
    RoundUpFits(n, block);
    BlocksDivide(RoundUp(n, block), block);
  }

  /** Clients 0 and 1 have services `m` and `m + 1`: request, look, request, look. */
  lemma TwoExchanges(s: State, m: nat)
    requires Filled(s, m, 2) && RequestType(m + 1) == ReplyType(m) && RequestType(m + 1) != ReplyType(m + 1)
    ensures Step(Step(Step(Step(s, Data(1, "a", true)), Poll), Data(0, "b", true)), Poll).answered
            == [Taken(m, Request(m + 1, "a", 0))]
  {
    assert s.clients[1] == Connected(m + 1) && s.clients[0] == Connected(m);
    var request := Request(m + 1, "a", 0);
    var s2 := Step(s, Data(1, "a", true));
    assert s2.queue == [request] && s2.server == Polling(m + 1);
    assert FirstOfType(s2.queue, ReplyType(m + 1)) == 1;
    var s3 := Step(s2, Poll);
    assert s3.queue == [request] && s3.server == Listening && s3.answered == [] && s3.clients == s.clients;
    var s4 := Step(s3, Data(0, "b", true));
    assert s4.queue[0] == request && s4.server == Polling(m) && s4.answered == [];
    assert FirstOfType(s4.queue, ReplyType(m)) == 0;
  }

  /** Two clients are enough, whatever the block, since refused replies use services up: after 16382 of them
      the server takes the request to service 16383, as its client wrote it, for the answer of service 16382. */
  lemma RequestTakenForAnswer(s0: State, m: nat) returns (schedule: seq<Action>)
    requires Init(s0) && |s0.clients| >= 2 && m == 16382
    ensures Refusals(schedule) == m
    ensures Exec(s0, schedule).answered == [Taken(m, Request(m + 1, "a", 0))]
  {
    ConnectAll(s0, m, 2);
    TwoExchanges(Exec(s0, Connects(m, 2)), m);
    hide Exec, Step, Filled, Connects, Refusals;
    schedule := FourMore(s0, Connects(m, 2), Data(1, "a", true), Poll, Data(0, "b", true), Poll);
  }

  // ---------------------------------------------------------------------------------------------
  // The program, in place
  // ---------------------------------------------------------------------------------------------

  /** The pool as an array that is reallocated, the queue, and the threads and clients around them. */
  class System {
    var services: array<Status>
    var hands: seq<Hand>
    var queue: seq<Message>
    var server: Server
    var clients: seq<Client>
    const block: nat
    var asked: seq<Asked>          // history that numbers the requests
    ghost var peak: nat
    ghost var largest: nat
    ghost var answered: seq<Taken>

    ghost function Model(): State
      reads this, services
    {
      State(block, services[..], hands, queue, server, clients, peak, largest, asked, answered)
    }

    ghost predicate Valid()
      reads this, services
    {
      Inv(Model())
    }

    constructor (block: nat, clientCount: nat)
      requires block > 0
      ensures Valid() && Init(Model()) && fresh(services) && this.block == block && |clients| == clientCount
    {
      services := new Status[block](_ => Available);
      hands := Resized([], block);
      queue, server, clients := [], Listening, seq(clientCount, _ => Outside);
      this.block := block;
      peak, largest, asked, answered := 0, block, [], [];
      new;
      assert services[..] == Idle(block);
      InitInv(Model());
    }

    /** The search for a free service. */
    method FindAvailable() returns (sid: nat)
      ensures sid == FirstAvailable(services[..])
    {
      sid := 0;
      while sid < services.Length && services[sid] != Available
        invariant sid <= services.Length
        invariant FirstFrom(services[..], sid) == FirstAvailable(services[..])
      {
        sid := sid + 1;
      }
    }

    /** A larger array with the old services and a block of new ones. */
    method Grow()
      requires block > 0
      modifies this`services
      ensures fresh(services) && services[..] == old(services[..]) + Idle(block)
    {
      var size := services.Length;
      var larger := new Status[size + block](_ => Available);
      for i := 0 to size
        modifies larger
        invariant larger[..i] == services[..i]
        invariant forall j :: size <= j < larger.Length ==> larger[j] == Available
      {
        larger[i] := services[i];
      }
      assert larger[..] == services[..] + Idle(block);
      services := larger;
    }

    /** Gives the next client a service, from a new block if there is none free. */
    method Assign() returns (sid: nat)
      requires block > 0
      modifies this`services, services
      ensures services == old(services) || fresh(services)
      ensures services[..] == AfterConnect(old(services[..]), block)
      ensures sid == FirstAvailable(old(services[..])) && sid < services.Length
    {
      sid := FindAvailable();
      if sid == services.Length {
        Grow();
      }
      services[sid] := Busy;
      assert services[..] == AfterConnect(old(services[..]), block);
    }

    /** Whether all services of the last block are free. */
    method LastBlockIsFree() returns (free: bool)
      requires services.Length > block
      ensures free == LastBlockFree(services[..], block)
    {
      free := true;
      var i := services.Length - block;
      while i < services.Length && free
        invariant services.Length - block <= i <= services.Length
        invariant free ==> forall j :: services.Length - block <= j < i ==> services[j] == Available
        invariant !free ==> exists j :: services.Length - block <= j < services.Length && services[j] != Available
      {
        if services[i] != Available {
          free := false;
        }
        i := i + 1;
      }
    }

    /** Takes a service back, and a smaller array if the last block is idle. */
    method Release(sid: nat)
      requires sid < services.Length
      modifies this`services, services
      ensures services == old(services) || fresh(services)
      ensures services[..] == AfterClose(old(services[..]), sid, block)
    {
      services[sid] := Available;
      assert services[..] == old(services[..])[sid := Available];
      if services.Length > block {
        var free := LastBlockIsFree();
        if free {
          var smaller := new Status[services.Length - block](_ => Available);
          for i := 0 to smaller.Length
            modifies smaller
            invariant smaller[..i] == services[..i]
          {
            smaller[i] := services[i];
          }
          assert smaller[..] == services[..][..|services[..]| - block];
          services := smaller;
        }
      }
    }

    /** A connect request of client `c`; `ok` tells whether the answer reaches it. */
    method ConnectClient(c: nat, ok: bool)
      requires Valid() && c < |clients| && server == Listening && clients[c] == Outside
      modifies this, services
      ensures Valid() && Model() == ConnectStep(old(Model()), c, ok)
      ensures services == old(services) || fresh(services)
    {
      assert block > 0;
      hide Inv;
      StepInv(Model(), Connect(c, ok));
      ghost var next := ConnectStep(Model(), c, ok);
      var sid := Assign();
      hands := Resized(hands, services.Length);
      if ok {
        clients := clients[c := Connected(sid)];
      }
      peak, largest := Max(peak, BusyCount(services[..])), Max(largest, services.Length);
      assert services[..] == next.pool && hands == next.hands && clients == next.clients;
      assert Model() == next;
    }

    /** A data message of client `c`; `ok` tells whether the queue takes it. */
    method Forward(c: nat, text: string, ok: bool)
      requires Valid() && c < |clients| && server == Listening && clients[c].Connected?
      modifies this`queue, this`server, this`asked
      ensures Valid() && Model() == DataStep(old(Model()), c, text, ok)
    {
      hide Inv;
      StepInv(Model(), Data(c, text, ok));
      if ok {
        var sid := clients[c].sid;
        queue := queue + [Message(RequestType(sid), text, sid, |asked|, false)];
        server := Polling(sid);
        asked := asked + [Asked(sid, text)];
      }
    }

    /** `receive_message_from_queue`: the first message of the type, if there is one. */
    method Receive(mtype: int) returns (found: Hand)
      modifies this`queue
      ensures queue == Without(old(queue), FirstOfType(old(queue), mtype))
      ensures FirstOfType(old(queue), mtype) < |old(queue)| ==>
            found == Full(old(queue)[FirstOfType(old(queue), mtype)])
      ensures FirstOfType(old(queue), mtype) == |old(queue)| ==> found == Empty
    {
      var k := 0;
      while k < |queue| && queue[k].mtype != mtype
        invariant k <= |queue|
        invariant FirstOfTypeFrom(queue, mtype, k) == FirstOfType(queue, mtype)
      {
        k := k + 1;
      }
      if k < |queue| {
        found := Full(queue[k]);
        queue := queue[..k] + queue[k + 1..];
      } else {
        found := Empty;
      }
    }

    /** The server looks once for the answer of the service that it asked. */
    method TakeAnswer()
      requires Valid() && server.Polling?
      modifies this`queue, this`server, this`answered
      ensures Valid() && Model() == PollStep(old(Model()))
    {
      hide Inv;
      StepInv(Model(), Poll);
      var found := Receive(ReplyType(server.sid));
      if found.Full? {
        answered := answered + [Taken(server.sid, found.m)];
      }
      server := Listening;
    }

    /** The close message of client `c`. */
    method CloseClient(c: nat)
      requires Valid() && c < |clients| && server == Listening && clients[c].Connected?
      modifies this, services
      ensures Valid() && Model() == CloseStep(old(Model()), c)
      ensures services == old(services) || fresh(services)
    {
      assert services[..][clients[c].sid] == Busy;
      hide Inv;
      StepInv(Model(), Close(c));
      Release(clients[c].sid);
      hands := Resized(hands, services.Length);
      clients := clients[c := Outside];
    }

    /** Service `i` takes the first message of its type. */
    method TakeRequest(i: nat)
      requires Valid() && i < |hands| && hands[i] == Empty
      modifies this`queue, this`hands
      ensures Valid() && Model() == TakeStep(old(Model()), i)
    {
      hide Inv;
      TakeInv(Model(), i);
      var found := Receive(RequestType(i));
      hands := hands[i := found];
    }

    /** Service `i` sends its answer; `ok` tells whether the queue takes it. */
    method SendAnswer(i: nat, ok: bool)
      requires Valid() && i < |hands| && hands[i].Full?
      modifies this`queue, this`hands
      ensures Valid() && Model() == AnswerStep(old(Model()), i, ok)
    {
      hide Inv;
      AnswerInv(Model(), i, ok);
      var m := hands[i].m;
      if ok {
        queue := queue + [Message(ReplyType(i), Process(m.data), m.sid, m.stamp, true)];
      }
      hands := hands[i := Empty];
    }
  }
}
