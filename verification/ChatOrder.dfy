/** The order of posts in the chat of task1.c and task2.c: the queue keeps it, the slots in shared memory do not. */
module ChatOrder {
  import opened Chat
  import opened Counting
  import opened Numerals
  import opened Registration
  import opened Runs
  import opened SlotRuns
  import SharedMailbox
  import SlotChat

  /** Two posts that both clients displayed came in the same order to both. */
  ghost predicate Agree(a: seq<Message>, b: seq<Message>) {
    forall i, j, i', j' ::
      0 <= i < j < |a| && 0 <= i' < |b| && 0 <= j' < |b| && a[i].tag == b[i'].tag && a[j].tag == b[j'].tag ==> i' < j'
  }

  ghost predicate AllAgree(s: State) {
    forall c, d :: 0 <= c < |s.clients| && 0 <= d < |s.clients| ==> Agree(s.clients[c].shown, s.clients[d].shown)
  }

  lemma QueueAgrees(s0: State, schedule: seq<Action>)
    requires Init(s0) && s0.fifo
    ensures AllAgree(Exec(s0, schedule))
  {
    var s := Exec(s0, schedule);
    forall c, d | 0 <= c < |s.clients| && 0 <= d < |s.clients| ensures Agree(s.clients[c].shown, s.clients[d].shown) {
      ShownAscending(s0, schedule, c);
      ShownAscending(s0, schedule, d);
    }
  }

  // ---------------------------------------------------------------------------------------------
  // With one slot
  // ---------------------------------------------------------------------------------------------

  function ThroughQueue(c: State): State {
    c.(fifo := true)
  }

  /** With one message under way the first of a type is the only one. */
  lemma NoChoice(c: State, b: Action)
    requires |c.box| <= 1
    ensures SlotChat.OpOf(ThroughQueue(c), b) == SlotChat.OpOf(c, b)
  {
  }

  lemma SameStep(c: State, b: Action)
    requires |c.box| <= 1
    ensures Step(ThroughQueue(c), b) == ThroughQueue(Step(c, b))
  {
    NoChoice(c, b);
    if !c.lossless || b.ok {
      SlotChat.StepParts(c, b);
      SlotChat.StepParts(ThroughQueue(c), b);
      hide Step, SlotChat.OpOf, ServerAfter, TakenAfter, ServerPast, ClientAfter, ClientPast, Apply;
    }
  }

  lemma AtMostOne(s: SlotChat.State)
    requires SlotChat.Tied(s) && !s.chat.fifo && |s.slots| <= 1
    ensures |s.chat.box| <= 1
  {
    SharedMailbox.BagSize(s.slots);
    assert |multiset(s.chat.box)| == |s.chat.box|;
  }

  lemma {:induction false} OneSlotIsAQueue(s0: SlotChat.State, schedule: seq<Action>)
    requires SlotChat.Init(s0) && !s0.chat.fifo && |s0.slots| <= 1
    ensures Reaches(Step, ThroughQueue(s0.chat), ThroughQueue(SlotChat.Exec(s0, schedule).chat))
    decreases |schedule|
  {
    if schedule == [] {
      ReachesSelf(Step, ThroughQueue(s0.chat));
    } else {
      var before, a := schedule[..|schedule| - 1], schedule[|schedule| - 1];
      var s := SlotChat.Exec(s0, before);
      OneSlotIsAQueue(s0, before);
      SlotChat.RefinesChat(s0, before);
      AtMostOne(s);
      SlotChat.StepTied(s, a);
      var t := SlotChat.Step(s, a);
      if t.chat != s.chat {
        var b :| t.chat == Step(s.chat, b);
        SameStep(s.chat, b);
        ReachesNext(Step, ThroughQueue(s0.chat), ThroughQueue(s.chat), b);
      }
    }
  }

  lemma OneSlotAgrees(s0: SlotChat.State, schedule: seq<Action>)
    requires SlotChat.Init(s0) && !s0.chat.fifo && |s0.slots| <= 1
    ensures AllAgree(SlotChat.Exec(s0, schedule).chat)
  {
    OneSlotIsAQueue(s0, schedule);
    var q0, q := ThroughQueue(s0.chat), ThroughQueue(SlotChat.Exec(s0, schedule).chat);
    var choices :| Run(Step, q0, choices) == q;
    QueueAgrees(q0, choices);
  }

  // ---------------------------------------------------------------------------------------------
  // With two clients or two ids
  // ---------------------------------------------------------------------------------------------

  predicate SignedWithin(m: Message, n: nat) {
    && (m.mtype == ID_SET ==> Atoi(m.text) < n)
    && (m.mtype == POST_REQUEST ==> 0 <= m.id < n)
  }

  /** Only the first `n` ids are in use, and nobody is sent its own post. */
  ghost predicate Within(s: State, n: nat) {
    && (forall j :: 0 <= j < |s.taken| && s.taken[j] ==> j < n)
    && (forall c :: 0 <= c < |s.clients| ==> s.clients[c].id < n)
    && (forall k :: 0 <= k < |s.box| ==> SignedWithin(s.box[k], n))
    && (s.server.Approve? ==> s.server.id < n)
    && LogWithin(s.past, n)
  }

  ghost predicate LogWithin(past: History, n: nat) {
    && |past.recipients| == |past.log|
    && (forall k :: 0 <= k < |past.log| ==> 0 <= past.log[k].id < n)
    && (forall k, x :: 0 <= k < |past.log| && x in past.recipients[k] ==> x < n && x != past.log[k].id)
  }

  lemma ServerLogWithin(past: History, taken: seq<bool>, server: Server, op: Op, n: nat)
    requires LogWithin(past, n) && forall j :: 0 <= j < |taken| && taken[j] ==> j < n
    requires server.Collect? && op.Get? ==> 0 <= op.m.id < n
    ensures LogWithin(ServerPast(past, taken, server, op), n)
  {
  }

  lemma ApplyWithin(box: seq<Message>, op: Op, n: nat)
    requires (forall k :: 0 <= k < |box| ==> SignedWithin(box[k], n)) && (op.Put? ==> SignedWithin(op.m, n))
    ensures forall k :: 0 <= k < |Apply(box, op)| ==> SignedWithin(Apply(box, op)[k], n)
  {
  }

  lemma ServerSigns(s: State, pick: Pick, ok: bool, n: nat)
    requires (forall k :: 0 <= k < |s.box| ==> SignedWithin(s.box[k], n)) && (s.server.Approve? ==> s.server.id < n)
    ensures var op := ServerOp(s, pick, ok);
            && (op.Put? ==> SignedWithin(op.m, n))
            && (s.server.Collect? && op.Get? ==> 0 <= op.m.id < n)
  {
    if s.server.Approve? {
      AtoiDecimal(s.server.id);
    }
  }

  lemma ServerWithin(s: State, pick: Pick, ok: bool, quit: bool, garbage: string, n: nat)
    requires Within(s, n) && (s.server.Assign? && FirstFree(s.taken) < |s.taken| ==> FirstFree(s.taken) < n)
    ensures Within(ServerStep(s, pick, ok, quit, garbage), n)
  {
    var op, t := ServerOp(s, pick, ok), ServerStep(s, pick, ok, quit, garbage);
    ServerSigns(s, pick, ok, n);
    ApplyWithin(s.box, op, n);
    ServerLogWithin(s.past, s.taken, s.server, op, n);
    ServerParts(s, pick, ok, quit, garbage);
    hide ServerOp, Apply, LogWithin, ServerPast;
  }

  lemma ClientWithin(s: State, c: nat, pick: Pick, ok: bool, stop: bool, typed: Typed, n: nat)
    requires Within(s, n) && c < |s.clients| && GoodClient(|s.taken|, s.clients[c])
    ensures Within(ClientStep(s, c, pick, ok, stop, typed), n)
  {
    var x := s.clients[c];
    var op := ClientOp(x, c, s.box, s.fifo, pick, ok, stop, typed);
    ClientSigns(|s.taken|, x, c, s.box, s.fifo, pick, ok, stop, typed, s.past, n);
    ApplyWithin(s.box, op, n);
    hide ClientOp, Apply, ClientAfter, ClientPast;
  }

  lemma ClientSigns(k: nat, x: Client, c: nat, box: seq<Message>, fifo: bool, pick: Pick, ok: bool, stop: bool,
                    typed: Typed, past: History, n: nat)
    requires GoodClient(k, x) && x.id < n && forall k :: 0 <= k < |box| ==> SignedWithin(box[k], n)
    ensures var op := ClientOp(x, c, box, fifo, pick, ok, stop, typed);
            && (op.Put? ==> SignedWithin(op.m, n)) && ClientAfter(x, op, stop, typed).id < n
            && ClientPast(past, x, op).log == past.log && ClientPast(past, x, op).recipients == past.recipients
  {
  }

  lemma {:induction false} FirstIdsInUse(s0: State, schedule: seq<Action>, n: nat)
    requires Init(s0) && (|s0.taken| <= n || (s0.lossless && |s0.clients| <= n))
    ensures Within(Exec(s0, schedule), n)
    decreases |schedule|
  {
    if schedule == [] {
    } else {
      var before := schedule[..|schedule| - 1];
      var s := Exec(s0, before);
      FirstIdsInUse(s0, before, n);
      ExecInv(s0, before);
      AskingIsAnswered(s0, before);
      IdsAreCounted(s0, before);
      if s.server.Assign? && s0.lossless {
        IdIsFree(s);
      }
      hide Within, Inv, Balanced, IdsCounted;
      match schedule[|schedule| - 1]
      case Serve(pick, ok, quit, garbage) => ServerWithin(s, pick, ok, quit, garbage, n);
      case Act(c, pick, ok, stop, typed) => if c < |s.clients| { ClientWithin(s, c, pick, ok, stop, typed, n); }
    }
  }

  /** A copy of the post at place `k` of the log. */
  function Tagged(k: int): Message -> nat {
    (m: Message) => if m.tag == k then 1 else 0
  }

  function TimesShown(k: int): Client -> nat {
    (x: Client) => Sum(x.shown, Tagged(k))
  }

  function TimesIn(k: int): seq<Message> -> nat {
    (ms: seq<Message>) => Sum(ms, Tagged(k))
  }

  /** What was taken for id `x` are copies to it, and all that was taken is displayed. */
  ghost predicate AllShown(clients: seq<Client>, arrived: seq<seq<Message>>, k: int) {
    && (forall x :: 0 <= x < |arrived| ==> CopiesTo(arrived[x], x))
    && Sum(clients, TimesShown(k)) == Sum(arrived, TimesIn(k))
  }

  predicate CopiesTo(ms: seq<Message>, x: nat) {
    forall j :: 0 <= j < |ms| ==> ms[j].mtype == SetAddressee(x) && ms[j].kind == Said
  }

  lemma OneMore(clients: seq<Client>, arrived: seq<seq<Message>>, c: nat, y: Client, x: nat, m: Message, k: int)
    requires AllShown(clients, arrived, k) && c < |clients| && x < |arrived| && y.shown == clients[c].shown + [m]
    requires m.mtype == SetAddressee(x) && m.kind == Said
    ensures AllShown(clients[c := y], arrived[x := arrived[x] + [m]], k)
  {
    hide Sum;
    SumSnoc(clients[c].shown, m, Tagged(k));
    SumSnoc(arrived[x], m, Tagged(k));
    SumUpdate(clients, c, y, TimesShown(k));
    SumUpdate(arrived, x, arrived[x] + [m], TimesIn(k));
  }

  lemma NoMore(clients: seq<Client>, arrived: seq<seq<Message>>, c: nat, y: Client, k: int)
    requires AllShown(clients, arrived, k) && c < |clients| && y.shown == clients[c].shown
    ensures AllShown(clients[c := y], arrived, k)
  {
    SumUpdate(clients, c, y, TimesShown(k));
  }

  lemma ClientShows(s: State, c: nat, pick: Pick, ok: bool, stop: bool, typed: Typed, k: int)
    requires Shape(s) && c < |s.clients| && AllShown(s.clients, s.past.arrived, k)
    ensures var t := ClientStep(s, c, pick, ok, stop, typed); AllShown(t.clients, t.past.arrived, k)
  {
    var x := s.clients[c];
    var op := ClientOp(x, c, s.box, s.fifo, pick, ok, stop, typed);
    var y := ClientAfter(x, op, stop, typed);
    assert GoodClient(|s.past.arrived|, x);
    ClientReceipt(s.past, x, c, s.box, s.fifo, pick, ok, stop, typed);
    assert x.pc == Drain && op.Get? ==> op.m.mtype == SetAddressee(x.id);
    hide AllShown, Shape, ClientOp, ClientAfter, ClientPast;
    if x.pc == Drain && op.Get? && op.m.kind == Said {
      OneMore(s.clients, s.past.arrived, c, y, x.id, op.m, k);
    } else {
      NoMore(s.clients, s.past.arrived, c, y, k);
    }
  }

  lemma {:induction false} ShownIsArrived(s0: State, schedule: seq<Action>, k: int)
    requires Init(s0)
    ensures var s := Exec(s0, schedule); AllShown(s.clients, s.past.arrived, k)
    decreases |schedule|
  {
    if schedule == [] {
      SumZero(s0.clients, TimesShown(k));
      SumZero(s0.past.arrived, TimesIn(k));
    } else {
      var before := schedule[..|schedule| - 1];
      var s := Exec(s0, before);
      ShownIsArrived(s0, before, k);
      ExecInv(s0, before);
      match schedule[|schedule| - 1]
      case Serve(pick, ok, quit, garbage) =>
        ServerLogs(s.past, s.taken, s.server, ServerOp(s, pick, ok));
        ServerParts(s, pick, ok, quit, garbage);
      case Act(c, pick, ok, stop, typed) => if c < |s.clients| { ClientShows(s, c, pick, ok, stop, typed, k); }
    }
  }

  /** Of copies to `x` those of the post at `k` are counted the same. */
  lemma SameCount(ms: seq<Message>, x: nat, k: int)
    requires CopiesTo(ms, x)
    ensures Sum(ms, Tagged(k)) == Sum(ms, Copy(x, k))
  {
    SumBelow(ms, Tagged(k), Copy(x, k));
    SumBelow(ms, Copy(x, k), Tagged(k));
  }

  /** With two ids in use a post goes to one id at most. */
  lemma ShownOnce(s0: State, schedule: seq<Action>, k: int)
    requires Init(s0) && s0.lossless && (|s0.clients| <= 2 || |s0.taken| <= 2)
    ensures Sum(Exec(s0, schedule).clients, TimesShown(k)) <= 1
  {
    var s := Exec(s0, schedule);
    FirstIdsInUse(s0, schedule, 2);
    ShownIsArrived(s0, schedule, k);
    forall x | 0 <= x < |s0.taken|
      ensures |s.past.arrived| == |s0.taken| && TimesIn(k)(s.past.arrived[x]) <= 1
      ensures TimesIn(k)(s.past.arrived[x]) == 1 ==> 0 <= k < |s.past.log| && x in s.past.recipients[k]
    {
      ArrivesIfDue(s0, schedule, k, x);
    }
    ExecInv(s0, schedule);
    var r := if 0 <= k < |s.past.log| then 1 - s.past.log[k].id else 0;
    OneAtMost(s.past.arrived, r, TimesIn(k));
  }

  lemma OneAtMost<T>(s: seq<T>, i: nat, f: T -> nat)
    requires forall j :: 0 <= j < |s| ==> f(s[j]) <= 1 && (j != i ==> f(s[j]) == 0)
    ensures Sum(s, f) <= 1
  {
    if i < |s| {
      SumOnly(s, i, f);
    } else {
      SumZero(s, f);
    }
  }

  lemma ArrivesIfDue(s0: State, schedule: seq<Action>, k: int, x: nat)
    requires Init(s0) && x < |s0.taken|
    ensures var s := Exec(s0, schedule);
            && |s.past.arrived| == |s0.taken| && |s.past.recipients| == |s.past.log|
            && Sum(s.past.arrived[x], Tagged(k)) <= 1
            && (Sum(s.past.arrived[x], Tagged(k)) == 1 ==> 0 <= k < |s.past.log| && x in s.past.recipients[k])
  {
    var s := Exec(s0, schedule);
    ExecInv(s0, schedule);
    ShownIsArrived(s0, schedule, k);
    assert Accounted(s, k, x);
    SameCount(s.past.arrived[x], x, k);
  }

  lemma FewAgree(s0: State, schedule: seq<Action>)
    requires Init(s0) && s0.lossless && (|s0.clients| <= 2 || |s0.taken| <= 2)
    ensures AllAgree(Exec(s0, schedule))
  {
    var s := Exec(s0, schedule);
    forall c, d, i, i' | 0 <= c < |s.clients| && 0 <= d < |s.clients|
        && 0 <= i < |s.clients[c].shown| && 0 <= i' < |s.clients[d].shown|
        && s.clients[c].shown[i].tag == s.clients[d].shown[i'].tag
      ensures c == d && i == i'
    {
      ShownOnce(s0, schedule, s.clients[c].shown[i].tag);
      OnePlace(s.clients, c, d, i, i');
    }
  }

  lemma OnePlace(clients: seq<Client>, c: nat, d: nat, i: nat, j: nat)
    requires c < |clients| && d < |clients| && i < |clients[c].shown| && j < |clients[d].shown|
    requires clients[c].shown[i].tag == clients[d].shown[j].tag
    requires Sum(clients, TimesShown(clients[c].shown[i].tag)) <= 1
    ensures c == d && i == j
  {
    var k := clients[c].shown[i].tag;
    SumPart(clients[c].shown, i, Tagged(k));
    SumPart(clients[d].shown, j, Tagged(k));
    if c != d {
      SumPair(clients, if c < d then c else d, if c < d then d else c, TimesShown(k));
    } else if i != j {
      SumPair(clients[c].shown, if i < j then i else j, if i < j then j else i, Tagged(k));
      SumPart(clients, c, TimesShown(k));
    }
  }

  // ---------------------------------------------------------------------------------------------
  // With two slots: a run that ends in disagreement
  // ---------------------------------------------------------------------------------------------

  function Types(c: nat, text: string): Action {
    Act(c, Nothing, true, false, Text(text))
  }

  function PostOf(x: Client, c: nat, text: string): Message {
    Message(POST_REQUEST, Said, x.name, x.id, text, c)
  }

  /** A client reads in vain, posts, and reads again. */
  lemma PostText(s0: SlotChat.State, c: State, front: seq<Place>, n: nat, text: string) returns (d: State)
    requires Can(s0, c, front) && c.box == [] && front != [] && front[0] == Empty
    requires n < |c.clients| && c.clients[n].pc == Drain && c.clients[n].id >= 0
    requires NoneBefore(front, |front|, SetAddressee(c.clients[n].id))
    ensures var x := c.clients[n];
            && d == c.(clients := c.clients[n := x.(said := x.said + [text])], past := d.past)
            && d.past.log == c.past.log
            && Can(s0, d, front[0 := Holds(PostOf(x, n, text))])
  {
    var x, m := c.clients[n], PostOf(c.clients[n], n, text);
    var u := c.(clients := c.clients[n := x.(pc := Input)]);
    var v := c.(clients := c.clients[n := x.(pc := Entry, said := x.said + [text])],
                past := c.past.(posted := c.past.posted + [m]));
    d := v.(clients := c.clients[n := x.(said := x.said + [text])]);
    assert Step(c, Do(n)) == u;
    assert Step(u, Types(n, text)).(box := []) == v;
    assert Step(v, Do(n)) == d;
    hide Can, Step;
    Idles(s0, c, front, Do(n));
    Puts(s0, u, front, Types(n, text), m, 0);
    Idles(s0, v, front[0 := Holds(m)], Do(n));
  }

  /** The server takes a post; nobody asks for an id. */
  lemma CollectPost(s0: SlotChat.State, c: State, front: seq<Place>, p: Message) returns (d: State)
    requires Can(s0, c, front) && c.box == [] && c.server == Command && front != [] && front[0] == Holds(p)
    requires p.mtype == POST_REQUEST && NoneBefore(front, |front|, ID_REQUEST)
    ensures d == c.(server := Relay(0, p), lastName := p.name, past := d.past) && d.past.log == c.past.log + [p]
    ensures Can(s0, d, front[0 := Empty])
  {
    var u, v := c.(server := Register), c.(server := Collect);
    d := Reading(v, ON, p);
    assert Step(c, ON) == u && Step(u, ON) == v;
    assert d == c.(server := Relay(0, p), lastName := p.name, past := d.past) && d.past.log == c.past.log + [p];
    hide Can, Step, Reading;
    Idles(s0, c, front, ON);
    Idles(s0, u, front, ON);
    Gets(s0, v, front, ON, p, 0);
  }

  /** A copy goes into the first empty slot. */
  lemma RelayCopy(s0: SlotChat.State, c: State, front: seq<Place>, i: nat, j: nat, p: Message) returns (d: State)
    requires Can(s0, c, front) && c.box == [] && c.server == Relay(j, p) && j < |c.taken|
    requires c.taken[j] && p.id != j && TakenBefore(front, i) && front[i] == Empty
    ensures d == c.(server := Relay(j + 1, p))
    ensures Can(s0, d, front[i := Holds(CopyTo(|c.taken|, j, p, |c.past.log| - 1))])
  {
    d := c.(server := Relay(j + 1, p));
    assert Step(c, ON).(box := []) == d;
    hide Can, Step;
    Puts(s0, c, front, ON, CopyTo(|c.taken|, j, p, |c.past.log| - 1), i);
  }

  /** Nobody is left to relay to. */
  lemma {:induction false} RelaySkips(s0: SlotChat.State, c: State, front: seq<Place>, j: nat, p: Message)
    requires Can(s0, c, front) && c.box == [] && c.server == Relay(j, p) && j <= |c.taken|
    requires forall i :: j <= i < |c.taken| ==> !c.taken[i] || p.id == i
    ensures Can(s0, c.(server := Relay(|c.taken|, p)), front)
    decreases |c.taken| - j
  {
    if j == |c.taken| {
      assert c.(server := Relay(|c.taken|, p)) == c;
    } else {
      var d := c.(server := Relay(j + 1, p));
      assert Step(c, ON) == d;
      hide Can, Step;
      Idles(s0, c, front, ON);
      RelaySkips(s0, d, front, j + 1, p);
    }
  }

  /** The relay ends and nobody leaves. */
  lemma RelayEnds(s0: SlotChat.State, c: State, front: seq<Place>, j: nat, p: Message) returns (d: State)
    requires Can(s0, c, front) && c.box == [] && c.server == Relay(j, p) && j <= |c.taken|
    requires forall i :: j <= i < |c.taken| ==> !c.taken[i] || p.id == i
    requires NoneBefore(front, |front|, OUT_CHAT)
    ensures d == c.(server := Command)
    ensures Can(s0, d, front)
  {
    var u, v := c.(server := Relay(|c.taken|, p)), c.(server := Dismiss);
    d := c.(server := Command);
    assert Step(u, ON) == v && Step(v, ON) == d;
    hide Can, Step;
    RelaySkips(s0, c, front, j, p);
    Idles(s0, u, front, ON);
    Idles(s0, v, front, ON);
  }

  /** A client displays the first of its copies. */
  lemma Display(s0: SlotChat.State, c: State, front: seq<Place>, i: nat, n: nat, m: Message) returns (d: State)
    requires Can(s0, c, front) && c.box == [] && n < |c.clients| && c.clients[n].pc == Drain
    requires m.mtype == SetAddressee(c.clients[n].id) && m.kind == Said
    requires i < |front| && front[i] == Holds(m) && NoneBefore(front, i, m.mtype)
    ensures var x := c.clients[n];
            && d == c.(clients := c.clients[n := x.(shown := x.shown + [m])], past := d.past)
            && d.past.log == c.past.log
            && Can(s0, d, front[i := Empty])
  {
    var x := c.clients[n];
    d := Reading(c, Do(n), m);
    assert d == c.(clients := c.clients[n := x.(shown := x.shown + [m])], past := d.past) && d.past.log == c.past.log;
    hide Can, Step, Reading;
    Gets(s0, c, front, Do(n), m, i);
  }

  lemma Widen(s0: SlotChat.State, c: State)
    requires SlotChat.Init(s0) && Can(s0, c, [Empty]) && !c.fifo && |s0.slots| >= 2
    ensures Can(s0, c, [Empty, Empty])
  {
    var s :| Shows(s0, s, c, [Empty]);
    var schedule :| SlotChat.Exec(s0, schedule) == s && forall a :: a in schedule ==> Plain(a);
    SlotChat.RefinesChat(s0, schedule);
    assert Shows(s0, s, c, [Empty, Empty]);
  }

  /** The first `n` clients read. */
  predicate Drains(c: State, n: nat) {
    n <= |c.clients| && forall i :: 0 <= i < n ==> c.clients[i].pc == Drain && c.clients[i].id == i
  }

  /** Client 2 has just posted, and the server is about to relay to clients 0 and 1. */
  lemma PostAndCollect(s0: SlotChat.State, c: State, front: seq<Place>, text: string) returns (d: State, p: Message)
    requires Can(s0, c, front) && c.box == [] && c.server == Command && front != [] && front[0] == Empty
    requires |c.clients| >= 3 && c.clients[2].pc == Drain && c.clients[2].id == 2
    requires NoneBefore(front, |front|, SetAddressee(2)) && NoneBefore(front, |front|, ID_REQUEST)
    ensures p.id == 2 && p.kind == Said && d.past.log == c.past.log + [p] && d.lastName == p.name
    ensures var x := c.clients[2];
            d == c.(clients := c.clients[2 := x.(said := x.said + [text])], server := Relay(0, p), lastName := p.name,
                    past := d.past)
    ensures Can(s0, d, front)
  {
    hide Can;
    p := PostOf(c.clients[2], 2, text);
    var u := PostText(s0, c, front, 2, text);
    d := CollectPost(s0, u, front[0 := Holds(p)], p);
    assert front[0 := Holds(p)][0 := Empty] == front;
  }

  /** The copy to client 0 goes into slot 0 and is displayed at once. */
  lemma RelayToFirst(s0: SlotChat.State, c: State, other: Place, p: Message) returns (d: State)
    requires Can(s0, c, [Empty, other]) && c.box == [] && c.server == Relay(0, p) && p.id == 2
    requires c.taken != [] && c.taken[0] && c.clients != [] && c.clients[0].pc == Drain && c.clients[0].id == 0
    ensures var x, m := c.clients[0], CopyTo(|c.taken|, 0, p, |c.past.log| - 1);
            && d == c.(server := Relay(1, p), clients := c.clients[0 := x.(shown := x.shown + [m])], past := d.past)
            && d.past.log == c.past.log
    ensures Can(s0, d, [Empty, other])
  {
    hide Can;
    var m := CopyTo(|c.taken|, 0, p, |c.past.log| - 1);
    d := RelayCopy(s0, c, [Empty, other], 0, 0, p);
    assert [Empty, other][0 := Holds(m)] == [Holds(m), other];
    d := Display(s0, d, [Holds(m), other], 0, 0, m);
    assert [Holds(m), other][0 := Empty] == [Empty, other];
  }

  /** The first three clients have the first three ids, and nothing was posted. */
  predicate FirstThree(c: State) {
    && c.box == [] && c.server == Command && c.past.log == [] && |c.taken| >= 3 && Drains(c, 3)
    && (forall j :: 0 <= j < |c.taken| ==> (c.taken[j] <==> j < 3))
    && (forall i :: 0 <= i < 3 ==> c.clients[i].shown == [])
  }

  lemma PresentThree(c: State)
    requires Present(c, 3)
    ensures FirstThree(c)
  {
    var who := Upto(3);
    forall i | 0 <= i < 3 ensures Reader(c.clients[i], i) {
      assert who[i] == i;
    }
  }

  /** Post x: the copies go into slots 0 and 1, and client 0 displays its own. */
  lemma FirstPost(s0: SlotChat.State, c: State) returns (d: State, x: Message)
    requires Can(s0, c, [Empty, Empty]) && FirstThree(c)
    ensures Can(s0, d, [Empty, Holds(CopyTo(|c.taken|, 1, x, 0))]) && x.id == 2
    ensures d.box == [] && d.server == Command && d.taken == c.taken && d.past.log == [x]
    ensures |d.clients| == |c.clients| && Drains(d, 3)
    ensures d.clients[0].shown == [CopyTo(|c.taken|, 0, x, 0)] && d.clients[1].shown == []
  {
    hide Can;
    var k := |c.taken|;
    d, x := PostAndCollect(s0, c, [Empty, Empty], "x");
    var x0, x1 := CopyTo(k, 0, x, 0), CopyTo(k, 1, x, 0);
    d := RelayCopy(s0, d, [Empty, Empty], 0, 0, x);
    assert [Empty, Empty][0 := Holds(x0)] == [Holds(x0), Empty];
    d := RelayCopy(s0, d, [Holds(x0), Empty], 1, 1, x);
    assert [Holds(x0), Empty][1 := Holds(x1)] == [Holds(x0), Holds(x1)];
    d := Display(s0, d, [Holds(x0), Holds(x1)], 0, 0, x0);
    assert [Holds(x0), Holds(x1)][0 := Empty] == [Empty, Holds(x1)];
    d := RelayEnds(s0, d, [Empty, Holds(x1)], 2, x);
  }

  /** Post y: its copies go into slot 0, before the copy of x to client 1. */
  lemma SecondPost(s0: SlotChat.State, c: State, x1: Message) returns (d: State, y: Message)
    requires Can(s0, c, [Empty, Holds(x1)]) && x1.mtype == SetAddressee(1) && x1.kind == Said
    requires c.box == [] && c.server == Command && |c.past.log| == 1 && |c.taken| >= 3 && c.taken[0]
    requires c.taken[1] && Drains(c, 3)
    ensures Can(s0, d, [Empty, Empty]) && |d.clients| == |c.clients|
    ensures d.clients[0].shown == c.clients[0].shown + [CopyTo(|c.taken|, 0, y, 1)]
    ensures d.clients[1].shown == c.clients[1].shown + [CopyTo(|c.taken|, 1, y, 1)] + [x1]
  {
    hide Can;
    var k := |c.taken|;
    d, y := PostAndCollect(s0, c, [Empty, Holds(x1)], "y");
    var y1 := CopyTo(k, 1, y, 1);
    d := RelayToFirst(s0, d, Holds(x1), y);
    d := RelayCopy(s0, d, [Empty, Holds(x1)], 0, 1, y);
    assert [Empty, Holds(x1)][0 := Holds(y1)] == [Holds(y1), Holds(x1)];
    d := Display(s0, d, [Holds(y1), Holds(x1)], 0, 1, y1);
    assert [Holds(y1), Holds(x1)][0 := Empty] == [Empty, Holds(x1)];
    d := Display(s0, d, [Empty, Holds(x1)], 1, 1, x1);
    assert [Empty, Holds(x1)][1 := Empty] == [Empty, Empty];
  }

  lemma BothPosts(s0: SlotChat.State, c: State) returns (d: State)
    requires Can(s0, c, [Empty, Empty]) && Present(c, 3) && |c.taken| >= 3
    ensures Can(s0, d, [Empty, Empty]) && |d.clients| == |c.clients|
    ensures |d.clients[0].shown| == 2 && |d.clients[1].shown| == 2
    ensures d.clients[0].shown[0].tag == d.clients[1].shown[1].tag == 0
    ensures d.clients[0].shown[1].tag == d.clients[1].shown[0].tag == 1
  {
    PresentThree(c);
    assert c.taken[0] && c.taken[1];
    hide Can, Present, Drains;
    var x, y;
    d, x := FirstPost(s0, c);
    d, y := SecondPost(s0, d, CopyTo(|c.taken|, 1, x, 0));
  }

  /** With three clients, three ids and two slots: client 0 displays the two posts of client 2 in sending order,
      client 1 the other way round. */
  lemma OrderMayDiffer(s0: SlotChat.State) returns (schedule: seq<Action>)
    requires SlotChat.Init(s0) && !s0.chat.fifo && |s0.slots| >= 2
    requires |s0.chat.taken| >= 3 && |s0.chat.clients| >= 3
    ensures var c := SlotChat.Exec(s0, schedule).chat;
            && |c.clients| == |s0.chat.clients| && |c.clients[0].shown| == 2 && |c.clients[1].shown| == 2
            && c.clients[0].shown[0].tag == c.clients[1].shown[1].tag == 0
            && c.clients[0].shown[1].tag == c.clients[1].shown[0].tag == 1
  {
    var c := RegisterAll(s0, 3);
    Widen(s0, c);
    hide Can, Present, PresentAs, SlotChat.Init, SlotChat.Exec;
    c := BothPosts(s0, c);
    schedule := ScheduleFor(s0, c, [Empty, Empty]);
  }

  lemma SafeRunsAgree(s0: SlotChat.State, schedule: seq<Action>)
    requires SlotChat.Init(s0)
    requires s0.chat.fifo || |s0.slots| <= 1 || |s0.chat.clients| <= 2 || |s0.chat.taken| <= 2
    ensures AllAgree(SlotChat.Exec(s0, schedule).chat)
  {
    SlotChat.RefinesChat(s0, schedule);
    var choices :| Run(Step, s0.chat, choices) == SlotChat.Exec(s0, schedule).chat;
    if s0.chat.fifo {
      QueueAgrees(s0.chat, choices);
    } else if |s0.slots| <= 1 {
      OneSlotAgrees(s0, schedule);
    } else {
      FewAgree(s0.chat, choices);
    }
  }

  /** All clients agree on the order in every run if and only if the messages go through the queue, or there is at
      most one slot, or there are at most two clients or two ids. */
  lemma AgreeExactly(s0: SlotChat.State)
    requires SlotChat.Init(s0)
    ensures (forall schedule :: AllAgree(SlotChat.Exec(s0, schedule).chat))
            <==> s0.chat.fifo || |s0.slots| <= 1 || |s0.chat.clients| <= 2 || |s0.chat.taken| <= 2
  {
    if s0.chat.fifo || |s0.slots| <= 1 || |s0.chat.clients| <= 2 || |s0.chat.taken| <= 2 {
      forall schedule ensures AllAgree(SlotChat.Exec(s0, schedule).chat) {
        SafeRunsAgree(s0, schedule);
      }
    } else {
      var schedule := OrderMayDiffer(s0);
      var c := SlotChat.Exec(s0, schedule).chat;
      assert !Agree(c.clients[0].shown, c.clients[1].shown);
      assert !AllAgree(c);
    }
  }
}
