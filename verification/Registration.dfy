/** Registration in the chat of task1.c and task2.c: a client asks for an id once and waits; a request that finds
    the pool full, or whose answer is refused, is dropped, and nobody asks again. */
module Registration {
  import opened Chat
  import opened Counting
  import opened Numerals
  import opened Runs

  // ---------------------------------------------------------------------------------------------
  // Requests and waiting clients
  // ---------------------------------------------------------------------------------------------

  /** A client that has asked and has no id, whether it still looks for one or has given up. */
  function Asking(x: Client): nat {
    if x.id == -1 && x.waiting then 1 else 0
  }

  /** A request for an id, or an id on its way to whoever takes it. */
  function Answering(m: Message): nat {
    if m.mtype == ID_REQUEST || m.mtype == ID_SET then 1 else 0
  }

  function InWork(server: Server): nat {
    if server.Assign? || server.Approve? then 1 else 0
  }

  /** Every client that has asked in vain so far has its request or an id under way, or was turned away. */
  ghost predicate Balanced(s: State) {
    Sum(s.clients, Asking) == Sum(s.box, Answering) + InWork(s.server) + s.past.turnedAway
  }

  lemma ServerAnswers(s: State, pick: Pick, ok: bool, quit: bool)
    ensures var op := ServerOp(s, pick, ok);
            && InWork(ServerAfter(s.taken, s.server, op, quit)) + Gain(op, Answering)
                 + ServerPast(s.past, s.taken, s.server, op).turnedAway
               == InWork(s.server) + Loss(op, Answering) + s.past.turnedAway
            && (op.Get? ==> op.index < |s.box| && op.m == s.box[op.index])
  {
  }

  lemma ServerBalanced(s: State, pick: Pick, ok: bool, quit: bool, garbage: string)
    requires Balanced(s)
    ensures Balanced(ServerStep(s, pick, ok, quit, garbage))
  {
    ServerAnswers(s, pick, ok, quit);
    ApplySum(s.box, ServerOp(s, pick, ok), Answering);
    ServerParts(s, pick, ok, quit, garbage);
    assert ServerStep(s, pick, ok, quit, garbage).clients == s.clients;
    hide Sum, ServerOp, ServerAfter, ServerPast, ServerStep, Apply;
  }

  lemma ClientAnswers(k: nat, x: Client, c: nat, box: seq<Message>, fifo: bool, pick: Pick, ok: bool, stop: bool,
                      typed: Typed, past: History)
    requires GoodClient(k, x)
    ensures var op := ClientOp(x, c, box, fifo, pick, ok, stop, typed);
            && Asking(ClientAfter(x, op, stop, typed)) + Loss(op, Answering) == Asking(x) + Gain(op, Answering)
            && ClientPast(past, x, op).turnedAway == past.turnedAway
            && (op.Get? ==> op.index < |box| && op.m == box[op.index])
  {
  }

  lemma ClientBalanced(s: State, c: nat, pick: Pick, ok: bool, stop: bool, typed: Typed)
    requires Balanced(s) && Shape(s) && c < |s.clients|
    ensures Balanced(ClientStep(s, c, pick, ok, stop, typed))
  {
    var x := s.clients[c];
    var op := ClientOp(x, c, s.box, s.fifo, pick, ok, stop, typed);
    ClientAnswers(|s.taken|, x, c, s.box, s.fifo, pick, ok, stop, typed, s.past);
    ApplySum(s.box, op, Answering);
    SumUpdate(s.clients, c, ClientAfter(x, op, stop, typed), Asking);
    hide Sum, ClientOp, ClientAfter, ClientPast, Apply;
  }

  /** In every run, the clients that asked and have no id are as many as the requests and ids under way and
      the requests that were dropped. */
  lemma {:induction false} AskingIsAnswered(s0: State, schedule: seq<Action>)
    requires Init(s0)
    ensures Balanced(Exec(s0, schedule))
    decreases |schedule|
  {
    if schedule == [] {
      SumZero(s0.clients, Asking);
    } else {
      var before, a := schedule[..|schedule| - 1], schedule[|schedule| - 1];
      AskingIsAnswered(s0, before);
      ExecInv(s0, before);
      var s := Exec(s0, before);
      match a
      case Serve(pick, ok, quit, garbage) => ServerBalanced(s, pick, ok, quit, garbage);
      case Act(c, pick, ok, stop, typed) => if c < |s.clients| { ClientBalanced(s, c, pick, ok, stop, typed); }
    }
  }

  lemma StepTurnsAway(s: State, a: Action)
    ensures Step(s, a).past.turnedAway >= s.past.turnedAway
  {
  }

  lemma {:induction false} TurnedAwayStays(s: State, schedule: seq<Action>)
    ensures Exec(s, schedule).past.turnedAway >= s.past.turnedAway
    decreases |schedule|
  {
    if schedule == [] {
    } else {
      TurnedAwayStays(s, schedule[..|schedule| - 1]);
      StepTurnsAway(Exec(s, schedule[..|schedule| - 1]), schedule[|schedule| - 1]);
    }
  }

  /** A dropped request is dropped for good: in every continuation at least as many clients as were turned
      away have asked and have no id; exactly as many once nothing is under way. */
  lemma TurnedAwayForGood(s0: State, schedule: seq<Action>, rest: seq<Action>)
    requires Init(s0)
    ensures var t := Exec(s0, schedule + rest);
            && Sum(t.clients, Asking) >= Exec(s0, schedule).past.turnedAway
            && (Sum(t.box, Answering) == 0 && InWork(t.server) == 0 ==> Sum(t.clients, Asking) == t.past.turnedAway)
  {
    AskingIsAnswered(s0, schedule + rest);
    RunAppend(Step, s0, schedule, rest);
    TurnedAwayStays(Exec(s0, schedule), rest);
  }

  // ---------------------------------------------------------------------------------------------
  // Taken ids
  // ---------------------------------------------------------------------------------------------

  function One(b: bool): nat {
    if b then 1 else 0
  }

  function IsIdSet(m: Message): nat {
    if m.mtype == ID_SET then 1 else 0
  }

  function IsOut(m: Message): nat {
    if m.mtype == OUT_CHAT then 1 else 0
  }

  function Holding(x: Client): nat {
    if x.id >= 0 && x.pc != Gone then 1 else 0
  }

  function GoneWithId(x: Client): nat {
    if x.id >= 0 && x.pc == Gone then 1 else 0
  }

  function Giving(server: Server): nat {
    if server.Approve? then 1 else 0
  }

  function Freeing(server: Server): nat {
    if server.Release? then 1 else 0
  }

  /** Every taken id is held, on its way to a client or back, in the server's hands, or lost; and every leave
      message stems from a client of its own. */
  ghost predicate IdsCounted(s: State) {
    && Sum(s.taken, One) == Sum(s.box, IsIdSet) + Sum(s.box, IsOut) + Sum(s.clients, Holding)
                            + Giving(s.server) + Freeing(s.server) + |s.past.lost|
    && Sum(s.box, IsOut) + Freeing(s.server) <= Sum(s.clients, GoneWithId)
  }

  lemma TakenChanges(taken: seq<bool>, server: Server)
    requires server.Release? ==> 0 <= server.freed < |taken| && taken[server.freed]
    ensures Sum(TakenAfter(taken, server), One) + Freeing(server)
            == Sum(taken, One) + (if server.Assign? && FirstFree(taken) < |taken| then 1 else 0)
  {
    match server
    case Assign(_) => if FirstFree(taken) < |taken| { SumUpdate(taken, FirstFree(taken), true, One); }
    case Release(id, _) => SumUpdate(taken, id, false, One);
    case _ =>
  }

  lemma ServerGives(s: State, pick: Pick, ok: bool, quit: bool)
    ensures var op := ServerOp(s, pick, ok);
            var after := ServerAfter(s.taken, s.server, op, quit);
            && Gain(op, IsIdSet) + |ServerPast(s.past, s.taken, s.server, op).lost| == Giving(s.server) + |s.past.lost|
            && Loss(op, IsIdSet) == 0
            && Giving(after) == (if s.server.Assign? && FirstFree(s.taken) < |s.taken| then 1 else 0)
  {
    match s.server
    case Approve(id, _) =>
      assert |s.past.lost + multiset{id}| == |s.past.lost| + 1;
    case _ =>
  }

  lemma ServerFrees(s: State, pick: Pick, ok: bool, quit: bool)
    ensures var op := ServerOp(s, pick, ok);
            var after := ServerAfter(s.taken, s.server, op, quit);
            && Gain(op, IsOut) == 0 && Loss(op, IsOut) == Freeing(after)
            && (op.Get? ==> op.index < |s.box| && op.m == s.box[op.index])
  {
  }

  lemma ServerIdsCounted(s: State, pick: Pick, ok: bool, quit: bool, garbage: string)
    requires IdsCounted(s) && (s.server.Release? ==> 0 <= s.server.freed < |s.taken| && s.taken[s.server.freed])
    ensures IdsCounted(ServerStep(s, pick, ok, quit, garbage))
  {
    var op, t := ServerOp(s, pick, ok), ServerStep(s, pick, ok, quit, garbage);
    ServerGives(s, pick, ok, quit);
    ServerFrees(s, pick, ok, quit);
    TakenChanges(s.taken, s.server);
    ApplySum(s.box, op, IsIdSet);
    ApplySum(s.box, op, IsOut);
    ServerParts(s, pick, ok, quit, garbage);
    assert t.clients == s.clients && (op != Blocked ==> t.taken == TakenAfter(s.taken, s.server));
    hide Sum, ServerOp, ServerAfter, ServerPast, ServerStep, TakenAfter, Apply, Gain, Loss;
  }

  lemma ClientHolds(k: nat, x: Client, c: nat, box: seq<Message>, fifo: bool, pick: Pick, ok: bool, stop: bool,
                    typed: Typed, past: History)
    requires GoodClient(k, x)
    ensures var op := ClientOp(x, c, box, fifo, pick, ok, stop, typed);
            && Holding(ClientAfter(x, op, stop, typed)) + Gain(op, IsOut) + |ClientPast(past, x, op).lost|
               == Holding(x) + Loss(op, IsIdSet) + |past.lost|
            && (op.Get? ==> op.index < |box| && op.m == box[op.index])
  {
    if x.pc == Leaving {
      assert |past.lost + multiset{x.id as nat}| == |past.lost| + 1;
    }
  }

  lemma ClientLeaves(k: nat, x: Client, c: nat, box: seq<Message>, fifo: bool, pick: Pick, ok: bool, stop: bool,
                     typed: Typed)
    requires GoodClient(k, x)
    ensures var op := ClientOp(x, c, box, fifo, pick, ok, stop, typed);
            && Gain(op, IsIdSet) == 0 && Loss(op, IsOut) == 0
            && GoneWithId(ClientAfter(x, op, stop, typed)) >= GoneWithId(x) + Gain(op, IsOut)
  {
  }

  lemma ClientIdsCounted(s: State, c: nat, pick: Pick, ok: bool, stop: bool, typed: Typed)
    requires IdsCounted(s) && Shape(s) && c < |s.clients|
    ensures IdsCounted(ClientStep(s, c, pick, ok, stop, typed))
  {
    var x := s.clients[c];
    var op := ClientOp(x, c, s.box, s.fifo, pick, ok, stop, typed);
    ClientHolds(|s.taken|, x, c, s.box, s.fifo, pick, ok, stop, typed, s.past);
    ClientLeaves(|s.taken|, x, c, s.box, s.fifo, pick, ok, stop, typed);
    ApplySum(s.box, op, IsIdSet);
    ApplySum(s.box, op, IsOut);
    SumUpdate(s.clients, c, ClientAfter(x, op, stop, typed), Holding);
    SumUpdate(s.clients, c, ClientAfter(x, op, stop, typed), GoneWithId);
    hide Sum, Shape, ClientOp, ClientAfter, ClientPast, Apply, Gain, Loss;
  }

  lemma ReleasedIsTaken(s: State)
    requires Shape(s) && s.server.Release? && forall i :: 0 <= i < |s.taken| ==> Places(s, i) == 1
    ensures 0 <= s.server.freed < |s.taken| && s.taken[s.server.freed]
  {
    hide Sum;
    assert Places(s, s.server.freed) == 1;
  }

  lemma {:induction false} IdsAreCounted(s0: State, schedule: seq<Action>)
    requires Init(s0)
    ensures IdsCounted(Exec(s0, schedule))
    decreases |schedule|
  {
    if schedule == [] {
      SumZero(s0.taken, One);
      SumZero(s0.clients, Holding);
    } else {
      var before, a := schedule[..|schedule| - 1], schedule[|schedule| - 1];
      IdsAreCounted(s0, before);
      ExecInv(s0, before);
      var s := Exec(s0, before);
      match a
      case Serve(pick, ok, quit, garbage) =>
        if s.server.Release? {
          ReleasedIsTaken(s);
        }
        ServerIdsCounted(s, pick, ok, quit, garbage);
      case Act(c, pick, ok, stop, typed) => if c < |s.clients| { ClientIdsCounted(s, c, pick, ok, stop, typed); }
    }
  }

  // ---------------------------------------------------------------------------------------------
  // When nobody is turned away
  // ---------------------------------------------------------------------------------------------

  lemma {:induction false} OneRoleEach(clients: seq<Client>, n: nat)
    requires n <= |clients|
    ensures SumTo(clients, n, Asking) + SumTo(clients, n, Holding) + SumTo(clients, n, GoneWithId) <= n
  {
    if n == 0 {
    } else {
      OneRoleEach(clients, n - 1);
    }
  }

  lemma {:induction false} AllTaken(taken: seq<bool>, n: nat)
    requires n <= |taken| && forall i :: 0 <= i < n ==> taken[i]
    ensures SumTo(taken, n, One) == n
  {
    if n == 0 {
    } else {
      AllTaken(taken, n - 1);
    }
  }

  lemma IdSetsAreAnswers(box: seq<Message>)
    ensures Sum(box, IsIdSet) <= Sum(box, Answering)
  {
    SumBelow(box, IsIdSet, Answering);
  }

  /** While nothing is lost, fewer ids are taken than there are clients when the server has a request in hand. */
  lemma IdIsFree(s: State)
    requires Balanced(s) && IdsCounted(s) && s.past.lost == multiset{} && s.server.Assign?
    ensures FirstFree(s.taken) < |s.clients|
  {
    IdSetsAreAnswers(s.box);
    OneRoleEach(s.clients, |s.clients|);
    AllTaken(s.taken, FirstFree(s.taken));
    SumToGrows(s.taken, FirstFree(s.taken), |s.taken|, One);
  }

  lemma StepTurnsNobodyAway(s: State, a: Action)
    requires Shape(s) && Balanced(s) && IdsCounted(s) && s.lossless && |s.clients| <= |s.taken|
    requires s.past.turnedAway == 0
    ensures Step(s, a).past.turnedAway == 0
  {
    if s.server.Assign? {
      IdIsFree(s);
    }
    hide Balanced, IdsCounted;
  }

  lemma {:induction false} EnoughIdsForAll(s0: State, schedule: seq<Action>)
    requires Init(s0) && s0.lossless && |s0.clients| <= |s0.taken|
    ensures Exec(s0, schedule).past.turnedAway == 0
    decreases |schedule|
  {
    if schedule == [] {
    } else {
      var before := schedule[..|schedule| - 1];
      EnoughIdsForAll(s0, before);
      ExecInv(s0, before);
      AskingIsAnswered(s0, before);
      IdsAreCounted(s0, before);
      StepTurnsNobodyAway(Exec(s0, before), schedule[|schedule| - 1]);
    }
  }

  // ---------------------------------------------------------------------------------------------
  // When somebody is turned away
  // ---------------------------------------------------------------------------------------------

  /** A statement of the server in which nothing is received and the send succeeds. */
  const ON: Action := Serve(Nothing, true, false, "")

  /** What may be under way when the first `i` requests are answered: ids, and notices to all but the last. */
  predicate Handout(m: Message, i: nat) {
    i > 0 && (m.mtype == ID_SET || MAGIC_NUMBER <= m.mtype < SetAddressee(i - 1))
  }

  predicate AsAtFirst(x: Client) {
    x.pc == Entry && x.id == -1 && x.shown == [] && x.said == []
  }

  /** The first `n` clients have asked, the server has answered `i` requests, and nobody has read an answer. */
  ghost predicate Answered(s0: State, s: State, n: nat, i: nat) {
    && s.fifo == s0.fifo && s.lossless == s0.lossless && |s.taken| == |s0.taken| && |s.clients| == |s0.clients|
    && n <= |s.clients| && i <= n && i <= |s.taken| && n - i <= |s.box|
    && (forall j :: 0 <= j < |s.taken| ==> (s.taken[j] <==> j < i))
    && (forall k :: 0 <= k < n - i ==> s.box[k].mtype == ID_REQUEST)
    && (forall k :: n - i <= k < |s.box| ==> Handout(s.box[k], i)) && (i == 0 ==> |s.box| == n)
    && (forall j :: 0 <= j < i ==> IdSet(|s.taken|, j) in s.box)
    && (forall c :: 0 <= c < |s.clients| ==> AsAtFirst(s.clients[c]) && (s.clients[c].waiting <==> c < n))
    && s.past.log == [] && s.past.turnedAway == 0
  }

  lemma AskNext(s0: State, s: State, n: nat)
    requires Answered(s0, s, n, 0) && s.server == Command && n < |s.clients|
    ensures var t := Step(s, Act(n, Nothing, true, false, Silence)); Answered(s0, t, n + 1, 0) && t.server == Command
  {
    assert AsAtFirst(s.clients[n]);
  }

  lemma {:induction false} AllAsk(s0: State, n: nat) returns (s: State)
    requires Init(s0) && n <= |s0.clients|
    ensures Reaches(Step, s0, s) && Answered(s0, s, n, 0) && s.server == Command
  {
    if n == 0 {
      s := s0;
      ReachesSelf(Step, s0);
    } else {
      s := AllAsk(s0, n - 1);
      AskNext(s0, s, n - 1);
      ReachesNext(Step, s0, s, Act(n - 1, Nothing, true, false, Silence));
      s := Step(s, Act(n - 1, Nothing, true, false, Silence));
    }
  }

  /** The server takes the oldest request. */
  lemma TakeRequest(s: State)
    requires s.server == Command && s.box != [] && s.box[0].mtype == ID_REQUEST
    ensures Step(Step(s, ON), Serve(At(0), true, false, ""))
            == s.(server := Assign(s.box[0].name), box := s.box[1..])
  {
    var t := Step(s, ON);
    assert t == s.(server := Register);
    assert Available(t.box, t.fifo, ID_REQUEST, At(0));
    assert t.box[..0] + t.box[1..] == t.box[1..];
  }

  /** It gives the first free id. */
  lemma GiveId(s: State, i: nat)
    requires s.server.Assign? && i < |s.taken| && forall j :: 0 <= j < |s.taken| ==> (s.taken[j] <==> j < i)
    ensures Step(Step(s, ON), ON)
            == s.(server := Announce(0, i, s.server.name), taken := s.taken[i := true],
                  box := s.box + [IdSet(|s.taken|, i)])
  {
    assert !s.taken[i] && FirstFree(s.taken) == i;
    assert Step(s, ON) == s.(server := Approve(i, s.server.name), taken := s.taken[i := true]);
  }

  lemma Given(s0: State, s: State, n: nat, i: nat, name: string)
    requires Answered(s0, s, n, i) && i < n && i < |s.taken|
    ensures Answered(s0, s.(server := Announce(0, i, name), taken := s.taken[i := true],
                            box := s.box[1..] + [IdSet(|s.taken|, i)]), n, i + 1)
  {
    var box := s.box[1..] + [IdSet(|s.taken|, i)];
    forall j | 0 <= j < i ensures IdSet(|s.taken|, j) in box {
      var k :| 0 <= k < |s.box| && s.box[k] == IdSet(|s.taken|, j);
      assert box[k - 1] == s.box[k];
    }
    assert box[|s.box| - 1] == IdSet(|s.taken|, i);
    forall k | n - i - 1 <= k < |box| ensures Handout(box[k], i + 1) {
      if k < |s.box| - 1 {
        assert Handout(s.box[k + 1], i);
      }
    }
  }

  lemma AnswerOne(s0: State, s: State, n: nat, i: nat)
    requires Answered(s0, s, n, i) && s.server == Command && i < n && i < |s.taken|
    ensures var t := Step(Step(Step(Step(s, ON), Serve(At(0), true, false, "")), ON), ON);
            Answered(s0, t, n, i + 1) && t.server.Announce? && t.server.next == 0 && t.server.id == i
  {
    assert s.box != [] && s.box[0].mtype == ID_REQUEST;
    Given(s0, s, n, i, s.box[0].name);
    assert forall j :: 0 <= j < |s.taken| ==> (s.taken[j] <==> j < i);
    hide Step, Answered;
    TakeRequest(s);
    var u := s.(server := Assign(s.box[0].name), box := s.box[1..]);
    GiveId(u, i);
  }

  lemma AnnounceNext(s0: State, s: State, n: nat, i: nat)
    requires Answered(s0, s, n, i) && s.server.Announce? && s.server.id + 1 == i && s.server.next < |s.taken|
    ensures var t := Step(s, ON);
            Answered(s0, t, n, i) && t.server == Announce(s.server.next + 1, s.server.id, s.server.name)
  {
    var t := Step(s, ON);
    assert s.box <= t.box;
    forall j | 0 <= j < i ensures IdSet(|s.taken|, j) in t.box {
      var k :| 0 <= k < |s.box| && s.box[k] == IdSet(|s.taken|, j);
      assert t.box[k] == s.box[k];
    }
  }

  lemma {:induction false} AnnounceAll(s0: State, s: State, n: nat, i: nat) returns (t: State)
    requires Reaches(Step, s0, s) && Answered(s0, s, n, i)
    requires s.server.Announce? && s.server.id + 1 == i && s.server.next <= |s.taken|
    ensures Reaches(Step, s0, t) && Answered(s0, t, n, i) && t.server == Announce(|t.taken|, s.server.id, s.server.name)
    decreases |s.taken| - s.server.next
  {
    if s.server.next == |s.taken| {
      t := s;
    } else {
      AnnounceNext(s0, s, n, i);
      ReachesNext(Step, s0, s, ON);
      t := AnnounceAll(s0, Step(s, ON), n, i);
    }
  }

  /** Nothing to relay and nobody leaves. */
  lemma BackToCommand(s0: State, s: State, n: nat, i: nat)
    requires Answered(s0, s, n, i) && s.server.Announce? && s.server.next == |s.taken|
    ensures var t := Step(Step(Step(s, ON), ON), ON); Answered(s0, t, n, i) && t.server == Command
  {
    forall k | 0 <= k < |s.box| ensures s.box[k].mtype != POST_REQUEST && s.box[k].mtype != OUT_CHAT {
      assert k < n - i || Handout(s.box[k], i);
    }
    assert Available(s.box, s.fifo, POST_REQUEST, Nothing) && Available(s.box, s.fifo, OUT_CHAT, Nothing);
    assert Step(s, ON) == s.(server := Collect);
    assert Step(Step(s, ON), ON) == s.(server := Dismiss, lastName := "");
  }

  lemma FourOn(s0: State, s: State, a: Action, b: Action, c: Action, d: Action)
    requires Reaches(Step, s0, s)
    ensures Reaches(Step, s0, Step(Step(Step(Step(s, a), b), c), d))
  {
    hide *;
    ReachesNext(Step, s0, s, a);
    ReachesNext(Step, s0, Step(s, a), b);
    ReachesNext(Step, s0, Step(Step(s, a), b), c);
    ReachesNext(Step, s0, Step(Step(Step(s, a), b), c), d);
  }

  lemma ThreeOn(s0: State, s: State, a: Action, b: Action, c: Action)
    requires Reaches(Step, s0, s)
    ensures Reaches(Step, s0, Step(Step(Step(s, a), b), c))
  {
    hide *;
    ReachesNext(Step, s0, s, a);
    ReachesNext(Step, s0, Step(s, a), b);
    ReachesNext(Step, s0, Step(Step(s, a), b), c);
  }

  lemma AnswerNext(s0: State, s: State, n: nat, i: nat) returns (t: State)
    requires Reaches(Step, s0, s) && Answered(s0, s, n, i) && s.server == Command && i < n && i < |s.taken|
    ensures Reaches(Step, s0, t) && Answered(s0, t, n, i + 1) && t.server == Command
  {
    hide *;
    AnswerOne(s0, s, n, i);
    FourOn(s0, s, ON, Serve(At(0), true, false, ""), ON, ON);
    t := AnnounceAll(s0, Step(Step(Step(Step(s, ON), Serve(At(0), true, false, "")), ON), ON), n, i + 1);
    BackToCommand(s0, t, n, i + 1);
    ThreeOn(s0, t, ON, ON, ON);
    t := Step(Step(Step(t, ON), ON), ON);
  }

  lemma {:induction false} AnswerAll(s0: State, n: nat, i: nat) returns (s: State)
    requires Init(s0) && i <= n <= |s0.clients| && i <= |s0.taken|
    ensures Reaches(Step, s0, s) && Answered(s0, s, n, i) && s.server == Command
    decreases i
  {
    if i == 0 {
      s := AllAsk(s0, n);
    } else {
      s := AnswerAll(s0, n, i - 1);
      s := AnswerNext(s0, s, n, i - 1);
    }
  }

  /** One client more than there are ids, all of which ask before anybody leaves: the last request is dropped. */
  lemma PoolRunsOut(s0: State) returns (s: State)
    requires Init(s0) && |s0.clients| > |s0.taken|
    ensures Reaches(Step, s0, s) && s.past.turnedAway == 1
  {
    s := AnswerAll(s0, |s0.taken| + 1, |s0.taken|);
    TakeRequest(s);
    assert FirstFree(s.taken) == |s.taken|;
    ThreeOn(s0, s, ON, Serve(At(0), true, false, ""), ON);
    s := Step(Step(Step(s, ON), Serve(At(0), true, false, "")), ON);
  }

  /** A queue that refuses the approval: the request is dropped and the id lost. */
  lemma ApprovalRefused(s0: State) returns (s: State)
    requires Init(s0) && !s0.lossless && s0.clients != [] && s0.taken != []
    ensures Reaches(Step, s0, s) && s.past.turnedAway == 1
  {
    s := AllAsk(s0, 1);
    TakeRequest(s);
    var u := s.(server := Assign(s.box[0].name), box := s.box[1..]);
    assert !u.taken[0] && FirstFree(u.taken) == 0;
    assert Step(u, ON).server == Approve(0, u.server.name) && !u.lossless;
    FourOn(s0, s, ON, Serve(At(0), true, false, ""), ON, Serve(Nothing, false, false, ""));
    hide Reaches, Answered, FirstFree;
    s := Step(Step(u, ON), Serve(Nothing, false, false, ""));
  }

  /** In no run is a request for an id dropped if and only if there are no clients, or the transport refuses
      nothing and there is an id for every client. */
  lemma NobodyTurnedAwayExactly(s0: State)
    requires Init(s0)
    ensures (forall schedule :: Exec(s0, schedule).past.turnedAway == 0)
            <==> s0.clients == [] || (s0.lossless && |s0.clients| <= |s0.taken|)
  {
    if s0.lossless && |s0.clients| <= |s0.taken| {
      forall schedule ensures Exec(s0, schedule).past.turnedAway == 0 {
        EnoughIdsForAll(s0, schedule);
      }
    } else if s0.clients == [] {
      forall schedule ensures Exec(s0, schedule).past.turnedAway == 0 {
        AskingIsAnswered(s0, schedule);
        ExecInv(s0, schedule);
      }
    } else {
      var s: State;
      if |s0.clients| > |s0.taken| {
        s := PoolRunsOut(s0);
      } else {
        s := ApprovalRefused(s0);
      }
      var schedule :| Run(Step, s0, schedule) == s;
      assert Exec(s0, schedule).past.turnedAway == 1;
    }
  }
}
