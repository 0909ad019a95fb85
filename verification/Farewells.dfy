/** The chat server's rounds: what it tells everybody when a client joins, posts or leaves and when it stops, and
    that only the last of these ends a client. */
module Farewells {
  import opened Chat
  import opened Filtering
  import opened Runs

  /** A farewell in the server's name, which ends the client that reads it. */
  predicate Ejects(m: Message) {
    m.kind == Left && m.name == SERVER_NAME
  }

  // ---------------------------------------------------------------------------------------------
  // Who is sent away
  // ---------------------------------------------------------------------------------------------

  predicate Stopping(server: Server) {
    server.Closing? || server.Closed?
  }

  /** After a look for a post the server's buffer holds the name of its sender, or whatever was there. */
  predicate Named(server: Server) {
    server.Relay? || server.Dismiss? || server.Release? || server.Farewell?
  }

  /** Nobody uses the server's name. */
  predicate Honest(a: Action) {
    a.Serve? ==> a.garbage != SERVER_NAME
  }

  predicate Harmless(server: Server, m: Message) {
    (m.mtype == POST_REQUEST ==> m.name != SERVER_NAME) && (Ejects(m) ==> Stopping(server))
  }

  ghost predicate NobodySentAway(s: State) {
    && (forall c :: 0 <= c < |s.clients| ==>
          s.clients[c].name != SERVER_NAME && (s.clients[c].pc == Ejected ==> Stopping(s.server)))
    && (forall k :: 0 <= k < |s.box| ==> Harmless(s.server, s.box[k]))
    && (Named(s.server) ==> s.lastName != SERVER_NAME)
  }

  lemma ServerSends(s: State, pick: Pick, ok: bool, quit: bool)
    requires Named(s.server) ==> s.lastName != SERVER_NAME
    ensures var op := ServerOp(s, pick, ok);
            && (op.Put? ==> Harmless(ServerAfter(s.taken, s.server, op, quit), op.m))
            && (Stopping(s.server) ==> Stopping(ServerAfter(s.taken, s.server, op, quit)))
            && (op.Get? ==> op.index < |s.box| && op.m == s.box[op.index])
            && (s.server.Collect? && op.Get? ==> op.m.mtype == POST_REQUEST)
            && (Named(ServerAfter(s.taken, s.server, op, quit)) ==> Named(s.server) || s.server.Collect?)
  {
  }

  lemma ApplyHarmless(before: Server, after: Server, box: seq<Message>, op: Op)
    requires forall k :: 0 <= k < |box| ==> Harmless(before, box[k])
    requires (Stopping(before) ==> Stopping(after)) && (op.Put? ==> Harmless(after, op.m))
    ensures forall k :: 0 <= k < |Apply(box, op)| ==> Harmless(after, Apply(box, op)[k])
  {
  }

  lemma ServerSendsNobodyAway(s: State, pick: Pick, ok: bool, quit: bool, garbage: string)
    requires NobodySentAway(s) && garbage != SERVER_NAME
    ensures NobodySentAway(ServerStep(s, pick, ok, quit, garbage))
  {
    var op, t := ServerOp(s, pick, ok), ServerStep(s, pick, ok, quit, garbage);
    ServerSends(s, pick, ok, quit);
    ApplyHarmless(s.server, ServerAfter(s.taken, s.server, op, quit), s.box, op);
    ServerParts(s, pick, ok, quit, garbage);
    hide ServerOp, ServerAfter, ServerPast, Apply;
  }

  lemma ClientSends(x: Client, c: nat, box: seq<Message>, fifo: bool, pick: Pick, ok: bool, stop: bool, typed: Typed,
                    server: Server)
    requires x.name != SERVER_NAME && (x.pc == Ejected ==> Stopping(server))
    requires forall k :: 0 <= k < |box| ==> Harmless(server, box[k])
    ensures var op := ClientOp(x, c, box, fifo, pick, ok, stop, typed);
            var y := ClientAfter(x, op, stop, typed);
            && (op.Put? ==> Harmless(server, op.m))
            && y.name == x.name && (y.pc == Ejected ==> Stopping(server))
  {
  }

  lemma ClientSendsNobodyAway(s: State, c: nat, pick: Pick, ok: bool, stop: bool, typed: Typed)
    requires NobodySentAway(s) && c < |s.clients|
    ensures NobodySentAway(ClientStep(s, c, pick, ok, stop, typed))
  {
    var x := s.clients[c];
    var op := ClientOp(x, c, s.box, s.fifo, pick, ok, stop, typed);
    ClientSends(x, c, s.box, s.fifo, pick, ok, stop, typed, s.server);
    ApplyHarmless(s.server, s.server, s.box, op);
    hide ClientOp, ClientAfter, ClientPast, Apply;
  }

  /** In every run in which neither a client nor a leftover buffer bears the server's name: nobody is sent away, and
      no message that would is under way, before the server stops. */
  lemma {:induction false} SentAwayOnlyAtTheEnd(s0: State, schedule: seq<Action>)
    requires Init(s0) && (forall c :: 0 <= c < |s0.clients| ==> s0.clients[c].name != SERVER_NAME)
    requires forall a :: a in schedule ==> Honest(a)
    ensures NobodySentAway(Exec(s0, schedule))
    decreases |schedule|
  {
    if schedule == [] {
    } else {
      var before, a := schedule[..|schedule| - 1], schedule[|schedule| - 1];
      var s := Exec(s0, before);
      assert forall b :: b in before ==> b in schedule;
      assert a in schedule && Honest(a);
      SentAwayOnlyAtTheEnd(s0, before);
      hide NobodySentAway;
      match a
      case Serve(pick, ok, quit, garbage) => ServerSendsNobodyAway(s, pick, ok, quit, garbage);
      case Act(c, pick, ok, stop, typed) =>
        if c < |s.clients| { ClientSendsNobodyAway(s, c, pick, ok, stop, typed); }
    }
  }

  // ---------------------------------------------------------------------------------------------
  // What a round tells
  // ---------------------------------------------------------------------------------------------

  /** The server is in one of its loops over the ids. */
  predicate InRound(server: Server) {
    server.Announce? || server.Relay? || server.Farewell? || server.Closing?
  }

  /** The same loop at index `i`. */
  function AtIndex(server: Server, i: nat): Server
    requires InRound(server)
  {
    match server
    case Announce(_, id, name) => Announce(i, id, name)
    case Relay(_, post) => Relay(i, post)
    case Farewell(_, text) => Farewell(i, text)
    case Closing(_) => Closing(i)
  }

  function AfterRound(server: Server): Server
    requires InRound(server)
  {
    match server
    case Announce(_, _, _) => Collect
    case Relay(_, _) => Dismiss
    case Farewell(_, _) => Command
    case Closing(_) => Closed
  }

  /** What holder `i` of a taken id is told: who joined, unless it is the newcomer; a post, unless it is its own; who
      left, in the name that the server has in its buffer; or that the server stops. */
  function Told(s: State, i: nat): seq<Message>
    requires InRound(s.server) && i < |s.taken|
  {
    var me := |s.taken| + 41;
    if !s.taken[i] then []
    else
      match s.server
      case Announce(_, id, name) =>
        if i == id then [] else [Message(5 + i, Joined, "MAIN QUESTION ANSWER IS 42", me, name, 0)]
      case Relay(_, post) =>
        if i == post.id then [] else [Message(5 + i, Said, post.name, me, post.text, |s.past.log| - 1)]
      case Farewell(_, leaver) => [Message(5 + i, Left, s.lastName, me, leaver, 0)]
      case Closing(_) => [Message(5 + i, Left, "MAIN QUESTION ANSWER IS 42", me, "end job", 0)]
  }

  /** What the holders of the ids from `i` up to `n` are told, one after the other. */
  function AllTold(s: State, i: nat, n: nat): seq<Message>
    requires InRound(s.server) && i <= n <= |s.taken|
    decreases n
  {
    if i == n then [] else AllTold(s, i, n - 1) + Told(s, n - 1)
  }

  /** A statement of the server that is not blocked by what a lossless transport never does. */
  predicate IsTurn(s: State, a: Action) {
    a.Serve? && (s.lossless ==> a.ok)
  }

  /** What a statement of the server sends, whether or not it is refused. */
  function Offer(s: State, a: Action): seq<Message> {
    if !IsTurn(s, a) then []
    else
      var op := ServerOp(s, a.pick, a.ok);
      if op.Put? || op.Refused? then [op.m] else []
  }

  function Offers(s: State, rest: seq<Action>): seq<Message>
    decreases |rest|
  {
    if rest == [] then []
    else Offers(s, rest[..|rest| - 1]) + Offer(Exec(s, rest[..|rest| - 1]), rest[|rest| - 1])
  }

  function ServerTurns(s: State, rest: seq<Action>): nat
    decreases |rest|
  {
    if rest == [] then 0
    else ServerTurns(s, rest[..|rest| - 1])
           + if IsTurn(Exec(s, rest[..|rest| - 1]), rest[|rest| - 1]) then 1 else 0
  }

  /** An offer that is not refused is what comes into the box. */
  lemma OffersAreSent(s: State, a: Action)
    requires IsTurn(s, a) && Offer(s, a) != []
    ensures Step(s, a).box == if a.ok then s.box + Offer(s, a) else s.box
  {
  }

  /** What does not change in a round. */
  predicate SameRound(s: State, t: State) {
    t.taken == s.taken && t.lastName == s.lastName && t.lossless == s.lossless && t.past.log == s.past.log
  }

  lemma RoundStep(s: State, a: Action)
    requires InRound(s.server) && s.server.next <= |s.taken| && IsTurn(s, a)
    ensures var t, i := Step(s, a), s.server.next;
            && SameRound(s, t)
            && (if i < |s.taken| then t.server == AtIndex(s.server, i + 1) && Offer(s, a) == Told(s, i)
                else t.server == AfterRound(s.server) && Offer(s, a) == [])
  {
    RoundOp(s, a.pick, a.ok);
    var i := s.server.next;
    assert Step(s, a) == ServerStep(s, a.pick, a.ok, a.quit, a.garbage);
    hide ServerOp, Told, Apply;
  }

  lemma RoundOp(s: State, pick: Pick, ok: bool)
    requires InRound(s.server) && s.server.next <= |s.taken|
    ensures var op, i := ServerOp(s, pick, ok), s.server.next;
            if i < |s.taken| && Told(s, i) != [] then |Told(s, i)| == 1 && op == Send(Told(s, i)[0], ok) else op == Keep
  {
  }

  lemma OtherStep(s: State, a: Action)
    requires !IsTurn(s, a)
    ensures var t := Step(s, a); SameRound(s, t) && t.server == s.server && Offer(s, a) == []
  {
  }

  lemma ToldAlike(s: State, t: State, i: nat, n: nat)
    requires InRound(s.server) && SameRound(s, t) && i <= n <= |s.taken| && t.server == AtIndex(s.server, n)
    ensures n < |s.taken| ==> Told(t, n) == Told(s, n) && AllTold(s, i, n + 1) == AllTold(s, i, n) + Told(s, n)
  {
  }

  lemma RoundOn(s: State, t: State, a: Action, i: nat, n: nat)
    requires InRound(s.server) && SameRound(s, t) && t.server == AtIndex(s.server, n) && i <= n <= |s.taken|
    requires IsTurn(t, a) ==> n < |s.taken|
    ensures var u, m := Step(t, a), if IsTurn(t, a) then n + 1 else n;
            && SameRound(s, u) && u.server == AtIndex(s.server, m)
            && AllTold(s, i, m) == AllTold(s, i, n) + Offer(t, a)
  {
    if IsTurn(t, a) {
      RoundStep(t, a);
      ToldAlike(s, t, i, n);
    } else {
      OtherStep(t, a);
    }
    hide Step, Offer, Told, IsTurn, AllTold;
  }

  /** A loop over the ids tells every holder once, in order, and nobody else, whatever the clients do meanwhile. */
  lemma {:induction false} RoundTells(s: State, rest: seq<Action>)
    requires InRound(s.server) && s.server.next + ServerTurns(s, rest) <= |s.taken|
    ensures var t, i := Exec(s, rest), s.server.next;
            && SameRound(s, t) && t.server == AtIndex(s.server, i + ServerTurns(s, rest))
            && Offers(s, rest) == AllTold(s, i, i + ServerTurns(s, rest))
    decreases |rest|
  {
    hide Step, Exec, Offers, Offer, ServerTurns, Told, AllTold, IsTurn, AtIndex, SameRound;
    if rest == [] {
      RoundStarts(s);
    } else {
      var before, a := rest[..|rest| - 1], rest[|rest| - 1];
      var t, i := Exec(s, before), s.server.next;
      ExtendRun(s, rest);
      RoundTells(s, before);
      RoundOn(s, t, a, i, i + ServerTurns(s, before));
    }
  }

  lemma RoundStarts(s: State)
    requires InRound(s.server) && s.server.next <= |s.taken|
    ensures Exec(s, []) == s && ServerTurns(s, []) == 0 && SameRound(s, s)
    ensures s.server == AtIndex(s.server, s.server.next)
    ensures Offers(s, []) == AllTold(s, s.server.next, s.server.next)
  {
  }

  lemma ExtendRun(s: State, rest: seq<Action>)
    requires rest != []
    ensures var before, a := rest[..|rest| - 1], rest[|rest| - 1];
            var t := Exec(s, before);
            && Exec(s, rest) == Step(t, a)
            && Offers(s, rest) == Offers(s, before) + Offer(t, a)
            && ServerTurns(s, rest) == ServerTurns(s, before) + if IsTurn(t, a) then 1 else 0
  {
    hide Step, Offer, IsTurn;
  }

  function AddressedTo(i: nat): Message -> bool {
    (m: Message) => m.mtype == MAGIC_NUMBER + i
  }

  lemma ToldOne(s: State, i: nat)
    requires InRound(s.server) && i < |s.taken|
    ensures |Told(s, i)| <= 1 && forall m :: m in Told(s, i) ==> m.mtype == MAGIC_NUMBER + i
  {
  }

  lemma OneMoreTold(before: seq<Message>, one: seq<Message>, n: nat, i: nat)
    requires |one| <= 1 && forall m :: m in one ==> m.mtype == MAGIC_NUMBER + n
    ensures Filter(before + one, AddressedTo(i))
            == if i == n then Filter(before, AddressedTo(i)) + one else Filter(before, AddressedTo(i))
  {
    hide Filter;
    if one != [] {
      assert one == [one[0]] && one[0] in one;
      FilterSnoc(before, one[0], AddressedTo(i));
    } else {
      assert before + one == before;
    }
  }

  lemma NextTold(s: State, n: nat)
    requires InRound(s.server) && n < |s.taken|
    ensures AllTold(s, 0, 0) == [] && AllTold(s, 0, n + 1) == AllTold(s, 0, n) + Told(s, n)
  {
  }

  lemma {:induction false} EachToldOnce(s: State, n: nat, i: nat)
    requires InRound(s.server) && n <= |s.taken| && i < |s.taken|
    ensures Filter(AllTold(s, 0, n), AddressedTo(i)) == if i < n then Told(s, i) else []
    decreases n
  {
    hide *;
    if n == 0 {
      NextTold(s, i);
      NothingFiltered(i);
    } else {
      NextTold(s, n - 1);
      EachToldOnce(s, n - 1, i);
      ToldOne(s, n - 1);
      OneMoreTold(AllTold(s, 0, n - 1), Told(s, n - 1), n - 1, i);
      NothingBefore(Told(s, i));
    }
  }

  lemma NothingFiltered(i: nat)
    ensures Filter([], AddressedTo(i)) == []
  {
  }

  lemma NothingBefore(one: seq<Message>)
    ensures [] + one == one
  {
  }

  /** In a whole loop over the ids, from any state, the server sends, or is refused, exactly one message for each
      holder that is to be told, and nothing for anybody else; nothing else ends the loop. */
  lemma EachHolderToldOnce(s: State, rest: seq<Action>, i: nat)
    requires InRound(s.server) && s.server.next == 0 && ServerTurns(s, rest) == |s.taken| && i < |s.taken|
    ensures var t := Exec(s, rest);
            && Filter(Offers(s, rest), AddressedTo(i)) == Told(s, i) && |Told(s, i)| <= 1
            && t.taken == s.taken && t.server == AtIndex(s.server, |s.taken|)
  {
    hide Step, Exec, Told, AllTold, Filter, Offers, ServerTurns, AtIndex;
    RoundTells(s, rest);
    EachToldOnce(s, |s.taken|, i);
    ToldOne(s, i);
  }

  // ---------------------------------------------------------------------------------------------
  // Who left, and in whose name it is told
  // ---------------------------------------------------------------------------------------------

  /** Client `c` has left, with this id and this name. */
  ghost predicate HasLeft(clients: seq<Client>, id: int, name: string) {
    exists c :: 0 <= c < |clients| && LeftAs(clients[c], id, name)
  }

  predicate LeftAs(x: Client, id: int, name: string) {
    x.pc == Gone && x.id == id && x.name == name
  }

  /** Leave messages, and what the server makes of them, name clients that have left; a post is relayed with its
      sender's name in the server's buffer. */
  ghost predicate LeavesAreTrue(s: State) {
    TrueLeaves(s.box, s.clients) && TrueServer(s.server, s.lastName, s.clients)
  }

  ghost predicate TrueLeaves(box: seq<Message>, clients: seq<Client>) {
    forall k :: 0 <= k < |box| && box[k].mtype == OUT_CHAT ==> HasLeft(clients, box[k].id, box[k].text)
  }

  ghost predicate TrueServer(server: Server, lastName: string, clients: seq<Client>) {
    match server
    case Release(id, text) => HasLeft(clients, id, text)
    case Farewell(_, text) => exists id :: HasLeft(clients, id, text)
    case Relay(_, post) => lastName == post.name
    case _ => true
  }

  lemma ApplyLeaves(box: seq<Message>, clients: seq<Client>, op: Op)
    requires TrueLeaves(box, clients)
    requires op.Put? && op.m.mtype == OUT_CHAT ==> HasLeft(clients, op.m.id, op.m.text)
    ensures TrueLeaves(Apply(box, op), clients)
  {
    hide HasLeft;
  }

  lemma ServerLeaveOp(s: State, pick: Pick, ok: bool)
    ensures var op := ServerOp(s, pick, ok);
            && (op.Put? ==> op.m.mtype != OUT_CHAT)
            && (op.Get? ==> op.index < |s.box| && op.m == s.box[op.index])
            && (op.Get? && s.server.Dismiss? ==> op.m.mtype == OUT_CHAT)
  {
  }

  lemma ServerLeaves(s: State, pick: Pick, ok: bool, quit: bool, garbage: string)
    requires LeavesAreTrue(s)
    ensures LeavesAreTrue(ServerStep(s, pick, ok, quit, garbage))
  {
    var op := ServerOp(s, pick, ok);
    ServerLeaveOp(s, pick, ok);
    ApplyLeaves(s.box, s.clients, op);
    ServerParts(s, pick, ok, quit, garbage);
    hide HasLeft, ServerOp, TrueLeaves, Apply;
    assert op.Get? && s.server.Dismiss? ==> HasLeft(s.clients, op.m.id, op.m.text);
  }

  lemma StillLeft(clients: seq<Client>, c: nat, y: Client)
    requires c < |clients| && (clients[c].pc == Gone ==> y == clients[c])
    ensures forall id, name :: HasLeft(clients, id, name) ==> HasLeft(clients[c := y], id, name)
  {
    forall id, name | HasLeft(clients, id, name) ensures HasLeft(clients[c := y], id, name) {
      var d :| 0 <= d < |clients| && LeftAs(clients[d], id, name);
      assert LeftAs(clients[c := y][d], id, name);
    }
  }

  lemma ClientLeaveOp(x: Client, c: nat, box: seq<Message>, fifo: bool, pick: Pick, ok: bool, stop: bool, typed: Typed)
    ensures var op := ClientOp(x, c, box, fifo, pick, ok, stop, typed);
            var y := ClientAfter(x, op, stop, typed);
            && (x.pc == Gone ==> y == x)
            && (op.Put? && op.m.mtype == OUT_CHAT ==> LeftAs(y, op.m.id, op.m.text))
  {
  }

  lemma ClientLeaves(s: State, c: nat, pick: Pick, ok: bool, stop: bool, typed: Typed)
    requires LeavesAreTrue(s) && c < |s.clients|
    ensures LeavesAreTrue(ClientStep(s, c, pick, ok, stop, typed))
  {
    var x := s.clients[c];
    var op := ClientOp(x, c, s.box, s.fifo, pick, ok, stop, typed);
    var y := ClientAfter(x, op, stop, typed);
    ClientLeaveOp(x, c, s.box, s.fifo, pick, ok, stop, typed);
    StillLeft(s.clients, c, y);
    var after := s.clients[c := y];
    if op.Put? && op.m.mtype == OUT_CHAT {
      assert LeftAs(after[c], op.m.id, op.m.text);
    }
    hide HasLeft, ClientOp, ClientAfter, ClientPast, Apply;
    ApplyLeaves(s.box, after, op);
  }

  /** In every run a leave message, a leave that the server is about to tell and every notice of it bear the name of a
      client that has left, and while the server relays a post it has the sender's name in its buffer. */
  lemma {:induction false} LeaversHaveLeft(s0: State, schedule: seq<Action>)
    requires Init(s0)
    ensures LeavesAreTrue(Exec(s0, schedule))
    decreases |schedule|
  {
    if schedule == [] {
    } else {
      var s, a := Exec(s0, schedule[..|schedule| - 1]), schedule[|schedule| - 1];
      LeaversHaveLeft(s0, schedule[..|schedule| - 1]);
      hide LeavesAreTrue;
      match a
      case Serve(pick, ok, quit, garbage) => ServerLeaves(s, pick, ok, quit, garbage);
      case Act(c, pick, ok, stop, typed) => if c < |s.clients| { ClientLeaves(s, c, pick, ok, stop, typed); }
    }
  }

  lemma StepKeepsName(s: State, a: Action)
    requires Named(s.server)
    ensures Step(s, a).lastName == s.lastName
  {
  }

  lemma {:induction false} BufferKeepsName(s: State, rest: seq<Action>)
    requires forall n :: 0 <= n <= |rest| ==> Named(Exec(s, rest[..n]).server)
    ensures Exec(s, rest).lastName == s.lastName
    decreases |rest|
  {
    if rest == [] {
    } else {
      var before := rest[..|rest| - 1];
      forall n | 0 <= n <= |before| ensures Named(Exec(s, before[..n]).server) {
        assert before[..n] == rest[..n];
      }
      BufferKeepsName(s, before);
      assert rest[..|before|] == before;
      StepKeepsName(Exec(s, before), rest[|rest| - 1]);
    }
  }

  /** A leave frees the id of its sender and no other, and is then told. */
  lemma ReleaseFreesLeaver(s0: State, schedule: seq<Action>, a: Action)
    requires Init(s0) && Exec(s0, schedule).server.Release? && IsTurn(Exec(s0, schedule), a)
    ensures var s, t := Exec(s0, schedule), Exec(s0, schedule + [a]);
            && HasLeft(s.clients, s.server.freed, s.server.text)
            && t.server == Farewell(0, s.server.text) && |t.taken| == |s.taken|
            && forall i :: 0 <= i < |s.taken| ==> t.taken[i] == (s.taken[i] && i != s.server.freed)
  {
    LeaversHaveLeft(s0, schedule);
    RunAppend(Step, s0, schedule, [a]);
    RunOne(Step, Exec(s0, schedule), a);
  }

  /** A leave that the server takes after a post, before it looks for the next command, is told in the poster's name:
      every id still taken is told the name of a client that has left. */
  lemma LeaveIsTold(s0: State, schedule: seq<Action>, rest: seq<Action>)
    requires Init(s0) && Exec(s0, schedule).server.Relay?
    requires forall n :: 0 <= n <= |rest| ==> Named(Exec(Exec(s0, schedule), rest[..n]).server)
    requires Exec(s0, schedule + rest).server.Farewell?
    ensures var p, t := Exec(s0, schedule).server.post, Exec(s0, schedule + rest);
            && (exists id :: HasLeft(t.clients, id, t.server.text))
            && forall i :: 0 <= i < |t.taken| ==>
                 Told(t, i) == if t.taken[i]
                               then [Message(MAGIC_NUMBER + i, Left, p.name, |t.taken| + 41, t.server.text, 0)] else []
  {
    LeaversHaveLeft(s0, schedule);
    LeaversHaveLeft(s0, schedule + rest);
    RunAppend(Step, s0, schedule, rest);
    BufferKeepsName(Exec(s0, schedule), rest);
    hide Exec, Init, HasLeft;
  }

  // ---------------------------------------------------------------------------------------------
  // Clients that leave, and the server that stops
  // ---------------------------------------------------------------------------------------------

  function OutOf(x: Client): seq<Message> {
    if x.id == -1 then [] else [Message(OUT_CHAT, Left, x.name, x.id, x.name, 0)]
  }

  lemma LeavesAtOnce(s: State, c: nat, stop: bool, typed: Typed)
    requires c < |s.clients| && s.clients[c].pc == Leaving && s.clients[c].id != -1
    ensures Step(s, Act(c, Nothing, true, stop, typed)) == AtPc(s, c, Gone).(box := s.box + OutOf(s.clients[c]))
  {
  }

  /** The turns of an interrupted client up to its leave. */
  lemma InterruptLeads(s: State, c: nat)
    requires c < |s.clients|
    ensures var a, x := Act(c, Nothing, true, true, Silence), s.clients[c];
            && (x.pc == Drain ==> Step(s, a) == AtPc(s, c, Input))
            && (x.pc == Input ==> Step(s, a) == AtPc(s, c, Entry))
            && (x.pc == Entry ==> Step(s, a) == AtPc(s, c, if x.id == -1 then Gone else Leaving))
  {
  }

  lemma PcTwice(s: State, c: nat, one: ClientPc, two: ClientPc)
    requires c < |s.clients|
    ensures AtPc(AtPc(s, c, one), c, two) == AtPc(s, c, two) && AtPc(s, c, s.clients[c].pc) == s
  {
  }

  /** An interrupted client is gone after at most four turns, and with an id it has sent its leave message. */
  lemma InterruptEndsClient(s: State, c: nat) returns (turns: nat)
    requires c < |s.clients| && s.clients[c].pc in {Entry, Drain, Input}
    requires s.clients[c].pc != Entry ==> s.clients[c].id != -1
    ensures turns <= 4
    ensures Times(Step, s, Act(c, Nothing, true, true, Silence), turns)
            == AtPc(s, c, Gone).(box := s.box + OutOf(s.clients[c]))
  {
    var a := Act(c, Nothing, true, true, Silence);
    var x := s.clients[c];
    var input, entry, leaving := AtPc(s, c, Input), AtPc(s, c, Entry), AtPc(s, c, Leaving);
    InterruptLeads(s, c);
    InterruptLeads(input, c);
    InterruptLeads(entry, c);
    PcTwice(s, c, Input, Entry);
    PcTwice(s, c, Entry, Leaving);
    PcTwice(s, c, Leaving, Gone);
    if x.id != -1 {
      LeavesAtOnce(leaving, c, true, Silence);
    }
    TimesUp(s, a);
    assert s.box + [] == s.box;
    hide Step, Times;
    turns := if x.id == -1 then 1 else if x.pc == Entry then 2 else if x.pc == Input then 3 else 4;
  }

  function AtPc(s: State, c: nat, pc: ClientPc): State
    requires c < |s.clients|
  {
    s.(clients := s.clients[c := s.clients[c].(pc := pc)])
  }

  lemma TimesUp(s: State, a: Action)
    ensures Times(Step, s, a, 1) == Step(s, a)
    ensures Times(Step, s, a, 2) == Step(Step(s, a), a)
    ensures Times(Step, s, a, 3) == Step(Step(Step(s, a), a), a)
    ensures Times(Step, s, a, 4) == Step(Step(Step(Step(s, a), a), a), a)
  {
    hide Step;
    assert Times(Step, s, a, 1) == Step(Times(Step, s, a, 0), a);
    TwoTimes(Step, s, a);
    FourTimes(Step, s, a);
    assert Times(Step, s, a, 3) == Step(Times(Step, s, a, 2), a);
  }

  /** So is one that quits, after two turns. */
  lemma QuitEndsClient(s: State, c: nat)
    requires c < |s.clients| && s.clients[c].pc == Input && s.clients[c].id != -1
    ensures Times(Step, s, Act(c, Nothing, true, false, Quit), 2)
            == AtPc(s, c, Gone).(box := s.box + OutOf(s.clients[c]))
  {
    var a := Act(c, Nothing, true, false, Quit);
    var leaving := AtPc(s, c, Leaving);
    assert Step(s, a) == leaving;
    LeavesAtOnce(leaving, c, false, Quit);
    hide Step;
    TimesUp(s, a);
  }

  /** The turns of the server to its end, if it is told to quit at the next command. */
  function ServerWay(server: Server, k: nat): int {
    var quit := k + 3;
    match server
    case Closed => 0
    case Closing(i) => k + 1 - i
    case Command => quit
    case Farewell(i, _) => quit + k + 1 - i
    case Release(_, _) => quit + k + 2
    case Dismiss => quit + k + 3
    case Relay(i, _) => quit + 2 * k + 4 - i
    case Collect => quit + 2 * k + 5
    case Announce(j, _, _) => quit + 3 * k + 6 - j
    case Approve(_, _) => quit + 3 * k + 7
    case Assign(_) => quit + 3 * k + 8
    case Register => quit + 3 * k + 9
  }

  predicate GoodIndex(server: Server, k: nat) {
    InRound(server) ==> server.next <= k
  }

  lemma {:induction false} FirstPick(box: seq<Message>, mtype: int, n: nat) returns (pick: Pick)
    requires n <= |box| && forall k :: 0 <= k < n ==> box[k].mtype != mtype
    ensures forall fifo :: Available(box, fifo, mtype, pick)
    decreases |box| - n
  {
    if n == |box| {
      pick := Nothing;
    } else if box[n].mtype == mtype {
      pick := At(n);
    } else {
      pick := FirstPick(box, mtype, n + 1);
    }
  }

  lemma IndexStaysGood(taken: seq<bool>, server: Server, op: Op, quit: bool)
    requires GoodIndex(server, |taken|)
    ensures GoodIndex(ServerAfter(taken, server, op, quit), |taken|)
  {
  }

  lemma WayShrinks(taken: seq<bool>, server: Server, op: Op)
    requires GoodIndex(server, |taken|) && server != Closed
    ensures ServerWay(ServerAfter(taken, server, op, true), |taken|) < ServerWay(server, |taken|)
  {
  }

  /** Whatever the server is doing, it can go on. */
  lemma ServerGoesOn(s: State) returns (a: Action)
    requires s.server != Closed && GoodIndex(s.server, |s.taken|)
    ensures var t := Step(s, a);
            && |t.taken| == |s.taken| && GoodIndex(t.server, |t.taken|)
            && ServerWay(t.server, |t.taken|) < ServerWay(s.server, |s.taken|)
  {
    var mtype := if s.server.Register? then ID_REQUEST else if s.server.Collect? then POST_REQUEST else OUT_CHAT;
    var pick := FirstPick(s.box, mtype, 0);
    var op := ServerOp(s, pick, true);
    assert Available(s.box, s.fifo, mtype, pick);
    assert op != Blocked;
    IndexStaysGood(s.taken, s.server, op, true);
    WayShrinks(s.taken, s.server, op);
    ServerParts(s, pick, true, true, "");
    a := Serve(pick, true, true, "");
    assert |TakenAfter(s.taken, s.server)| == |s.taken|;
    hide ServerOp, ServerAfter, Apply, TakenAfter, ServerPast, ServerWay, GoodIndex, Available;
  }

  lemma {:induction false} StopFrom(s0: State, s: State) returns (t: State)
    requires Reaches(Step, s0, s) && GoodIndex(s.server, |s.taken|)
    ensures Reaches(Step, s0, t) && t.server == Closed
    decreases ServerWay(s.server, |s.taken|)
  {
    if s.server == Closed {
      t := s;
    } else {
      var a := ServerGoesOn(s);
      ReachesNext(Step, s0, s, a);
      WayIsPositive(s.server, |s.taken|);
      hide Step, Reaches, ServerWay, GoodIndex;
      t := StopFrom(s0, Step(s, a));
    }
  }

  lemma WayIsPositive(server: Server, k: nat)
    requires GoodIndex(server, k)
    ensures ServerWay(server, k) >= 0
  {
  }

  lemma {:induction false} IndexIsGood(s0: State, schedule: seq<Action>)
    requires Init(s0)
    ensures GoodIndex(Exec(s0, schedule).server, |Exec(s0, schedule).taken|)
    decreases |schedule|
  {
    if schedule == [] {
    } else {
      var s, a := Exec(s0, schedule[..|schedule| - 1]), schedule[|schedule| - 1];
      IndexIsGood(s0, schedule[..|schedule| - 1]);
      hide GoodIndex, ServerAfter;
      if a.Serve? {
        IndexStaysGood(s.taken, s.server, ServerOp(s, a.pick, a.ok), a.quit);
      }
    }
  }

  /** Every run can be continued until the server has stopped. */
  lemma ServerCanStop(s0: State, schedule: seq<Action>) returns (rest: seq<Action>)
    requires Init(s0)
    ensures Exec(s0, schedule + rest).server == Closed
  {
    var s := Exec(s0, schedule);
    IndexIsGood(s0, schedule);
    ReachesSelf(Step, s);
    var t := StopFrom(s, s);
    rest :| Run(Step, s, rest) == t;
    RunAppend(Step, s0, schedule, rest);
  }
}
