/** What is relayed through the queue can be displayed, and whoever is there when the server stops can be ended. */
module ChatLiveness {
  import opened Chat
  import opened ChatOrder
  import opened Counting
  import opened Farewells
  import opened Filtering
  import opened Registration
  import opened Runs

  predicate Stays(y: Client, x: int) {
    x >= 0 && y.id == x && y.pc in {Entry, Drain, Input}
  }

  ghost predicate Held(clients: seq<Client>, x: int) {
    exists c :: 0 <= c < |clients| && Stays(clients[c], x)
  }

  /** Nobody who still has a copy to read leaves or is sent away. */
  ghost predicate Staying(s: State) {
    && s.fifo
    && (forall k :: 0 <= k < |s.box| ==> !Ejects(s.box[k]))
    && (forall k :: 0 <= k < |s.box| && IsCopy(s.box[k]) ==> Held(s.clients, s.box[k].mtype - MAGIC_NUMBER))
    && (s.server.Relay? ==> forall x :: 0 <= x < |s.taken| && s.taken[x] ==> Held(s.clients, x))
  }

  ghost predicate SameLog(s: State, t: State) {
    t.past.log == s.past.log && t.past.recipients == s.past.recipients && t.past.dropped == s.past.dropped
  }

  // ---------------------------------------------------------------------------------------------
  // The server finishes its relay
  // ---------------------------------------------------------------------------------------------

  lemma RelayOne(s: State, j: nat, p: Message)
    requires Staying(s) && s.server == Relay(j, p) && j < |s.taken|
    ensures var t := Step(s, ON); Staying(t) && SameLog(s, t) && t.server == Relay(j + 1, p) && |t.taken| == |s.taken|
  {
    var t := Step(s, ON);
    assert t == s.(box := t.box, server := Relay(j + 1, p));
    if t.box != s.box {
      assert t.box == s.box + [CopyTo(|s.taken|, j, p, |s.past.log| - 1)] && s.taken[j];
      assert Held(t.clients, j);
    }
  }

  lemma {:induction false} FinishRelay(s0: State, s: State, j: nat, p: Message) returns (t: State)
    requires Reaches(Step, s0, s) && Staying(s) && s.server == Relay(j, p) && j <= |s.taken|
    ensures Reaches(Step, s0, t) && Staying(t) && SameLog(s, t) && t.server == Relay(|t.taken|, p)
    decreases |s.taken| - j
  {
    if j == |s.taken| {
      t := s;
    } else {
      RelayOne(s, j, p);
      ReachesNext(Step, s0, s, ON);
      t := FinishRelay(s0, Step(s, ON), j + 1, p);
    }
  }

  // ---------------------------------------------------------------------------------------------
  // The clients read
  // ---------------------------------------------------------------------------------------------

  function Look(c: nat): Action {
    Act(c, Nothing, true, false, Silence)
  }

  function AtDrain(s: State, c: nat): State
    requires c < |s.clients|
  {
    s.(clients := s.clients[c := s.clients[c].(pc := Drain)])
  }

  lemma ToDrain(s0: State, s: State, c: nat, x: int)
    requires Reaches(Step, s0, s) && c < |s.clients| && Stays(s.clients[c], x)
    ensures Reaches(Step, s0, AtDrain(s, c))
  {
    var y := s.clients[c];
    var e := s.(clients := s.clients[c := y.(pc := Entry)]);
    if y.pc == Drain {
      assert AtDrain(s, c) == s;
    } else if y.pc == Entry {
      assert Step(s, Look(c)) == AtDrain(s, c);
      ReachesNext(Step, s0, s, Look(c));
    } else {
      assert Step(s, Look(c)) == e && Step(e, Look(c)) == AtDrain(s, c);
      ReachesNext(Step, s0, s, Look(c));
      ReachesNext(Step, s0, e, Look(c));
    }
  }

  lemma {:induction false} FirstOfType(box: seq<Message>, k: nat) returns (j: nat)
    requires k < |box|
    ensures j <= k && box[j].mtype == box[k].mtype && forall i :: 0 <= i < j ==> box[i].mtype != box[k].mtype
  {
    if i :| 0 <= i < k && box[i].mtype == box[k].mtype {
      j := FirstOfType(box, i);
    } else {
      j := k;
    }
  }

  /** Client `c` reads its first message, and stays unless it is a last one. */
  lemma ReadFirst(s: State, c: nat, k: nat)
    requires c < |s.clients| && s.clients[c].pc == Drain && k < |s.box|
    requires s.box[k].mtype == SetAddressee(s.clients[c].id)
    requires forall i :: 0 <= i < k ==> s.box[i].mtype != s.box[k].mtype
    ensures var t := Step(s, Act(c, At(k), true, false, Silence));
            && t.box == Without(s.box, k) && t.server == s.server && t.taken == s.taken && t.fifo == s.fifo
            && SameLog(s, t)
            && |t.clients| == |s.clients| && t.clients == s.clients[c := t.clients[c]]
            && t.clients[c].pc == (if Ejects(s.box[k]) then Ejected else Drain) && t.clients[c].id == s.clients[c].id
  {
    assert Available(s.box, s.fifo, s.box[k].mtype, At(k));
  }

  lemma StillHeld(clients: seq<Client>, c: nat, y: Client, x: int)
    requires c < |clients| && Held(clients, x)
    requires forall z :: Stays(clients[c], z) ==> Stays(y, z)
    ensures Held(clients[c := y], x)
  {
    var d :| 0 <= d < |clients| && Stays(clients[d], x);
    assert Stays(clients[c := y][d], x);
  }

  lemma StillStaying(s: State, t: State, c: nat, k: nat)
    requires Staying(s) && c < |s.clients| && k < |s.box| && t.box == Without(s.box, k)
    requires t.server == s.server && t.taken == s.taken && t.fifo
    requires |t.clients| == |s.clients| && t.clients == s.clients[c := t.clients[c]]
    requires t.clients[c].pc == Drain && t.clients[c].id == s.clients[c].id
    ensures Staying(t)
  {
    forall x | Held(s.clients, x) ensures Held(t.clients, x) {
      StillHeld(s.clients, c, t.clients[c], x);
    }
    hide Held;
  }

  lemma ReadNext(s0: State, s: State, k: nat) returns (t: State)
    requires Reaches(Step, s0, s) && Staying(s) && k < |s.box| && IsCopy(s.box[k])
    ensures Reaches(Step, s0, t) && Staying(t) && SameLog(s, t) && |t.box| < |s.box|
    ensures t.server == s.server && |t.taken| == |s.taken|
  {
    var x := s.box[k].mtype - MAGIC_NUMBER;
    var c :| 0 <= c < |s.clients| && Stays(s.clients[c], x);
    var j := FirstOfType(s.box, k);
    ToDrain(s0, s, c, x);
    var u := AtDrain(s, c);
    ReadFirst(u, c, j);
    var a := Act(c, At(j), true, false, Silence);
    t := Step(u, a);
    ReachesNext(Step, s0, u, a);
    hide Step, Reaches;
    assert t.clients == s.clients[c := t.clients[c]];
    StillStaying(s, t, c, j);
  }

  lemma {:induction false} ReadAll(s0: State, s: State) returns (t: State)
    requires Reaches(Step, s0, s) && Staying(s)
    ensures Reaches(Step, s0, t) && SameLog(s, t) && t.server == s.server && |t.taken| == |s.taken|
    ensures forall k :: 0 <= k < |t.box| ==> !IsCopy(t.box[k])
    decreases |s.box|
  {
    if k :| 0 <= k < |s.box| && IsCopy(s.box[k]) {
      t := ReadNext(s0, s, k);
      t := ReadAll(s0, t);
    } else {
      t := s;
    }
  }

  // ---------------------------------------------------------------------------------------------
  // Every run
  // ---------------------------------------------------------------------------------------------

  lemma {:induction false} SumOfMembers<T>(s: seq<T>, n: nat, f: T -> nat, members: set<nat>)
    requires n <= |s| && forall x :: 0 <= x < |s| ==> f(s[x]) == if x in members then 1 else 0
    ensures SumTo(s, n, f) == |set x | x in members && x < n|
  {
    var before, all := set x | x in members && x < n - 1, set x | x in members && x < n;
    if n == 0 {
      assert all == {};
    } else {
      SumOfMembers(s, n - 1, f, members);
      if n - 1 in members {
        assert all == before + {n - 1};
      } else {
        assert all == before;
      }
    }
  }

  /** No copy is under way or refused, and the server is through with its relay. */
  ghost predicate Settled(t: State) {
    && (forall k :: 0 <= k < |t.box| ==> !IsCopy(t.box[k])) && t.past.dropped == multiset{}
    && (t.server.Relay? ==> t.server.next == |t.taken|)
  }

  lemma SettledArrived(t: State, k: nat, x: nat)
    requires Inv(t) && Settled(t) && k < |t.past.log| && x < |t.taken|
    ensures |t.past.arrived| == |t.taken| && |t.past.recipients| == |t.past.log|
    ensures Sum(t.past.arrived[x], Copy(x, k)) == if x in t.past.recipients[k] then 1 else 0
  {
    assert Accounted(t, k, x);
    SumZero(t.box, Copy(x, k));
  }

  lemma SettledShown(s0: State, schedule: seq<Action>, k: nat)
    requires Init(s0) && Settled(Exec(s0, schedule)) && k < |Exec(s0, schedule).past.log|
    ensures var t := Exec(s0, schedule);
            && |t.past.recipients| == |t.past.log| && |t.past.arrived| == |t.taken|
            && Sum(t.clients, TimesShown(k)) == |t.past.recipients[k]|
            && forall x :: x in t.past.recipients[k] ==> x < |t.taken| && Sum(t.past.arrived[x], Copy(x, k)) == 1
  {
    var t := Exec(s0, schedule);
    ExecInv(s0, schedule);
    FirstIdsInUse(s0, schedule, |s0.taken|);
    ShownIsArrived(s0, schedule, k);
    assert |t.past.recipients| == |t.past.log| && |t.past.arrived| == |t.taken| == |s0.taken|;
    var members := t.past.recipients[k];
    assert forall x :: x in members ==> x < |t.taken|;
    assert AllShown(t.clients, t.past.arrived, k) ==> forall x :: 0 <= x < |t.taken| ==> CopiesTo(t.past.arrived[x], x);
    hide Within, Settled, Sum, CopiesTo, Inv, Init, Exec, SameSystem;
    forall x: nat | x < |t.taken|
      ensures Sum(t.past.arrived[x], Copy(x, k)) == if x in members then 1 else 0
      ensures TimesIn(k)(t.past.arrived[x]) == if x in members then 1 else 0
    {
      SettledArrived(t, k, x);
      SameCount(t.past.arrived[x], x, k);
    }
    CountMembers(t.past.arrived, k, members);
  }

  lemma CountMembers(arrived: seq<seq<Message>>, k: nat, members: set<nat>)
    requires forall x :: x in members ==> x < |arrived|
    requires forall x :: 0 <= x < |arrived| ==> TimesIn(k)(arrived[x]) == if x in members then 1 else 0
    ensures Sum(arrived, TimesIn(k)) == |members|
  {
    SumOfMembers(arrived, |arrived|, TimesIn(k), members);
    assert (set x | x in members && x < |arrived|) == members;
  }

  lemma Settles(s: State) returns (t: State)
    requires Staying(s) && s.past.dropped == multiset{} && (s.server.Relay? ==> s.server.next <= |s.taken|)
    ensures Reaches(Step, s, t) && Settled(t) && SameLog(s, t)
  {
    ReachesSelf(Step, s);
    t := s;
    if s.server.Relay? {
      t := FinishRelay(s, s, s.server.next, s.server.post);
    }
    t := ReadAll(s, t);
  }

  /** Every run through the queue in which no copy was refused, nobody was sent away and the holders of the ids
      stay can be continued until each post in the log is displayed as often as it has recipients, once for
      each of them. */
  lemma RelayedCanBeDisplayed(s0: State, schedule: seq<Action>) returns (rest: seq<Action>)
    requires Init(s0) && Staying(Exec(s0, schedule)) && Exec(s0, schedule).past.dropped == multiset{}
    ensures var s, t := Exec(s0, schedule), Exec(s0, schedule + rest);
            && t.past.log == s.past.log && t.past.recipients == s.past.recipients
            && |t.past.recipients| == |t.past.log| && |t.past.arrived| == |t.taken|
            && forall k :: 0 <= k < |t.past.log| ==>
                 && Sum(t.clients, TimesShown(k)) == |t.past.recipients[k]|
                 && forall x :: x in t.past.recipients[k] ==>
                      x < |t.taken| && Sum(t.past.arrived[x], Copy(x, k)) == 1
  {
    var s := Exec(s0, schedule);
    RelayWithin(s0, schedule);
    var t := Settles(s);
    rest :| Run(Step, s, rest) == t;
    RunAppend(Step, s0, schedule, rest);
    ExecInv(s0, schedule + rest);
    hide Settled, Staying;
    forall k | 0 <= k < |t.past.log|
      ensures |t.past.recipients| == |t.past.log| && |t.past.arrived| == |t.taken|
      ensures Sum(t.clients, TimesShown(k)) == |t.past.recipients[k]|
      ensures forall x :: x in t.past.recipients[k] ==> x < |t.taken| && Sum(t.past.arrived[x], Copy(x, k)) == 1
    {
      SettledShown(s0, schedule + rest, k);
    }
  }

  lemma {:induction false} RelayWithin(s0: State, schedule: seq<Action>)
    requires Init(s0)
    ensures var s := Exec(s0, schedule); s.server.Relay? ==> s.server.next <= |s.taken|
    decreases |schedule|
  {
    if schedule == [] {
    } else {
      RelayWithin(s0, schedule[..|schedule| - 1]);
    }
  }

  // ---------------------------------------------------------------------------------------------
  // When the server stops
  // ---------------------------------------------------------------------------------------------

  predicate IsLast(m: Message, x: int) {
    Ejects(m) && m.mtype == SetAddressee(x)
  }

  ghost predicate LastUnderWay(box: seq<Message>, x: int) {
    exists m :: m in box && IsLast(m, x)
  }

  ghost predicate Ended(clients: seq<Client>, x: int) {
    exists c :: 0 <= c < |clients| && clients[c].pc == Ejected && clients[c].id == x
  }

  /** Every taken id that the server has dealt with: its holder is told or already ended. */
  ghost predicate Dismissing(s: State) {
    forall x :: 0 <= x < |s.taken| && s.taken[x] && (s.server.Closed? || (s.server.Closing? && x < s.server.next)) ==>
      LastUnderWay(s.box, x) || Ended(s.clients, x)
  }

  lemma GrownBox(box: seq<Message>, m: Message, x: int)
    requires LastUnderWay(box, x) || IsLast(m, x)
    ensures LastUnderWay(box + [m], x)
  {
    if IsLast(m, x) {
      assert m in box + [m];
    } else {
      var l :| l in box && IsLast(l, x);
      assert l in box + [m];
    }
  }

  lemma ServerDismisses(s: State, a: Action)
    requires Dismissing(s) && Stopping(s.server) && a.Serve? && a.ok
    ensures Dismissing(Step(s, a)) && Stopping(Step(s, a).server)
  {
    var t := Step(s, a);
    assert t.taken == s.taken && t.clients == s.clients;
    if s.server.Closing? && s.server.next < |s.taken| && s.taken[s.server.next] {
      var i := s.server.next;
      var m := Notice(|s.taken|, i, Left, SERVER_NAME, "end job");
      assert t.box == s.box + [m] && t.server == Closing(i + 1) && IsLast(m, i);
      forall x | LastUnderWay(s.box, x) || x == i ensures LastUnderWay(t.box, x) {
        GrownBox(s.box, m, x);
      }
    } else {
      assert t.box == s.box;
    }
  }

  lemma StillEnded(clients: seq<Client>, c: nat, y: Client, x: int)
    requires c < |clients| && Ended(clients, x) && (clients[c].pc == Ejected ==> y == clients[c])
    ensures Ended(clients[c := y], x)
  {
    var d :| 0 <= d < |clients| && clients[d].pc == Ejected && clients[d].id == x;
    assert clients[c := y][d].pc == Ejected;
  }

  lemma TakenOut(box: seq<Message>, k: nat, m: Message)
    requires k < |box| && m in box && m != box[k]
    ensures m in Without(box, k)
  {
    var j :| 0 <= j < |box| && box[j] == m;
    assert Without(box, k)[if j < k then j else j - 1] == m;
  }

  /** A client takes the last message to `x` only if it has this id, and then it ends. */
  lemma ClientTakes(y: Client, c: nat, box: seq<Message>, fifo: bool, pick: Pick, ok: bool, stop: bool, typed: Typed,
                    x: int)
    requires x >= 0
    ensures var op := ClientOp(y, c, box, fifo, pick, ok, stop, typed);
            var z := ClientAfter(y, op, stop, typed);
            && (y.pc == Ejected ==> z == y)
            && (op.Get? ==> op.index < |box| && op.m == box[op.index])
            && (op.Get? && IsLast(op.m, x) ==> z.pc == Ejected && z.id == x)
  {
  }

  lemma ClientDismissed(s: State, c: nat, pick: Pick, ok: bool, stop: bool, typed: Typed, x: int)
    requires c < |s.clients| && x >= 0 && (LastUnderWay(s.box, x) || Ended(s.clients, x))
    ensures var t := ClientStep(s, c, pick, ok, stop, typed); LastUnderWay(t.box, x) || Ended(t.clients, x)
  {
    var y := s.clients[c];
    var op := ClientOp(y, c, s.box, s.fifo, pick, ok, stop, typed);
    var z := ClientAfter(y, op, stop, typed);
    var t := ClientStep(s, c, pick, ok, stop, typed);
    ClientTakes(y, c, s.box, s.fifo, pick, ok, stop, typed, x);
    hide ClientOp, ClientAfter, ClientPast, IsLast;
    if op == Blocked {
      assert t == s;
    } else if Ended(s.clients, x) {
      StillEnded(s.clients, c, z, x);
    } else {
      var m :| m in s.box && IsLast(m, x);
      if op.Get? && op.m == m {
        assert t.clients[c] == z;
      } else if op.Get? {
        TakenOut(s.box, op.index, m);
      } else {
        assert m in Apply(s.box, op);
      }
    }
  }

  lemma {:induction false} RunDismisses(s: State, rest: seq<Action>)
    requires s.server == Closing(0) && forall a :: a in rest && a.Serve? ==> a.ok
    ensures Dismissing(Exec(s, rest)) && Stopping(Exec(s, rest).server)
    decreases |rest|
  {
    if rest == [] {
    } else {
      var before, a := rest[..|rest| - 1], rest[|rest| - 1];
      assert forall b :: b in before ==> b in rest;
      assert a in rest;
      RunDismisses(s, before);
      var t := Exec(s, before);
      if a.Serve? {
        ServerDismisses(t, a);
      } else if a.client < |t.clients| {
        var u := Step(t, a);
        assert u.taken == t.taken && u.server == t.server;
        forall x | 0 <= x && (LastUnderWay(t.box, x) || Ended(t.clients, x))
          ensures LastUnderWay(u.box, x) || Ended(u.clients, x)
        {
          ClientDismissed(t, a.client, a.pick, a.ok, a.stop, a.typed, x);
        }
      }
    }
  }

  /** The id of a client that stays is taken, and no other client has it. */
  lemma HolderAlone(s: State, c: nat, x: int)
    requires Inv(s) && c < |s.clients| && Stays(s.clients[c], x)
    ensures 0 <= x < |s.taken| && s.taken[x] && !Ended(s.clients, x)
  {
    assert GoodClient(|s.taken|, s.clients[c]);
    assert Places(s, x) == 1;
    SumPart(s.clients, c, Holds(x));
    if Ended(s.clients, x) {
      var d :| 0 <= d < |s.clients| && s.clients[d].pc == Ejected && s.clients[d].id == x;
      SumPair(s.clients, if c < d then c else d, if c < d then d else c, Holds(x));
    }
  }

  /** Client `c` reads until its last message. */
  lemma {:induction false} ReadToTheEnd(s0: State, s: State, c: nat, x: int) returns (t: State)
    requires Reaches(Step, s0, s) && c < |s.clients| && s.clients[c].pc == Drain && s.clients[c].id == x
    requires LastUnderWay(s.box, x)
    ensures Reaches(Step, s0, t) && |t.clients| == |s.clients| && t.clients[c].pc == Ejected
    decreases |s.box|
  {
    var m :| m in s.box && IsLast(m, x);
    var k :| 0 <= k < |s.box| && s.box[k] == m;
    var j := FirstOfType(s.box, k);
    ReadFirst(s, c, j);
    var a := Act(c, At(j), true, false, Silence);
    ReachesNext(Step, s0, s, a);
    t := Step(s, a);
    hide Step, Reaches;
    if !Ejects(s.box[j]) {
      TakenOut(s.box, j, m);
      t := ReadToTheEnd(s0, t, c, x);
    }
  }

  /** When the server has stopped and no send of it was refused since it began to, every run can be continued until a
      client that is still there is ended. */
  lemma StopEndsClients(s0: State, schedule: seq<Action>, rest: seq<Action>, c: nat) returns (more: seq<Action>)
    requires Init(s0) && Exec(s0, schedule).server == Closing(0) && forall a :: a in rest && a.Serve? ==> a.ok
    requires var t := Exec(s0, schedule + rest);
             t.server == Closed && c < |t.clients| && Stays(t.clients[c], t.clients[c].id)
    ensures c < |Exec(s0, schedule + rest + more).clients|
    ensures Exec(s0, schedule + rest + more).clients[c].pc == Ejected
  {
    var t := Exec(s0, schedule + rest);
    var x := t.clients[c].id;
    ExecInv(s0, schedule + rest);
    RunAppend(Step, s0, schedule, rest);
    RunDismisses(Exec(s0, schedule), rest);
    HolderAlone(t, c, x);
    assert LastUnderWay(t.box, x);
    ReachesSelf(Step, t);
    ToDrain(t, t, c, x);
    hide Inv, Dismissing, LastUnderWay, Ended;
    var u := ReadToTheEnd(t, AtDrain(t, c), c, x);
    more :| Run(Step, t, more) == u;
    RunAppend(Step, s0, schedule + rest, more);
  }
}
