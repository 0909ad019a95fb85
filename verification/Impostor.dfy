/** A client of the chat that bears the server's name: its leave ends everybody else. */
module Impostor {
  import opened Chat
  import opened ChatOrder
  import opened Farewells
  import opened Registration
  import opened Runs
  import opened SlotRuns
  import SlotChat
  import opened Transports

  /** Until the server stops nobody is sent away, and no message that would is under way. */
  ghost predicate NobodyEndedEarly(s: State) {
    Stopping(s.server) || ((forall c :: 0 <= c < |s.clients| ==> s.clients[c].pc != Ejected)
                           && forall k :: 0 <= k < |s.box| ==> !Ejects(s.box[k]))
  }

  ghost predicate AllHonest(schedule: seq<Action>) {
    forall a :: a in schedule ==> Honest(a)
  }

  // ---------------------------------------------------------------------------------------------
  // Without an impostor
  // ---------------------------------------------------------------------------------------------

  lemma StepSendsNobodyAway(s: State, a: Action)
    requires NobodySentAway(s) && Honest(a)
    ensures NobodySentAway(Step(s, a))
  {
    hide NobodySentAway;
    match a
    case Serve(pick, ok, quit, garbage) => ServerSendsNobodyAway(s, pick, ok, quit, garbage);
    case Act(c, pick, ok, stop, typed) =>
      if c < |s.clients| { ClientSendsNobodyAway(s, c, pick, ok, stop, typed); }
  }

  lemma SlotStepSendsNobodyAway(s: SlotChat.State, a: Action)
    requires SlotChat.Tied(s) && NobodySentAway(s.chat) && Honest(a)
    ensures NobodySentAway(SlotChat.Step(s, a).chat)
  {
    if s.chat.fifo {
      StepSendsNobodyAway(s.chat, a);
    } else {
      SlotChat.SlotStepTied(s, a);
      assert Honest(SlotChat.Resolve(s, a));
      StepSendsNobodyAway(s.chat, SlotChat.Resolve(s, a));
    }
    hide Step, NobodySentAway;
  }

  lemma {:induction false} HonestRunsEndNobody(s0: SlotChat.State, schedule: seq<Action>)
    requires SlotChat.Init(s0) && AllHonest(schedule)
    requires forall c :: 0 <= c < |s0.chat.clients| ==> s0.chat.clients[c].name != SERVER_NAME
    ensures NobodySentAway(SlotChat.Exec(s0, schedule).chat)
    decreases |schedule|
  {
    if schedule == [] {
    } else {
      var before, a := schedule[..|schedule| - 1], schedule[|schedule| - 1];
      assert forall b :: b in before ==> b in schedule;
      assert a in schedule;
      HonestRunsEndNobody(s0, before);
      SlotChat.RefinesChat(s0, before);
      SlotStepSendsNobodyAway(SlotChat.Exec(s0, before), a);
    }
  }

  // ---------------------------------------------------------------------------------------------
  // With one: it posts and leaves
  // ---------------------------------------------------------------------------------------------

  lemma PostsAndIsTaken(s0: SlotChat.State, c: State, b: nat, a: nat) returns (d: State, p: Message)
    requires Can(s0, c, [Empty]) && PresentAs(c, [b, a])
    ensures b < |c.clients| && Can(s0, d, [Empty]) && p.id == 0 && p.name == c.clients[b].name
    ensures var x := c.clients[b];
            && d == c.(clients := c.clients[b := x.(said := x.said + ["x"])], server := Relay(0, p),
                       lastName := p.name, past := d.past)
  {
    assert [b, a][0] == b && Reader(c.clients[b], 0);
    hide Can, PresentAs;
    p := PostOf(c.clients[b], b, "x");
    d := PostText(s0, c, [Empty], b, "x");
    assert [Empty][0 := Holds(p)] == [Holds(p)];
    d := CollectPost(s0, d, [Holds(p)], p);
    assert [Holds(p)][0 := Empty] == [Empty];
  }

  lemma SkipsSender(s0: SlotChat.State, c: State, p: Message)
    requires Can(s0, c, [Empty]) && c.box == [] && c.server == Relay(0, p) && p.id == 0 && c.taken != []
    ensures Can(s0, c.(server := Relay(1, p)), [Empty])
  {
    assert Step(c, ON) == c.(server := Relay(1, p));
    hide Can, Step;
    Idles(s0, c, [Empty], ON);
  }

  /** The server relays the post to client `a`, the only other one, which reads it. */
  lemma RelayedToOther(s0: SlotChat.State, c: State, a: nat, p: Message) returns (d: State)
    requires Can(s0, c, [Empty]) && c.box == [] && c.server == Relay(0, p) && p.id == 0 && |c.taken| >= 2
    requires forall j :: 0 <= j < |c.taken| ==> (c.taken[j] <==> j < 2)
    requires a < |c.clients| && c.clients[a].pc == Drain && c.clients[a].id == 1
    ensures Can(s0, d, [Empty])
    ensures |d.clients| == |c.clients| && d.clients == c.clients[a := d.clients[a]]
    ensures d == c.(clients := d.clients, server := Relay(|c.taken|, p), past := d.past)
  {
    var m := CopyTo(|c.taken|, 1, p, |c.past.log| - 1);
    d := c.(server := Relay(1, p));
    SkipsSender(s0, c, p);
    hide Can, Step;
    d := RelayCopy(s0, d, [Empty], 0, 1, p);
    assert [Empty][0 := Holds(m)] == [Holds(m)];
    d := Display(s0, d, [Holds(m)], 0, a, m);
    assert [Holds(m)][0 := Empty] == [Empty];
    RelaySkips(s0, d, [Empty], 2, p);
    d := d.(server := Relay(|c.taken|, p));
  }

  lemma QuitsAndLeaves(s0: SlotChat.State, c: State, b: nat) returns (d: State)
    requires Can(s0, c, [Empty]) && c.box == [] && b < |c.clients| && c.clients[b].pc == Drain && c.clients[b].id == 0
    ensures d == c.(clients := c.clients[b := c.clients[b].(pc := Gone)])
    ensures Can(s0, d, [Holds(Message(OUT_CHAT, Left, c.clients[b].name, 0, c.clients[b].name, 0))])
  {
    var m := Message(OUT_CHAT, Left, c.clients[b].name, 0, c.clients[b].name, 0);
    var quit := Act(b, Nothing, true, false, Quit);
    var u, v := AtPc(c, b, Input), AtPc(c, b, Leaving);
    d := c.(clients := c.clients[b := c.clients[b].(pc := Gone)]);
    assert Step(c, Do(b)) == u && Step(u, quit) == v && Step(v, Do(b)).(box := []) == d;
    hide Can, Step;
    Idles(s0, c, [Empty], Do(b));
    Idles(s0, u, [Empty], quit);
    Puts(s0, v, [Empty], Do(b), m, 0);
    assert [Empty][0 := Holds(m)] == [Holds(m)];
  }

  /** The server takes the leave and frees id 0. */
  lemma LeaveIsTaken(s0: SlotChat.State, c: State, p: Message, m: Message) returns (d: State)
    requires Can(s0, c, [Holds(m)]) && c.box == [] && c.server == Relay(|c.taken|, p) && |c.taken| >= 2
    requires m.mtype == OUT_CHAT && m.id == 0
    ensures d == c.(server := Farewell(0, m.text), taken := c.taken[0 := false])
    ensures Can(s0, d, [Empty])
  {
    var u := c.(server := Dismiss);
    assert Step(c, ON) == u;
    hide Can, Step;
    Idles(s0, c, [Holds(m)], ON);
    d := TakesLeave(s0, u, m);
    d := FreesId(s0, d, m.text);
  }

  lemma TakesLeave(s0: SlotChat.State, c: State, m: Message) returns (d: State)
    requires Can(s0, c, [Holds(m)]) && c.box == [] && c.server == Dismiss && m.mtype == OUT_CHAT
    ensures d == c.(server := Release(m.id, m.text))
    ensures Can(s0, d, [Empty])
  {
    d := c.(server := Release(m.id, m.text));
    assert Reading(c, ON, m) == d;
    hide Can, Step, Reading;
    Gets(s0, c, [Holds(m)], ON, m, 0);
    assert [Holds(m)][0 := Empty] == [Empty];
  }

  lemma FreesId(s0: SlotChat.State, c: State, text: string) returns (d: State)
    requires Can(s0, c, [Empty]) && c.box == [] && c.server == Release(0, text) && c.taken != []
    ensures d == c.(server := Farewell(0, text), taken := c.taken[0 := false])
    ensures Can(s0, d, [Empty])
  {
    d := c.(server := Farewell(0, text), taken := c.taken[0 := false]);
    assert Step(c, ON) == d;
    hide Can, Step;
    Idles(s0, c, [Empty], ON);
  }

  lemma LeaveIsToldTo(s0: SlotChat.State, c: State, text: string) returns (d: State)
    requires Can(s0, c, [Empty]) && c.box == [] && c.server == Farewell(0, text) && |c.taken| >= 2
    requires !c.taken[0] && c.taken[1]
    ensures d == c.(server := Farewell(2, text))
    ensures Can(s0, d, [Holds(Notice(|c.taken|, 1, Left, c.lastName, text))])
  {
    var m := Notice(|c.taken|, 1, Left, c.lastName, text);
    var u := c.(server := Farewell(1, text));
    d := c.(server := Farewell(2, text));
    assert Step(c, ON) == u && Step(u, ON).(box := []) == d;
    hide Can, Step;
    Idles(s0, c, [Empty], ON);
    Puts(s0, u, [Empty], ON, m, 0);
    assert [Empty][0 := Holds(m)] == [Holds(m)];
  }

  lemma CarriedIsInBox(s: SlotChat.State, m: Message)
    requires SlotChat.Tied(s) && Conveys(s, [Holds(m)])
    ensures m in s.chat.box
  {
    if s.chat.fifo {
      assert s.chat.box == [m];
    } else {
      InBag(s.slots, |s.slots|, m, 0);
      assert m in multiset(s.chat.box);
    }
  }

  lemma BothRegister(s0: SlotChat.State, b: nat, a: nat) returns (c: State)
    requires SlotChat.Init(s0) && (s0.chat.fifo || s0.slots != []) && |s0.chat.taken| >= 2
    requires b < |s0.chat.clients| && a < |s0.chat.clients| && a != b
    ensures Can(s0, c, [Empty]) && PresentAs(c, [b, a]) && SameNames(s0.chat, c)
  {
    AtStart(s0);
    hide Can, PresentAs, SlotChat.Init;
    c := RegisterNext(s0, s0.chat, [], b);
    assert [] + [b] == [b];
    c := RegisterNext(s0, c, [b], a);
    assert [b] + [a] == [b, a];
  }

  lemma TwoPresent(c0: State, c: State, b: nat, a: nat)
    requires PresentAs(c, [b, a]) && SameNames(c0, c) && a < |c0.clients| && b < |c0.clients|
    ensures c.box == [] && |c.taken| == |c0.taken| && |c.clients| == |c0.clients|
    ensures c.clients[b].pc == Drain && c.clients[b].id == 0 && c.clients[b].name == c0.clients[b].name
    ensures c.clients[a].pc == Drain && c.clients[a].id == 1
    ensures forall j :: 0 <= j < |c.taken| ==> (c.taken[j] <==> j < 2)
  {
    assert [b, a][0] == b && [b, a][1] == a && Reader(c.clients[b], 0) && Reader(c.clients[a], 1);
  }

  lemma NoticeEjects(k: nat)
    ensures Ejects(Notice(k, 1, Left, SERVER_NAME, SERVER_NAME))
  {
  }

  lemma PostIsRelayed(s0: SlotChat.State, c: State, b: nat, a: nat) returns (d: State, p: Message)
    requires Can(s0, c, [Empty]) && PresentAs(c, [b, a]) && c.box == [] && |c.taken| >= 2 && a != b
    requires b < |c.clients| && c.clients[b].pc == Drain && c.clients[b].id == 0
    requires a < |c.clients| && c.clients[a].pc == Drain && c.clients[a].id == 1
    requires forall j :: 0 <= j < |c.taken| ==> (c.taken[j] <==> j < 2)
    ensures Can(s0, d, [Empty]) && d.box == [] && d.taken == c.taken && d.server == Relay(|c.taken|, p)
    ensures d.lastName == c.clients[b].name && |d.clients| == |c.clients|
    ensures d.clients[b].pc == Drain && d.clients[b].id == 0 && d.clients[b].name == c.clients[b].name
  {
    hide *;
    d, p := PostsAndIsTaken(s0, c, b, a);
    d := RelayedToOther(s0, d, a, p);
  }

  lemma LeavesInItsName(s0: SlotChat.State, c: State, p: Message, b: nat) returns (d: State)
    requires Can(s0, c, [Empty]) && c.box == [] && c.server == Relay(|c.taken|, p) && |c.taken| >= 2 && c.taken[1]
    requires b < |c.clients| && c.clients[b].pc == Drain && c.clients[b].id == 0 && c.clients[b].name == c.lastName
    ensures Can(s0, d, [Holds(Notice(|c.taken|, 1, Left, c.lastName, c.lastName))]) && d.server.Farewell?
  {
    hide Can;
    d := QuitsAndLeaves(s0, c, b);
    d := LeaveIsTaken(s0, d, p, Message(OUT_CHAT, Left, c.lastName, 0, c.lastName, 0));
    d := LeaveIsToldTo(s0, d, c.lastName);
  }

  /** Client `b` in the server's name and another client `a` register; `b` posts and leaves at once. */
  lemma ImpostorLeaves(s0: SlotChat.State, b: nat, a: nat) returns (d: State, m: Message)
    requires SlotChat.Init(s0) && (s0.chat.fifo || s0.slots != []) && |s0.chat.taken| >= 2
    requires b < |s0.chat.clients| && a < |s0.chat.clients| && a != b && s0.chat.clients[b].name == SERVER_NAME
    ensures Can(s0, d, [Holds(m)]) && Ejects(m) && d.server.Farewell?
  {
    var c := BothRegister(s0, b, a);
    TwoPresent(s0.chat, c, b, a);
    NoticeEjects(|c.taken|);
    hide *;
    var p: Message;
    d, p := PostIsRelayed(s0, c, b, a);
    d := LeavesInItsName(s0, d, p, b);
    m := Notice(|c.taken|, 1, Left, SERVER_NAME, SERVER_NAME);
  }

  lemma ImpostorEndsOthers(s0: SlotChat.State, b: nat, a: nat) returns (schedule: seq<Action>)
    requires SlotChat.Init(s0) && (s0.chat.fifo || s0.slots != []) && |s0.chat.taken| >= 2
    requires b < |s0.chat.clients| && a < |s0.chat.clients| && a != b && s0.chat.clients[b].name == SERVER_NAME
    ensures AllHonest(schedule) && !NobodyEndedEarly(SlotChat.Exec(s0, schedule).chat)
  {
    var d, m := ImpostorLeaves(s0, b, a);
    schedule := ScheduleFor(s0, d, [Holds(m)]);
    forall x | x in schedule ensures Honest(x) {
      assert Plain(x);
    }
    CarriedIsInBox(SlotChat.Exec(s0, schedule), m);
    hide SlotChat.Exec, Can, SlotChat.Tied;
  }

  /** With two clients, two ids and something to carry a message: in no run in which no leftover buffer holds the
      server's name is anybody sent away before the server stops, if and only if no client bears its name. */
  lemma NobodyEndedEarlyExactly(s0: SlotChat.State)
    requires SlotChat.Init(s0) && (s0.chat.fifo || s0.slots != [])
    requires |s0.chat.clients| >= 2 && |s0.chat.taken| >= 2
    ensures (forall schedule :: AllHonest(schedule) ==> NobodyEndedEarly(SlotChat.Exec(s0, schedule).chat))
            <==> forall c :: 0 <= c < |s0.chat.clients| ==> s0.chat.clients[c].name != SERVER_NAME
  {
    if b :| 0 <= b < |s0.chat.clients| && s0.chat.clients[b].name == SERVER_NAME {
      var schedule := ImpostorEndsOthers(s0, b, if b == 0 then 1 else 0);
      assert !NobodyEndedEarly(SlotChat.Exec(s0, schedule).chat);
    } else {
      forall schedule | AllHonest(schedule) ensures NobodyEndedEarly(SlotChat.Exec(s0, schedule).chat) {
        HonestRunsEndNobody(s0, schedule);
      }
    }
  }
}
