/** Runs of the chat, told by what lies in the first few slots or, one message at a time, in the queue. */
module SlotRuns {
  import opened Chat
  import opened Numerals
  import opened Registration
  import opened Runs
  import SharedMailbox
  import SlotChat
  import opened Transports

  /** What lies in a slot. */
  datatype Place = Empty | Holds(m: Message)

  predicate Lies(slots: seq<Slot>, front: seq<Place>) {
    && |front| <= |slots|
    && forall i :: 0 <= i < |slots| ==>
         if i < |front| && front[i].Holds? then slots[i] == Slot(true, front[i].m) else !slots[i].sent
  }

  function Contents(place: Place): seq<Message> {
    if place.Holds? then [place.m] else []
  }

  /** A queue with at most one message, or slots of which the first are as in `front`. */
  predicate Conveys(s: SlotChat.State, front: seq<Place>) {
    if s.chat.fifo then |front| == 1 && s.chat.box == Contents(front[0]) else Lies(s.slots, front)
  }

  /** Nothing is left over in the server's buffer. */
  predicate Plain(a: Action) {
    a.Serve? ==> a.garbage == ""
  }

  ghost predicate Reached(s0: SlotChat.State, s: SlotChat.State) {
    exists schedule: seq<Action> :: SlotChat.Exec(s0, schedule) == s && forall a :: a in schedule ==> Plain(a)
  }

  lemma ReachedNext(s0: SlotChat.State, s: SlotChat.State, a: Action)
    requires Reached(s0, s) && Plain(a)
    ensures Reached(s0, SlotChat.Step(s, a))
  {
    var schedule: seq<Action> :| SlotChat.Exec(s0, schedule) == s && forall b :: b in schedule ==> Plain(b);
    RunOne(SlotChat.Step, s, a);
    RunAppend(SlotChat.Step, s0, schedule, [a]);
    assert SlotChat.Exec(s0, schedule + [a]) == SlotChat.Step(s, a);
  }

  /** State `s` of a run is `c` but for the messages, which are as in `front`. */
  ghost predicate Shows(s0: SlotChat.State, s: SlotChat.State, c: State, front: seq<Place>) {
    && Reached(s0, s) && SlotChat.Tied(s) && s.door == SlotChat.Working
    && c.box == [] && s.chat == c.(box := s.chat.box) && Conveys(s, front)
  }

  ghost predicate Can(s0: SlotChat.State, c: State, front: seq<Place>) {
    exists s :: Shows(s0, s, c, front)
  }

  // ---------------------------------------------------------------------------------------------
  // One statement
  // ---------------------------------------------------------------------------------------------

  /** Every place before `i` is taken. */
  predicate TakenBefore(front: seq<Place>, i: nat) {
    i < |front| && forall j :: 0 <= j < i ==> front[j].Holds?
  }

  /** No message of the type lies before `i`. */
  predicate NoneBefore(front: seq<Place>, i: nat, mtype: int) {
    i <= |front| && forall j :: 0 <= j < i ==> front[j].Empty? || front[j].m.mtype != mtype
  }

  lemma PutLies(slots: seq<Slot>, front: seq<Place>, i: nat, m: Message)
    requires Lies(slots, front) && TakenBefore(front, i) && front[i] == Empty
    ensures !SlotChat.Full(slots)
    ensures Lies(SharedMailbox.Called(slots, SharedMailbox.Write(m)), front[i := Holds(m)])
  {
    assert SharedMailbox.Matches(SharedMailbox.Write(m), slots[i]);
    assert SharedMailbox.First(slots, SharedMailbox.Write(m)) == i;
  }

  lemma GetLies(slots: seq<Slot>, front: seq<Place>, i: nat, m: Message)
    requires Lies(slots, front) && i < |front| && front[i] == Holds(m) && NoneBefore(front, i, m.mtype)
    ensures SharedMailbox.First(slots, SharedMailbox.Read(m.mtype)) == i && slots[i].message == m
    ensures Lies(SharedMailbox.Called(slots, SharedMailbox.Read(m.mtype)), front[i := Empty])
  {
    assert SharedMailbox.Matches(SharedMailbox.Read(m.mtype), slots[i]);
    assert SharedMailbox.First(slots, SharedMailbox.Read(m.mtype)) == i;
  }

  lemma NoneLies(slots: seq<Slot>, front: seq<Place>, mtype: int)
    requires Lies(slots, front) && NoneBefore(front, |front|, mtype)
    ensures SharedMailbox.First(slots, SharedMailbox.Read(mtype)) == |slots|
  {
  }

  lemma PutAlike(c: State, d: State, a: Action, m: Message)
    requires d == c.(box := d.box) && SlotChat.Asks(c, a).NoMessage? && SlotChat.OpOf(c, a) == Put(m)
    ensures SlotChat.OpOf(d, a) == Put(m)
    ensures Step(d, a) == Step(c, a).(box := Step(d, a).box)
  {
  }

  lemma PutEffect(s: SlotChat.State, a: Action, m: Message)
    requires !s.chat.fifo && s.door == SlotChat.Working && a.ok && !SlotChat.Full(s.slots)
    requires SlotChat.Asks(s.chat, a).NoMessage? && SlotChat.OpOf(s.chat, a) == Put(m)
    ensures SlotChat.Step(s, a) == SlotChat.State(
              Step(s.chat, a), SharedMailbox.Called(s.slots, SharedMailbox.Write(m)), SlotChat.Working)
  {
    hide Step, SlotChat.OpOf, SlotChat.Asks, SharedMailbox.Called, SlotChat.Full;
  }

  lemma PutsInSlot(s0: SlotChat.State, s: SlotChat.State, c: State, front: seq<Place>, a: Action, m: Message, i: nat)
    requires Shows(s0, s, c, front) && !c.fifo && Plain(a)
    requires a.ok && SlotChat.Asks(c, a).NoMessage? && SlotChat.OpOf(c, a) == Put(m)
    requires TakenBefore(front, i) && front[i] == Empty
    ensures Shows(s0, SlotChat.Step(s, a), Step(c, a).(box := []), front[i := Holds(m)])
  {
    PutLies(s.slots, front, i, m);
    PutAlike(c, s.chat, a, m);
    PutEffect(s, a, m);
    SlotChat.StepTied(s, a);
    ReachedNext(s0, s, a);
    hide Step, SlotChat.Step, SlotChat.OpOf, SlotChat.Asks, SharedMailbox.Called, Reached, Lies, SlotChat.Tied;
  }

  lemma PutsInQueue(s0: SlotChat.State, s: SlotChat.State, c: State, front: seq<Place>, a: Action, m: Message)
    requires Shows(s0, s, c, front) && c.fifo && Plain(a)
    requires a.ok && SlotChat.Asks(c, a).NoMessage? && SlotChat.OpOf(c, a) == Put(m) && front[0] == Empty
    ensures Shows(s0, SlotChat.Step(s, a), Step(c, a).(box := []), front[0 := Holds(m)])
  {
    PutAlike(c, s.chat, a, m);
    SlotChat.StepParts(s.chat, a);
    SlotChat.StepTied(s, a);
    ReachedNext(s0, s, a);
    assert SlotChat.Step(s, a) == s.(chat := Step(s.chat, a));
    hide Step, SlotChat.Step, SlotChat.OpOf, SlotChat.Asks, SlotChat.After, Reached, SlotChat.Tied;
  }

  /** A message goes into the first empty slot, or into the queue. */
  lemma Puts(s0: SlotChat.State, c: State, front: seq<Place>, a: Action, m: Message, i: nat)
    requires Can(s0, c, front) && Plain(a)
    requires a.ok && SlotChat.Asks(c, a).NoMessage? && SlotChat.OpOf(c, a) == Put(m)
    requires TakenBefore(front, i) && front[i] == Empty
    ensures Can(s0, Step(c, a).(box := []), front[i := Holds(m)])
  {
    var s :| Shows(s0, s, c, front);
    assert c.fifo ==> |front| == 1;
    hide Step, SlotChat.OpOf, SlotChat.Asks, Shows;
    if c.fifo {
      PutsInQueue(s0, s, c, front, a, m);
    } else {
      PutsInSlot(s0, s, c, front, a, m, i);
    }
  }

  /** The state after a statement that reads `m`, but for the messages. */
  function Reading(c: State, a: Action, m: Message): State {
    Step(c.(box := [m]), a.(pick := At(0))).(box := [])
  }

  /** What a statement does with a message does not depend on where the message lay. */
  lemma AfterGet(c: State, d: State, a: Action, k: nat, pick: Pick, m: Message)
    requires SlotChat.After(c, d, a.(pick := pick), Get(k, m))
    ensures SlotChat.After(c, d, a, Get(0, m))
  {
  }

  lemma SameAfter(c: State, d: State, u: State, v: State, a: Action, op: Op)
    requires d == c.(box := d.box) && SlotChat.After(c, u, a, op) && SlotChat.After(d, v, a, op)
    ensures v == u.(box := v.box)
  {
    hide ServerAfter, TakenAfter, ServerPast, ClientAfter, ClientPast;
  }

  lemma ReadsTheOne(c: State, a: Action, m: Message)
    requires SlotChat.Asks(c, a) == SlotChat.OfType(m.mtype)
    ensures SlotChat.OpOf(c.(box := [m]), a.(pick := At(0))) == Get(0, m)
  {
  }

  lemma GetAlike(c: State, d: State, a: Action, m: Message)
    requires d == c.(box := d.box) && !c.fifo && SlotChat.OpOf(d, a).Get? && SlotChat.OpOf(d, a).m == m
    requires SlotChat.Asks(c, a) == SlotChat.OfType(m.mtype) && a.ok
    ensures Step(d, a) == Reading(c, a, m).(box := Step(d, a).box)
  {
    var e := c.(box := [m]);
    var u, v := Step(e, a.(pick := At(0))), Step(d, a);
    ReadsTheOne(c, a, m);
    SlotChat.StepParts(d, a);
    SlotChat.StepParts(e, a.(pick := At(0)));
    hide Step, SlotChat.OpOf, SlotChat.Asks, SlotChat.After;
    AfterGet(e, u, a, 0, At(0), m);
    AfterGet(d, v, a, SlotChat.OpOf(d, a).index, a.pick, m);
    SameAfter(e, d, u, v, a, Get(0, m));
  }

  lemma AsksAlike(c: State, d: State, a: Action, pick: Pick)
    requires d == c.(box := d.box)
    ensures SlotChat.Asks(d, a) == SlotChat.Asks(c, a) && SlotChat.Asks(c, a.(pick := pick)) == SlotChat.Asks(c, a)
  {
  }

  lemma GetEffect(s: SlotChat.State, a: Action, m: Message)
    requires SlotChat.Tied(s) && !s.chat.fifo && s.door == SlotChat.Working && a.ok
    requires SlotChat.Asks(s.chat, a) == SlotChat.OfType(m.mtype)
    requires var i := SharedMailbox.First(s.slots, SharedMailbox.Read(m.mtype));
             i < |s.slots| && s.slots[i].message == m
    ensures var b := SlotChat.Resolve(s, a);
            && b.ok && (exists pick :: b == a.(pick := pick))
            && SlotChat.OpOf(s.chat, b).Get? && SlotChat.OpOf(s.chat, b).m == m
            && SlotChat.Step(s, a) == SlotChat.State(
                 Step(s.chat, b), SharedMailbox.Called(s.slots, SharedMailbox.Read(m.mtype)), SlotChat.Working)
  {
    SlotChat.Resolved(s, a);
    hide Step, SlotChat.OpOf, SlotChat.Asks, SlotChat.Tied, SlotChat.PickFrom;
    hide SharedMailbox.Called, SharedMailbox.First;
  }

  lemma GetsFromSlot(s0: SlotChat.State, s: SlotChat.State, c: State, front: seq<Place>, a: Action, m: Message, i: nat)
    requires Shows(s0, s, c, front) && !c.fifo && Plain(a) && a.ok && SlotChat.Asks(c, a) == SlotChat.OfType(m.mtype)
    requires i < |front| && front[i] == Holds(m) && NoneBefore(front, i, m.mtype)
    ensures Shows(s0, SlotChat.Step(s, a), Reading(c, a, m), front[i := Empty])
  {
    GetLies(s.slots, front, i, m);
    AsksAlike(c, s.chat, a, Nothing);
    GetEffect(s, a, m);
    var b := SlotChat.Resolve(s, a);
    var pick :| b == a.(pick := pick);
    AsksAlike(c, s.chat, a, pick);
    GetAlike(c, s.chat, b, m);
    SlotChat.StepTied(s, a);
    ReachedNext(s0, s, a);
    ReadingAlike(c, a, pick, m);
    hide Step, SlotChat.Step, SlotChat.OpOf, SlotChat.Asks, SharedMailbox.Called, Reached, Lies, SlotChat.Tied, Reading;
  }

  lemma GetsFromQueue(s0: SlotChat.State, s: SlotChat.State, c: State, front: seq<Place>, a: Action, m: Message)
    requires Shows(s0, s, c, front) && c.fifo && Plain(a) && a.ok && SlotChat.Asks(c, a) == SlotChat.OfType(m.mtype)
    requires |front| == 1 && front[0] == Holds(m)
    ensures Shows(s0, SlotChat.Step(s, a.(pick := At(0))), Reading(c, a, m), front[0 := Empty])
  {
    var b := a.(pick := At(0));
    assert s.chat == c.(box := [m]);
    ReadsTheOne(c, a, m);
    SlotChat.StepParts(s.chat, b);
    SlotChat.StepTied(s, b);
    ReachedNext(s0, s, b);
    assert SlotChat.Step(s, b) == s.(chat := Step(s.chat, b));
    assert [m][..0] + [m][1..] == [];
    hide Step, SlotChat.Step, SlotChat.OpOf, SlotChat.Asks, SlotChat.After, Reached, SlotChat.Tied;
  }

  /** A statement reads the first message of its type. */
  lemma Gets(s0: SlotChat.State, c: State, front: seq<Place>, a: Action, m: Message, i: nat)
    requires Can(s0, c, front) && Plain(a) && a.ok && SlotChat.Asks(c, a) == SlotChat.OfType(m.mtype)
    requires i < |front| && front[i] == Holds(m) && NoneBefore(front, i, m.mtype)
    ensures Can(s0, Reading(c, a, m), front[i := Empty])
  {
    var s :| Shows(s0, s, c, front);
    assert c.fifo ==> |front| == 1;
    hide Step, SlotChat.Asks, Shows, Reading;
    if c.fifo {
      GetsFromQueue(s0, s, c, front, a, m);
    } else {
      GetsFromSlot(s0, s, c, front, a, m, i);
    }
  }

  lemma ReadingAlike(c: State, a: Action, pick: Pick, m: Message)
    ensures Reading(c, a.(pick := pick), m) == Reading(c, a, m)
    ensures Reading(c, a, m).box == [] && Reading(c, a, m).fifo == c.fifo
  {
  }

  /** Neither reads nor writes, or finds nothing to read. */
  predicate Idle(c: State, front: seq<Place>, a: Action) {
    match SlotChat.Asks(c, a)
    case NoMessage => SlotChat.OpOf(c, a) == Keep
    case OfType(mtype) => NoneBefore(front, |front|, mtype) && a.pick == Nothing
  }

  lemma IdleWithoutMessages(c: State, d: State, a: Action)
    requires d == c.(box := d.box) && c.box == [] && SlotChat.OpOf(d, a) == Keep
    requires SlotChat.Asks(c, a).OfType? ==> a.pick == Nothing
    ensures SlotChat.OpOf(c, a) == Keep
  {
  }

  lemma IdleAlike(c: State, d: State, a: Action)
    requires d == c.(box := d.box) && c.box == [] && SlotChat.OpOf(d, a) == Keep && a.ok
    requires SlotChat.Asks(c, a).OfType? ==> a.pick == Nothing
    ensures Step(d, a) == Step(c, a).(box := d.box) && Step(c, a).box == [] && Step(c, a).fifo == c.fifo
  {
    IdleWithoutMessages(c, d, a);
    SlotChat.StepParts(c, a);
    SlotChat.StepParts(d, a);
    assert SlotChat.After(c, Step(c, a), a, Keep) ==> Step(c, a).fifo == c.fifo;
    hide Step, SlotChat.OpOf, SlotChat.Asks, SlotChat.After;
    SameAfter(c, d, Step(c, a), Step(d, a), a, Keep);
  }

  lemma IdleEffect(s: SlotChat.State, a: Action)
    requires SlotChat.Tied(s) && !s.chat.fifo && s.door == SlotChat.Working && a.ok
    requires match SlotChat.Asks(s.chat, a)
             case NoMessage => SlotChat.OpOf(s.chat, a) == Keep
             case OfType(mtype) =>
               a.pick == Nothing && SharedMailbox.First(s.slots, SharedMailbox.Read(mtype)) == |s.slots|
    ensures SlotChat.OpOf(s.chat, a) == Keep
    ensures SlotChat.Step(s, a) == s.(chat := Step(s.chat, a))
  {
    SlotChat.Resolved(s, a);
    assert SlotChat.Resolve(s, a) == a;
    hide Step, SlotChat.OpOf, SlotChat.Asks, SharedMailbox.First, SlotChat.Tied, SlotChat.Resolve;
  }

  lemma IdleOp(c: State, d: State, a: Action)
    requires d == c.(box := d.box) && SlotChat.Asks(c, a).NoMessage? && SlotChat.OpOf(c, a) == Keep
    ensures SlotChat.OpOf(d, a) == Keep
  {
  }

  lemma IdlesOverSlots(s: SlotChat.State, c: State, front: seq<Place>, a: Action)
    requires SlotChat.Tied(s) && s.door == SlotChat.Working && !c.fifo && s.chat == c.(box := s.chat.box)
    requires Lies(s.slots, front) && a.ok && Idle(c, front, a)
    ensures SlotChat.OpOf(s.chat, a) == Keep && SlotChat.Step(s, a) == s.(chat := Step(s.chat, a))
  {
    AsksAlike(c, s.chat, a, Nothing);
    if SlotChat.Asks(c, a).NoMessage? {
      IdleOp(c, s.chat, a);
    } else {
      NoneLies(s.slots, front, SlotChat.Asks(c, a).mtype);
    }
    hide Step, SlotChat.Step, SlotChat.OpOf, SlotChat.Asks, SharedMailbox.First, Lies, SlotChat.Tied;
    IdleEffect(s, a);
  }

  lemma IdlesOverQueue(s: SlotChat.State, c: State, front: seq<Place>, a: Action)
    requires c.fifo && s.chat == c.(box := s.chat.box) && Conveys(s, front) && Idle(c, front, a)
    ensures SlotChat.OpOf(s.chat, a) == Keep && SlotChat.Step(s, a) == s.(chat := Step(s.chat, a))
  {
    AsksAlike(c, s.chat, a, Nothing);
    if SlotChat.Asks(c, a).NoMessage? {
      IdleOp(c, s.chat, a);
    }
  }

  lemma Idles(s0: SlotChat.State, c: State, front: seq<Place>, a: Action)
    requires Can(s0, c, front) && Plain(a) && a.ok && Idle(c, front, a)
    ensures Can(s0, Step(c, a), front)
  {
    var s :| Shows(s0, s, c, front);
    assert SlotChat.Asks(c, a).OfType? ==> a.pick == Nothing;
    hide Step, SlotChat.Step, SlotChat.OpOf, SlotChat.Asks, Idle, Lies, SlotChat.Tied, Reached;
    if c.fifo {
      IdlesOverQueue(s, c, front, a);
    } else {
      IdlesOverSlots(s, c, front, a);
    }
    IdleAlike(c, s.chat, a);
    SlotChat.StepTied(s, a);
    ReachedNext(s0, s, a);
    assert Shows(s0, SlotChat.Step(s, a), Step(c, a), front);
  }

  // ---------------------------------------------------------------------------------------------
  // Registration, with one message under way at a time
  // ---------------------------------------------------------------------------------------------

  function Do(c: nat): Action {
    Act(c, Nothing, true, false, Silence)
  }

  /** The clients `who` have the first ids, in that order, and read; the others have not asked; no message is under
      way. */
  ghost predicate PresentAs(c: State, who: seq<nat>) {
    && c.box == [] && c.server == Command && |who| <= |c.taken|
    && (forall j :: 0 <= j < |c.taken| ==> (c.taken[j] <==> j < |who|))
    && (forall i :: 0 <= i < |who| ==> who[i] < |c.clients| && Reader(c.clients[who[i]], i))
    && (forall n :: 0 <= n < |c.clients| && n !in who ==> AsAtFirst(c.clients[n]) && !c.clients[n].waiting)
    && c.past.log == [] && c.past.turnedAway == 0
  }

  function Upto(n: nat): (who: seq<nat>)
    ensures |who| == n && forall i :: 0 <= i < n ==> who[i] == i
  {
    if n == 0 then [] else Upto(n - 1) + [n - 1]
  }

  ghost predicate Present(c: State, n: nat) {
    PresentAs(c, Upto(n)) && n <= |c.clients|
  }

  predicate SameNames(c: State, d: State) {
    && |d.taken| == |c.taken| && |d.clients| == |c.clients| && d.fifo == c.fifo
    && forall n :: 0 <= n < |c.clients| ==> d.clients[n].name == c.clients[n].name
  }

  predicate Reader(x: Client, id: int) {
    x.pc == Drain && x.id == id && x.shown == []
  }

  function RequestOf(x: Client): Message {
    Message(ID_REQUEST, Joined, x.name, x.id, x.name, 0)
  }

  lemma ClientAsks(s0: SlotChat.State, c: State, n: nat) returns (d: State)
    requires Can(s0, c, [Empty]) && c.box == [] && n < |c.clients|
    requires AsAtFirst(c.clients[n]) && !c.clients[n].waiting
    ensures d == c.(clients := c.clients[n := c.clients[n].(waiting := true)])
    ensures Can(s0, d, [Holds(RequestOf(c.clients[n]))])
  {
    d := c.(clients := c.clients[n := c.clients[n].(waiting := true)]);
    assert Step(c, Do(n)).(box := []) == d;
    hide Can;
    Puts(s0, c, [Empty], Do(n), RequestOf(c.clients[n]), 0);
    assert [Empty][0 := Holds(RequestOf(c.clients[n]))] == [Holds(RequestOf(c.clients[n]))];
  }

  /** The server takes the request. */
  lemma ServerTakes(s0: SlotChat.State, c: State, m: Message) returns (d: State)
    requires Can(s0, c, [Holds(m)]) && c.box == [] && c.server == Command && m.mtype == ID_REQUEST
    ensures d == c.(server := Assign(m.name))
    ensures Can(s0, d, [Empty])
  {
    var u := c.(server := Register);
    d := c.(server := Assign(m.name));
    assert Step(c, ON) == u;
    assert Reading(u, ON, m) == d;
    hide Can, Step, Reading;
    Idles(s0, c, [Holds(m)], ON);
    Gets(s0, u, [Holds(m)], ON, m, 0);
    assert [Holds(m)][0 := Empty] == [Empty];
  }

  /** It marks the first free id and sends it. */
  lemma ServerGives(s0: SlotChat.State, c: State, i: nat) returns (d: State)
    requires Can(s0, c, [Empty]) && c.box == [] && c.server.Assign? && i < |c.taken|
    requires forall j :: 0 <= j < |c.taken| ==> (c.taken[j] <==> j < i)
    ensures d == c.(server := Announce(0, i, c.server.name), taken := c.taken[i := true])
    ensures Can(s0, d, [Holds(IdSet(|c.taken|, i))])
  {
    assert !c.taken[i] && FirstFree(c.taken) == i;
    var u := c.(server := Approve(i, c.server.name), taken := c.taken[i := true]);
    d := c.(server := Announce(0, i, c.server.name), taken := c.taken[i := true]);
    assert Step(c, ON) == u;
    assert Step(u, ON).(box := []) == d;
    hide Can, Step, FirstFree;
    Idles(s0, c, [Empty], ON);
    Puts(s0, u, [Empty], ON, IdSet(|c.taken|, i), 0);
    assert [Empty][0 := Holds(IdSet(|c.taken|, i))] == [Holds(IdSet(|c.taken|, i))];
  }

  lemma ClientTakesId(s0: SlotChat.State, c: State, n: nat, i: nat) returns (d: State)
    requires Can(s0, c, [Holds(IdSet(|c.taken|, i))]) && c.box == [] && n < |c.clients|
    requires AsAtFirst(c.clients[n]) && c.clients[n].waiting
    ensures d == c.(clients := c.clients[n := c.clients[n].(id := i, pc := Drain)])
    ensures Can(s0, d, [Empty])
  {
    var m := IdSet(|c.taken|, i);
    AtoiDecimal(i);
    d := c.(clients := c.clients[n := c.clients[n].(id := i, pc := Drain)]);
    assert Reading(c, Do(n), m) == d;
    hide Can, Step, Reading;
    Gets(s0, c, [Holds(m)], Do(n), m, 0);
    assert [Holds(m)][0 := Empty] == [Empty];
  }

  function Announcing(c: State, j: nat): State
    requires c.server.Announce?
  {
    c.(server := Announce(j, c.server.id, c.server.name))
  }

  lemma SendsNotice(c: State, j: nat)
    requires c.box == [] && c.server.Announce? && c.server.next == j < |c.taken| && c.taken[j] && j != c.server.id
    ensures Step(c, ON).(box := []) == Announcing(c, j + 1)
  {
  }

  lemma ReadsNotice(c: State, h: nat, m: Message)
    requires c.box == [] && h < |c.clients| && c.clients[h].pc == Drain
    requires m.mtype == SetAddressee(c.clients[h].id) && m.kind == Joined
    ensures Reading(c, Do(h), m) == c
  {
    assert c.clients[h := c.clients[h]] == c.clients;
  }

  /** The holder `h` of an id is told of the newcomer and reads it at once. */
  lemma AnnounceTo(s0: SlotChat.State, c: State, j: nat, h: nat)
    requires Can(s0, c, [Empty]) && c.box == [] && c.server.Announce? && c.server.next == j < |c.taken|
    requires c.taken[j] && j != c.server.id && h < |c.clients| && c.clients[h].pc == Drain && c.clients[h].id == j
    ensures Can(s0, Announcing(c, j + 1), [Empty])
  {
    var d := Announcing(c, j + 1);
    var m := Notice(|c.taken|, j, Joined, SERVER_NAME, c.server.name);
    hide Can;
    SendsNotice(c, j);
    ReadsNotice(d, h, m);
    hide Step, Reading;
    Puts(s0, c, [Empty], ON, m, 0);
    assert [Empty][0 := Holds(m)] == [Holds(m)];
    Gets(s0, d, [Holds(m)], Do(h), m, 0);
    assert [Holds(m)][0 := Empty] == [Empty];
  }

  lemma AnnounceNobody(s0: SlotChat.State, c: State, j: nat)
    requires Can(s0, c, [Empty]) && c.box == [] && c.server.Announce? && c.server.next == j < |c.taken|
    requires !c.taken[j] || j == c.server.id
    ensures Can(s0, Announcing(c, j + 1), [Empty])
  {
    assert Step(c, ON) == Announcing(c, j + 1);
    hide Can, Step;
    Idles(s0, c, [Empty], ON);
  }

  lemma {:induction false} AnnounceRest(s0: SlotChat.State, c: State, who: seq<nat>) returns (d: State)
    requires Can(s0, c, [Empty]) && c.box == [] && c.server.Announce? && c.server.next <= |c.taken|
    requires forall j :: 0 <= j < |c.taken| && c.taken[j] ==>
               j < |who| && who[j] < |c.clients| && c.clients[who[j]].pc == Drain && c.clients[who[j]].id == j
    ensures d == Announcing(c, |c.taken|)
    ensures Can(s0, d, [Empty])
    decreases |c.taken| - c.server.next
  {
    var j := c.server.next;
    if j == |c.taken| {
      d := c;
    } else {
      hide Can;
      if c.taken[j] && j != c.server.id {
        AnnounceTo(s0, c, j, who[j]);
      } else {
        AnnounceNobody(s0, c, j);
      }
      d := AnnounceRest(s0, Announcing(c, j + 1), who);
    }
  }

  /** Nothing to relay and nobody leaves. */
  lemma ServerReturns(s0: SlotChat.State, c: State) returns (d: State)
    requires Can(s0, c, [Empty]) && c.box == [] && c.server.Announce? && c.server.next == |c.taken|
    ensures d == c.(server := Command, lastName := "")
    ensures Can(s0, d, [Empty])
  {
    var u, v := c.(server := Collect), c.(server := Dismiss, lastName := "");
    d := c.(server := Command, lastName := "");
    assert Step(c, ON) == u && Step(u, ON) == v && Step(v, ON) == d;
    hide Can, Step;
    Idles(s0, c, [Empty], ON);
    Idles(s0, u, [Empty], ON);
    Idles(s0, v, [Empty], ON);
  }

  /** One client more gets its id. */
  lemma RegisterNext(s0: SlotChat.State, c: State, who: seq<nat>, n: nat) returns (d: State)
    requires Can(s0, c, [Empty]) && PresentAs(c, who) && |who| < |c.taken| && n < |c.clients| && n !in who
    ensures Can(s0, d, [Empty]) && PresentAs(d, who + [n]) && SameNames(c, d)
  {
    hide Can;
    d := ClientAsks(s0, c, n);
    d := ServerTakes(s0, d, RequestOf(c.clients[n]));
    d := ServerGives(s0, d, |who|);
    d := ClientTakesId(s0, d, n, |who|);
    d := AnnounceRest(s0, d, who + [n]);
    d := ServerReturns(s0, d);
    Registered(c, d, who, n);
  }

  lemma Registered(c: State, d: State, who: seq<nat>, n: nat)
    requires PresentAs(c, who) && |who| < |c.taken| && n < |c.clients| && n !in who
    requires d == c.(server := Command, lastName := "", taken := c.taken[|who| := true],
                     clients := c.clients[n := c.clients[n].(waiting := true, id := |who|, pc := Drain)])
    ensures PresentAs(d, who + [n]) && SameNames(c, d)
  {
    var next := who + [n];
    forall i | 0 <= i < |next| ensures next[i] < |d.clients| && Reader(d.clients[next[i]], i) {
      if i < |who| {
        assert who[i] in who;
      }
    }
    forall m | 0 <= m < |d.clients| && m !in next ensures AsAtFirst(d.clients[m]) && !d.clients[m].waiting {
      assert m != next[|who|] && forall i :: 0 <= i < |who| ==> next[i] == who[i];
    }
  }

  lemma AtStart(s0: SlotChat.State)
    requires SlotChat.Init(s0) && (s0.chat.fifo || s0.slots != [])
    ensures Can(s0, s0.chat, [Empty]) && PresentAs(s0.chat, [])
  {
    assert SlotChat.Exec(s0, []) == s0;
    EmptyBag(s0.slots, |s0.slots|);
    hide Bag, SlotChat.Exec;
    assert s0.chat.(box := s0.chat.box) == s0.chat;
    assert Shows(s0, s0, s0.chat, [Empty]);
  }

  /** With one slot, or through the queue, as many clients can register as there are ids. */
  lemma {:induction false} RegisterAll(s0: SlotChat.State, n: nat) returns (c: State)
    requires SlotChat.Init(s0) && (s0.chat.fifo || s0.slots != [])
    requires n <= |s0.chat.taken| && n <= |s0.chat.clients|
    ensures Can(s0, c, [Empty]) && Present(c, n) && SameNames(s0.chat, c)
  {
    if n == 0 {
      c := s0.chat;
      AtStart(s0);
    } else {
      hide Can, PresentAs;
      var d := RegisterAll(s0, n - 1);
      c := RegisterNext(s0, d, Upto(n - 1), n - 1);
    }
  }

  // ---------------------------------------------------------------------------------------------
  // When nobody is turned away
  // ---------------------------------------------------------------------------------------------

  /** The server finds no free id for the request in hand. */
  lemma PoolIsFull(s0: SlotChat.State, c: State)
    requires Can(s0, c, [Empty]) && c.box == [] && c.server.Assign? && forall j :: 0 <= j < |c.taken| ==> c.taken[j]
    ensures Can(s0, c.(server := Collect, past := c.past.(turnedAway := c.past.turnedAway + 1)), [Empty])
  {
    assert FirstFree(c.taken) == |c.taken|;
    assert Step(c, ON) == c.(server := Collect, past := c.past.(turnedAway := c.past.turnedAway + 1));
    hide Can, Step;
    Idles(s0, c, [Empty], ON);
  }

  /** The clients register one by one, until one finds no id left. */
  lemma OneTooMany(s0: SlotChat.State) returns (schedule: seq<Action>)
    requires SlotChat.Init(s0) && !s0.chat.fifo && s0.slots != [] && |s0.chat.clients| > |s0.chat.taken|
    ensures SlotChat.Exec(s0, schedule).chat.past.turnedAway == 1
  {
    var n := |s0.chat.taken|;
    var c := RegisterAll(s0, n);
    hide Can;
    var x := c.clients[n];
    c := ClientAsks(s0, c, n);
    c := ServerTakes(s0, c, RequestOf(x));
    PoolIsFull(s0, c);
    schedule := ScheduleFor(s0, c.(server := Collect, past := c.past.(turnedAway := c.past.turnedAway + 1)), [Empty]);
  }

  lemma ScheduleFor(s0: SlotChat.State, c: State, front: seq<Place>) returns (schedule: seq<Action>)
    requires Can(s0, c, front)
    ensures var s := SlotChat.Exec(s0, schedule);
            s.chat == c.(box := s.chat.box) && Conveys(s, front) && SlotChat.Tied(s)
    ensures forall a :: a in schedule ==> Plain(a)
  {
    var s :| Shows(s0, s, c, front);
    schedule :| SlotChat.Exec(s0, schedule) == s && forall a :: a in schedule ==> Plain(a);
  }

  /** Nothing has been sent. */
  predicate Silent(s: SlotChat.State) {
    s.slots == [] && !s.chat.fifo && !s.chat.server.Assign? && !s.chat.server.Approve? && s.chat.past.turnedAway == 0
  }

  lemma StaysSilent(s: SlotChat.State, a: Action)
    requires SlotChat.Tied(s) && Silent(s)
    ensures Silent(SlotChat.Step(s, a))
  {
    SlotChat.Resolved(s, a);
    SlotChat.SlotStepTied(s, a);
    var b := SlotChat.Resolve(s, a);
    var op := SlotChat.OpOf(s.chat, b);
    if SlotChat.Step(s, a) != s {
      assert b.ok && SlotChat.Full(s.slots) && !op.Get?;
      SlotChat.StepParts(s.chat, b);
      hide Step, SlotChat.OpOf, SlotChat.Asks, SlotChat.Resolve, SlotChat.Tied;
    }
  }

  lemma {:induction false} NothingWithoutSlots(s0: SlotChat.State, schedule: seq<Action>)
    requires SlotChat.Init(s0) && !s0.chat.fifo && s0.slots == []
    ensures Silent(SlotChat.Exec(s0, schedule))
    decreases |schedule|
  {
    if schedule == [] {
    } else {
      NothingWithoutSlots(s0, schedule[..|schedule| - 1]);
      SlotChat.RefinesChat(s0, schedule[..|schedule| - 1]);
      StaysSilent(SlotChat.Exec(s0, schedule[..|schedule| - 1]), schedule[|schedule| - 1]);
    }
  }

  /** Over the slots no run drops a request for an id if and only if there is an id for every client, or no slot
      for any request. */
  lemma NobodyTurnedAwayOverSlots(s0: SlotChat.State)
    requires SlotChat.Init(s0) && !s0.chat.fifo
    ensures (forall schedule :: SlotChat.Exec(s0, schedule).chat.past.turnedAway == 0)
            <==> |s0.chat.clients| <= |s0.chat.taken| || s0.slots == []
  {
    if s0.slots == [] {
      forall schedule ensures SlotChat.Exec(s0, schedule).chat.past.turnedAway == 0 {
        NothingWithoutSlots(s0, schedule);
      }
    } else if |s0.chat.clients| <= |s0.chat.taken| {
      forall schedule ensures SlotChat.Exec(s0, schedule).chat.past.turnedAway == 0 {
        SlotChat.RefinesChat(s0, schedule);
        var choices :| Run(Step, s0.chat, choices) == SlotChat.Exec(s0, schedule).chat;
        EnoughIdsForAll(s0.chat, choices);
      }
    } else {
      var schedule := OneTooMany(s0);
      assert SlotChat.Exec(s0, schedule).chat.past.turnedAway == 1;
    }
  }
}
