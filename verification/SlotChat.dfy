/** The chat over what carries it: the queue of task1.c, or the slots of task2.c, where a write takes the first
    empty slot, a read the first one with a message of its type, and a write that finds no empty slot never ends
    and keeps the mutex.  Every run is a run of `Chat`, so that what holds there holds here. */
module SlotChat {
  import Chat
  import opened Runs
  import SharedMailbox
  import opened Transports

  type Message = Chat.Message
  type Action = Chat.Action
  type Op = Chat.Op

  /** Whether the mutex can be had, or who is lost with it. */
  datatype Door = Working | ServerLost | ClientLost(c: nat)

  datatype State = State(chat: Chat.State, slots: seq<Slot>, door: Door)

  datatype Asked = NoMessage | OfType(mtype: int)

  // ---------------------------------------------------------------------------------------------
  // Steps
  // ---------------------------------------------------------------------------------------------

  /** The type of message that a statement tries to read. */
  function Asks(s: Chat.State, a: Action): Asked {
    match a
    case Serve(_, _, _, _) =>
      if s.server.Register? then OfType(Chat.ID_REQUEST)
      else if s.server.Collect? then OfType(Chat.POST_REQUEST)
      else if s.server.Dismiss? then OfType(Chat.OUT_CHAT)
      else NoMessage
    case Act(c, _, _, stop, _) =>
      if c >= |s.clients| || stop then NoMessage
      else
        var x := s.clients[c];
        if x.pc == Chat.Entry && x.id == -1 && x.waiting then OfType(Chat.ID_SET)
        else if x.pc == Chat.Drain then OfType(Chat.SetAddressee(x.id))
        else NoMessage
  }

  function OpOf(s: Chat.State, a: Action): Op {
    match a
    case Serve(pick, ok, _, _) => Chat.ServerOp(s, pick, ok)
    case Act(c, pick, ok, stop, typed) =>
      if c < |s.clients| then Chat.ClientOp(s.clients[c], c, s.box, s.fifo, pick, ok, stop, typed) else Chat.Blocked
  }

  function IndexOf(box: seq<Message>, m: Message): (k: nat)
    ensures if k < |box| then box[k] == m else m !in box
  {
    if box == [] || box[0] == m then 0 else 1 + IndexOf(box[1..], m)
  }

  /** The message that the search loop of a read stops at. */
  function PickFrom(box: seq<Message>, slots: seq<Slot>, mtype: int): Chat.Pick {
    var i := SharedMailbox.First(slots, SharedMailbox.Read(mtype));
    if i < |slots| then Chat.At(IndexOf(box, slots[i].message)) else Chat.Nothing
  }

  /** The statement with the message that the slots give it. */
  function Resolve(s: State, a: Action): Action {
    match Asks(s.chat, a)
    case NoMessage => a
    case OfType(mtype) => a.(pick := PickFrom(s.chat.box, s.slots, mtype))
  }

  function SlotsAfter(slots: seq<Slot>, op: Op): seq<Slot> {
    match op
    case Put(m) => SharedMailbox.Called(slots, SharedMailbox.Write(m))
    case Get(_, m) => SharedMailbox.Called(slots, SharedMailbox.Read(m.mtype))
    case _ => slots
  }

  predicate Full(slots: seq<Slot>) {
    forall i :: 0 <= i < |slots| ==> slots[i].sent
  }

  predicate IsLost(door: Door, a: Action) {
    match a
    case Serve(_, _, _, _) => door == ServerLost
    case Act(c, _, _, _, _) => door == ClientLost(c)
  }

  function Lose(a: Action): Door {
    match a
    case Serve(_, _, _, _) => ServerLost
    case Act(c, _, _, _, _) => ClientLost(c)
  }

  /** One statement over the slots.  Whoever needs a closed mutex waits, and who is lost does nothing more. */
  function SlotStep(s: State, a: Action): State {
    var b := Resolve(s, a);
    var op := OpOf(s.chat, b);
    if !a.ok || IsLost(s.door, a) then s
    else if s.door != Working && (Asks(s.chat, a).OfType? || op.Put?) then s
    else if op.Put? && Full(s.slots) then s.(door := Lose(a))
    else State(Chat.Step(s.chat, b), SlotsAfter(s.slots, op), s.door)
  }

  function Step(s: State, a: Action): State {
    if s.chat.fifo then s.(chat := Chat.Step(s.chat, a)) else SlotStep(s, a)
  }

  function Exec(s: State, schedule: seq<Action>): State {
    Run(Step, s, schedule)
  }

  /** All slots are empty; only the queue refuses messages. */
  ghost predicate Init(s: State) {
    && Chat.Init(s.chat) && s.door == Working && (s.chat.fifo || s.chat.lossless)
    && forall i :: 0 <= i < |s.slots| ==> !s.slots[i].sent
  }

  // ---------------------------------------------------------------------------------------------
  // The slots hold the messages under way
  // ---------------------------------------------------------------------------------------------

  ghost predicate Tied(s: State) {
    !s.chat.fifo ==> s.chat.lossless && multiset(s.chat.box) == Bag(s.slots)
  }

  lemma PickFits(box: seq<Message>, slots: seq<Slot>, mtype: int)
    requires multiset(box) == Bag(slots)
    ensures var i := SharedMailbox.First(slots, SharedMailbox.Read(mtype));
            var op := Chat.Receive(box, false, mtype, PickFrom(box, slots, mtype));
            if i < |slots| then op.Get? && op.m == slots[i].message && slots[i].sent && op.m.mtype == mtype
            else op == Chat.Keep
  {
    var i := SharedMailbox.First(slots, SharedMailbox.Read(mtype));
    if i < |slots| {
      assert SharedMailbox.Matches(SharedMailbox.Read(mtype), slots[i]);
      InBag(slots, |slots|, slots[i].message, i);
      assert slots[i].message in multiset(box);
    } else {
      forall j | 0 <= j < |slots| ensures !(slots[j].sent && slots[j].message.mtype == mtype) {
        assert !SharedMailbox.Matches(SharedMailbox.Read(mtype), slots[j]);
      }
      NoneUnread(slots, mtype, box);
    }
  }

  /** A statement gets the first message of its type, and nothing exactly if there is none. */
  lemma Resolved(s: State, a: Action)
    requires Tied(s) && !s.chat.fifo
    ensures var op := OpOf(s.chat, Resolve(s, a));
            match Asks(s.chat, a)
            case NoMessage => op == OpOf(s.chat, a) && !op.Get?
            case OfType(mtype) =>
              var i := SharedMailbox.First(s.slots, SharedMailbox.Read(mtype));
              if i < |s.slots| then op.Get? && op.m == s.slots[i].message && op.m.mtype == mtype else op == Chat.Keep
  {
    match Asks(s.chat, a)
    case NoMessage =>
    case OfType(mtype) =>
      PickFits(s.chat.box, s.slots, mtype);
      hide PickFrom, Chat.Receive, SharedMailbox.First, Tied;
  }

  lemma PutTied(box: seq<Message>, slots: seq<Slot>, m: Message)
    requires multiset(box) == Bag(slots) && !Full(slots)
    ensures multiset(Chat.Apply(box, Chat.Put(m))) == Bag(SharedMailbox.Called(slots, SharedMailbox.Write(m)))
  {
    var i := SharedMailbox.First(slots, SharedMailbox.Write(m));
    assert i < |slots| by {
      var e :| 0 <= e < |slots| && !slots[e].sent;
      assert SharedMailbox.Matches(SharedMailbox.Write(m), slots[e]);
    }
    FillSlot(slots, i, m);
  }

  lemma GetTied(box: seq<Message>, slots: seq<Slot>, k: nat, m: Message)
    requires multiset(box) == Bag(slots) && k < |box| && box[k] == m
    requires var i := SharedMailbox.First(slots, SharedMailbox.Read(m.mtype)); i < |slots| && slots[i].message == m
    ensures multiset(Chat.Apply(box, Chat.Get(k, m))) == Bag(SharedMailbox.Called(slots, SharedMailbox.Read(m.mtype)))
  {
    var i := SharedMailbox.First(slots, SharedMailbox.Read(m.mtype));
    assert slots[i] == Slot(true, m);
    EmptySlot(slots, i, m);
    assert box == box[..k] + ([m] + box[k + 1..]);
  }

  /** What a statement with operation `op` makes of everything but the messages. */
  ghost predicate After(c: Chat.State, d: Chat.State, a: Action, op: Op) {
    && d.fifo == c.fifo && d.lossless == c.lossless
    && match a
       case Serve(_, _, quit, garbage) =>
         && d.lastName == (if c.server != Chat.Collect then c.lastName else if op.Get? then op.m.name else garbage)
         && d.server == Chat.ServerAfter(c.taken, c.server, op, quit) && d.taken == Chat.TakenAfter(c.taken, c.server)
         && d.past == Chat.ServerPast(c.past, c.taken, c.server, op) && d.clients == c.clients
       case Act(i, _, _, stop, typed) =>
         && d.lastName == c.lastName && d.server == c.server && d.taken == c.taken && i < |c.clients|
         && d.clients == c.clients[i := Chat.ClientAfter(c.clients[i], op, stop, typed)]
         && d.past == Chat.ClientPast(c.past, c.clients[i], op)
  }

  lemma StepParts(c: Chat.State, b: Action)
    requires c.lossless ==> b.ok
    ensures var op, d := OpOf(c, b), Chat.Step(c, b);
            if op == Chat.Blocked then d == c else d.box == Chat.Apply(c.box, op) && After(c, d, b, op)
  {
  }

  lemma NothingRefused(c: Chat.State, b: Action)
    requires b.ok
    ensures !OpOf(c, b).Refused?
  {
  }

  lemma SlotStepTied(s: State, a: Action)
    requires Tied(s) && !s.chat.fifo
    ensures var t := SlotStep(s, a);
            Tied(t) && !t.chat.fifo && |t.slots| == |s.slots|
            && (t.chat == s.chat || t.chat == Chat.Step(s.chat, Resolve(s, a)))
  {
    assert Resolve(s, a).ok == a.ok;
    hide OpOf, Asks, Resolve, Chat.Step, Bag;
    var t := SlotStep(s, a);
    if t.chat != s.chat || t.slots != s.slots {
      var b := Resolve(s, a);
      var op := OpOf(s.chat, b);
      Resolved(s, a);
      StepParts(s.chat, b);
      NothingRefused(s.chat, b);
      match op
      case Put(m) => PutTied(s.chat.box, s.slots, m);
      case Get(k, m) =>
        GetsFrom(s.chat, b);
        GetTied(s.chat.box, s.slots, k, m);
      case _ =>
    }
  }

  lemma GetsFrom(c: Chat.State, b: Action)
    ensures var op := OpOf(c, b); op.Get? ==> op.index < |c.box| && c.box[op.index] == op.m
  {
  }

  lemma StepTied(s: State, a: Action)
    requires Tied(s)
    ensures var t := Step(s, a);
            && Tied(t) && t.chat.fifo == s.chat.fifo && |t.slots| == |s.slots|
            && (t.chat == s.chat || exists b :: t.chat == Chat.Step(s.chat, b))
  {
    if !s.chat.fifo {
      SlotStepTied(s, a);
    }
  }

  /** Every run over the slots, or the queue, is a run of the chat, in which the messages under way are those in
      the slots. */
  lemma {:induction false} RefinesChat(s0: State, schedule: seq<Action>)
    requires Init(s0)
    ensures var s := Exec(s0, schedule);
            && Reaches(Chat.Step, s0.chat, s.chat)
            && s.chat.fifo == s0.chat.fifo && |s.slots| == |s0.slots|
            && Tied(s)
    decreases |schedule|
  {
    if schedule == [] {
      ReachesSelf(Chat.Step, s0.chat);
      EmptyBag(s0.slots, |s0.slots|);
    } else {
      var s := Exec(s0, schedule[..|schedule| - 1]);
      RefinesChat(s0, schedule[..|schedule| - 1]);
      StepTied(s, schedule[|schedule| - 1]);
      var t := Step(s, schedule[|schedule| - 1]);
      if t.chat != s.chat {
        var b :| t.chat == Chat.Step(s.chat, b);
        ReachesNext(Chat.Step, s0.chat, s.chat, b);
      }
    }
  }

  // ---------------------------------------------------------------------------------------------
  // A lost writer
  // ---------------------------------------------------------------------------------------------

  /** Nothing has come into the slots or out of them, and whoever is lost is where it was. */
  ghost predicate Frozen(s: State, t: State) {
    && !t.chat.fifo && t.slots == s.slots && t.chat.box == s.chat.box && t.door == s.door
    && |t.chat.clients| == |s.chat.clients|
    && match s.door
       case Working => true
       case ServerLost => t.chat.server == s.chat.server
       case ClientLost(c) => c < |s.chat.clients| ==> t.chat.clients[c] == s.chat.clients[c]
  }

  lemma StepFrozen(s: State, a: Action)
    requires !s.chat.fifo && s.door != Working
    ensures Frozen(s, Step(s, a))
  {
    if a.ok && !IsLost(s.door, a) && Asks(s.chat, a).NoMessage? {
      NothingTaken(s.chat, a);
      NothingRefused(s.chat, a);
      StepParts(s.chat, a);
      assert Resolve(s, a) == a;
      hide Chat.Step, OpOf, Asks;
    }
  }

  lemma NothingTaken(c: Chat.State, a: Action)
    requires Asks(c, a).NoMessage?
    ensures !OpOf(c, a).Get?
  {
  }

  lemma {:induction false} StaysFrozen(s: State, rest: seq<Action>)
    requires !s.chat.fifo && s.door != Working
    ensures Frozen(s, Exec(s, rest))
    decreases |rest|
  {
    if rest == [] {
    } else {
      StaysFrozen(s, rest[..|rest| - 1]);
      StepFrozen(Exec(s, rest[..|rest| - 1]), rest[|rest| - 1]);
    }
  }

  /** Whoever is about to send a message while all slots are full never gets any further, whatever happens next; and
      from then on nobody sends or receives anything. */
  lemma FullSlotsFreeze(s: State, a: Action, rest: seq<Action>)
    requires !s.chat.fifo && s.door == Working && a.ok && OpOf(s.chat, a).Put? && Full(s.slots)
    ensures var t := Exec(s, [a] + rest);
            && t.slots == s.slots && t.chat.box == s.chat.box
            && match a
               case Serve(_, _, _, _) => t.chat.server == s.chat.server
               case Act(c, _, _, _, _) =>
                 && |t.chat.clients| == |s.chat.clients|
                 && (c < |s.chat.clients| ==> t.chat.clients[c] == s.chat.clients[c])
  {
    PutAsksNothing(s.chat, a);
    assert Step(s, a) == s.(door := Lose(a));
    RunOne(Step, s, a);
    RunAppend(Step, s, [a], rest);
    StaysFrozen(s.(door := Lose(a)), rest);
  }

  lemma PutAsksNothing(c: Chat.State, a: Action)
    requires OpOf(c, a).Put?
    ensures Asks(c, a).NoMessage?
  {
  }
}
