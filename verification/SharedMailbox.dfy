/** The mailbox of task2.c under concurrency: any number of processes call `write_message` and `read_message` at
    any time.  Taking and giving the mutex, each round of the search loop and both halves of copying a message
    are single steps, so that all interleavings of the calls are covered. */
module SharedMailbox {
  import Chat
  import opened Counting
  import opened Runs
  import opened Transports

  type Message = Chat.Message

  datatype Call = Write(m: Message) | Read(mtype: int)

  datatype Result = Wrote | Got(m: Message) | Missing | Garbled

  /** Where a process is: outside, before the mutex, at slot `i` of the loop, halfway through the copy of slot
      `i`, before giving the mutex back, or lost with an uninitialised address because all slots were full. */
  datatype Proc = Outside | Asking(call: Call) | Searching(call: Call, i: nat)
                | Copying(call: Call, i: nat, copied: Message)
                | Returning(call: Call, result: Result) | Broken(call: Call)

  datatype State = State(slots: seq<Slot>, mutex: nat, procs: seq<Proc>)

  /** A process begins a call, or executes its next statement. */
  datatype Action = Start(p: nat, call: Call) | Go(p: nat)

  // ---------------------------------------------------------------------------------------------
  // Steps
  // ---------------------------------------------------------------------------------------------

  /** Whether the loop stops at a slot. */
  predicate Matches(call: Call, slot: Slot) {
    match call
    case Write(_) => !slot.sent
    case Read(mtype) => slot.sent && slot.message.mtype == mtype
  }

  /** The first half of a write fills the slot up to the text. */
  function Begun(call: Call, slot: Slot): Slot {
    if call.Write? then Slot(slot.sent, call.m.(text := "")) else slot
  }

  /** The second half marks the slot: written, or read. */
  function Finished(call: Call, slot: Slot): Slot {
    if call.Write? then Slot(true, call.m) else Slot(false, slot.message)
  }

  function SlotsAfter(slots: seq<Slot>, x: Proc): seq<Slot> {
    match x
    case Searching(call, i) =>
      if i < |slots| && Matches(call, slots[i]) then slots[i := Begun(call, slots[i])] else slots
    case Copying(call, i, _) => if i < |slots| then slots[i := Finished(call, slots[i])] else slots
    case _ => slots
  }

  function MutexAfter(mutex: nat, x: Proc): nat {
    match x
    case Asking(_) => if mutex > 0 then mutex - 1 else 0
    case Returning(_, _) => mutex + 1
    case _ => mutex
  }

  function ProcAfter(slots: seq<Slot>, mutex: nat, x: Proc): Proc {
    match x
    case Asking(call) => if mutex > 0 then Searching(call, 0) else x
    case Searching(call, i) =>
      if i >= |slots| then if call.Write? then Broken(call) else Returning(call, Missing)
      else if Matches(call, slots[i]) then Copying(call, i, slots[i].message)
      else Searching(call, i + 1)
    case Copying(call, i, copied) =>
      Returning(call, if call.Write? then Wrote
                    else if i < |slots| && slots[i].message == copied then Got(copied) else Garbled)
    case Returning(_, _) => Outside
    case _ => x
  }

  function Step(s: State, a: Action): State {
    match a
    case Start(p, call) =>
      if p < |s.procs| && s.procs[p] == Outside then s.(procs := s.procs[p := Asking(call)]) else s
    case Go(p) =>
      if p < |s.procs| then
        State(SlotsAfter(s.slots, s.procs[p]), MutexAfter(s.mutex, s.procs[p]),
              s.procs[p := ProcAfter(s.slots, s.mutex, s.procs[p])])
      else s
  }

  function Exec(s: State, schedule: seq<Action>): State {
    Run(Step, s, schedule)
  }

  /** All slots are empty and the mutex has been opened. */
  ghost predicate Init(s: State) {
    && s.mutex == 1
    && (forall i :: 0 <= i < |s.slots| ==> !s.slots[i].sent)
    && (forall p :: 0 <= p < |s.procs| ==> s.procs[p] == Outside)
  }

  // ---------------------------------------------------------------------------------------------
  // The invariant
  // ---------------------------------------------------------------------------------------------

  function Inside(x: Proc): nat {
    if x.Searching? || x.Copying? || x.Returning? || x.Broken? then 1 else 0
  }

  ghost predicate Exclusive(s: State) {
    s.mutex + Sum(s.procs, Inside) == 1
  }

  /** What a process inside may rely on. */
  ghost predicate Sound(slots: seq<Slot>, x: Proc) {
    match x
    case Searching(call, i) => i <= |slots| && forall j :: 0 <= j < i ==> !Matches(call, slots[j])
    case Copying(call, i, copied) =>
      i < |slots| && Matches(call, slots[i]) && (call.Read? ==> slots[i].message == copied)
      && (call.Write? ==> slots[i].message == call.m.(text := ""))
      && forall j :: 0 <= j < i ==> !Matches(call, slots[j])
    case Returning(call, result) => result != Garbled
    case Broken(call) => call.Write? && forall j :: 0 <= j < |slots| ==> slots[j].sent
    case _ => true
  }

  ghost predicate Inv(s: State) {
    Exclusive(s) && forall p :: 0 <= p < |s.procs| ==> Sound(s.slots, s.procs[p])
  }

  lemma OnlyOneInside(s: State, p: nat, q: nat)
    requires Exclusive(s) && p < |s.procs| && q < |s.procs| && p != q && Inside(s.procs[p]) == 1
    ensures Inside(s.procs[q]) == 0 && s.mutex == 0
  {
    SumPair(s.procs, if p < q then p else q, if p < q then q else p, Inside);
  }

  lemma GoExclusive(s: State, p: nat)
    requires Exclusive(s) && p < |s.procs|
    ensures Exclusive(Step(s, Go(p)))
  {
    hide Sum;
    SumPart(s.procs, p, Inside);
    SumUpdate(s.procs, p, ProcAfter(s.slots, s.mutex, s.procs[p]), Inside);
  }

  /** A process that is outside relies on nothing; one inside sees its own changes only. */
  lemma GoSound(slots: seq<Slot>, mutex: nat, x: Proc)
    requires Sound(slots, x)
    ensures Sound(SlotsAfter(slots, x), ProcAfter(slots, mutex, x))
  {
  }

  lemma StepInv(s: State, a: Action)
    requires Inv(s)
    ensures Inv(Step(s, a)) && |Step(s, a).procs| == |s.procs| && |Step(s, a).slots| == |s.slots|
  {
    match a
    case Start(p, call) =>
      if p < |s.procs| && s.procs[p] == Outside {
        SumUpdate(s.procs, p, Asking(call), Inside);
      }
    case Go(p) =>
      if p < |s.procs| {
        GoExclusive(s, p);
        GoSound(s.slots, s.mutex, s.procs[p]);
        OthersSound(s, p);
      }
  }

  lemma OthersSound(s: State, p: nat)
    requires Inv(s) && p < |s.procs|
    ensures forall q :: 0 <= q < |s.procs| && q != p ==> Sound(SlotsAfter(s.slots, s.procs[p]), s.procs[q])
  {
    forall q | 0 <= q < |s.procs| && q != p ensures Sound(SlotsAfter(s.slots, s.procs[p]), s.procs[q]) {
      assert Sound(s.slots, s.procs[q]);
      if Inside(s.procs[p]) == 1 {
        OnlyOneInside(s, p, q);
      }
    }
  }

  lemma {:induction false} ExecInv(s: State, schedule: seq<Action>)
    requires Init(s)
    ensures Inv(Exec(s, schedule))
    ensures |Exec(s, schedule).procs| == |s.procs| && |Exec(s, schedule).slots| == |s.slots|
    decreases |schedule|
  {
    if schedule == [] {
      SumZero(s.procs, Inside);
    } else {
      ExecInv(s, schedule[..|schedule| - 1]);
      StepInv(Exec(s, schedule[..|schedule| - 1]), schedule[|schedule| - 1]);
    }
  }

  // ---------------------------------------------------------------------------------------------
  // The specification: calls that take effect at once
  // ---------------------------------------------------------------------------------------------

  /** A call that has not taken effect, has taken effect with a result, or never will. */
  datatype Status = Idle | Pending(call: Call) | Done(call: Call, result: Result) | Lost(call: Call)

  /** A bag of messages and the calls in progress. */
  datatype Atomic = Atomic(bag: multiset<Message>, size: nat, calls: seq<Status>)

  function StatusOf(x: Proc): Status {
    match x
    case Outside => Idle
    case Asking(call) => Pending(call)
    case Searching(call, _) => Pending(call)
    case Copying(call, _, _) => Pending(call)
    case Returning(call, result) => Done(call, result)
    case Broken(call) => Lost(call)
  }

  function Statuses(procs: seq<Proc>): seq<Status> {
    seq(|procs|, p requires 0 <= p < |procs| => StatusOf(procs[p]))
  }

  ghost function Abstract(s: State): Atomic {
    Atomic(Bag(s.slots), |s.slots|, Statuses(s.procs))
  }

  /** A call takes effect: one message in, one of the asked type out, or an error because there is none; a
      write into a full mailbox never does. */
  ghost predicate TakesEffect(a: multiset<Message>, size: nat, call: Call, b: multiset<Message>, after: Status) {
    match call
    case Write(m) =>
      if after == Lost(call) then b == a && |a| == size
      else after == Done(call, Wrote) && b == a + multiset{m} && |a| < size
    case Read(mtype) =>
      if after == Done(call, Missing) then b == a && forall m :: m in a ==> m.mtype != mtype
      else after.Done? && after.call == call && after.result.Got?
           && after.result.m in a && after.result.m.mtype == mtype && b == a - multiset{after.result.m}
  }

  /** What one process may do at once: begin a call, let it take effect, or return. */
  ghost predicate AtomicStep(a: Atomic, b: Atomic, p: nat) {
    && b.size == a.size && p < |a.calls| && |b.calls| == |a.calls| && b.calls == a.calls[p := b.calls[p]]
    && match a.calls[p]
       case Idle => b.bag == a.bag && b.calls[p].Pending?
       case Pending(call) => TakesEffect(a.bag, a.size, call, b.bag, b.calls[p])
       case Done(_, _) => b.bag == a.bag && b.calls[p] == Idle
       case Lost(_) => false
  }

  lemma ContentSize(slot: Slot)
    ensures |Content(slot)| == if slot.sent then 1 else 0
  {
  }

  lemma SizeOfSum(a: multiset<Message>, b: multiset<Message>)
    ensures |a + b| == |a| + |b|
  {
  }

  lemma NothingAdded(a: multiset<Message>, b: multiset<Message>)
    requires a + multiset{} == b + multiset{}
    ensures a == b
  {
    assert a + multiset{} == a && b + multiset{} == b;
  }

  lemma BagSizeStep(slots: seq<Slot>, n: nat)
    requires 0 < n <= |slots|
    ensures |BagTo(slots, n)| == |BagTo(slots, n - 1)| + if slots[n - 1].sent then 1 else 0
  {
    ContentSize(slots[n - 1]);
    SizeOfSum(BagTo(slots, n - 1), Content(slots[n - 1]));
    assert BagTo(slots, n) == BagTo(slots, n - 1) + Content(slots[n - 1]);
    hide BagTo, Content;
  }

  function IsSent(slot: Slot): nat {
    if slot.sent then 1 else 0
  }

  lemma {:induction false} BagCount(slots: seq<Slot>, n: nat)
    requires n <= |slots|
    ensures |BagTo(slots, n)| == SumTo(slots, n, IsSent)
  {
    if n == 0 {
      assert BagTo(slots, n) == multiset{};
    } else {
      BagCount(slots, n - 1);
      BagSizeStep(slots, n);
      hide BagTo;
    }
  }

  lemma {:induction false} SentCount(slots: seq<Slot>, n: nat)
    requires n <= |slots|
    ensures SumTo(slots, n, IsSent) <= n
    ensures SumTo(slots, n, IsSent) == n <==> forall j :: 0 <= j < n ==> slots[j].sent
  {
    if n == 0 {
    } else {
      SentCount(slots, n - 1);
      assert slots[n - 1].sent <==> IsSent(slots[n - 1]) == 1;
    }
  }

  /** A bag is as large as its mailbox exactly if all slots are full. */
  lemma BagSize(slots: seq<Slot>)
    ensures |Bag(slots)| <= |slots|
    ensures |Bag(slots)| == |slots| <==> forall j :: 0 <= j < |slots| ==> slots[j].sent
  {
    BagCount(slots, |slots|);
    SentCount(slots, |slots|);
    hide SumTo, BagTo;
  }

  lemma NoneOfType(slots: seq<Slot>, mtype: int)
    requires forall j :: 0 <= j < |slots| ==> !Matches(Read(mtype), slots[j])
    ensures forall m :: m in Bag(slots) ==> m.mtype != mtype
  {
    forall m | m in Bag(slots) ensures m.mtype != mtype {
      var k := FromBag(slots, |slots|, m);
      assert !Matches(Read(mtype), slots[k]);
    }
  }

  /** Filling an empty slot up to its text is not seen. */
  lemma BegunUnseen(slots: seq<Slot>, i: nat, call: Call)
    requires i < |slots| && Matches(call, slots[i])
    ensures Bag(slots[i := Begun(call, slots[i])]) == Bag(slots)
  {
    if call.Read? {
      assert slots[i := slots[i]] == slots;
    } else {
      var begun := Begun(call, slots[i]);
      BagToUpdate(slots, i, begun, |slots|);
      assert Content(begun) == multiset{} && Content(slots[i]) == multiset{};
      hide Bag, Content;
      NothingAdded(Bag(slots[i := begun]), Bag(slots));
    }
  }

  lemma WriteTakesEffect(slots: seq<Slot>, i: nat, m: Message)
    requires i < |slots| && !slots[i].sent
    ensures Bag(slots[i := Slot(true, m)]) == Bag(slots) + multiset{m} && |Bag(slots)| < |slots|
  {
    FillSlot(slots, i, m);
    BagSize(slots);
    hide BagTo;
  }

  lemma CopyTakesEffect(slots: seq<Slot>, x: Proc)
    requires x.Copying? && Sound(slots, x)
    ensures TakesEffect(Bag(slots), |slots|, x.call, Bag(SlotsAfter(slots, x)), StatusOf(ProcAfter(slots, 0, x)))
  {
    hide Bag;
    match x.call
    case Write(m) => WriteTakesEffect(slots, x.i, m);
    case Read(mtype) => EmptySlot(slots, x.i, x.copied);
  }

  lemma SearchEnds(slots: seq<Slot>, x: Proc)
    requires x.Searching? && Sound(slots, x) && x.i == |slots|
    ensures TakesEffect(Bag(slots), |slots|, x.call, Bag(slots), StatusOf(ProcAfter(slots, 0, x)))
  {
    match x.call
    case Write(m) => BagSize(slots);
    case Read(mtype) => NoneOfType(slots, mtype);
  }

  /** What a process's next statement is in the specification. */
  lemma GoRefines(slots: seq<Slot>, mutex: nat, x: Proc)
    requires Sound(slots, x)
    ensures var y := ProcAfter(slots, mutex, x);
            var before, after := Bag(slots), Bag(SlotsAfter(slots, x));
            || (StatusOf(y) == StatusOf(x) && after == before)
            || (x.Returning? && y == Outside && after == before)
            || (StatusOf(x).Pending? && TakesEffect(before, |slots|, x.call, after, StatusOf(y)))
  {
    match x
    case Searching(call, i) =>
      if i == |slots| {
        SearchEnds(slots, x);
      } else if Matches(call, slots[i]) {
        BegunUnseen(slots, i, call);
      }
    case Copying(_, _, _) => CopyTakesEffect(slots, x);
    case _ =>
  }

  lemma StatusesUpdate(procs: seq<Proc>, p: nat, y: Proc)
    requires p < |procs|
    ensures Statuses(procs[p := y]) == Statuses(procs)[p := StatusOf(y)]
  {
  }

  lemma StepRefines(s: State, a: Action)
    requires Inv(s)
    ensures Abstract(Step(s, a)) == Abstract(s) || AtomicStep(Abstract(s), Abstract(Step(s, a)), a.p)
  {
    if a.p < |s.procs| {
      var x := s.procs[a.p];
      assert Sound(s.slots, x);
      match a
      case Start(p, call) =>
        if x == Outside {
          StatusesUpdate(s.procs, p, Asking(call));
        }
      case Go(p) =>
        GoRefines(s.slots, s.mutex, x);
        StatusesUpdate(s.procs, p, ProcAfter(s.slots, s.mutex, x));
        assert Statuses(s.procs)[p := StatusOf(x)] == Statuses(s.procs);
        assert |SlotsAfter(s.slots, x)| == |s.slots|;
        hide Bag, TakesEffect, Sound, SlotsAfter, ProcAfter;
    }
  }

  // ---------------------------------------------------------------------------------------------
  // Every run
  // ---------------------------------------------------------------------------------------------

  /** At most one process is between taking the mutex and giving it back. */
  lemma CallsExclude(s0: State, schedule: seq<Action>, p: nat, q: nat)
    requires Init(s0) && p < q < |s0.procs|
    ensures var s := Exec(s0, schedule);
            && |s.procs| == |s0.procs|
            && (Inside(s.procs[p]) == 1 ==> Inside(s.procs[q]) == 0 && s.mutex == 0)
  {
    ExecInv(s0, schedule);
    if Inside(Exec(s0, schedule).procs[p]) == 1 {
      OnlyOneInside(Exec(s0, schedule), p, q);
    }
  }

  /** However the calls interleave, every step of every run is invisible or one process's step on a mailbox
      whose calls take effect at once. */
  lemma RefinesAtomicMailbox(s0: State, schedule: seq<Action>, a: Action)
    requires Init(s0)
    ensures var s, t := Exec(s0, schedule), Exec(s0, schedule + [a]);
            Abstract(t) == Abstract(s) || AtomicStep(Abstract(s), Abstract(t), a.p)
    ensures Abstract(s0).bag == multiset{}
  {
    ExecInv(s0, schedule);
    RunAppend(Step, s0, schedule, [a]);
    RunOne(Step, Exec(s0, schedule), a);
    StepRefines(Exec(s0, schedule), a);
    EmptyBag(s0.slots, |s0.slots|);
  }

  /** However the calls interleave, a call changes the slots as it would alone: the first slot that fits. */
  lemma CallsTakeFirstSlot(s0: State, schedule: seq<Action>, p: nat)
    requires Init(s0) && p < |Exec(s0, schedule).procs|
    ensures var s := Exec(s0, schedule);
            var x, t := s.procs[p], Step(s, Go(p));
            && (x.Copying? ==> x.i == First(s.slots, x.call) && t.slots == Called(s.slots, x.call))
            && (x.Searching? && x.i == |s.slots| ==> First(s.slots, x.call) == |s.slots| && t.slots == s.slots)
  {
    var s := Exec(s0, schedule);
    ExecInv(s0, schedule);
    assert Sound(s.slots, s.procs[p]);
  }

  /** In every run a slot that is being written is not marked yet and lacks its text. */
  lemma HalfWritten(s0: State, schedule: seq<Action>, p: nat)
    requires Init(s0) && p < |Exec(s0, schedule).procs|
    ensures var s := Exec(s0, schedule);
            var x := s.procs[p];
            x.Copying? && x.call.Write? ==> x.i < |s.slots| && s.slots[x.i] == Slot(false, x.call.m.(text := ""))
  {
    var s := Exec(s0, schedule);
    ExecInv(s0, schedule);
    assert Sound(s.slots, s.procs[p]);
  }

  predicate Without(rest: seq<Action>, p: nat) {
    forall a :: a in rest ==> a.p != p
  }

  lemma {:induction false} WaitsMeanwhile(s: State, rest: seq<Action>, p: nat)
    requires Without(rest, p) && p < |s.procs|
    ensures var t := Exec(s, rest); |t.procs| == |s.procs| && |t.slots| == |s.slots| && t.procs[p] == s.procs[p]
    decreases |rest|
  {
    if rest == [] {
    } else {
      assert forall a :: a in rest[..|rest| - 1] ==> a in rest;
      WaitsMeanwhile(s, rest[..|rest| - 1], p);
      assert rest[|rest| - 1] in rest;
    }
  }

  /** From any state, whatever the others do between the two halves of a read: the message is taken as it was, if it is
      the same at the end, and garbled otherwise. */
  lemma ReadShowsChange(s: State, rest: seq<Action>, p: nat)
    requires p < |s.procs| && s.procs[p].Searching? && s.procs[p].call.Read? && Without(rest, p)
    requires s.procs[p].i < |s.slots| && Matches(s.procs[p].call, s.slots[s.procs[p].i])
    ensures var x, u := s.procs[p], Exec(Step(s, Go(p)), rest);
            && |u.procs| == |s.procs| && |u.slots| == |s.slots|
            && Step(u, Go(p)).procs[p] == Returning(x.call,
                 if u.slots[x.i].message == s.slots[x.i].message then Got(s.slots[x.i].message) else Garbled)
  {
    WaitsMeanwhile(Step(s, Go(p)), rest, p);
    hide Exec;
  }

  // ---------------------------------------------------------------------------------------------
  // Lost writers
  // ---------------------------------------------------------------------------------------------

  predicate NobodyLost(s: State) {
    forall p :: 0 <= p < |s.procs| ==> !s.procs[p].Broken?
  }

  function IsWrite(a: Action): nat {
    if a.Start? && a.call.Write? then 1 else 0
  }

  /** How often a schedule has a process begin a write. */
  function Writes(schedule: seq<Action>): nat {
    Sum(schedule, IsWrite)
  }

  /** A write that has begun and not marked its slot. */
  function Writing(x: Proc): nat {
    if (x.Asking? || x.Searching? || x.Copying? || x.Broken?) && x.call.Write? then 1 else 0
  }

  function Load(s: State): nat {
    Sum(s.slots, IsSent) + Sum(s.procs, Writing)
  }

  lemma SlotsLoad(slots: seq<Slot>, mutex: nat, x: Proc)
    requires Sound(slots, x)
    ensures Sum(SlotsAfter(slots, x), IsSent) + Writing(ProcAfter(slots, mutex, x)) <= Sum(slots, IsSent) + Writing(x)
  {
    match x
    case Searching(call, i) =>
      if i < |slots| {
        SumUpdate(slots, i, Begun(call, slots[i]), IsSent);
      }
    case Copying(call, i, _) => SumUpdate(slots, i, Finished(call, slots[i]), IsSent);
    case _ =>
  }

  /** Every message in a slot and every unfinished write stems from a write of its own. */
  lemma StepLoad(s: State, a: Action)
    requires Inv(s)
    ensures Load(Step(s, a)) <= Load(s) + IsWrite(a)
  {
    if a.p < |s.procs| {
      var x := s.procs[a.p];
      assert Sound(s.slots, x);
      match a
      case Start(p, call) => SumUpdate(s.procs, p, Asking(call), Writing);
      case Go(p) =>
        SlotsLoad(s.slots, s.mutex, x);
        SumUpdate(s.procs, p, ProcAfter(s.slots, s.mutex, x), Writing);
    }
    hide Sum, Sound, SlotsAfter, ProcAfter;
  }

  lemma {:induction false} LoadAtMostWrites(s0: State, schedule: seq<Action>)
    requires Init(s0)
    ensures Load(Exec(s0, schedule)) <= Writes(schedule)
    decreases |schedule|
  {
    if schedule == [] {
      SumZero(s0.slots, IsSent);
      SumZero(s0.procs, Writing);
    } else {
      var before, a := schedule[..|schedule| - 1], schedule[|schedule| - 1];
      LoadAtMostWrites(s0, before);
      ExecInv(s0, before);
      StepLoad(Exec(s0, before), a);
      assert schedule == before + [a];
      SumSnoc(before, a, IsWrite);
    }
  }

  /** A lost writer found a message of another write in every slot. */
  lemma FewWritesAreSafe(s0: State, schedule: seq<Action>)
    requires Init(s0) && Writes(schedule) <= |s0.slots|
    ensures NobodyLost(Exec(s0, schedule))
  {
    var s := Exec(s0, schedule);
    LoadAtMostWrites(s0, schedule);
    ExecInv(s0, schedule);
    forall p | 0 <= p < |s.procs| ensures !s.procs[p].Broken? {
      assert Sound(s.slots, s.procs[p]);
      SumPart(s.procs, p, Writing);
      if s.procs[p].Broken? {
        SentCount(s.slots, |s.slots|);
      }
    }
  }

  ghost predicate ReachedBy(s0: State, s: State, writes: nat) {
    exists schedule: seq<Action> :: Exec(s0, schedule) == s && Writes(schedule) == writes
  }

  lemma ThenStep(s0: State, s: State, writes: nat, a: Action)
    requires ReachedBy(s0, s, writes)
    ensures ReachedBy(s0, Step(s, a), writes + IsWrite(a))
  {
    var schedule :| Exec(s0, schedule) == s && Writes(schedule) == writes;
    SumSnoc(schedule, a, IsWrite);
    RunAppend(Step, s0, schedule, [a]);
    RunOne(Step, s, a);
    assert Exec(s0, schedule + [a]) == Step(s, a);
  }

  /** The slot that a call's loop stops at, or the number of slots. */
  function First(slots: seq<Slot>, call: Call): (i: nat)
    ensures i <= |slots| && (i < |slots| ==> Matches(call, slots[i]))
    ensures forall j :: 0 <= j < i ==> !Matches(call, slots[j])
  {
    FirstFrom(slots, call, 0)
  }

  function FirstFrom(slots: seq<Slot>, call: Call, from: nat): (i: nat)
    requires from <= |slots|
    ensures from <= i <= |slots| && (i < |slots| ==> Matches(call, slots[i]))
    ensures forall j :: from <= j < i ==> !Matches(call, slots[j])
    decreases |slots| - from
  {
    if from == |slots| || Matches(call, slots[from]) then from else FirstFrom(slots, call, from + 1)
  }

  /** The slots after a whole call. */
  function Called(slots: seq<Slot>, call: Call): seq<Slot> {
    var i := First(slots, call);
    if i < |slots| then slots[i := Finished(call, slots[i])] else slots
  }

  /** Process `p` holds the mutex. */
  function Holding(s: State, p: nat, x: Proc): State
    requires p < |s.procs|
  {
    s.(mutex := 0, procs := s.procs[p := x])
  }

  lemma {:induction false} SearchUpTo(s0: State, s: State, w: nat, p: nat, call: Call, i: nat)
    requires ReachedBy(s0, s, w) && s.mutex == 1 && p < |s.procs| && s.procs[p] == Outside && i <= First(s.slots, call)
    ensures ReachedBy(s0, Holding(s, p, Searching(call, i)), w + if call.Write? then 1 else 0)
  {
    var v := w + if call.Write? then 1 else 0;
    if i == 0 {
      ThenStep(s0, s, w, Start(p, call));
      ThenStep(s0, Step(s, Start(p, call)), v, Go(p));
      assert Step(Step(s, Start(p, call)), Go(p)) == Holding(s, p, Searching(call, 0));
    } else {
      SearchUpTo(s0, s, w, p, call, i - 1);
      var t := Holding(s, p, Searching(call, i - 1));
      ThenStep(s0, t, v, Go(p));
      assert Step(t, Go(p)) == Holding(s, p, Searching(call, i));
    }
  }

  lemma CopyAlone(s: State, p: nat, call: Call)
    requires s.mutex == 1 && p < |s.procs| && s.procs[p] == Outside && First(s.slots, call) < |s.slots|
    ensures var t := Holding(s, p, Searching(call, First(s.slots, call)));
            Step(Step(Step(t, Go(p)), Go(p)), Go(p)) == s.(slots := Called(s.slots, call))
  {
    var i := First(s.slots, call);
    var t := Holding(s, p, Searching(call, i));
    var u := Step(t, Go(p));
    var v := Step(u, Go(p));
    assert u.procs[p] == Copying(call, i, s.slots[i].message) && u.slots == s.slots[i := Begun(call, s.slots[i])];
    assert v.procs[p].Returning? && v.slots == s.slots[i := Finished(call, s.slots[i])];
    assert Step(v, Go(p)).procs == s.procs;
  }

  lemma MissAlone(s: State, p: nat, call: Call)
    requires s.mutex == 1 && p < |s.procs| && s.procs[p] == Outside && First(s.slots, call) == |s.slots|
    ensures var t := Holding(s, p, Searching(call, First(s.slots, call)));
            if call.Write? then Step(t, Go(p)) == Holding(s, p, Broken(call)) else Step(Step(t, Go(p)), Go(p)) == s
  {
    var t := Holding(s, p, Searching(call, |s.slots|));
    assert call.Read? ==> Step(Step(t, Go(p)), Go(p)).procs == s.procs;
  }

  /** A call that nobody disturbs: the first slot that fits is filled or emptied; with none, a reader goes away
      empty-handed and a writer is lost. */
  lemma CallAlone(s0: State, s: State, w: nat, p: nat, call: Call)
    requires ReachedBy(s0, s, w) && s.mutex == 1 && p < |s.procs| && s.procs[p] == Outside
    ensures var v := w + if call.Write? then 1 else 0;
            if First(s.slots, call) < |s.slots| || call.Read? then ReachedBy(s0, s.(slots := Called(s.slots, call)), v)
            else ReachedBy(s0, Holding(s, p, Broken(call)), v)
  {
    var i := First(s.slots, call);
    var v := w + if call.Write? then 1 else 0;
    SearchUpTo(s0, s, w, p, call, i);
    var t := Holding(s, p, Searching(call, i));
    if i < |s.slots| {
      CopyAlone(s, p, call);
    } else {
      MissAlone(s, p, call);
      assert s.(slots := Called(s.slots, call)) == s;
    }
    hide *;
    ThenStep(s0, t, v, Go(p));
    ThenStep(s0, Step(t, Go(p)), v, Go(p));
    ThenStep(s0, Step(Step(t, Go(p)), Go(p)), v, Go(p));
    NoWrite(p);
  }

  lemma NoWrite(p: nat)
    ensures IsWrite(Go(p)) == 0
  {
  }

  /** Nobody is in a call, and the first `n` slots are full. */
  ghost predicate Resting(s: State, n: nat) {
    && s.mutex == 1 && s.procs != [] && n <= |s.slots|
    && (forall i :: 0 <= i < |s.slots| ==> (s.slots[i].sent <==> i < n))
    && (forall p :: 0 <= p < |s.procs| ==> s.procs[p] == Outside)
  }

  lemma {:induction false} WriteTimes(s0: State, n: nat, m: Message) returns (s: State)
    requires Init(s0) && s0.procs != [] && n <= |s0.slots|
    ensures ReachedBy(s0, s, n) && Resting(s, n) && |s.slots| == |s0.slots|
  {
    if n == 0 {
      s := s0;
      assert Exec(s0, []) == s0 && Writes([]) == 0;
    } else {
      s := WriteTimes(s0, n - 1, m);
      CallAlone(s0, s, n - 1, 0, Write(m));
      assert Matches(Write(m), s.slots[n - 1]);
      assert First(s.slots, Write(m)) == n - 1;
      s := s.(slots := Called(s.slots, Write(m)));
    }
  }

  /** One write more than there are slots, and nobody reads: the last writer is lost. */
  lemma OneWriteTooMany(s0: State, m: Message) returns (schedule: seq<Action>)
    requires Init(s0) && s0.procs != []
    ensures Writes(schedule) == |s0.slots| + 1 && !NobodyLost(Exec(s0, schedule))
  {
    var n := |s0.slots|;
    var s := WriteTimes(s0, n, m);
    CallAlone(s0, s, n, 0, Write(m));
    var t := Holding(s, 0, Broken(Write(m)));
    schedule :| Exec(s0, schedule) == t && Writes(schedule) == n + 1;
    assert t.procs[0].Broken?;
  }

  /** In no run with at most `w` writes is a writer lost if and only if there are at least `w` slots. */
  lemma LostExactlyBeyondSize(s0: State, w: nat)
    requires Init(s0) && s0.procs != []
    ensures (forall schedule :: Writes(schedule) <= w ==> NobodyLost(Exec(s0, schedule))) <==> w <= |s0.slots|
  {
    if w <= |s0.slots| {
      forall schedule | Writes(schedule) <= w ensures NobodyLost(Exec(s0, schedule)) {
        FewWritesAreSafe(s0, schedule);
      }
    } else {
      var schedule := OneWriteTooMany(s0, Chat.Message(0, Chat.Said, "", 0, "", 0));
      assert !NobodyLost(Exec(s0, schedule));
    }
  }

  /** Process `p` is lost with the mutex, and everybody else is before it. */
  ghost predicate Jammed(s: State, p: nat) {
    && p < |s.procs| && s.procs[p].Broken? && s.mutex == 0
    && forall q :: 0 <= q < |s.procs| && q != p ==> s.procs[q].Outside? || s.procs[q].Asking?
  }

  /** What a step can change then: a process outside begins to wait. */
  ghost predicate OnlyWaits(s: State, t: State) {
    && t.slots == s.slots && |t.procs| == |s.procs|
    && forall q :: 0 <= q < |s.procs| ==> t.procs[q] == s.procs[q] || (s.procs[q].Outside? && t.procs[q].Asking?)
  }

  lemma {:induction false} StaysJammed(s: State, p: nat, rest: seq<Action>)
    requires Jammed(s, p)
    ensures Jammed(Exec(s, rest), p) && OnlyWaits(s, Exec(s, rest))
    decreases |rest|
  {
    if rest == [] {
    } else {
      StaysJammed(s, p, rest[..|rest| - 1]);
    }
  }

  /** Once a writer is lost it has found all slots full, and in every continuation it is still lost, the mutex is
      closed, the slots are as they were, and whoever waits or begins a call waits for ever. */
  lemma LostForGood(s0: State, schedule: seq<Action>, rest: seq<Action>, p: nat)
    requires Init(s0) && p < |Exec(s0, schedule).procs| && Exec(s0, schedule).procs[p].Broken?
    ensures var s, t := Exec(s0, schedule), Exec(s0, schedule + rest);
            && |Bag(s.slots)| == |s.slots|
            && Jammed(t, p) && OnlyWaits(s, t) && t.procs[p] == s.procs[p]
  {
    var s := Exec(s0, schedule);
    ExecInv(s0, schedule);
    assert Sound(s.slots, s.procs[p]);
    BagSize(s.slots);
    forall q | 0 <= q < |s.procs| && q != p ensures s.procs[q].Outside? || s.procs[q].Asking? {
      OnlyOneInside(s, p, q);
    }
    SumPart(s.procs, p, Inside);
    RunAppend(Step, s0, schedule, rest);
    StaysJammed(s, p, rest);
  }

  // ---------------------------------------------------------------------------------------------
  // The program, in place
  // ---------------------------------------------------------------------------------------------

  /** The shared segment, the semaphore and the processes that use them. */
  class System {
    var slots: array<Slot>
    var mutex: nat
    var procs: seq<Proc>

    ghost function Model(): State
      reads this, slots
    {
      State(slots[..], mutex, procs)
    }

    ghost predicate Valid()
      reads this, slots
    {
      Inv(Model())
    }

    constructor (size: nat, processes: nat, blank: Message)
      ensures Valid() && Init(Model()) && fresh(slots) && slots.Length == size && |procs| == processes
    {
      slots := new Slot[size](_ => Slot(false, blank));
      mutex := 1;
      procs := seq(processes, _ => Outside);
      new;
      SumZero(procs, Inside);
    }

    method Call(p: nat, call: Call)
      requires Valid() && p < |procs| && procs[p] == Outside
      modifies this`procs
      ensures Valid() && Model() == Step(old(Model()), Start(p, call))
    {
      hide Inv;
      StepInv(Model(), Start(p, call));
      procs := procs[p := Asking(call)];
    }

    /** `semop` -1 */
    method Lock(p: nat)
      requires Valid() && p < |procs| && procs[p].Asking?
      modifies this`procs, this`mutex
      ensures Valid() && Model() == Step(old(Model()), Go(p))
    {
      hide Inv;
      StepInv(Model(), Go(p));
      if mutex > 0 {
        mutex, procs := mutex - 1, procs[p := Searching(procs[p].call, 0)];
      } else {
        procs := procs[p := procs[p]];
      }
    }

    /** One round of a search loop, and the first half of the copy if it stops. */
    method Search(p: nat)
      requires Valid() && p < |procs| && procs[p].Searching?
      modifies this`procs, slots
      ensures Valid() && slots == old(slots) && Model() == Step(old(Model()), Go(p))
    {
      hide Inv;
      StepInv(Model(), Go(p));
      ghost var next := Step(Model(), Go(p));
      var call, i := procs[p].call, procs[p].i;
      if i >= slots.Length {
        procs := procs[p := if call.Write? then Broken(call) else Returning(call, Missing)];
      } else if Matches(call, slots[i]) {
        procs := procs[p := Copying(call, i, slots[i].message)];
        slots[i] := Begun(call, slots[i]);
      } else {
        procs := procs[p := Searching(call, i + 1)];
      }
      assert slots[..] == next.slots && procs == next.procs;
    }

    /** The second half of the copy. */
    method Copy(p: nat)
      requires Valid() && p < |procs| && procs[p].Copying?
      modifies this`procs, slots
      ensures Valid() && slots == old(slots) && Model() == Step(old(Model()), Go(p))
    {
      assert Sound(slots[..], procs[p]);
      hide Inv;
      StepInv(Model(), Go(p));
      ghost var next := Step(Model(), Go(p));
      var x := procs[p];
      var same := slots[x.i].message == x.copied;
      slots[x.i] := Finished(x.call, slots[x.i]);
      procs := procs[p := Returning(x.call, if x.call.Write? then Wrote else if same then Got(x.copied) else Garbled)];
      assert slots[..] == next.slots && procs == next.procs;
    }

    /** `semop` +1 */
    method Unlock(p: nat)
      requires Valid() && p < |procs| && procs[p].Returning?
      modifies this`procs, this`mutex
      ensures Valid() && Model() == Step(old(Model()), Go(p))
    {
      hide Inv;
      StepInv(Model(), Go(p));
      mutex, procs := mutex + 1, procs[p := Outside];
    }
  }
}
