/** The print spooler of 40_semaphore/sph_chats/sample_explained: any number of clients and one spooler
    share a ring of string buffers through three counting semaphores.  Every `semop`, every half of a
    slot write or read and every index update is one atomic step, so that all interleavings are covered. */
module Spooler {
  import opened Arithmetic
  import opened Counting
  import opened Filtering
  import opened Runs

  /** One printed line: the writer's process and its text. */
  datatype Line = Line(pid: nat, text: string)

  /** A ring slot is torn while a writer is halfway through its `sprintf`. */
  datatype Slot = Torn | Whole(line: Line)

  /** The next statement of a client. */
  datatype ClientPc = Typing | TakeFree | TakeMutex | StartWrite | EndWrite | Advance | GiveMutex | GiveSignal

  /** `todo` is what `fgets` will still return, `typed` (history) what it has returned. */
  datatype Client = Client(pc: ClientPc, line: string, todo: seq<string>, typed: seq<string>)

  /** The next statement of the spooler; the first four are its start-up. */
  datatype SpoolerPc = SetIndices | SetFree | SetSignal | SetMutex
                     | TakeSignal | StartPrint | EndPrint | AdvancePrint | GiveFree

  datatype State = State(
    buf: seq<Slot>, bufferIndex: int, printIndex: int,
    free: nat, mutex: nat, signal: nat,
    clients: seq<Client>,
    spooler: SpoolerPc, copied: Slot,
    printed: seq<Slot>,   // standard output of the spooler
    written: seq<Line>)   // history: lines in the order in which their writes completed

  datatype Process = Typist(id: nat) | TheSpooler

  // ---------------------------------------------------------------------------------------------
  // Steps
  // ---------------------------------------------------------------------------------------------

  /** The line without the newline that `fgets` keeps. */
  function Chomp(s: string): string {
    if s != "" && s[|s| - 1] == '\n' then s[..|s| - 1] else s
  }

  function Wrap(i: int, m: int): int {
    if i == m then 0 else i
  }

  function Store(buf: seq<Slot>, i: int, x: Slot): seq<Slot> {
    if 0 <= i < |buf| then buf[i := x] else buf
  }

  function Load(buf: seq<Slot>, i: int): Slot {
    if 0 <= i < |buf| then buf[i] else Torn
  }

  function Goto(s: State, p: nat, pc: ClientPc): State
    requires p < |s.clients|
  {
    s.(clients := s.clients[p := s.clients[p].(pc := pc)])
  }

  /** One statement of client `p`; a `semop` that would block leaves the state as it is. */
  function ClientStep(s: State, p: nat): State
    requires p < |s.clients|
  {
    var c := s.clients[p];
    match c.pc
    case Typing =>
      if c.todo == [] then s
      else s.(clients := s.clients[p := c.(pc := TakeFree, line := c.todo[0], todo := c.todo[1..],
                                           typed := c.typed + [c.todo[0]])])
    case TakeFree => if s.free == 0 then s else Goto(s, p, TakeMutex).(free := s.free - 1)
    case TakeMutex => if s.mutex == 0 then s else Goto(s, p, StartWrite).(mutex := s.mutex - 1)
    case StartWrite => Goto(s, p, EndWrite).(buf := Store(s.buf, s.bufferIndex, Torn))
    case EndWrite =>
      var line := Line(p, Chomp(c.line));
      Goto(s, p, Advance).(buf := Store(s.buf, s.bufferIndex, Whole(line)), written := s.written + [line])
    case Advance => Goto(s, p, GiveMutex).(bufferIndex := Wrap(s.bufferIndex + 1, |s.buf|))
    case GiveMutex => Goto(s, p, GiveSignal).(mutex := s.mutex + 1)
    case GiveSignal => Goto(s, p, Typing).(signal := s.signal + 1)
  }

  /** One statement of the spooler.  A slot that changes between the two halves of a print comes out torn. */
  function SpoolerStep(s: State): State {
    match s.spooler
    case SetIndices => s.(bufferIndex := 0, printIndex := 0, spooler := SetFree)
    case SetFree => s.(free := |s.buf|, spooler := SetSignal)
    case SetSignal => s.(signal := 0, spooler := SetMutex)
    case SetMutex => s.(mutex := 1, spooler := TakeSignal)
    case TakeSignal => if s.signal == 0 then s else s.(signal := s.signal - 1, spooler := StartPrint)
    case StartPrint => s.(copied := Load(s.buf, s.printIndex), spooler := EndPrint)
    case EndPrint =>
      var out := if Load(s.buf, s.printIndex) == s.copied then s.copied else Torn;
      s.(printed := s.printed + [out], spooler := AdvancePrint)
    case AdvancePrint => s.(printIndex := Wrap(s.printIndex + 1, |s.buf|), spooler := GiveFree)
    case GiveFree => s.(free := s.free + 1, spooler := TakeSignal)
  }

  function Step(s: State, p: Process): State {
    match p
    case Typist(id) => if id < |s.clients| then ClientStep(s, id) else s
    case TheSpooler => SpoolerStep(s)
  }

  /** The run under a schedule, one step a time. */
  lemma StepKeepsSizes(s: State, p: Process)
    ensures |Step(s, p).buf| == |s.buf| && |Step(s, p).clients| == |s.clients|
  {
  }

  lemma {:induction false} RunKeepsSizes(s: State, schedule: seq<Process>)
    ensures var t := Run(Step, s, schedule);
            |t.buf| == |s.buf| && |t.clients| == |s.clients|
    decreases |schedule|
  {
    if schedule == [] {
    } else {
      RunKeepsSizes(s, schedule[..|schedule| - 1]);
      StepKeepsSizes(Run(Step, s, schedule[..|schedule| - 1]), schedule[|schedule| - 1]);
      hide Step;
    }
  }

  function Exec(s: State, schedule: seq<Process>): (t: State)
    ensures |t.buf| == |s.buf| && |t.clients| == |s.clients|
  {
    RunKeepsSizes(s, schedule);
    Run(Step, s, schedule)
  }

  /** The spooler has just closed the mutex; indices, slots and the two counting semaphores may hold anything,
      since an earlier spooler removes nothing. */
  ghost predicate Init(s: State) {
    && |s.buf| >= 1
    && s.mutex == 0
    && s.spooler == SetIndices
    && s.printed == [] && s.written == []
    && forall c :: c in s.clients ==> c.pc == Typing && c.typed == []
  }

  // ---------------------------------------------------------------------------------------------
  // The counting invariant
  // ---------------------------------------------------------------------------------------------

  /** A client that took a free slot and has not yet signalled it. */
  function Claimed(c: Client): nat {
    if c.pc == Typing || c.pc == TakeFree then 0 else 1
  }

  /** A client inside the critical section. */
  function Inside(c: Client): nat {
    if c.pc == StartWrite || c.pc == EndWrite || c.pc == Advance || c.pc == GiveMutex then 1 else 0
  }

  /** A client whose string is written but not yet signalled. */
  function Unsignalled(c: Client): nat {
    if c.pc == Advance || c.pc == GiveMutex || c.pc == GiveSignal then 1 else 0
  }

  function Advancing(c: Client): nat {
    if c.pc == Advance then 1 else 0
  }

  predicate Indexed(s: State) { s.spooler != SetIndices }
  predicate Sized(s: State) { s.spooler != SetIndices && s.spooler != SetFree }
  predicate Signalling(s: State) { Sized(s) && s.spooler != SetSignal }
  predicate Open(s: State) { Signalling(s) && s.spooler != SetMutex }

  /** Strings announced to the spooler; the count means nothing until the spooler has reset it. */
  function Announced(s: State): nat {
    if Signalling(s) then s.signal else 0
  }

  /** One while the spooler works on a slot that it has not given back. */
  function Busy(s: State): nat {
    if s.spooler in {StartPrint, EndPrint, AdvancePrint, GiveFree} then 1 else 0
  }

  /** One while that slot is not yet printed. */
  function Printing(s: State): nat {
    if s.spooler == StartPrint || s.spooler == EndPrint then 1 else 0
  }

  /** The ring slot of the `k`-th line: the index after `k` increments, each wrapped at `m`. */
  function Cell(k: nat, m: nat): (i: nat)
    requires m >= 1
    ensures i < m
  {
    if k == 0 then 0 else Wrap(Cell(k - 1, m) + 1, m)
  }

  lemma {:induction false} CellIsMod(k: nat, m: nat)
    requires m >= 1
    ensures Cell(k, m) == k % m
  {
    if k > 0 {
      CellIsMod(k - 1, m);
      NextRemainder(k - 1, m);
    } else {
      RemainderIsUnique(0, m, 0, 0);
    }
  }

  /** Up to one turn of the ring ahead. */
  lemma {:induction false} CellAhead(a: nat, d: nat, m: nat)
    requires m >= 1 && d <= m
    ensures Cell(a + d, m) == Cell(a, m) + d || Cell(a + d, m) == Cell(a, m) + d - m
  {
    if d == 0 {
    } else {
      CellAhead(a, d - 1, m);
    }
  }

  lemma CellDistinct(a: nat, b: nat, m: nat)
    requires a < b < a + m
    ensures Cell(a, m) != Cell(b, m)
  {
    CellAhead(a, b - a, m);
  }

  /** The slots that the semaphores speak of. */
  function Tokens(s: State): nat {
    s.free + Sum(s.clients, Claimed) + Announced(s) + Busy(s)
  }

  /** From an initial count of `extra` free slots, what clients claimed before the ring was sized comes on top
      of the ring. */
  ghost predicate Slots(s: State, extra: nat) {
    if Sized(s) then |s.buf| <= Tokens(s) <= |s.buf| + extra else Tokens(s) == extra
  }

  /** Lines that a client has yet to write. */
  function Remaining(c: Client): nat {
    |c.todo| + if c.pc in {TakeFree, TakeMutex, StartWrite, EndWrite} then 1 else 0
  }

  function Planned(s: State): nat {
    |s.written| + Sum(s.clients, Remaining)
  }

  /** The ring cannot overflow: no slot is claimed on a leftover count, or all lines fit in anyway. */
  predicate Roomy(s: State, extra: nat) {
    extra == 0 || Planned(s) <= |s.buf|
  }

  ghost predicate Exclusive(s: State) {
    && s.mutex + Sum(s.clients, Inside) == (if Open(s) then 1 else 0)
    && (!Open(s) ==> s.written == [])
  }

  ghost predicate Backlog(s: State) {
    |s.written| == |s.printed| + Announced(s) + Printing(s) + Sum(s.clients, Unsignalled)
  }

  ghost predicate Indices(s: State) {
    && |s.buf| >= 1
    && Sum(s.clients, Advancing) <= |s.written|
    && (Indexed(s) ==>
          && s.bufferIndex == Cell(|s.written| - Sum(s.clients, Advancing), |s.buf|)
          && (s.spooler == AdvancePrint ==> |s.printed| > 0)
          && s.printIndex == Cell(|s.printed| - if s.spooler == AdvancePrint then 1 else 0, |s.buf|))
  }

  /** Every unprinted line still sits whole in its slot, and everything printed is what was written. */
  ghost predicate Contents(s: State)
    requires |s.buf| >= 1
  {
    && |s.printed| <= |s.written|
    && (forall k :: 0 <= k < |s.printed| ==> s.printed[k] == Whole(s.written[k]))
    && (forall k :: |s.printed| <= k < |s.written| ==> s.buf[Cell(k, |s.buf|)] == Whole(s.written[k]))
    && (s.spooler == EndPrint ==> s.copied == s.buf[Cell(|s.printed|, |s.buf|)])
  }

  ghost predicate Inv(s: State, extra: nat) {
    Slots(s, extra) && Exclusive(s) && Backlog(s) && Indices(s) && (Roomy(s, extra) ==> Contents(s))
  }

  // ---------------------------------------------------------------------------------------------
  // Preservation
  // ---------------------------------------------------------------------------------------------

  lemma InitInv(s: State)
    requires Init(s)
    ensures Inv(s, s.free)
  {
    SumZero(s.clients, Claimed);
    SumZero(s.clients, Inside);
    SumZero(s.clients, Unsignalled);
    SumZero(s.clients, Advancing);
  }

  /** What one client step does to the counts. */
  lemma ClientCounts(s: State, p: nat, c: Client)
    requires p < |s.clients|
    ensures Sum(s.clients[p := c], Claimed) + Claimed(s.clients[p]) == Sum(s.clients, Claimed) + Claimed(c)
    ensures Sum(s.clients[p := c], Inside) + Inside(s.clients[p]) == Sum(s.clients, Inside) + Inside(c)
    ensures Sum(s.clients[p := c], Unsignalled) + Unsignalled(s.clients[p])
            == Sum(s.clients, Unsignalled) + Unsignalled(c)
    ensures Sum(s.clients[p := c], Advancing) + Advancing(s.clients[p]) == Sum(s.clients, Advancing) + Advancing(c)
  {
    hide Sum;
    SumUpdate(s.clients, p, c, Claimed);
    SumUpdate(s.clients, p, c, Inside);
    SumUpdate(s.clients, p, c, Unsignalled);
    SumUpdate(s.clients, p, c, Advancing);
  }

  /** How the counts relate, with client `p` singled out. */
  lemma CountBounds(s: State, p: nat)
    requires p < |s.clients|
    ensures Sum(s.clients, Unsignalled) + Claimed(s.clients[p]) <= Sum(s.clients, Claimed) + Unsignalled(s.clients[p])
    ensures Sum(s.clients, Advancing) + Inside(s.clients[p]) <= Sum(s.clients, Inside) + Advancing(s.clients[p])
    ensures Inside(s.clients[p]) <= Sum(s.clients, Inside)
    ensures Advancing(s.clients[p]) <= Sum(s.clients, Advancing)
  {
    hide Sum;
    SumGap(s.clients, p, Unsignalled, Claimed);
    SumGap(s.clients, p, Advancing, Inside);
    SumPart(s.clients, p, Inside);
    SumPart(s.clients, p, Advancing);
  }

  lemma WriterIsNext(s: State, p: nat)
    requires Exclusive(s) && Backlog(s) && Indices(s) && p < |s.clients|
    requires s.clients[p].pc == StartWrite || s.clients[p].pc == EndWrite
    ensures s.bufferIndex == Cell(|s.written|, |s.buf|) && |s.printed| <= |s.written|
  {
    hide Sum, Cell;
    CountBounds(s, p);
  }

  lemma WriterInBounds(s: State, p: nat, extra: nat)
    requires Inv(s, extra) && p < |s.clients| && s.clients[p].pc in {StartWrite, EndWrite}
    ensures 0 <= s.bufferIndex < |s.buf|
  {
    WriterIsNext(s, p);
  }

  lemma WriterHasRoom(s: State, p: nat, extra: nat)
    requires Slots(s, extra) && Exclusive(s) && Backlog(s) && Roomy(s, extra) && p < |s.clients|
    requires s.clients[p].pc == StartWrite || s.clients[p].pc == EndWrite
    ensures |s.written| - |s.printed| < |s.buf|
  {
    hide Sum;
    CountBounds(s, p);
    SumPart(s.clients, p, Remaining);
  }

  /** A writer at work owns the slot at `bufferIndex`: no unprinted line sits there. */
  lemma WriterOwnsSlot(s: State, p: nat, extra: nat)
    requires Inv(s, extra) && Roomy(s, extra) && p < |s.clients|
    requires s.clients[p].pc == StartWrite || s.clients[p].pc == EndWrite
    ensures s.bufferIndex == Cell(|s.written|, |s.buf|)
    ensures |s.written| - |s.printed| < |s.buf|
    ensures forall k :: |s.printed| <= k < |s.written| ==> Cell(k, |s.buf|) != s.bufferIndex
  {
    WriterIsNext(s, p);
    WriterHasRoom(s, p, extra);
    forall k | |s.printed| <= k < |s.written| ensures Cell(k, |s.buf|) != s.bufferIndex {
      hide *;
      CellDistinct(k, |s.written|, |s.buf|);
    }
  }

  lemma ClientFrame(s: State, p: nat)
    requires p < |s.clients|
    ensures var t := ClientStep(s, p);
            t.clients == s.clients[p := t.clients[p]] && t.spooler == s.spooler && |t.buf| == |s.buf|
  {
  }

  lemma ClientSlots(s: State, p: nat, extra: nat)
    requires Slots(s, extra) && Exclusive(s) && Backlog(s) && p < |s.clients|
    ensures Slots(ClientStep(s, p), extra)
  {
    hide Sum;
    ClientFrame(s, p);
    ClientCounts(s, p, ClientStep(s, p).clients[p]);
    CountBounds(s, p);
  }

  lemma ClientExclusive(s: State, p: nat)
    requires Exclusive(s) && p < |s.clients|
    ensures Exclusive(ClientStep(s, p))
  {
    hide Sum;
    ClientFrame(s, p);
    ClientCounts(s, p, ClientStep(s, p).clients[p]);
    CountBounds(s, p);
  }

  lemma ClientBacklog(s: State, p: nat)
    requires Exclusive(s) && Backlog(s) && p < |s.clients|
    ensures Backlog(ClientStep(s, p))
  {
    hide Sum;
    ClientFrame(s, p);
    ClientCounts(s, p, ClientStep(s, p).clients[p]);
    CountBounds(s, p);
  }

  /** What a client's statement does to what the index invariant speaks of. */
  lemma ClientMoves(s: State, p: nat)
    requires p < |s.clients|
    ensures var t, pc := ClientStep(s, p), s.clients[p].pc;
            && |t.buf| == |s.buf| && t.spooler == s.spooler && t.printIndex == s.printIndex && t.printed == s.printed
            && |t.written| == |s.written| + (if pc == EndWrite then 1 else 0)
            && t.bufferIndex == (if pc == Advance then Wrap(s.bufferIndex + 1, |s.buf|) else s.bufferIndex)
            && Sum(t.clients, Advancing) + (if pc == Advance then 1 else 0)
               == Sum(s.clients, Advancing) + (if pc == EndWrite then 1 else 0)
  {
    hide Sum, Wrap;
    ClientFrame(s, p);
    SumUpdate(s.clients, p, ClientStep(s, p).clients[p], Advancing);
  }

  lemma ClientIndices(s: State, p: nat)
    requires Indices(s) && p < |s.clients|
    ensures Indices(ClientStep(s, p))
  {
    ClientMoves(s, p);
    var n := |s.written| - Sum(s.clients, Advancing);
    assert Cell(n + 1, |s.buf|) == Wrap(Cell(n, |s.buf|) + 1, |s.buf|);
    hide Sum, Cell, Wrap, ClientStep;
  }

  lemma ClientContents(s: State, p: nat)
    requires |s.buf| >= 1 && Contents(s) && p < |s.clients|
    requires s.clients[p].pc == StartWrite || s.clients[p].pc == EndWrite ==>
               && s.bufferIndex == Cell(|s.written|, |s.buf|)
               && (forall k :: |s.printed| <= k < |s.written| ==> Cell(k, |s.buf|) != s.bufferIndex)
               && (s.spooler == EndPrint ==> |s.printed| < |s.written|)
    ensures Contents(ClientStep(s, p))
  {
  }

  lemma ClientPlans(s: State, p: nat)
    requires p < |s.clients|
    ensures Planned(ClientStep(s, p)) == Planned(s)
  {
    hide Sum;
    ClientFrame(s, p);
    SumUpdate(s.clients, p, ClientStep(s, p).clients[p], Remaining);
  }

  lemma ClientInv(s: State, p: nat, extra: nat)
    requires Inv(s, extra) && p < |s.clients|
    ensures Inv(ClientStep(s, p), extra) && Planned(ClientStep(s, p)) == Planned(s)
  {
    ClientSlots(s, p, extra);
    ClientExclusive(s, p);
    ClientBacklog(s, p);
    ClientIndices(s, p);
    ClientPlans(s, p);
    ClientFrame(s, p);
    if Roomy(s, extra) {
      if s.clients[p].pc == StartWrite || s.clients[p].pc == EndWrite {
        WriterOwnsSlot(s, p, extra);
      }
      ClientContents(s, p);
    }
    hide Slots, Exclusive, Backlog, Indices, Contents, ClientStep, Planned;
  }

  lemma SpoolerCounts(s: State, extra: nat)
    requires Slots(s, extra) && Exclusive(s) && Backlog(s)
    ensures Slots(SpoolerStep(s), extra) && Exclusive(SpoolerStep(s)) && Backlog(SpoolerStep(s))
  {
    hide Sum;
  }

  lemma SpoolerIndices(s: State)
    requires Exclusive(s) && Backlog(s) && Indices(s)
    ensures Indices(SpoolerStep(s))
  {
    hide Sum;
  }

  lemma SpoolerContents(s: State)
    requires Backlog(s) && Indices(s) && Contents(s)
    ensures Contents(SpoolerStep(s))
  {
    hide Sum;
  }

  lemma SpoolerInv(s: State, extra: nat)
    requires Inv(s, extra)
    ensures Inv(SpoolerStep(s), extra) && Planned(SpoolerStep(s)) == Planned(s)
  {
    SpoolerCounts(s, extra);
    SpoolerIndices(s);
    assert SpoolerStep(s).clients == s.clients && SpoolerStep(s).written == s.written
          && |SpoolerStep(s).buf| == |s.buf|;
    if Roomy(s, extra) {
      SpoolerContents(s);
    }
    hide Slots, Exclusive, Backlog, Indices, Contents, SpoolerStep;
  }

  lemma {:induction false} ExecInv(s: State, schedule: seq<Process>)
    requires Init(s)
    ensures Inv(Exec(s, schedule), s.free) && Planned(Exec(s, schedule)) == Planned(s)
    decreases |schedule|
  {
    if schedule == [] {
      InitInv(s);
    } else {
      var before := schedule[..|schedule| - 1];
      ExecInv(s, before);
      match schedule[|schedule| - 1]
      case Typist(id) => if id < |Exec(s, before).clients| { ClientInv(Exec(s, before), id, s.free); }
      case TheSpooler => SpoolerInv(Exec(s, before), s.free);
    }
  }

  // ---------------------------------------------------------------------------------------------
  // What the clients typed
  // ---------------------------------------------------------------------------------------------

  /** The texts of client `p` in a log, in log order. */
  function Own(log: seq<Line>, p: nat): seq<string> {
    Texts(log, (l: Line) => l.pid == p, (l: Line) => l.text)
  }

  function Chomped(lines: seq<string>): seq<string> {
    if lines == [] then [] else Chomped(lines[..|lines| - 1]) + [Chomp(lines[|lines| - 1])]
  }

  /** The text of a line: without its newline, or the line itself if it has none at its end. */
  predicate IsText(line: string, text: string) {
    line == text + "\n" || (line == text && (text == "" || text[|text| - 1] != '\n'))
  }

  /** The texts of the first lines, in order. */
  predicate TextsOf(lines: seq<string>, texts: seq<string>) {
    |texts| <= |lines| && forall k :: 0 <= k < |texts| ==> IsText(lines[k], texts[k])
  }

  predicate AllTextsOf(lines: seq<string>, texts: seq<string>) {
    |texts| == |lines| && TextsOf(lines, texts)
  }

  lemma {:induction false} ChompedTexts(lines: seq<string>)
    ensures AllTextsOf(lines, Chomped(lines))
    decreases |lines|
  {
    if lines == [] {
    } else {
      var line := lines[|lines| - 1];
      ChompedTexts(lines[..|lines| - 1]);
      assert line != "" && line[|line| - 1] == '\n' ==> line == line[..|line| - 1] + "\n";
    }
  }

  /** A client's typed lines are its written ones and the one that it has in hand, if any. */
  ghost predicate FaithfulClient(log: seq<Line>, p: nat, c: Client) {
    Chomped(c.typed) ==
      if c.pc in {TakeFree, TakeMutex, StartWrite, EndWrite} then Own(log, p) + [Chomp(c.line)] else Own(log, p)
  }

  ghost predicate Faithful(s: State) {
    forall p :: 0 <= p < |s.clients| ==> FaithfulClient(s.written, p, s.clients[p])
  }

  /** What a client has typed so far and what it still will, is its input. */
  lemma {:induction false} TypedIsInput(s0: State, schedule: seq<Process>, p: nat)
    requires Init(s0) && p < |s0.clients|
    ensures var c := Exec(s0, schedule).clients[p]; c.typed + c.todo == s0.clients[p].todo
    decreases |schedule|
  {
    if schedule == [] {
      assert s0.clients[p] in s0.clients;
    } else {
      var s, q := Exec(s0, schedule[..|schedule| - 1]), schedule[|schedule| - 1];
      TypedIsInput(s0, schedule[..|schedule| - 1], p);
      if q.Typist? && q.id < |s.clients| {
        TypesInput(s, q.id);
        ClientFrame(s, q.id);
      }
    }
  }

  lemma TypesInput(s: State, p: nat)
    requires p < |s.clients|
    ensures var c, d := s.clients[p], ClientStep(s, p).clients[p]; d.typed + d.todo == c.typed + c.todo
  {
  }

  lemma OwnSnoc(log: seq<Line>, line: Line, p: nat)
    ensures Own(log + [line], p) == if line.pid == p then Own(log, p) + [line.text] else Own(log, p)
  {
    TextsSnoc(log, line, (l: Line) => l.pid == p, (l: Line) => l.text);
  }

  lemma ChompedSnoc(lines: seq<string>, line: string)
    ensures Chomped(lines + [line]) == Chomped(lines) + [Chomp(line)]
  {
    assert (lines + [line])[..|lines|] == lines;
  }

  lemma ClientFaithful(s: State, p: nat)
    requires p < |s.clients| && FaithfulClient(s.written, p, s.clients[p])
    ensures FaithfulClient(ClientStep(s, p).written, p, ClientStep(s, p).clients[p])
  {
    var c := s.clients[p];
    if c.pc == Typing {
      if c.todo != [] {
        ChompedSnoc(c.typed, c.todo[0]);
      }
    } else if c.pc == EndWrite {
      OwnSnoc(s.written, Line(p, Chomp(c.line)), p);
    }
  }

  /** A step writes nothing on behalf of another client. */
  lemma OthersUntouched(s: State, q: Process, p: nat)
    requires p < |s.clients| && q != Typist(p)
    ensures Step(s, q).clients[p] == s.clients[p] && Own(Step(s, q).written, p) == Own(s.written, p)
  {
    if q.Typist? && q.id < |s.clients| {
      ClientFrame(s, q.id);
      OwnSnoc(s.written, Line(q.id, Chomp(s.clients[q.id].line)), p);
    }
  }

  lemma StepFaithful(s: State, q: Process)
    requires Faithful(s)
    ensures Faithful(Step(s, q))
  {
    forall p | 0 <= p < |s.clients|
      ensures FaithfulClient(Step(s, q).written, p, Step(s, q).clients[p])
    {
      if q == Typist(p) {
        ClientFaithful(s, p);
      } else {
        OthersUntouched(s, q, p);
      }
    }
  }

  lemma {:induction false} ExecFaithful(s: State, schedule: seq<Process>)
    requires Init(s)
    ensures Faithful(Exec(s, schedule))
    decreases |schedule|
  {
    if schedule == [] {
    } else {
      ExecFaithful(s, schedule[..|schedule| - 1]);
      StepFaithful(Exec(s, schedule[..|schedule| - 1]), schedule[|schedule| - 1]);
    }
  }

  // ---------------------------------------------------------------------------------------------
  // Safety of every run
  // ---------------------------------------------------------------------------------------------

  function Lines(c: Client): nat {
    |c.todo|
  }

  /** The start leaves no free slots over, or everything that will ever be typed fits into the ring. */
  predicate RingSuffices(s0: State) {
    s0.free == 0 || Sum(s0.clients, Lines) <= |s0.buf|
  }

  lemma {:induction false} RemainingAreLines(clients: seq<Client>, n: nat)
    requires n <= |clients| && forall p :: 0 <= p < n ==> clients[p].pc == Typing
    ensures SumTo(clients, n, Remaining) == SumTo(clients, n, Lines)
  {
    if n == 0 {
    } else {
      RemainingAreLines(clients, n - 1);
    }
  }

  lemma InitTyping(s0: State)
    requires Init(s0)
    ensures forall p :: 0 <= p < |s0.clients| ==> s0.clients[p].pc == Typing && s0.clients[p].typed == []
  {
    forall p | 0 <= p < |s0.clients| ensures s0.clients[p].pc == Typing && s0.clients[p].typed == [] {
      assert s0.clients[p] in s0.clients;
    }
  }

  /** What every run keeps from a start with room. */
  lemma ExecRoomy(s0: State, schedule: seq<Process>)
    requires Init(s0) && RingSuffices(s0)
    ensures var s := Exec(s0, schedule); Inv(s, s0.free) && Roomy(s, s0.free) && |s.buf| >= 1 && Contents(s)
  {
    ExecInv(s0, schedule);
    InitTyping(s0);
    RemainingAreLines(s0.clients, |s0.clients|);
  }

  /** The output is a prefix of the writes, whole and in order. */
  ghost predicate InWriteOrder(s: State) {
    && |s.printed| <= |s.written|
    && (forall k :: 0 <= k < |s.printed| ==> s.printed[k] == Whole(s.written[k]))
  }

  /** With room, the output is a prefix of the writes, whole and in order, and at most one ring behind. */
  lemma PrintsTheWriteOrder(s0: State, schedule: seq<Process>)
    requires Init(s0) && RingSuffices(s0)
    ensures InWriteOrder(Exec(s0, schedule))
    ensures |Exec(s0, schedule).written| <= |Exec(s0, schedule).printed| + |s0.buf|
  {
    hide Exec;
    ExecRoomy(s0, schedule);
    AtMostOneRing(Exec(s0, schedule), s0.free);
  }

  lemma AtMostOneRing(s: State, extra: nat)
    requires Slots(s, extra) && Exclusive(s) && Backlog(s) && Roomy(s, extra)
    ensures |s.written| <= |s.printed| + |s.buf|
  {
    hide Sum;
    SumBelow(s.clients, Unsignalled, Claimed);
  }

  lemma IndicesAreRemainders(s: State)
    requires Indices(s) && Indexed(s)
    ensures (forall c :: c in s.clients ==> c.pc != Advance) ==> s.bufferIndex == |s.written| % |s.buf|
    ensures s.spooler != AdvancePrint ==> s.printIndex == |s.printed| % |s.buf|
  {
    if forall c :: c in s.clients ==> c.pc != Advance {
      SumZero(s.clients, Advancing);
    }
    CellIsMod(|s.written|, |s.buf|);
    CellIsMod(|s.printed|, |s.buf|);
  }

  /** Both indices are the numbers of completed writes and prints modulo the ring size. */
  lemma IndicesFollowCounts(s0: State, schedule: seq<Process>)
    requires Init(s0) && Indexed(Exec(s0, schedule))
    ensures var s := Exec(s0, schedule);
            && |s.buf| >= 1
            && ((forall c :: c in s.clients ==> c.pc != Advance) ==> s.bufferIndex == |s.written| % |s.buf|)
            && (s.spooler != AdvancePrint ==> s.printIndex == |s.printed| % |s.buf|)
  {
    hide Exec;
    ExecInv(s0, schedule);
    IndicesAreRemainders(Exec(s0, schedule));
  }

  /** From the moment the ring is sized every slot is free, claimed, announced or being printed; more slots
      than there are are spoken of only by as much as the leftover count allowed to claim before. */
  lemma SlotsConserved(s0: State, schedule: seq<Process>)
    requires Init(s0)
    ensures var s := Exec(s0, schedule);
            && (Open(s) ==> |s.buf| <= s.free + Sum(s.clients, Claimed) + s.signal + Busy(s) <= |s.buf| + s0.free)
            && (!Open(s) ==> s.mutex == 0 && s.written == [] && forall c :: c in s.clients ==> Inside(c) == 0)
  {
    var s := Exec(s0, schedule);
    ExecInv(s0, schedule);
    if !Open(s) {
      forall c | c in s.clients ensures Inside(c) == 0 {
        var i :| 0 <= i < |s.clients| && s.clients[i] == c;
        SumPart(s.clients, i, Inside);
      }
    }
  }

  /** Writers exclude each other; with room, the slot being written holds no unprinted line, and in
      particular it is not the one that the spooler is reading without the mutex. */
  lemma WritesDisturbNobody(s0: State, schedule: seq<Process>, p: nat)
    requires Init(s0) && p < |Exec(s0, schedule).clients|
    requires Exec(s0, schedule).clients[p].pc in {StartWrite, EndWrite}
    ensures var s := Exec(s0, schedule);
            forall q :: 0 <= q < |s.clients| && q != p ==> Inside(s.clients[q]) == 0
    ensures RingSuffices(s0) ==> SpoolerUndisturbed(Exec(s0, schedule), p)
  {
    var s := Exec(s0, schedule);
    ExecInv(s0, schedule);
    forall q | 0 <= q < |s.clients| && q != p ensures Inside(s.clients[q]) == 0 {
      SumPair(s.clients, if p < q then p else q, if p < q then q else p, Inside);
    }
    if RingSuffices(s0) {
      ExecRoomy(s0, schedule);
      WriteKeepsUnprinted(s, p, s0.free);
    }
  }

  /** Client `p`'s next statement changes no unprinted line and does not touch the slot in print. */
  ghost predicate SpoolerUndisturbed(s: State, p: nat)
    requires p < |s.clients|
  {
    && |s.buf| >= 1
    && (s.spooler in {StartPrint, EndPrint} ==> s.printIndex != s.bufferIndex)
    && (forall k :: |s.printed| <= k < |s.written| ==>
          && k % |s.buf| != s.bufferIndex
          && Step(s, Typist(p)).buf[k % |s.buf|] == s.buf[k % |s.buf|] == Whole(s.written[k]))
  }

  lemma WriteKeepsUnprinted(s: State, p: nat, extra: nat)
    requires Inv(s, extra) && Roomy(s, extra) && p < |s.clients| && s.clients[p].pc in {StartWrite, EndWrite}
    ensures SpoolerUndisturbed(s, p)
  {
    WriterOwnsSlot(s, p, extra);
    forall k | |s.printed| <= k < |s.written|
      ensures k % |s.buf| != s.bufferIndex
      ensures Step(s, Typist(p)).buf[k % |s.buf|] == s.buf[k % |s.buf|] == Whole(s.written[k])
    {
      CellIsMod(k, |s.buf|);
    }
  }

  /** The texts of client `p` in the output; a torn slot is nobody's text. */
  function OwnPrinted(printed: seq<Slot>, p: nat): seq<string> {
    Texts(printed, (x: Slot) => x.Whole? && x.line.pid == p, (x: Slot) => if x.Whole? then x.line.text else "")
  }

  lemma {:induction false} PrintedAsWritten(printed: seq<Slot>, written: seq<Line>, p: nat)
    requires |printed| <= |written| && forall k :: 0 <= k < |printed| ==> printed[k] == Whole(written[k])
    ensures OwnPrinted(printed, p) == Own(written[..|printed|], p)
    decreases |printed|
  {
    if printed == [] {
    } else {
      var n := |printed| - 1;
      PrintedAsWritten(printed[..n], written, p);
      assert written[..n + 1] == written[..n] + [written[n]];
      OwnSnoc(written[..n], written[n], p);
    }
  }

  /** What a client wrote so far are the texts of its first lines, in typing order; with room the output shows
      the texts of its first lines, in that order. */
  lemma ClientLinesInOrder(s0: State, schedule: seq<Process>, p: nat)
    requires Init(s0) && p < |s0.clients|
    ensures var s := Exec(s0, schedule);
            && |s.printed| <= |s.written|
            && s.clients[p].typed + s.clients[p].todo == s0.clients[p].todo
            && Own(s.written[..|s.printed|], p) <= Own(s.written, p)
            && TextsOf(s.clients[p].typed, Own(s.written, p))
    ensures var s := Exec(s0, schedule);
            RingSuffices(s0) ==>
              OwnPrinted(s.printed, p) <= Own(s.written, p) && TextsOf(s0.clients[p].todo, OwnPrinted(s.printed, p))
  {
    var s := Exec(s0, schedule);
    ExecInv(s0, schedule);
    ExecFaithful(s0, schedule);
    TypedIsInput(s0, schedule, p);
    TextsPrefix(s.written, |s.printed|, (l: Line) => l.pid == p, (l: Line) => l.text);
    assert FaithfulClient(s.written, p, s.clients[p]);
    ChompedTexts(s.clients[p].typed);
    if RingSuffices(s0) {
      PrintsTheWriteOrder(s0, schedule);
      PrintedAsWritten(s.printed, s.written, p);
      hide Own, OwnPrinted, Exec, Init, Inv, Faithful, FaithfulClient, Chomped, IsText, RingSuffices, InWriteOrder;
      TextsOfMore(s.clients[p].typed, s.clients[p].todo, Own(s.written, p), OwnPrinted(s.printed, p));
    }
  }

  lemma TextsOfMore(lines: seq<string>, more: seq<string>, texts: seq<string>, fewer: seq<string>)
    requires TextsOf(lines, texts) && fewer <= texts
    ensures TextsOf(lines + more, fewer)
  {
  }

  predicate OnlyTypists(rest: seq<Process>) {
    forall q :: q in rest ==> q.Typist?
  }

  lemma {:induction false} SpoolerWaits(s: State, rest: seq<Process>)
    requires OnlyTypists(rest)
    ensures var t := Exec(s, rest);
            t.spooler == s.spooler && t.copied == s.copied && t.printed == s.printed && t.printIndex == s.printIndex
    decreases |rest|
  {
    if rest == [] {
    } else {
      assert forall q :: q in rest[..|rest| - 1] ==> q in rest;
      SpoolerWaits(s, rest[..|rest| - 1]);
      assert rest[|rest| - 1] in rest;
    }
  }

  /** From any state, whatever the clients do between the two halves of a print: the slot comes out as it was if it is
      the same at the end, and torn otherwise. */
  lemma PrintShowsChange(s: State, rest: seq<Process>)
    requires s.spooler == StartPrint && 0 <= s.printIndex < |s.buf| && OnlyTypists(rest)
    ensures var i, u := s.printIndex, Exec(Step(s, TheSpooler), rest);
            && |u.buf| == |s.buf|
            && Step(u, TheSpooler).printed == s.printed + [if u.buf[i] == s.buf[i] then s.buf[i] else Torn]
  {
    SpoolerWaits(Step(s, TheSpooler), rest);
    hide Exec;
  }

  // ---------------------------------------------------------------------------------------------
  // Refinement of an unbounded queue
  // ---------------------------------------------------------------------------------------------

  /** The specification: a first-in first-out queue with an output tape. */
  datatype Fifo = Fifo(queue: seq<Line>, output: seq<Slot>)

  ghost predicate Put(a: Fifo, b: Fifo) {
    exists line :: b == Fifo(a.queue + [line], a.output)
  }

  predicate Get(a: Fifo, b: Fifo) {
    a.queue != [] && b == Fifo(a.queue[1..], a.output + [Whole(a.queue[0])])
  }

  function Abstract(s: State): Fifo
    requires |s.printed| <= |s.written|
  {
    Fifo(s.written[|s.printed|..], s.printed)
  }

  /** A step writes one line, prints the oldest unprinted one, or does neither. */
  lemma StepLogs(s: State, p: Process)
    requires |s.buf| >= 1 && Backlog(s) && Indices(s) && Contents(s)
    ensures var t := Step(s, p);
            || (t.written == s.written && t.printed == s.printed)
            || (t.printed == s.printed && exists line :: t.written == s.written + [line])
            || (t.written == s.written && |s.printed| < |s.written|
                && t.printed == s.printed + [Whole(s.written[|s.printed|])])
  {
    match p
    case Typist(id) => if id < |s.clients| { ClientLogs(s, id); }
    case TheSpooler => PrintsOldest(s);
    hide Backlog, Indices, Contents, ClientStep, SpoolerStep;
  }

  lemma ClientLogs(s: State, p: nat)
    requires p < |s.clients|
    ensures var t := ClientStep(s, p);
            && t.printed == s.printed
            && t.written == if s.clients[p].pc != EndWrite then s.written
                            else s.written + [Line(p, Chomp(s.clients[p].line))]
  {
  }

  lemma PrintsOldest(s: State)
    requires Backlog(s) && Indices(s) && Contents(s)
    ensures var t := SpoolerStep(s);
            && t.written == s.written
            && (t.printed == s.printed
                || (|s.printed| < |s.written| && t.printed == s.printed + [Whole(s.written[|s.printed|])]))
  {
  }

  lemma StepRefinesFifo(s: State, t: State)
    requires |s.printed| <= |s.written|
    requires || (t.written == s.written && t.printed == s.printed)
             || (t.printed == s.printed && exists line :: t.written == s.written + [line])
             || (t.written == s.written && |s.printed| < |s.written|
                 && t.printed == s.printed + [Whole(s.written[|s.printed|])])
    ensures |t.printed| <= |t.written|
    ensures Abstract(s) == Abstract(t) || Put(Abstract(s), Abstract(t)) || Get(Abstract(s), Abstract(t))
  {
    if line :| t.written == s.written + [line] && t.printed == s.printed {
      assert Abstract(t).queue == Abstract(s).queue + [line];
    } else if t.printed != s.printed {
      assert Abstract(t).queue == Abstract(s).queue[1..];
    }
  }

  /** With room, every step of every run is a put, a get or invisible; the queue never outgrows the ring. */
  lemma RefinesFifo(s0: State, schedule: seq<Process>, p: Process)
    requires Init(s0) && RingSuffices(s0)
    ensures var s, t := Exec(s0, schedule), Exec(s0, schedule + [p]);
            && |s.printed| <= |s.written| && |t.printed| <= |t.written|
            && (Abstract(s) == Abstract(t) || Put(Abstract(s), Abstract(t)) || Get(Abstract(s), Abstract(t)))
            && |Abstract(t).queue| <= |t.buf|
    ensures Abstract(s0) == Fifo([], [])
  {
    assert (schedule + [p])[..|schedule|] == schedule;
    ExecRoomy(s0, schedule);
    StepLogs(Exec(s0, schedule), p);
    StepRefinesFifo(Exec(s0, schedule), Exec(s0, schedule + [p]));
    PrintsTheWriteOrder(s0, schedule + [p]);
  }

  // ---------------------------------------------------------------------------------------------
  // A leftover count of free slots
  // ---------------------------------------------------------------------------------------------

  /** A client types a line and claims a slot. */
  function Claiming(c: Client): Client
    requires c.todo != []
  {
    Client.Client(TakeMutex, c.todo[0], c.todo[1..], c.typed + [c.todo[0]])
  }

  lemma Claim(s: State, p: nat)
    requires p < |s.clients| && s.clients[p].pc == Typing && s.clients[p].todo != [] && s.free > 0
    ensures Times(Step, s, Typist(p), 2) == s.(free := s.free - 1, clients := s.clients[p := Claiming(s.clients[p])])
  {
    TwoTimes(Step, s, Typist(p));
    hide Times;
    assert Step(Step(s, Typist(p)), Typist(p)).clients == s.clients[p := Claiming(s.clients[p])];
  }

  lemma LockAndBegin(s: State, p: nat)
    requires p < |s.clients| && s.clients[p].pc == TakeMutex && s.mutex > 0
    ensures Times(Step, s, Typist(p), 2)
            == s.(mutex := s.mutex - 1, buf := Store(s.buf, s.bufferIndex, Torn),
                  clients := s.clients[p := s.clients[p].(pc := EndWrite)])
  {
    TwoTimes(Step, s, Typist(p));
    hide Times;
    assert Step(Step(s, Typist(p)), Typist(p)).clients == s.clients[p := s.clients[p].(pc := EndWrite)];
  }

  lemma FinishAndSignal(s: State, p: nat)
    requires p < |s.clients| && s.clients[p].pc == EndWrite
    ensures var line, t := Line(p, Chomp(s.clients[p].line)), Times(Step, s, Typist(p), 4);
            && t.written == s.written + [line] && |t.buf| == |s.buf|
                  && t.bufferIndex == Wrap(s.bufferIndex + 1, |s.buf|)
            && t.mutex == s.mutex + 1 && t.signal == s.signal + 1 && t.free == s.free
            && t.clients == s.clients[p := s.clients[p].(pc := Typing)]
            && t.spooler == s.spooler && t.printed == s.printed && t.printIndex == s.printIndex
  {
    FourTimes(Step, s, Typist(p));
    hide Times;
    var s2 := Step(Step(s, Typist(p)), Typist(p));
    assert s2.clients == s.clients[p := s.clients[p].(pc := GiveMutex)];
    assert Step(Step(s2, Typist(p)), Typist(p)).clients == s.clients[p := s.clients[p].(pc := Typing)];
  }

  /** The spooler waits, `k` lines are written and announced, none is printed, one free slot too many is
      counted, and as many lines as free slots are still to be typed. */
  ghost predicate Ready(s: State, k: nat) {
    && |s.buf| >= 1 && k <= |s.buf|
    && s.spooler == TakeSignal && s.mutex == 1 && s.signal == k && s.free == |s.buf| + 1 - k
    && s.printed == [] && |s.written| == k && s.printIndex == 0 && s.bufferIndex == Cell(k, |s.buf|)
    && (forall p :: 0 <= p < |s.clients| ==> s.clients[p].pc == Typing)
    && Sum(s.clients, Lines) >= s.free
  }

  /** One client claims a slot before the spooler counts the slots. */
  lemma ClaimEarly(s0: State, p: nat)
    requires Init(s0) && s0.free > 0 && p < |s0.clients| && s0.clients[p].todo != []
    ensures var t := Times(Step, Times(Step, s0, Typist(p), 2), TheSpooler, 4);
            && t.spooler == TakeSignal && t.mutex == 1 && t.signal == 0 && t.free == |s0.buf| && |t.buf| == |s0.buf|
            && t.printed == [] && t.written == [] && t.printIndex == 0 && t.bufferIndex == 0
            && t.clients == s0.clients[p := Claiming(s0.clients[p])]
  {
    InitTyping(s0);
    Claim(s0, p);
    FourTimes(Step, Times(Step, s0, Typist(p), 2), TheSpooler);
    hide Times;
  }

  /** That client writes the first line. */
  lemma FirstLine(s0: State, p: nat, t: State)
    requires Init(s0) && p < |s0.clients| && s0.clients[p].todo != [] && Sum(s0.clients, Lines) > |s0.buf|
    requires t.spooler == TakeSignal && t.mutex == 1 && t.signal == 0 && t.free == |s0.buf| && |t.buf| == |s0.buf|
    requires t.printed == [] && t.written == [] && t.printIndex == 0 && t.bufferIndex == 0
    requires t.clients == s0.clients[p := Claiming(s0.clients[p])]
    ensures Ready(Times(Step, Times(Step, t, Typist(p), 2), Typist(p), 4), 1)
  {
    hide Times, Sum;
    InitTyping(s0);
    LockAndBegin(t, p);
    var u := Times(Step, t, Typist(p), 2);
    FinishAndSignal(u, p);
    var v := Times(Step, u, Typist(p), 4);
    assert v.clients == s0.clients[p := Claiming(s0.clients[p]).(pc := Typing)];
    SumUpdate(s0.clients, p, Claiming(s0.clients[p]).(pc := Typing), Lines);
    assert Cell(1, |t.buf|) == Wrap(Cell(0, |t.buf|) + 1, |t.buf|);
  }

  /** A client types and writes one more line. */
  lemma OneMoreLine(s: State, k: nat, p: nat)
    requires Ready(s, k) && k < |s.buf| && p < |s.clients| && s.clients[p].todo != []
    ensures var t := Times(Step, Times(Step, Times(Step, s, Typist(p), 2), Typist(p), 2), Typist(p), 4);
            Ready(t, k + 1) && |t.buf| == |s.buf|
  {
    hide Times, Sum;
    Claim(s, p);
    var t := Times(Step, s, Typist(p), 2);
    LockAndBegin(t, p);
    var u := Times(Step, t, Typist(p), 2);
    FinishAndSignal(u, p);
    var v := Times(Step, u, Typist(p), 4);
    assert v.clients == s.clients[p := Claiming(s.clients[p]).(pc := Typing)];
    SumUpdate(s.clients, p, Claiming(s.clients[p]).(pc := Typing), Lines);
  }

  lemma {:induction false} FillRing(s0: State, schedule: seq<Process>, k: nat) returns (longer: seq<Process>)
    requires Ready(Exec(s0, schedule), k)
    ensures var t := Exec(s0, longer); Ready(t, |t.buf|)
    decreases |s0.buf| - k
  {
    var s := Exec(s0, schedule);
    if k == |s.buf| {
      longer := schedule;
    } else {
      var p := SumPositive(s.clients, Lines);
      OneMoreLine(s, k, p);
      longer := ThenTimes(Step, s0, schedule, Typist(p), 2);
      longer := ThenTimes(Step, s0, longer, Typist(p), 2);
      longer := ThenTimes(Step, s0, longer, Typist(p), 4);
      longer := FillRing(s0, longer, k + 1);
    }
  }

  lemma PrintsTorn(s: State)
    requires s.spooler == TakeSignal && s.signal > 0 && s.printIndex == 0 && s.printed == [] && |s.buf| >= 1
    requires s.buf[0] == Torn
    ensures !InWriteOrder(Times(Step, s, TheSpooler, 3))
  {
    TwoTimes(Step, s, TheSpooler);
    assert Times(Step, s, TheSpooler, 3) == Step(Times(Step, s, TheSpooler, 2), TheSpooler);
    hide Times;
    var t := Step(Step(s, TheSpooler), TheSpooler);
    assert t.copied == Torn && t.buf == s.buf;
    var out := Step(t, TheSpooler).printed;
    assert out == [Torn] && out[0] == Torn;
    hide Step;
  }

  /** With the ring full of unprinted lines a client begins to write once more, and the spooler prints the
      slot in which it does. */
  lemma TearFirstLine(s: State, p: nat)
    requires Ready(s, |s.buf|) && p < |s.clients| && s.clients[p].todo != []
    ensures !InWriteOrder(Times(Step, Times(Step, Times(Step, s, Typist(p), 2), Typist(p), 2), TheSpooler, 3))
  {
    CellIsMod(|s.buf|, |s.buf|);
    RemainderIsUnique(|s.buf|, |s.buf|, 1, 0);
    hide Times, Sum, Cell, InWriteOrder;
    Claim(s, p);
    var t := Times(Step, s, Typist(p), 2);
    LockAndBegin(t, p);
    PrintsTorn(Times(Step, t, Typist(p), 2));
  }

  /** A leftover free slot and more lines than the ring holds: some run prints a slot in the middle of its
      overwriting. */
  lemma LeftoverTearsOutput(s0: State) returns (schedule: seq<Process>)
    requires Init(s0) && !RingSuffices(s0)
    ensures !InWriteOrder(Exec(s0, schedule))
  {
    var p := SumPositive(s0.clients, Lines);
    ClaimEarly(s0, p);
    FirstLine(s0, p, Times(Step, Times(Step, s0, Typist(p), 2), TheSpooler, 4));
    schedule := ThenTimes(Step, s0, [], Typist(p), 2);
    schedule := ThenTimes(Step, s0, schedule, TheSpooler, 4);
    schedule := ThenTimes(Step, s0, schedule, Typist(p), 2);
    schedule := ThenTimes(Step, s0, schedule, Typist(p), 4);
    schedule := FillRing(s0, schedule, 1);
    var s := Exec(s0, schedule);
    var q := SumPositive(s.clients, Lines);
    TearFirstLine(s, q);
    schedule := ThenTimes(Step, s0, schedule, Typist(q), 2);
    schedule := ThenTimes(Step, s0, schedule, Typist(q), 2);
    schedule := ThenTimes(Step, s0, schedule, TheSpooler, 3);
  }

  /** From any start, every run prints in write order if and only if no free slots are left over or all
      lines fit into the ring. */
  lemma OrderKeptExactlyWithRoom(s0: State)
    requires Init(s0)
    ensures (forall schedule :: InWriteOrder(Exec(s0, schedule))) <==> RingSuffices(s0)
  {
    if RingSuffices(s0) {
      forall schedule ensures InWriteOrder(Exec(s0, schedule)) {
        PrintsTheWriteOrder(s0, schedule);
      }
    } else {
      var schedule := LeftoverTearsOutput(s0);
      assert !InWriteOrder(Exec(s0, schedule));
    }
  }

  // ---------------------------------------------------------------------------------------------
  // Liveness
  // ---------------------------------------------------------------------------------------------

  predicate Idle(c: Client) {
    c.pc == Typing && c.todo == []
  }

  /** Everybody is through, and the output is every written line, whole and in order: for each client, all
      that it typed. */
  ghost predicate AllPrinted(s0: State, s: State) {
    && (forall c :: c in s.clients ==> Idle(c))
    && |s.printed| == |s.written| && InWriteOrder(s)
    && |s.clients| == |s0.clients|
    && (forall p :: 0 <= p < |s.clients| ==> AllTextsOf(s0.clients[p].todo, OwnPrinted(s.printed, p)))
  }

  lemma IdleIsStuck(s: State)
    requires (forall c :: c in s.clients ==> Idle(c)) && s.spooler == TakeSignal && s.signal == 0
    ensures Stuck(Step, s)
  {
    forall p ensures Step(s, p) == s {
      if p.Typist? && p.id < |s.clients| {
        assert Idle(s.clients[p.id]);
      }
    }
  }

  lemma NothingAnnounced(s: State)
    requires Backlog(s) && |s.printed| == |s.written| && s.spooler == TakeSignal
    ensures s.signal == 0
  {
  }

  lemma StuckExactly(s: State, extra: nat)
    requires Inv(s, extra)
    ensures Stuck(Step, s) <==>
              (forall c :: c in s.clients ==> Idle(c)) && |s.printed| == |s.written| && s.spooler == TakeSignal
  {
    assert Backlog(s);
    hide Inv, Idle, Backlog, Stuck;
    if Stuck(Step, s) {
      StuckClientsIdle(s, extra);
    } else if (forall c :: c in s.clients ==> Idle(c)) && |s.printed| == |s.written| && s.spooler == TakeSignal {
      NothingAnnounced(s);
      IdleIsStuck(s);
    }
  }

  lemma WrittenWhenIdle(s0: State, schedule: seq<Process>, p: nat)
    requires Init(s0) && p < |s0.clients| && Idle(Exec(s0, schedule).clients[p])
    ensures AllTextsOf(s0.clients[p].todo, Own(Exec(s0, schedule).written, p))
  {
    var c := Exec(s0, schedule).clients[p];
    ExecFaithful(s0, schedule);
    TypedIsInput(s0, schedule, p);
    ChompedTexts(c.typed);
    assert FaithfulClient(Exec(s0, schedule).written, p, c);
    assert c.typed + c.todo == c.typed;
  }

  /** The system only ever stops when every line of every client's input has been written and as many slots
      printed; from a start with room, when every line has been printed. */
  lemma StopsOnlyWhenAllIsPrinted(s0: State, schedule: seq<Process>)
    requires Init(s0)
    ensures var s := Exec(s0, schedule);
            Stuck(Step, s) <==>
              && (forall c :: c in s.clients ==> Idle(c))
              && |s.printed| == |s.written| && s.spooler == TakeSignal
    ensures var s := Exec(s0, schedule);
            Stuck(Step, s) ==>
              forall p :: 0 <= p < |s0.clients| ==> AllTextsOf(s0.clients[p].todo, Own(s.written[..|s.printed|], p))
    ensures var s := Exec(s0, schedule);
            RingSuffices(s0) ==> InWriteOrder(s) && (Stuck(Step, s) ==> AllPrinted(s0, s))
  {
    var s := Exec(s0, schedule);
    ExecInv(s0, schedule);
    StuckExactly(s, s0.free);
    if RingSuffices(s0) {
      PrintsTheWriteOrder(s0, schedule);
    }
    hide Exec, Inv, Stuck, Init, RingSuffices, Own, OwnPrinted, AllTextsOf;
    forall p | Stuck(Step, s) && 0 <= p < |s0.clients|
      ensures AllTextsOf(s0.clients[p].todo, Own(s.written[..|s.printed|], p))
      ensures RingSuffices(s0) ==> AllTextsOf(s0.clients[p].todo, OwnPrinted(s.printed, p))
    {
      assert s.written[..|s.printed|] == s.written;
      WrittenWhenIdle(s0, schedule, p);
      if RingSuffices(s0) {
        PrintedAsWritten(s.printed, s.written, p);
      }
    }
  }

  lemma StuckClientsIdle(s: State, extra: nat)
    requires Inv(s, extra) && Stuck(Step, s)
    ensures s.spooler == TakeSignal && s.signal == 0 && |s.printed| == |s.written|
    ensures forall c :: c in s.clients ==> Idle(c)
  {
    StuckStep(Step, s, TheSpooler);
    forall i | 0 <= i < |s.clients|
      ensures Idle(s.clients[i]) || s.clients[i].pc == TakeFree || s.clients[i].pc == TakeMutex
    {
      StuckStep(Step, s, Typist(i));
      assert s.clients[i := s.clients[i]] == s.clients;
    }
    SumZero(s.clients, Inside);
    SumZero(s.clients, Unsignalled);
    forall i | 0 <= i < |s.clients| ensures s.clients[i].pc != TakeMutex {
      StuckStep(Step, s, Typist(i));
    }
    SumZero(s.clients, Claimed);
    forall i | 0 <= i < |s.clients| ensures Idle(s.clients[i]) {
      StuckStep(Step, s, Typist(i));
    }
  }

  /** Steps that a client and the spooler still owe to the client's remaining lines. */
  function Work(c: Client): nat {
    13 * |c.todo| +
    match c.pc
    case Typing => 0
    case TakeFree => 12
    case TakeMutex => 11
    case StartWrite => 10
    case EndWrite => 9
    case Advance => 8
    case GiveMutex => 7
    case GiveSignal => 6
  }

  function SpoolerWork(pc: SpoolerPc): nat {
    match pc
    case SetIndices => 8
    case SetFree => 7
    case SetSignal => 6
    case SetMutex => 5
    case TakeSignal => 0
    case StartPrint => 4
    case EndPrint => 3
    case AdvancePrint => 2
    case GiveFree => 1
  }

  function Measure(s: State): nat {
    Sum(s.clients, Work) + 5 * s.signal + SpoolerWork(s.spooler)
  }

  lemma ClientDecreases(s: State, p: nat)
    requires p < |s.clients|
    ensures var t := ClientStep(s, p);
            t == s || Work(t.clients[p]) + 5 * t.signal < Work(s.clients[p]) + 5 * s.signal
  {
  }

  lemma StepDecreases(s: State, p: Process)
    ensures Step(s, p) == s || Measure(Step(s, p)) < Measure(s)
  {
    if p.Typist? && p.id < |s.clients| {
      ClientFrame(s, p.id);
      ClientDecreases(s, p.id);
      SumUpdate(s.clients, p.id, ClientStep(s, p.id).clients[p.id], Work);
    }
  }

  lemma AllDecrease()
    ensures Decreases(Step, Measure)
  {
    forall s, p ensures Step(s, p) == s || Measure(Step(s, p)) < Measure(s) {
      StepDecreases(s, p);
    }
  }

  /** Every run is finite: with finitely many lines typed only finitely many steps do not block. */
  lemma RunsAreFinite(s: State, schedule: seq<Process>)
    ensures Progress(Step, s, schedule) <= Measure(s)
  {
    AllDecrease();
    ProgressBounded(Step, Measure, s, schedule);
  }

  /** Every run can be continued until all typed lines are written and as many slots printed; from a start
      with room, until all typed lines are printed. */
  lemma EveryRunCanFinish(s0: State, schedule: seq<Process>) returns (rest: seq<Process>)
    requires Init(s0)
    ensures var s := Exec(s0, schedule + rest);
            && Stuck(Step, s) && (forall c :: c in s.clients ==> Idle(c)) && |s.printed| == |s.written|
            && (forall p :: 0 <= p < |s0.clients| ==>
                  AllTextsOf(s0.clients[p].todo, Own(s.written[..|s.printed|], p)))
            && (RingSuffices(s0) ==> AllPrinted(s0, s))
  {
    AllDecrease();
    rest := EndAfter(Step, Measure, s0, schedule);
    StopsOnlyWhenAllIsPrinted(s0, schedule + rest);
  }

  lemma StepGrows(s: State, p: Process)
    ensures s.printed <= Step(s, p).printed && s.written <= Step(s, p).written
  {
  }

  lemma {:induction false} LogsGrow(s: State, schedule: seq<Process>)
    ensures s.printed <= Exec(s, schedule).printed && s.written <= Exec(s, schedule).written
    decreases |schedule|
  {
    if schedule == [] {
    } else {
      LogsGrow(s, schedule[..|schedule| - 1]);
      StepGrows(Exec(s, schedule[..|schedule| - 1]), schedule[|schedule| - 1]);
    }
  }

  /** An output that is out of order stays so. */
  lemma DisorderStays(s0: State, schedule: seq<Process>, rest: seq<Process>)
    requires Init(s0) && !InWriteOrder(Exec(s0, schedule))
    ensures !InWriteOrder(Exec(s0, schedule + rest))
  {
    ExecInv(s0, schedule);
    RunAppend(Step, s0, schedule, rest);
    var s, t := Exec(s0, schedule), Exec(s0, schedule + rest);
    LogsGrow(s, rest);
    hide Exec;
    var k :| 0 <= k < |s.printed| && s.printed[k] != Whole(s.written[k]);
    assert t.printed[k] == s.printed[k] && t.written[k] == s.written[k];
  }

  ghost predicate CanPrintAll(s0: State, schedule: seq<Process>) {
    exists rest :: AllPrinted(s0, Exec(s0, schedule + rest))
  }

  /** Every run can be continued until everything typed is printed if and only if the start has room. */
  lemma AllCanBePrintedExactlyWithRoom(s0: State)
    requires Init(s0)
    ensures (forall schedule :: CanPrintAll(s0, schedule)) <==> RingSuffices(s0)
  {
    if RingSuffices(s0) {
      forall schedule ensures CanPrintAll(s0, schedule) {
        var rest := EveryRunCanFinish(s0, schedule);
        assert AllPrinted(s0, Exec(s0, schedule + rest));
      }
    } else {
      var schedule := LeftoverTearsOutput(s0);
      forall rest ensures !AllPrinted(s0, Exec(s0, schedule + rest)) {
        DisorderStays(s0, schedule, rest);
      }
      assert !CanPrintAll(s0, schedule);
    }
  }

  lemma {:induction false} WorkPerLine(clients: seq<Client>, n: nat)
    requires n <= |clients| && forall p :: 0 <= p < n ==> clients[p].pc == Typing
    ensures SumTo(clients, n, Work) == 13 * SumTo(clients, n, Lines)
  {
    if n == 0 {
    } else {
      WorkPerLine(clients, n - 1);
    }
  }

  /** The whole system takes at most 13 steps for each line that will ever be typed, besides its start-up
      and what a leftover signal count could add before the spooler resets it. */
  lemma StepsPerLine(s0: State, schedule: seq<Process>)
    requires Init(s0)
    ensures Progress(Step, s0, schedule) <= 13 * Sum(s0.clients, Lines) + 5 * s0.signal + 8
  {
    RunsAreFinite(s0, schedule);
    InitTyping(s0);
    WorkPerLine(s0.clients, |s0.clients|);
  }

  // ---------------------------------------------------------------------------------------------
  // The program, in place
  // ---------------------------------------------------------------------------------------------

  /** The shared segment, its semaphores and the processes attached to it. */
  class System {
    var buf: array<Slot>
    var bufferIndex: int
    var printIndex: int
    var free: nat
    var mutex: nat
    var signal: nat
    var clients: seq<Client>
    var spooler: SpoolerPc
    var copied: Slot
    var printed: seq<Slot>
    ghost var written: seq<Line>
    ghost const leftover: nat       // the count of free slots before the start

    ghost function Model(): State
      reads this, buf
    {
      State(buf[..], bufferIndex, printIndex, free, mutex, signal, clients, spooler, copied, printed, written)
    }

    ghost predicate Valid()
      reads this, buf
    {
      Inv(Model(), leftover)
    }

    /** A segment of `m` slots whose mutex has just been closed, and one client for each list of lines. */
    constructor (m: nat, lines: seq<seq<string>>, leftover: nat)
      requires m >= 1
      ensures fresh(buf) && buf.Length == m && free == this.leftover == leftover
      ensures Init(Model()) && Valid()
      ensures |clients| == |lines| && forall p :: 0 <= p < |lines| ==> clients[p].todo == lines[p]
    {
      buf := new Slot[m](_ => Torn);
      bufferIndex, printIndex := 0, 0;
      free, mutex, signal := leftover, 0, 0;
      this.leftover := leftover;
      clients := seq(|lines|, p requires 0 <= p < |lines| => Client.Client(Typing, "", lines[p], []));
      spooler, copied := SetIndices, Torn;
      printed, written := [], [];
      new;
      InitInv(Model());
    }

    ghost predicate At(p: nat, pc: ClientPc)
      reads this, buf
    {
      Valid() && p < |clients| && clients[p].pc == pc
    }

    /** `fgets` */
    method ReadLine(p: nat)
      requires At(p, Typing)
      modifies this`clients
      ensures Valid() && buf == old(buf) && Model() == ClientStep(old(Model()), p)
    {
      hide Inv;
      ClientInv(Model(), p, leftover);
      var c := clients[p];
      if c.todo != [] {
        clients := clients[p := c.(pc := TakeFree, line := c.todo[0], todo := c.todo[1..],
                                   typed := c.typed + [c.todo[0]])];
      }
    }

    /** `semop` -1 on the count of free slots */
    method ClaimSlot(p: nat)
      requires At(p, TakeFree)
      modifies this`clients, this`free
      ensures Valid() && buf == old(buf) && Model() == ClientStep(old(Model()), p)
    {
      hide Inv;
      ClientInv(Model(), p, leftover);
      if free > 0 {
        free := free - 1;
        clients := clients[p := clients[p].(pc := TakeMutex)];
      }
    }

    /** `semop` -1 on the mutex */
    method Lock(p: nat)
      requires At(p, TakeMutex)
      modifies this`clients, this`mutex
      ensures Valid() && buf == old(buf) && Model() == ClientStep(old(Model()), p)
    {
      hide Inv;
      ClientInv(Model(), p, leftover);
      if mutex > 0 {
        mutex := mutex - 1;
        clients := clients[p := clients[p].(pc := StartWrite)];
      }
    }

    /** The first half of `sprintf` into the slot */
    method BeginWrite(p: nat)
      requires At(p, StartWrite)
      modifies this`clients, buf
      ensures Valid() && buf == old(buf) && Model() == ClientStep(old(Model()), p)
    {
      hide Inv;
      ClientInv(Model(), p, leftover);
      WriterInBounds(Model(), p, leftover);
      buf[bufferIndex] := Torn;
      clients := clients[p := clients[p].(pc := EndWrite)];
    }

    /** The second half of `sprintf`: the slot is whole */
    method FinishWrite(p: nat)
      requires At(p, EndWrite)
      modifies this`clients, this`written, buf
      ensures Valid() && buf == old(buf) && Model() == ClientStep(old(Model()), p)
    {
      hide Inv;
      ClientInv(Model(), p, leftover);
      WriterInBounds(Model(), p, leftover);
      ghost var next := ClientStep(Model(), p);
      var line := Line(p, Chomp(clients[p].line));
      buf[bufferIndex] := Whole(line);
      written := written + [line];
      clients := clients[p := clients[p].(pc := Advance)];
      assert buf[..] == next.buf && clients == next.clients;
      assert Model() == next;
    }

    /** The write index moves on and wraps */
    method AdvanceIndex(p: nat)
      requires At(p, Advance)
      modifies this`clients, this`bufferIndex
      ensures Valid() && buf == old(buf) && Model() == ClientStep(old(Model()), p)
    {
      hide Inv;
      ClientInv(Model(), p, leftover);
      bufferIndex := bufferIndex + 1;
      if bufferIndex == buf.Length {
        bufferIndex := 0;
      }
      clients := clients[p := clients[p].(pc := GiveMutex)];
    }

    /** `semop` +1 on the mutex */
    method Unlock(p: nat)
      requires At(p, GiveMutex)
      modifies this`clients, this`mutex
      ensures Valid() && buf == old(buf) && Model() == ClientStep(old(Model()), p)
    {
      hide Inv;
      ClientInv(Model(), p, leftover);
      mutex := mutex + 1;
      clients := clients[p := clients[p].(pc := GiveSignal)];
    }

    /** `semop` +1 on the count of strings to print */
    method Announce(p: nat)
      requires At(p, GiveSignal)
      modifies this`clients, this`signal
      ensures Valid() && buf == old(buf) && Model() == ClientStep(old(Model()), p)
    {
      hide Inv;
      ClientInv(Model(), p, leftover);
      signal := signal + 1;
      clients := clients[p := clients[p].(pc := Typing)];
    }

    /** Start-up: both indices */
    method ResetIndices()
      requires Valid() && spooler == SetIndices
      modifies this
      ensures Valid() && buf == old(buf) && Model() == SpoolerStep(old(Model()))
    {
      hide Inv;
      SpoolerInv(Model(), leftover);
      bufferIndex, printIndex, spooler := 0, 0, SetFree;
    }

    /** Start-up: `SETVAL` of the count of free slots */
    method SizeRing()
      requires Valid() && spooler == SetFree
      modifies this
      ensures Valid() && buf == old(buf) && Model() == SpoolerStep(old(Model()))
    {
      hide Inv;
      SpoolerInv(Model(), leftover);
      free, spooler := buf.Length, SetSignal;
    }

    /** Start-up: `SETVAL` of the count of strings to print */
    method ResetSignal()
      requires Valid() && spooler == SetSignal
      modifies this
      ensures Valid() && buf == old(buf) && Model() == SpoolerStep(old(Model()))
    {
      hide Inv;
      SpoolerInv(Model(), leftover);
      signal, spooler := 0, SetMutex;
    }

    /** Start-up: `SETVAL` of the mutex, which lets the clients in */
    method OpenMutex()
      requires Valid() && spooler == SetMutex
      modifies this
      ensures Valid() && buf == old(buf) && Model() == SpoolerStep(old(Model()))
    {
      hide Inv;
      SpoolerInv(Model(), leftover);
      mutex, spooler := 1, TakeSignal;
    }

    /** `semop` -1 on the count of strings to print */
    method AwaitString()
      requires Valid() && spooler == TakeSignal
      modifies this
      ensures Valid() && buf == old(buf) && Model() == SpoolerStep(old(Model()))
    {
      hide Inv;
      SpoolerInv(Model(), leftover);
      if signal > 0 {
        signal, spooler := signal - 1, StartPrint;
      }
    }

    /** `printf` starts to read the slot, without the mutex */
    method BeginPrint()
      requires Valid() && spooler == StartPrint
      modifies this
      ensures Valid() && buf == old(buf) && Model() == SpoolerStep(old(Model()))
    {
      SpoolerInv(Model(), leftover);
      copied, spooler := buf[printIndex], EndPrint;
    }

    /** `printf` has read the slot; had it changed meanwhile, the output would be torn */
    method FinishPrint()
      requires Valid() && spooler == EndPrint
      modifies this
      ensures Valid() && buf == old(buf) && Model() == SpoolerStep(old(Model()))
    {
      SpoolerInv(Model(), leftover);
      printed := printed + [if buf[printIndex] == copied then copied else Torn];
      spooler := AdvancePrint;
    }

    /** The print index moves on and wraps */
    method AdvancePrintIndex()
      requires Valid() && spooler == AdvancePrint
      modifies this
      ensures Valid() && buf == old(buf) && Model() == SpoolerStep(old(Model()))
    {
      hide Inv;
      SpoolerInv(Model(), leftover);
      printIndex := printIndex + 1;
      if printIndex == buf.Length {
        printIndex := 0;
      }
      spooler := GiveFree;
    }

    /** `semop` +1 on the count of free slots */
    method ReleaseSlot()
      requires Valid() && spooler == GiveFree
      modifies this
      ensures Valid() && buf == old(buf) && Model() == SpoolerStep(old(Model()))
    {
      hide Inv;
      SpoolerInv(Model(), leftover);
      free, spooler := free + 1, TakeSignal;
    }
  }
}
