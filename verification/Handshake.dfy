/** The two-semaphore handshake of 40_semaphore/sph_sv_cl: clients pass messages to one server through a
    single shared segment.  Semaphore 0 says that the segment is in use, semaphore 1 that it holds an
    unread message; every `semop` is one atomic test and update of both. */
module Handshake {
  import opened Counting
  import opened Filtering
  import opened Runs

  /** Who wrote a message, and which of its messages it is. */
  datatype Message = Message(client: nat, serial: nat)

  /** The segment is torn while a client is halfway through its `snprintf`. */
  datatype Segment = Torn | Whole(message: Message)

  /** The two failures are an error return of `semop`: before taking the segment, and with a message in it. */
  datatype ClientPc = Acquire | BeginWrite | EndWrite | Publish | FailedEarly | FailedLate

  datatype Client = Client(pc: ClientPc, sent: nat, quota: nat)

  datatype ServerPc = Take | BeginRead | EndRead | Release | Removed | Crashed

  datatype State = State(
    sem0: nat, sem1: nat, segment: Segment,
    clients: seq<Client>,
    server: ServerPc, received: nat, expected: nat, copied: Segment,
    log: seq<Segment>,        // what the server printed
    written: seq<Message>)    // history: completed writes, in order

  datatype Process = Sender(id: nat) | Receiver

  // ---------------------------------------------------------------------------------------------
  // Steps
  // ---------------------------------------------------------------------------------------------

  function Goto(s: State, p: nat, pc: ClientPc): State
    requires p < |s.clients|
  {
    s.(clients := s.clients[p := s.clients[p].(pc := pc)])
  }

  /** One statement of client `p`: a blocked `semop` changes nothing, one on a removed set fails. */
  function ClientStep(s: State, p: nat): State
    requires p < |s.clients|
  {
    var c := s.clients[p];
    match c.pc
    case Acquire =>
      if c.sent >= c.quota then s
      else if s.server == Removed then Goto(s, p, FailedEarly)
      else if s.sem0 == 0 && s.sem1 == 0 then Goto(s, p, BeginWrite).(sem0 := s.sem0 + 1)
      else s
    case BeginWrite => Goto(s, p, EndWrite).(segment := Torn)
    case EndWrite =>
      var m := Message(p, c.sent);
      Goto(s, p, Publish).(segment := Whole(m), written := s.written + [m])
    case Publish =>
      if s.server == Removed then Goto(s, p, FailedLate)
      else if s.sem0 == 0 then s
      else s.(sem0 := s.sem0 - 1, sem1 := s.sem1 + 1, clients := s.clients[p := c.(pc := Acquire, sent := c.sent + 1)])
    case FailedEarly => s
    case FailedLate => s
  }

  /** One statement of the server, which removes the set after its last message.  The decrement at
      `Release` does not wait: at zero the server returns with an error. */
  function ServerStep(s: State): State {
    match s.server
    case Take =>
      if s.received >= s.expected then s.(server := Removed)
      else if s.sem1 == 0 then s
      else s.(sem1 := s.sem1 - 1, sem0 := s.sem0 + 1, server := BeginRead)
    case BeginRead => s.(copied := s.segment, server := EndRead)
    case EndRead => s.(log := s.log + [if s.segment == s.copied then s.copied else Torn], server := Release)
    case Release =>
      if s.sem0 == 0 then s.(server := Crashed)
      else s.(sem0 := s.sem0 - 1, received := s.received + 1, server := Take)
    case Removed => s
    case Crashed => s
  }

  function Step(s: State, p: Process): State {
    match p
    case Sender(id) => if id < |s.clients| then ClientStep(s, id) else s
    case Receiver => ServerStep(s)
  }

  lemma {:induction false} RunKeepsSizes(s: State, schedule: seq<Process>)
    ensures var t := Run(Step, s, schedule);
            |t.clients| == |s.clients| && t.expected == s.expected
    decreases |schedule|
  {
    if schedule == [] {
    } else {
      RunKeepsSizes(s, schedule[..|schedule| - 1]);
    }
  }

  function Exec(s: State, schedule: seq<Process>): (t: State)
    ensures |t.clients| == |s.clients| && t.expected == s.expected
  {
    RunKeepsSizes(s, schedule);
    Run(Step, s, schedule)
  }

  ghost predicate Init(s: State) {
    && s.sem0 == 0 && s.sem1 == 0
    && s.server == Take && s.received == 0
    && s.log == [] && s.written == []
    && forall c :: c in s.clients ==> c.pc == Acquire && c.sent == 0
  }

  // ---------------------------------------------------------------------------------------------
  // The invariant
  // ---------------------------------------------------------------------------------------------

  /** A client holding the segment. */
  function Holding(c: Client): nat {
    if c.pc in {BeginWrite, EndWrite, Publish, FailedLate} then 1 else 0
  }

  /** A client whose message is in the segment but not yet published. */
  function Unpublished(c: Client): nat {
    if c.pc in {Publish, FailedLate} then 1 else 0
  }

  function Wrote(c: Client): nat {
    c.sent + Unpublished(c)
  }

  function Quota(c: Client): nat {
    c.quota
  }

  function Reading(s: State): nat {
    if s.server in {BeginRead, EndRead, Release} then 1 else 0
  }

  function Unread(s: State): nat {
    if s.server in {BeginRead, EndRead} then 1 else 0
  }

  predicate WithinQuota(c: Client) {
    c.sent <= c.quota && (c.pc != Acquire ==> c.sent < c.quota)
  }

  ghost predicate Counts(s: State) {
    && s.sem0 == Sum(s.clients, Holding) + Reading(s)
    && s.sem0 + s.sem1 <= 1
    && |s.written| == |s.log| + s.sem1 + Unread(s) + Sum(s.clients, Unpublished)
    && |s.written| == Sum(s.clients, Wrote)
    && |s.log| == s.received + (if s.server == Release then 1 else 0)
    && s.received <= s.expected
    && (s.server == Removed ==> s.received == s.expected)
    && (Reading(s) == 1 ==> s.received < s.expected)
    && s.server != Crashed
  }

  ghost predicate Contents(s: State) {
    && |s.log| <= |s.written|
    && (forall k :: 0 <= k < |s.log| ==> s.log[k] == Whole(s.written[k]))
    && (|s.log| < |s.written| ==> s.segment == Whole(s.written[|s.written| - 1]))
    && (s.server == EndRead ==> s.copied == s.segment)
  }

  ghost predicate Clients(s: State) {
    forall c :: c in s.clients ==> WithinQuota(c) && (c.pc in {FailedEarly, FailedLate} ==> s.server == Removed)
  }

  ghost predicate Inv(s: State) {
    Counts(s) && Contents(s) && Clients(s)
  }

  lemma ClientFrame(s: State, p: nat)
    requires p < |s.clients|
    ensures var t := ClientStep(s, p);
            && t.clients == s.clients[p := t.clients[p]] && t.clients[p].quota == s.clients[p].quota
            && t.server == s.server && t.received == s.received && t.expected == s.expected && t.log == s.log
  {
  }

  lemma ClientSums(s: State, p: nat, c: Client)
    requires p < |s.clients|
    ensures Sum(s.clients[p := c], Holding) + Holding(s.clients[p]) == Sum(s.clients, Holding) + Holding(c)
    ensures Sum(s.clients[p := c], Unpublished) + Unpublished(s.clients[p])
            == Sum(s.clients, Unpublished) + Unpublished(c)
    ensures Sum(s.clients[p := c], Wrote) + Wrote(s.clients[p]) == Sum(s.clients, Wrote) + Wrote(c)
    ensures Sum(s.clients, Unpublished) + Holding(s.clients[p]) <= Sum(s.clients, Holding) + Unpublished(s.clients[p])
  {
    SumUpdate(s.clients, p, c, Holding);
    SumUpdate(s.clients, p, c, Unpublished);
    SumUpdate(s.clients, p, c, Wrote);
    SumGap(s.clients, p, Unpublished, Holding);
  }

  lemma ClientCounts(s: State, p: nat)
    requires Counts(s) && p < |s.clients|
    ensures Counts(ClientStep(s, p))
  {
    ClientFrame(s, p);
    ClientSums(s, p, ClientStep(s, p).clients[p]);
  }

  lemma ClientContents(s: State, p: nat)
    requires Counts(s) && Contents(s) && p < |s.clients|
    ensures Contents(ClientStep(s, p))
  {
    ClientSums(s, p, s.clients[p]);
  }

  lemma ClientInv(s: State, p: nat)
    requires Inv(s) && p < |s.clients|
    ensures Inv(ClientStep(s, p))
  {
    ClientFrame(s, p);
    ClientCounts(s, p);
    ClientContents(s, p);
    assert s.clients[p] in s.clients;
  }

  lemma ServerInv(s: State)
    requires Inv(s)
    ensures Inv(ServerStep(s))
  {
    SumBelow(s.clients, Unpublished, Holding);
  }

  lemma InitInv(s: State)
    requires Init(s)
    ensures Inv(s)
  {
    SumZero(s.clients, Holding);
    SumZero(s.clients, Unpublished);
    SumZero(s.clients, Wrote);
  }

  lemma StepInv(s: State, p: Process)
    requires Inv(s)
    ensures Inv(Step(s, p))
  {
    match p
    case Sender(id) => if id < |s.clients| { ClientInv(s, id); }
    case Receiver => ServerInv(s);
  }

  lemma StepKeepsQuotas(s: State, p: Process)
    ensures Sum(Step(s, p).clients, Quota) == Sum(s.clients, Quota)
  {
    if p.Sender? && p.id < |s.clients| {
      ClientFrame(s, p.id);
      SumUpdate(s.clients, p.id, ClientStep(s, p.id).clients[p.id], Quota);
    }
  }

  lemma {:induction false} ExecInv(s: State, schedule: seq<Process>)
    requires Init(s)
    ensures Inv(Exec(s, schedule))
    ensures Sum(Exec(s, schedule).clients, Quota) == Sum(s.clients, Quota)
    decreases |schedule|
  {
    if schedule == [] {
      InitInv(s);
    } else {
      var before := schedule[..|schedule| - 1];
      ExecInv(s, before);
      StepInv(Exec(s, before), schedule[|schedule| - 1]);
      StepKeepsQuotas(Exec(s, before), schedule[|schedule| - 1]);
    }
  }

  // ---------------------------------------------------------------------------------------------
  // Safety of every run
  // ---------------------------------------------------------------------------------------------

  /** At most one process touches the segment, the two flags are never both up, and the server's
      no-wait decrement never finds semaphore 0 at zero. */
  lemma SegmentExclusive(s0: State, schedule: seq<Process>)
    requires Init(s0)
    ensures var s := Exec(s0, schedule);
            && s.sem0 + s.sem1 <= 1
            && s.server != Crashed && (s.server == Release ==> s.sem0 == 1)
            && (forall p, q :: 0 <= p < q < |s.clients| ==> Holding(s.clients[p]) + Holding(s.clients[q]) <= 1)
            && (Reading(s) == 1 ==> forall c :: c in s.clients ==> Holding(c) == 0)
  {
    var s := Exec(s0, schedule);
    ExecInv(s0, schedule);
    forall p, q | 0 <= p < q < |s.clients| ensures Holding(s.clients[p]) + Holding(s.clients[q]) <= 1 {
      SumPair(s.clients, p, q, Holding);
    }
    forall c | Reading(s) == 1 && c in s.clients ensures Holding(c) == 0 {
      var i :| 0 <= i < |s.clients| && s.clients[i] == c;
      SumPart(s.clients, i, Holding);
    }
  }

  /** Exactly-once delivery: the server's log is the write log up to at most one message, whole, and no
      client starts a write while a message is unread. */
  lemma ReadExactlyOnce(s0: State, schedule: seq<Process>)
    requires Init(s0)
    ensures var s := Exec(s0, schedule);
            && |s.log| <= |s.written| <= |s.log| + 1
            && (forall k :: 0 <= k < |s.log| ==> s.log[k] == Whole(s.written[k]))
            && (forall c :: c in s.clients && c.pc in {BeginWrite, EndWrite} ==> |s.log| == |s.written|)
  {
    var s := Exec(s0, schedule);
    ExecInv(s0, schedule);
    SumBelow(s.clients, Unpublished, Holding);
    forall c | c in s.clients && c.pc in {BeginWrite, EndWrite} ensures |s.log| == |s.written| {
      var i :| 0 <= i < |s.clients| && s.clients[i] == c;
      SumGap(s.clients, i, Unpublished, Holding);
    }
  }

  // ---------------------------------------------------------------------------------------------
  // Termination
  // ---------------------------------------------------------------------------------------------

  function Rest(quota: nat, done: nat): nat {
    if quota > done then quota - done else 0
  }

  function Work(c: Client): nat {
    match c.pc
    case Acquire => 4 * Rest(c.quota, c.sent)
    case BeginWrite => 4 * Rest(c.quota, c.sent + 1) + 3
    case EndWrite => 4 * Rest(c.quota, c.sent + 1) + 2
    case Publish => 4 * Rest(c.quota, c.sent + 1) + 1
    case FailedEarly => 0
    case FailedLate => 0
  }

  function ServerWork(s: State): nat {
    match s.server
    case Take => 4 * Rest(s.expected, s.received) + 1
    case BeginRead => 4 * Rest(s.expected, s.received + 1) + 4
    case EndRead => 4 * Rest(s.expected, s.received + 1) + 3
    case Release => 4 * Rest(s.expected, s.received + 1) + 2
    case Removed => 0
    case Crashed => 0
  }

  function Measure(s: State): nat {
    Sum(s.clients, Work) + ServerWork(s)
  }

  lemma ClientDecreases(s: State, p: nat)
    requires p < |s.clients|
    ensures var t := ClientStep(s, p); t == s || Work(t.clients[p]) < Work(s.clients[p])
  {
  }

  lemma StepDecreases(s: State, p: Process)
    ensures Step(s, p) == s || Measure(Step(s, p)) < Measure(s)
  {
    if p.Sender? && p.id < |s.clients| {
      ClientFrame(s, p.id);
      ClientDecreases(s, p.id);
      SumUpdate(s.clients, p.id, ClientStep(s, p.id).clients[p.id], Work);
    }
  }

  lemma AllDecrease()
    ensures Decreases(Step, Measure)
  {
    forall s, p ensures Step(s, p) == s || Measure(Step(s, p)) < Measure(s) {
      StepDecreases(s, p);
    }
  }

  /** Every run ends: a schedule contains at most `Measure(s)` steps that do not block. */
  lemma RunsAreFinite(s: State, schedule: seq<Process>)
    ensures Progress(Step, s, schedule) <= Measure(s)
  {
    AllDecrease();
    ProgressBounded(Step, Measure, s, schedule);
  }

  predicate Finished(c: Client) {
    c.pc == Acquire && c.sent == c.quota
  }

  ghost predicate Complete(s: State) {
    && s.server == Removed
    && (forall c :: c in s.clients ==> Finished(c))
    && |s.log| == Sum(s.clients, Quota)
  }

  lemma StuckClients(s: State)
    requires Inv(s) && Stuck(Step, s)
    ensures forall c :: c in s.clients ==> c.pc in {Acquire, FailedEarly, FailedLate}
    ensures s.server in {Take, Removed}
    ensures s.server == Take ==> s.sem1 == 0 && s.received < s.expected && forall c :: c in s.clients ==> Finished(c)
  {
    StuckStep(Step, s, Receiver);
    forall i | 0 <= i < |s.clients| ensures s.clients[i].pc in {Acquire, FailedEarly, FailedLate} {
      StuckStep(Step, s, Sender(i));
      assert s.clients[i := s.clients[i]] == s.clients;
      SumPart(s.clients, i, Holding);
    }
    if s.server == Take {
      SumZero(s.clients, Holding);
      forall i | 0 <= i < |s.clients| ensures Finished(s.clients[i]) {
        StuckStep(Step, s, Sender(i));
        assert WithinQuota(s.clients[i]);
      }
    }
  }

  /** When nothing more can happen, everything sent was delivered and everyone is done exactly if the
      clients' messages add up to what the server expects. */
  lemma CompletesExactlyWhenQuotasMatch(s0: State, schedule: seq<Process>)
    requires Init(s0) && Stuck(Step, Exec(s0, schedule))
    ensures Complete(Exec(s0, schedule)) <==> Sum(s0.clients, Quota) == s0.expected
  {
    var s := Exec(s0, schedule);
    ExecInv(s0, schedule);
    StuckClients(s);
    WroteBelowQuota(s);
    if s.server == Take {
      SumZero(s.clients, Unpublished);
    } else if Sum(s.clients, Quota) == s.expected {
      forall i | 0 <= i < |s.clients| ensures Finished(s.clients[i]) {
        assert WithinQuota(s.clients[i]);
        SumGap(s.clients, i, Wrote, Quota);
        SumPart(s.clients, i, Unpublished);
      }
    }
  }

  /** Every run can be continued to an end, and that is complete if the quotas match. */
  lemma EveryRunCanComplete(s0: State, schedule: seq<Process>) returns (rest: seq<Process>)
    requires Init(s0)
    ensures Stuck(Step, Exec(s0, schedule + rest))
    ensures Complete(Exec(s0, schedule + rest)) <==> Sum(s0.clients, Quota) == s0.expected
  {
    AllDecrease();
    rest := EndAfter(Step, Measure, s0, schedule);
    CompletesExactlyWhenQuotasMatch(s0, schedule + rest);
  }

  lemma WroteBelowQuota(s: State)
    requires Clients(s)
    ensures forall c :: c in s.clients ==> Wrote(c) <= Quota(c)
    ensures Sum(s.clients, Wrote) <= Sum(s.clients, Quota)
    ensures (forall c :: c in s.clients ==> Finished(c)) ==> Sum(s.clients, Wrote) == Sum(s.clients, Quota)
  {
    SumBelow(s.clients, Wrote, Quota);
    if forall c :: c in s.clients ==> Finished(c) {
      SumBelow(s.clients, Quota, Wrote);
    }
  }

  /** A client's `semop` fails only if the clients have more messages than the server expects; and once
      the server has removed the set under matching quotas, every client is through its loop. */
  lemma NoSemopFailsUnlessOversubscribed(s0: State, schedule: seq<Process>)
    requires Init(s0) && Sum(s0.clients, Quota) <= s0.expected
    ensures var s := Exec(s0, schedule);
            && (forall c :: c in s.clients ==> c.pc !in {FailedEarly, FailedLate})
            && (s.server == Removed ==> forall c :: c in s.clients ==> Finished(c))
  {
    var s := Exec(s0, schedule);
    ExecInv(s0, schedule);
    WroteBelowQuota(s);
    if s.server == Removed {
      forall i | 0 <= i < |s.clients| ensures Finished(s.clients[i]) {
        assert WithinQuota(s.clients[i]);
        SumGap(s.clients, i, Wrote, Quota);
        SumPart(s.clients, i, Unpublished);
      }
    }
  }

  ghost predicate NobodyFails(s: State) {
    forall c :: c in s.clients ==> c.pc !in {FailedEarly, FailedLate}
  }

  function Sent(c: Client): nat {
    c.sent
  }

  /** Everybody is between two messages, and `k` messages have been passed. */
  ghost predicate Between(s: State, k: nat) {
    && s.sem0 == 0 && s.sem1 == 0 && s.server == Take && s.received == k
    && (forall p :: 0 <= p < |s.clients| ==> s.clients[p].pc == Acquire && s.clients[p].sent <= s.clients[p].quota)
    && Sum(s.clients, Sent) == k
  }

  lemma ClientPasses(s: State, p: nat, k: nat)
    requires Between(s, k) && p < |s.clients| && s.clients[p].sent < s.clients[p].quota
    ensures var c, t := s.clients[p], Times(Step, s, Sender(p), 4);
            && t.sem0 == 0 && t.sem1 == 1 && t.server == Take && t.received == k && t.expected == s.expected
            && t.clients == s.clients[p := c.(sent := c.sent + 1)]
  {
    FourTimes(Step, s, Sender(p));
    hide Times;
    var two := Step(Step(s, Sender(p)), Sender(p));
    assert two.clients == s.clients[p := s.clients[p].(pc := EndWrite)] && two.sem0 == 1 && two.sem1 == 0;
  }

  lemma ServerTakes(s: State)
    requires s.sem0 == 0 && s.sem1 == 1 && s.server == Take && s.received < s.expected
    ensures var t := Times(Step, s, Receiver, 4);
            && t.sem0 == 0 && t.sem1 == 0 && t.server == Take && t.received == s.received + 1
            && t.expected == s.expected && t.clients == s.clients
  {
    FourTimes(Step, s, Receiver);
    hide Times;
  }

  lemma OneMessage(s: State, p: nat, k: nat)
    requires Between(s, k) && p < |s.clients| && s.clients[p].sent < s.clients[p].quota && k < s.expected
    ensures Between(Times(Step, Times(Step, s, Sender(p), 4), Receiver, 4), k + 1)
  {
    hide Times, Step;
    ClientPasses(s, p, k);
    ServerTakes(Times(Step, s, Sender(p), 4));
    SumUpdate(s.clients, p, s.clients[p].(sent := s.clients[p].sent + 1), Sent);
  }

  lemma {:induction false} SomeoneHasMore(clients: seq<Client>, n: nat) returns (p: nat)
    requires n <= |clients| && SumTo(clients, n, Sent) < SumTo(clients, n, Quota)
    ensures p < n && clients[p].sent < clients[p].quota
  {
    if clients[n - 1].sent < clients[n - 1].quota {
      p := n - 1;
    } else {
      p := SomeoneHasMore(clients, n - 1);
    }
  }

  lemma {:induction false} PassAll(s0: State, schedule: seq<Process>, k: nat) returns (longer: seq<Process>)
    requires Between(Exec(s0, schedule), k) && k <= s0.expected
    requires Sum(Exec(s0, schedule).clients, Quota) > s0.expected
    ensures Between(Exec(s0, longer), s0.expected)
    ensures Sum(Exec(s0, longer).clients, Quota) > s0.expected
    decreases s0.expected - k
  {
    if k == s0.expected {
      longer := schedule;
    } else {
      var s := Exec(s0, schedule);
      var p := SomeoneHasMore(s.clients, |s.clients|);
      OneMessage(s, p, k);
      ClientPasses(s, p, k);
      SumUpdate(s.clients, p, s.clients[p].(sent := s.clients[p].sent + 1), Quota);
      hide Times;
      longer := ThenTimes(Step, s0, schedule, Sender(p), 4);
      ServerTakes(Exec(s0, longer));
      longer := ThenTimes(Step, s0, longer, Receiver, 4);
      longer := PassAll(s0, longer, k + 1);
    }
  }

  /** The server removes the set after its last message, and a client with one more fails. */
  lemma RemovedTooEarly(s: State, p: nat)
    requires Between(s, s.expected) && p < |s.clients| && s.clients[p].sent < s.clients[p].quota
    ensures !NobodyFails(Times(Step, Times(Step, s, Receiver, 1), Sender(p), 1))
  {
    var t := Step(s, Receiver);
    assert Times(Step, s, Receiver, 0) == s && Times(Step, t, Sender(p), 0) == t;
    assert Step(t, Sender(p)).clients[p].pc == FailedEarly;
    assert Step(t, Sender(p)).clients[p] in Step(t, Sender(p)).clients;
  }

  lemma OversubscribedFails(s0: State) returns (schedule: seq<Process>)
    requires Init(s0) && Sum(s0.clients, Quota) > s0.expected
    ensures !NobodyFails(Exec(s0, schedule))
  {
    SumZero(s0.clients, Sent);
    forall p | 0 <= p < |s0.clients|
      ensures s0.clients[p].pc == Acquire && s0.clients[p].sent <= s0.clients[p].quota
    {
      assert s0.clients[p] in s0.clients;
    }
    schedule := PassAll(s0, [], 0);
    var s := Exec(s0, schedule);
    var p := SomeoneHasMore(s.clients, |s.clients|);
    RemovedTooEarly(s, p);
    schedule := ThenTimes(Step, s0, schedule, Receiver, 1);
    schedule := ThenTimes(Step, s0, schedule, Sender(p), 1);
  }

  /** In no run does a client's `semop` fail if and only if the clients have no more messages than the server
      expects. */
  lemma SemopsSucceedExactlyWithinQuota(s0: State)
    requires Init(s0)
    ensures (forall schedule :: NobodyFails(Exec(s0, schedule))) <==> Sum(s0.clients, Quota) <= s0.expected
  {
    if Sum(s0.clients, Quota) <= s0.expected {
      forall schedule ensures NobodyFails(Exec(s0, schedule)) {
        NoSemopFailsUnlessOversubscribed(s0, schedule);
      }
    } else {
      var schedule := OversubscribedFails(s0);
      assert !NobodyFails(Exec(s0, schedule));
    }
  }

  /** With too few messages the server waits for ever; with too many, exactly the expected number is read. */
  lemma MismatchedQuotas(s0: State, schedule: seq<Process>)
    requires Init(s0) && Stuck(Step, Exec(s0, schedule))
    ensures var s := Exec(s0, schedule); s.server == Take <==> Sum(s0.clients, Quota) < s0.expected
    ensures var s := Exec(s0, schedule); Sum(s0.clients, Quota) >= s0.expected ==> |s.log| == s0.expected
  {
    var s := Exec(s0, schedule);
    ExecInv(s0, schedule);
    StuckClients(s);
    WroteBelowQuota(s);
    if s.server == Take {
      SumZero(s.clients, Unpublished);
    }
  }

  // ---------------------------------------------------------------------------------------------
  // Writes and reads that overlap would show
  // ---------------------------------------------------------------------------------------------

  /** In the middle of a write the segment is torn. */
  ghost predicate TornMeanwhile(s: State) {
    forall p :: 0 <= p < |s.clients| && s.clients[p].pc == EndWrite ==> s.segment == Torn
  }

  lemma StepTears(s: State, q: Process)
    requires TornMeanwhile(s) && Counts(s)
    ensures TornMeanwhile(Step(s, q))
  {
    if q.Sender? && q.id < |s.clients| {
      ClientFrame(s, q.id);
      forall p | 0 <= p < |s.clients| && p != q.id && s.clients[p].pc == EndWrite
        ensures s.clients[q.id].pc != EndWrite
      {
        SumPair(s.clients, if p < q.id then p else q.id, if p < q.id then q.id else p, Holding);
      }
      hide Counts, Sum;
    }
  }

  /** In every run the segment is torn while a client writes. */
  lemma {:induction false} WritesTear(s0: State, schedule: seq<Process>)
    requires Init(s0)
    ensures TornMeanwhile(Exec(s0, schedule))
    decreases |schedule|
  {
    if schedule == [] {
      forall p | 0 <= p < |s0.clients| ensures s0.clients[p].pc == Acquire {
        assert s0.clients[p] in s0.clients;
      }
    } else {
      WritesTear(s0, schedule[..|schedule| - 1]);
      ExecInv(s0, schedule[..|schedule| - 1]);
      StepTears(Exec(s0, schedule[..|schedule| - 1]), schedule[|schedule| - 1]);
    }
  }

  predicate NotReceiver(rest: seq<Process>) {
    forall q :: q in rest ==> q.Sender?
  }

  lemma {:induction false} ReaderWaits(s: State, rest: seq<Process>)
    requires NotReceiver(rest)
    ensures var t := Exec(s, rest); t.server == s.server && t.copied == s.copied && t.log == s.log
    decreases |rest|
  {
    if rest == [] {
    } else {
      assert forall q :: q in rest[..|rest| - 1] ==> q in rest;
      ReaderWaits(s, rest[..|rest| - 1]);
      assert rest[|rest| - 1] in rest;
    }
  }

  /** From any state, whatever the clients do between the two halves of a read: what the server logs is what it read,
      if the segment is the same at the end, and torn otherwise. */
  lemma ReadShowsChange(s: State, rest: seq<Process>)
    requires s.server == BeginRead && NotReceiver(rest)
    ensures var u := Exec(Step(s, Receiver), rest);
            Step(u, Receiver).log == s.log + [if u.segment == s.segment then s.segment else Torn]
  {
    ReaderWaits(Step(s, Receiver), rest);
    hide Exec;
  }

  // ---------------------------------------------------------------------------------------------
  // Whose messages are read
  // ---------------------------------------------------------------------------------------------

  function By(p: nat): Message -> bool {
    (m: Message) => m.client == p
  }

  /** The first `n` messages of client `p`, in its order. */
  function Serials(p: nat, n: nat): seq<Message> {
    if n == 0 then [] else Serials(p, n - 1) + [Message(p, n - 1)]
  }

  lemma {:induction false} SerialsAre(p: nat, n: nat)
    ensures |Serials(p, n)| == n && forall k :: 0 <= k < n ==> Serials(p, n)[k] == Message(p, k)
  {
    if n == 0 {
    } else {
      SerialsAre(p, n - 1);
    }
  }

  /** A client's writes are its own messages, numbered as it wrote them. */
  ghost predicate Signed(s: State, p: nat) {
    Filter(s.written, By(p)) == Serials(p, if p < |s.clients| then Wrote(s.clients[p]) else 0)
  }

  lemma StepSigned(s: State, q: Process, p: nat)
    requires Signed(s, p)
    ensures Signed(Step(s, q), p)
  {
    hide Filter, Serials;
    if q.Sender? && q.id < |s.clients| {
      var c := s.clients[q.id];
      if c.pc == EndWrite {
        FilterSnoc(s.written, Message(q.id, c.sent), By(p));
        NextSerial(q.id, c.sent);
      }
    }
  }

  lemma NextSerial(p: nat, n: nat)
    ensures Serials(p, n + 1) == Serials(p, n) + [Message(p, n)]
  {
  }

  lemma {:induction false} ExecSigned(s0: State, schedule: seq<Process>, p: nat)
    requires Init(s0)
    ensures Signed(Exec(s0, schedule), p)
    decreases |schedule|
  {
    if schedule == [] {
      if p < |s0.clients| {
        assert s0.clients[p] in s0.clients;
      }
    } else {
      ExecSigned(s0, schedule[..|schedule| - 1], p);
      StepSigned(Exec(s0, schedule[..|schedule| - 1]), schedule[|schedule| - 1], p);
    }
  }

  /** In every run the writes of client `p` are its messages 0, 1, 2 and so on, in that order, as many as it
      wrote; nobody writes in the name of another. */
  lemma WritesAreSigned(s0: State, schedule: seq<Process>, p: nat)
    requires Init(s0)
    ensures var s := Exec(s0, schedule);
            var own := Filter(s.written, By(p));
            && |own| == (if p < |s.clients| then Wrote(s.clients[p]) else 0)
            && forall k :: 0 <= k < |own| ==> own[k] == Message(p, k)
  {
    var s := Exec(s0, schedule);
    ExecSigned(s0, schedule, p);
    SerialsAre(p, if p < |s.clients| then Wrote(s.clients[p]) else 0);
  }

  predicate IsWritten(clients: seq<Client>, m: Message) {
    m.client < |clients| && m.serial < Wrote(clients[m.client])
  }

  /** Each message is in the write log once as soon as its client has written it, and not before. */
  ghost predicate Distinct(written: seq<Message>, clients: seq<Client>) {
    && (forall i, j :: 0 <= i < j < |written| ==> written[i] != written[j])
    && (forall m :: m in written <==> IsWritten(clients, m))
  }

  lemma OneMoreWritten(written: seq<Message>, clients: seq<Client>, p: nat, c: Client)
    requires Distinct(written, clients) && p < |clients| && Wrote(c) == Wrote(clients[p]) + 1
    ensures Distinct(written + [Message(p, Wrote(clients[p]))], clients[p := c])
  {
    var m := Message(p, Wrote(clients[p]));
    assert !IsWritten(clients, m);
    forall x ensures IsWritten(clients[p := c], x) <==> IsWritten(clients, x) || x == m {
    }
  }

  lemma NoMoreWritten(written: seq<Message>, clients: seq<Client>, p: nat, c: Client)
    requires Distinct(written, clients) && p < |clients| && Wrote(c) == Wrote(clients[p])
    ensures Distinct(written, clients[p := c])
  {
    forall x ensures IsWritten(clients[p := c], x) <==> IsWritten(clients, x) {
    }
  }

  lemma StepDistinct(s: State, q: Process)
    requires Distinct(s.written, s.clients)
    ensures Distinct(Step(s, q).written, Step(s, q).clients)
  {
    if q.Sender? && q.id < |s.clients| {
      var d := ClientStep(s, q.id).clients[q.id];
      ClientFrame(s, q.id);
      hide Distinct;
      if s.clients[q.id].pc == EndWrite {
        OneMoreWritten(s.written, s.clients, q.id, d);
      } else {
        NoMoreWritten(s.written, s.clients, q.id, d);
      }
    }
  }

  lemma {:induction false} ExecDistinct(s0: State, schedule: seq<Process>)
    requires Init(s0)
    ensures Distinct(Exec(s0, schedule).written, Exec(s0, schedule).clients)
    decreases |schedule|
  {
    if schedule == [] {
      forall p | 0 <= p < |s0.clients| ensures Wrote(s0.clients[p]) == 0 {
        assert s0.clients[p] in s0.clients;
      }
    } else {
      ExecDistinct(s0, schedule[..|schedule| - 1]);
      StepDistinct(Exec(s0, schedule[..|schedule| - 1]), schedule[|schedule| - 1]);
    }
  }

  /** The server never reads a message twice, reads only what a client wrote, and has read each message of each
      client when the run is complete. */
  lemma EachMessageOnce(s0: State, schedule: seq<Process>)
    requires Init(s0)
    ensures var s := Exec(s0, schedule);
            && (forall i, j :: 0 <= i < j < |s.log| ==> s.log[i] != s.log[j])
            && (forall x :: x in s.log ==>
                  x.Whole? && x.message.client < |s0.clients| && x.message.serial < s0.clients[x.message.client].quota)
            && (Complete(s) ==> forall p, k :: 0 <= p < |s0.clients| && 0 <= k < s0.clients[p].quota ==>
                  Whole(Message(p, k)) in s.log)
  {
    var s := Exec(s0, schedule);
    ReadExactlyOnce(s0, schedule);
    ExecInv(s0, schedule);
    ExecDistinct(s0, schedule);
    QuotasStay(s0, schedule);
    WroteWithinQuota(s);
    LogIsWritten(s.log, s.written, s.clients);
    if Complete(s) {
      CompleteIsWritten(s);
    }
    hide Exec, Init, Inv, Complete, Distinct;
    forall p, k | Complete(s) && 0 <= p < |s0.clients| && 0 <= k < s0.clients[p].quota
      ensures Whole(Message(p, k)) in s.log
    {
      assert IsWritten(s.clients, Message(p, k));
    }
  }

  lemma WroteWithinQuota(s: State)
    requires Inv(s)
    ensures forall m :: IsWritten(s.clients, m) ==> m.serial < s.clients[m.client].quota
  {
    forall m | IsWritten(s.clients, m) ensures m.serial < s.clients[m.client].quota {
      assert s.clients[m.client] in s.clients && WithinQuota(s.clients[m.client]);
    }
  }

  lemma CompleteIsWritten(s: State)
    requires Inv(s) && Complete(s)
    ensures |s.log| == |s.written|
    ensures forall p :: 0 <= p < |s.clients| ==> Wrote(s.clients[p]) == s.clients[p].quota
  {
    FinishedWrote(s.clients);
  }

  lemma LogIsWritten(log: seq<Segment>, written: seq<Message>, clients: seq<Client>)
    requires |log| <= |written| && forall k :: 0 <= k < |log| ==> log[k] == Whole(written[k])
    requires Distinct(written, clients)
    ensures forall i, j :: 0 <= i < j < |log| ==> log[i] != log[j]
    ensures forall x :: x in log ==> x.Whole? && IsWritten(clients, x.message)
    ensures |log| == |written| ==> forall m :: IsWritten(clients, m) ==> Whole(m) in log
  {
    forall x | x in log ensures x.Whole? && IsWritten(clients, x.message) {
      var k :| 0 <= k < |log| && log[k] == x;
      assert written[k] in written;
    }
    forall m | |log| == |written| && IsWritten(clients, m) ensures Whole(m) in log {
      var k :| 0 <= k < |written| && written[k] == m;
      assert log[k] == Whole(m);
    }
  }

  lemma FinishedWrote(clients: seq<Client>)
    requires forall c :: c in clients ==> Finished(c)
    ensures Sum(clients, Wrote) == Sum(clients, Quota)
    ensures forall p :: 0 <= p < |clients| ==> Wrote(clients[p]) == clients[p].quota
  {
    SumBelow(clients, Wrote, Quota);
    SumBelow(clients, Quota, Wrote);
    forall p | 0 <= p < |clients| ensures Wrote(clients[p]) == clients[p].quota {
      assert clients[p] in clients;
    }
  }

  lemma {:induction false} QuotasStay(s0: State, schedule: seq<Process>)
    ensures forall p :: 0 <= p < |s0.clients| ==> Exec(s0, schedule).clients[p].quota == s0.clients[p].quota
    decreases |schedule|
  {
    if schedule == [] {
    } else {
      QuotasStay(s0, schedule[..|schedule| - 1]);
      var s, q := Exec(s0, schedule[..|schedule| - 1]), schedule[|schedule| - 1];
      if q.Sender? && q.id < |s.clients| {
        ClientFrame(s, q.id);
      }
    }
  }

  // ---------------------------------------------------------------------------------------------
  // The programs, in place
  // ---------------------------------------------------------------------------------------------

  /** The semaphore set, the segment and the processes. */
  class System {
    var sem0: nat
    var sem1: nat
    var segment: Segment
    var clients: seq<Client>
    var server: ServerPc
    var received: nat
    const expected: nat
    var copied: Segment
    var log: seq<Segment>
    ghost var written: seq<Message>

    ghost function Model(): State
      reads this
    {
      State(sem0, sem1, segment, clients, server, received, expected, copied, log, written)
    }

    ghost predicate Valid()
      reads this
    {
      Inv(Model())
    }

    ghost predicate At(p: nat, pc: ClientPc)
      reads this
    {
      Valid() && p < |clients| && clients[p].pc == pc
    }

    /** Both semaphores are set to zero before the server announces itself. */
    constructor (expected: nat, quotas: seq<nat>)
      ensures Valid() && Init(Model()) && this.expected == expected
      ensures |clients| == |quotas| && forall p :: 0 <= p < |quotas| ==> clients[p].quota == quotas[p]
    {
      this.expected := expected;
      sem0, sem1, segment := 0, 0, Torn;
      clients := seq(|quotas|, p requires 0 <= p < |quotas| => Client.Client(Acquire, 0, quotas[p]));
      server, received, copied, log, written := Take, 0, Torn, [], [];
      new;
      InitInv(Model());
    }

    /** `semop` {wait 0 for zero, wait 1 for zero, 0 += 1} */
    method AcquireSegment(p: nat)
      requires At(p, Acquire)
      modifies this`sem0, this`clients
      ensures Valid() && Model() == ClientStep(old(Model()), p)
    {
      ClientInv(Model(), p);
      var c := clients[p];
      if c.sent < c.quota {
        if server == Removed {
          clients := clients[p := c.(pc := FailedEarly)];
        } else if sem0 == 0 && sem1 == 0 {
          sem0 := sem0 + 1;
          clients := clients[p := c.(pc := BeginWrite)];
        }
      }
    }

    /** The first half of `snprintf` into the segment */
    method StartWrite(p: nat)
      requires At(p, BeginWrite)
      modifies this`segment, this`clients
      ensures Valid() && Model() == ClientStep(old(Model()), p)
    {
      ClientInv(Model(), p);
      segment := Torn;
      clients := clients[p := clients[p].(pc := EndWrite)];
    }

    /** The second half of `snprintf` */
    method FinishWrite(p: nat)
      requires At(p, EndWrite)
      modifies this`segment, this`clients, this`written
      ensures Valid() && Model() == ClientStep(old(Model()), p)
    {
      ClientInv(Model(), p);
      var m := Message(p, clients[p].sent);
      segment := Whole(m);
      written := written + [m];
      clients := clients[p := clients[p].(pc := Publish)];
    }

    /** `semop` {0 -= 1, 1 += 1} */
    method PublishMessage(p: nat)
      requires At(p, Publish)
      modifies this`sem0, this`sem1, this`clients
      ensures Valid() && Model() == ClientStep(old(Model()), p)
    {
      ClientInv(Model(), p);
      var c := clients[p];
      if server == Removed {
        clients := clients[p := c.(pc := FailedLate)];
      } else if sem0 > 0 {
        sem0, sem1 := sem0 - 1, sem1 + 1;
        clients := clients[p := c.(pc := Acquire, sent := c.sent + 1)];
      }
    }

    /** The server's loop head: remove the set after the last message, else `semop` {1 -= 1, 0 += 1} */
    method TakeMessage()
      requires Valid() && server == Take
      modifies this`sem0, this`sem1, this`server
      ensures Valid() && Model() == ServerStep(old(Model()))
    {
      ServerInv(Model());
      if received >= expected {
        server := Removed;
      } else if sem1 > 0 {
        sem1, sem0, server := sem1 - 1, sem0 + 1, BeginRead;
      }
    }

    /** `printf` starts to read the segment. */
    method StartRead()
      requires Valid() && server == BeginRead
      modifies this`copied, this`server
      ensures Valid() && Model() == ServerStep(old(Model()))
    {
      ServerInv(Model());
      copied, server := segment, EndRead;
    }

    /** `printf` has read the segment; had it changed meanwhile, the output would be torn. */
    method FinishRead()
      requires Valid() && server == EndRead
      modifies this`log, this`server
      ensures Valid() && Model() == ServerStep(old(Model()))
    {
      ServerInv(Model());
      log := log + [if segment == copied then copied else Torn];
      server := Release;
    }

    /** `semop` {0 -= 1} without waiting: the error return is never taken. */
    method ReleaseSegment()
      requires Valid() && server == Release
      modifies this`sem0, this`received, this`server
      ensures Valid() && Model() == ServerStep(old(Model())) && server == Take
    {
      ServerInv(Model());
      assert Counts(Model()) && sem0 > 0;
      hide Inv, Counts, Contents, Clients;
      sem0, received, server := sem0 - 1, received + 1, Take;
    }
  }
}
