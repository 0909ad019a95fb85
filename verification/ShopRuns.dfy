/** What happens in the shops over a run: the order of the doors, a purchase from the look to the door, and that
    everybody can be served. */
module ShopRuns {
  import opened Arithmetic
  import opened Counting
  import opened Shops

  // ---------------------------------------------------------------------------------------------
  // Doors
  // ---------------------------------------------------------------------------------------------

  /** A locked door has somebody behind it. */
  ghost predicate Owned(s: State) {
    forall i :: 0 <= i < |s.shops| ==>
      match s.shops[i].door
      case Free => true
      case ByBuyer(b) => b < |s.buyers| && Inside(s.buyers[b]) && s.buyers[b].at == i
      case ByLoader => LoaderInside(s.loader) && s.loader.at == i
  }

  ghost predicate Good(s: State) {
    Inv(s) && Owned(s)
  }

  lemma BuyerOwned(s: State, b: nat)
    requires Good(s) && b < |s.buyers|
    ensures Owned(BuyerStep(s, b))
  {
  }

  lemma LoaderOwned(s: State)
    requires Good(s)
    ensures Owned(LoaderStep(s))
  {
  }

  lemma StepGood(s: State, t: Thread)
    requires Good(s)
    ensures Good(Step(s, t))
  {
    StepInv(s, t);
    match t
    case BuyerThread(id) => if id < |s.buyers| { BuyerOwned(s, id); }
    case LoaderThread => LoaderOwned(s);
  }

  lemma {:induction false} ExecGood(s: State, schedule: seq<Thread>)
    requires Good(s)
    ensures Good(Exec(s, schedule)) && Alike(s, Exec(s, schedule))
    decreases |schedule|
  {
    if schedule == [] {
    } else {
      ExecGood(s, schedule[..|schedule| - 1]);
      StepGood(Exec(s, schedule[..|schedule| - 1]), schedule[|schedule| - 1]);
      StepKeepsSizes(Exec(s, schedule[..|schedule| - 1]), schedule[|schedule| - 1]);
    }
  }

  predicate Alike(s: State, t: State) {
    |t.shops| == |s.shops| && |t.buyers| == |s.buyers| && t.goods == s.goods && t.need == s.need
  }

  lemma InitGood(s0: State)
    requires Init(s0)
    ensures Good(s0)
  {
    InitInv(s0);
  }

  lemma {:induction false} ExecAppend(s: State, a: seq<Thread>, b: seq<Thread>)
    requires WellFormed(s)
    ensures Exec(s, a + b) == Exec(Exec(s, a), b)
    decreases |b|
  {
    if b == [] {
      assert a + b == a;
    } else {
      var front := b[..|b| - 1];
      assert (a + b)[..|a + b| - 1] == a + front;
      ExecAppend(s, a, front);
    }
  }

  // ---------------------------------------------------------------------------------------------
  // A purchase
  // ---------------------------------------------------------------------------------------------

  /** How often buyer `b` runs in a schedule. */
  function TurnsOf(schedule: seq<Thread>, b: nat): nat
    decreases |schedule|
  {
    if schedule == [] then 0
    else TurnsOf(schedule[..|schedule| - 1], b) + if schedule[|schedule| - 1] == BuyerThread(b) then 1 else 0
  }

  /** Where a buyer is so many turns after it looked: a full shelf is paid for and emptied, an empty one left. */
  function PlaceAfter(load: nat, turns: nat): BuyerPc {
    if turns == 0 then Look
    else if load == 0 then if turns == 1 then Leave else Decide
    else if turns == 1 then Pay else if turns == 2 then EmptyShelf else if turns == 3 then Leave else Decide
  }

  function Visit(load: nat): nat {
    if load == 0 then 2 else 4
  }

  /** A buyer with bag `bag` that looked at a shelf with `load` on it, `turns` turns later. */
  predicate Buying(shops: seq<Shop>, x: Buyer, b: nat, at: nat, bag: nat, load: nat, turns: nat)
    requires at < |shops|
  {
    && x.at == at && x.pc == PlaceAfter(load, turns)
    && x.bag == (if turns < 2 then bag else bag + load)
    && (turns < Visit(load) ==> shops[at].door == ByBuyer(b) && shops[at].load == if turns < 3 then load else 0)
  }

  lemma OwnTurn(s: State, b: nat, at: nat, bag: nat, load: nat, turns: nat)
    requires Good(s) && b < |s.buyers| && at < |s.shops| && turns < Visit(load)
    requires Buying(s.shops, s.buyers[b], b, at, bag, load, turns)
    ensures var t := BuyerStep(s, b);
            b < |t.buyers| && at < |t.shops| && Buying(t.shops, t.buyers[b], b, at, bag, load, turns + 1)
  {
  }

  /** Nobody else touches the shelf behind a locked door, or the buyer. */
  lemma OtherBuyersTurn(s: State, c: nat, b: nat, at: nat)
    requires Good(s) && b < |s.buyers| && at < |s.shops| && c < |s.buyers| && c != b
    ensures var t := BuyerStep(s, c);
            && |t.buyers| == |s.buyers| && |t.shops| == |s.shops| && t.buyers[b] == s.buyers[b]
            && (s.shops[at].door == ByBuyer(b) ==> t.shops[at] == s.shops[at])
  {
    BuyerFrame(s, c);
    assert Inside(s.buyers[c]) ==> s.shops[s.buyers[c].at].door == ByBuyer(c);
    hide Inv, Owned, WellFormed;
  }

  lemma LoadersTurn(s: State, b: nat, at: nat)
    requires Good(s) && b < |s.buyers| && at < |s.shops|
    ensures var t := LoaderStep(s);
            && |t.buyers| == |s.buyers| && |t.shops| == |s.shops| && t.buyers[b] == s.buyers[b]
            && (s.shops[at].door == ByBuyer(b) ==> t.shops[at] == s.shops[at])
  {
    assert LoaderInside(s.loader) ==> s.shops[s.loader.at].door == ByLoader;
    hide Inv, Owned;
  }

  lemma OthersTurn(s: State, t: Thread, b: nat, at: nat)
    requires Good(s) && b < |s.buyers| && at < |s.shops| && t != BuyerThread(b)
    ensures var r := Step(s, t);
            && |r.buyers| == |s.buyers| && |r.shops| == |s.shops| && r.buyers[b] == s.buyers[b]
            && (s.shops[at].door == ByBuyer(b) ==> r.shops[at] == s.shops[at])
  {
    hide Good;
    match t
    case BuyerThread(c) => if c < |s.buyers| { OtherBuyersTurn(s, c, b, at); }
    case LoaderThread => LoadersTurn(s, b, at);
  }

  lemma {:induction false} BuysOn(s: State, rest: seq<Thread>, b: nat, at: nat, bag: nat, load: nat)
    requires Good(s) && b < |s.buyers| && at < |s.shops| && TurnsOf(rest, b) <= Visit(load)
    requires Buying(s.shops, s.buyers[b], b, at, bag, load, 0)
    ensures var t := Exec(s, rest);
            b < |t.buyers| && at < |t.shops| && Buying(t.shops, t.buyers[b], b, at, bag, load, TurnsOf(rest, b))
    decreases |rest|
  {
    if rest == [] {
    } else {
      var before, a := rest[..|rest| - 1], rest[|rest| - 1];
      BuysOn(s, before, b, at, bag, load);
      ExecGood(s, before);
      hide Good, BuyerStep, LoaderStep, PlaceAfter;
      if a == BuyerThread(b) {
        OwnTurn(Exec(s, before), b, at, bag, load, TurnsOf(before, b));
      } else {
        OthersTurn(Exec(s, before), a, b, at);
      }
    }
  }

  lemma LooksInside(s: State, b: nat)
    requires Good(s) && b < |s.buyers| && s.buyers[b].pc == Look
    ensures s.shops[s.buyers[b].at].door == ByBuyer(b)
  {
  }

  /** In every run, from the look at a shelf with `load` goods on: the buyer has exactly these in its bag after its
      second turn, the shelf is empty after its third, and with the fourth it is out; from an empty shelf it goes
      at once; whatever the others do meanwhile. */
  lemma BuysWhatItSees(s0: State, schedule: seq<Thread>, rest: seq<Thread>, b: nat)
    requires Init(s0) && b < |Exec(s0, schedule).buyers| && Exec(s0, schedule).buyers[b].pc == Look
    requires var s := Exec(s0, schedule); TurnsOf(rest, b) <= Visit(s.shops[s.buyers[b].at].load)
    ensures var s, t, k := Exec(s0, schedule), Exec(s0, schedule + rest), TurnsOf(rest, b);
            var at, load := s.buyers[b].at, s.shops[s.buyers[b].at].load;
            && b < |t.buyers| && at < |t.shops| && t.buyers[b].at == at
            && t.buyers[b].bag == s.buyers[b].bag + (if k < 2 then 0 else load)
            && (k < Visit(load) ==> t.shops[at].load == if k < 3 then load else 0)
            && t.buyers[b].pc == PlaceAfter(load, k)
  {
    var s := Exec(s0, schedule);
    InitGood(s0);
    ExecGood(s0, schedule);
    ExecAppend(s0, schedule, rest);
    LooksInside(s, b);
    hide Good, Exec, Init, WellFormed;
    BuysOn(s, rest, b, s.buyers[b].at, s.buyers[b].bag, s.shops[s.buyers[b].at].load);
  }

  // ---------------------------------------------------------------------------------------------
  // One door after the other
  // ---------------------------------------------------------------------------------------------

  /** How many doors buyer `b` has tried in a run. */
  function Tries(s0: State, schedule: seq<Thread>, b: nat): nat
    requires WellFormed(s0)
    decreases |schedule|
  {
    if schedule == [] then 0
    else
      var before, a := schedule[..|schedule| - 1], schedule[|schedule| - 1];
      var s := Exec(s0, before);
      Tries(s0, before, b)
        + if a == BuyerThread(b) && b < |s.buyers| && s.buyers[b].pc == TryDoor then 1 else 0
  }

  /** Whether buyer `b` is at shop number `tries`, counted round and round. */
  predicate InTurn(x: Buyer, tries: nat, n: nat)
    requires n > 0
  {
    if x.pc == TryDoor then x.at == tries % n else tries > 0 && x.at == (tries - 1) % n
  }

  lemma TurnInTurn(s: State, b: nat, tries: nat)
    requires WellFormed(s) && b < |s.buyers| && InTurn(s.buyers[b], tries, |s.shops|)
    ensures var t := BuyerStep(s, b);
            && b < |t.buyers| && |t.shops| == |s.shops|
            && InTurn(t.buyers[b], if s.buyers[b].pc == TryDoor then tries + 1 else tries, |s.shops|)
  {
    if s.buyers[b].pc != TryDoor {
      NextRemainder(tries - 1, |s.shops|);
    }
  }

  lemma OthersLeaveAlone(s: State, t: Thread, b: nat)
    requires WellFormed(s) && b < |s.buyers| && t != BuyerThread(b)
    ensures var r := Step(s, t); |r.buyers| == |s.buyers| && |r.shops| == |s.shops| && r.buyers[b] == s.buyers[b]
  {
  }

  lemma StartsInTurn(s0: State, b: nat)
    requires Init(s0) && b < |s0.buyers|
    ensures InTurn(s0.buyers[b], 0, |s0.shops|)
  {
    RemainderIsUnique(0, |s0.shops|, 0, 0);
  }

  lemma {:induction false} ExecInTurn(s0: State, schedule: seq<Thread>, b: nat)
    requires Init(s0) && b < |s0.buyers|
    ensures var s := Exec(s0, schedule);
            && |s.buyers| == |s0.buyers| && |s.shops| == |s0.shops|
            && InTurn(s.buyers[b], Tries(s0, schedule, b), |s0.shops|)
    decreases |schedule|
  {
    if schedule == [] {
      StartsInTurn(s0, b);
    } else {
      var before, a := schedule[..|schedule| - 1], schedule[|schedule| - 1];
      var s := Exec(s0, before);
      ExecInTurn(s0, before, b);
      assert Exec(s0, schedule) == Step(s, a) && WellFormed(s);
      assert Tries(s0, schedule, b)
             == Tries(s0, before, b) + if a == BuyerThread(b) && s.buyers[b].pc == TryDoor then 1 else 0;
      hide InTurn, BuyerStep, LoaderStep, Init, WellFormed, Exec, Tries;
      if a == BuyerThread(b) {
        TurnInTurn(s, b, Tries(s0, before, b));
      } else {
        OthersLeaveAlone(s, a, b);
      }
    }
  }

  /** In every run the door that a buyer tries after `k` others is that of shop `k` modulo the number of shops. */
  lemma DoorsInTurn(s0: State, schedule: seq<Thread>, b: nat)
    requires Init(s0) && b < |s0.buyers|
    ensures var s := Exec(s0, schedule);
            && b < |s.buyers|
            && (s.buyers[b].pc == TryDoor ==> s.buyers[b].at == Tries(s0, schedule, b) % |s0.shops|)
  {
    ExecInTurn(s0, schedule, b);
  }

  // ---------------------------------------------------------------------------------------------
  // Everybody can be served
  // ---------------------------------------------------------------------------------------------

  ghost predicate Leads(s: State, t: State) {
    WellFormed(s) && exists rest :: Exec(s, rest) == t
  }

  lemma LeadsSelf(s: State)
    requires WellFormed(s)
    ensures Leads(s, s)
  {
    assert Exec(s, []) == s;
  }

  lemma LeadsOn(s: State, t: State, a: Thread)
    requires Leads(s, t) && WellFormed(t)
    ensures Leads(s, Step(t, a))
  {
    var rest :| Exec(s, rest) == t;
    ExecAppend(s, rest, [a]);
    assert [a][..0] == [];
    assert Exec(t, [a]) == Step(t, a);
    assert Exec(s, rest + [a]) == Step(t, a);
  }

  /** A state of the run in which nobody but the loader may be in a shop. */
  ghost predicate Quiet(s0: State, s: State) {
    && Leads(s0, s) && Good(s) && Alike(s0, s)
    && forall b :: 0 <= b < |s.buyers| ==> !Inside(s.buyers[b])
  }

  /** One step of a run. */
  lemma GoesOn(s0: State, s: State, a: Thread)
    requires Leads(s0, s) && Good(s) && Alike(s0, s)
    ensures var t := Step(s, a); Leads(s0, t) && Good(t) && Alike(s0, t) && Alike(s, t)
  {
    LeadsOn(s0, s, a);
    StepGood(s, a);
    StepKeepsSizes(s, a);
    hide Step, Good, Leads;
  }

  // ---- Out of the shops ----

  function WayOut(pc: BuyerPc): nat {
    match pc
    case Look => 4
    case Pay => 3
    case EmptyShelf => 2
    case Leave => 1
    case _ => 0
  }

  lemma OneStepOut(s: State, b: nat)
    requires WellFormed(s) && b < |s.buyers| && Inside(s.buyers[b])
    ensures var t := BuyerStep(s, b); |t.buyers| == |s.buyers| && WayOut(t.buyers[b].pc) < WayOut(s.buyers[b].pc)
    ensures BuyerStep(s, b).buyers == s.buyers[b := BuyerStep(s, b).buyers[b]]
  {
  }

  lemma {:induction false} GetsOut(s0: State, s: State, b: nat) returns (t: State)
    requires Leads(s0, s) && Good(s) && Alike(s0, s) && b < |s.buyers|
    ensures Leads(s0, t) && Good(t) && Alike(s0, t) && !Inside(t.buyers[b])
    ensures forall c :: 0 <= c < |s.buyers| && c != b ==> t.buyers[c] == s.buyers[c]
    decreases WayOut(s.buyers[b].pc)
  {
    if !Inside(s.buyers[b]) {
      t := s;
    } else {
      GoesOn(s0, s, BuyerThread(b));
      OneStepOut(s, b);
      hide Good, Leads, BuyerStep, WayOut, Inside, WellFormed;
      t := GetsOut(s0, Step(s, BuyerThread(b)), b);
    }
  }

  lemma {:induction false} AllGetOut(s0: State, s: State, n: nat) returns (t: State)
    requires Leads(s0, s) && Good(s) && Alike(s0, s) && n <= |s.buyers|
    ensures Leads(s0, t) && Good(t) && Alike(s0, t)
    ensures forall b :: 0 <= b < n ==> !Inside(t.buyers[b])
  {
    if n == 0 {
      t := s;
    } else {
      t := AllGetOut(s0, s, n - 1);
      hide Good, Leads, Inside;
      t := GetsOut(s0, t, n - 1);
    }
  }

  // ---- The loader comes to a shop ----

  /** The turns that the loader needs to the end of its round. */
  function RoundLeft(s: State): nat
    requires WellFormed(s)
  {
    var l, scan := s.loader, |s.buyers| + 1;
    var here := 5 * (|s.shops| - l.at) + scan;
    match l.pc
    case TryShop => here
    case ReadShelf => here - 1
    case WriteShelf => here - 2
    case CloseDoor => here - 3
    case NextShop => here - 4
    case Scan => scan - l.scanned
    case Stopped => 0
  }

  /** The turns that it needs to try the door of shop `i`. */
  function Away(s: State, i: nat): nat
    requires WellFormed(s) && i < |s.shops|
  {
    var all, scan := 5 * |s.shops|, |s.buyers| + 1;
    var goal := 5 * (|s.shops| - i) + scan;
    if RoundLeft(s) >= goal then RoundLeft(s) - goal else RoundLeft(s) + all + scan - goal
  }

  lemma LoaderComesCloser(s: State, i: nat, b: nat)
    requires Good(s) && i < |s.shops| && b < |s.buyers| && !s.satisfaction[b]
    requires !(s.loader.pc == TryShop && s.loader.at == i)
    ensures var t := LoaderStep(s);
            && t == Step(s, LoaderThread)
            && t.buyers == s.buyers && t.satisfaction == s.satisfaction && |t.shops| == |s.shops|
            && Away(t, i) < Away(s, i)
  {
    assert Flags(s) && Step(s, LoaderThread) == LoaderStep(s);
    hide Good, WellFormed;
  }

  lemma {:induction false} LoaderComes(s0: State, s: State, i: nat, b: nat) returns (t: State)
    requires Quiet(s0, s) && i < |s.shops| && b < |s.buyers| && !s.satisfaction[b]
    ensures Quiet(s0, t) && t.buyers == s.buyers && t.satisfaction == s.satisfaction
    ensures t.loader.pc == TryShop && t.loader.at == i
    decreases Away(s, i)
  {
    if s.loader.pc == TryShop && s.loader.at == i {
      t := s;
    } else {
      LoaderComesCloser(s, i, b);
      GoesOn(s0, s, LoaderThread);
      hide Good, Leads, LoaderStep, Away, WellFormed;
      t := LoaderComes(s0, Step(s, LoaderThread), i, b);
    }
  }

  // ---- It delivers and the buyer buys ----

  lemma FourTurns(s: State, i: nat)
    requires WellFormed(s) && i < |s.shops| && s.loader.pc == TryShop && s.loader.at == i && s.shops[i].door == Free
    ensures var t := LoaderStep(LoaderStep(LoaderStep(LoaderStep(s))));
            && t.buyers == s.buyers && t.satisfaction == s.satisfaction && |t.shops| == |s.shops|
            && t.shops[i] == Shop(s.shops[i].load + s.goods, Free)
  {
    var u := LoaderStep(s);
    assert u.loader.pc == ReadShelf && u.loader.at == i && u.shops[i].load == s.shops[i].load;
    var v := LoaderStep(u);
    assert v.loader.pc == WriteShelf && v.loader.at == i && v.loader.shelf == s.shops[i].load;
    var w := LoaderStep(v);
    assert w.loader.pc == CloseDoor && w.loader.at == i && w.shops[i].load == s.shops[i].load + s.goods;
  }

  /** With the loader in front of a free shop: four turns of its own bring goods. */
  lemma Delivers(s0: State, s: State, i: nat) returns (t: State)
    requires Quiet(s0, s) && i < |s.shops| && s.loader.pc == TryShop && s.loader.at == i
    ensures Quiet(s0, t) && t.buyers == s.buyers && t.satisfaction == s.satisfaction
    ensures t.shops[i].door == Free && t.shops[i].load >= s0.goods
  {
    assert s.shops[i].door == Free;
    FourTurns(s, i);
    hide Good, Leads, LoaderStep;
    GoesOn(s0, s, LoaderThread);
    var u := LoaderStep(s);
    GoesOn(s0, u, LoaderThread);
    var v := LoaderStep(u);
    GoesOn(s0, v, LoaderThread);
    var w := LoaderStep(v);
    GoesOn(s0, w, LoaderThread);
    t := LoaderStep(w);
  }

  lemma {:induction false} BuysOut(s0: State, s: State, b: nat, at: nat, bag: nat, load: nat, turns: nat)
    returns (t: State)
    requires Leads(s0, s) && Good(s) && Alike(s0, s) && b < |s.buyers| && at < |s.shops| && turns <= Visit(load)
    requires Buying(s.shops, s.buyers[b], b, at, bag, load, turns)
    ensures Leads(s0, t) && Good(t) && Alike(s0, t)
    ensures t.buyers == s.buyers[b := t.buyers[b]] && t.satisfaction == s.satisfaction
    ensures t.buyers[b].pc == Decide && t.buyers[b].bag == bag + load
    decreases Visit(load) - turns
  {
    if turns == Visit(load) {
      t := s;
    } else {
      GoesOn(s0, s, BuyerThread(b));
      OwnTurn(s, b, at, bag, load, turns);
      OneStepOut(s, b);
      hide Good, Leads, BuyerStep, Buying;
      t := BuysOut(s0, BuyerStep(s, b), b, at, bag, load, turns + 1);
    }
  }

  lemma Enters(s: State, b: nat)
    requires WellFormed(s) && b < |s.buyers| && s.buyers[b].pc == TryDoor && s.shops[s.buyers[b].at].door == Free
    ensures var t, x := BuyerStep(s, b), s.buyers[b];
            && t.buyers == s.buyers[b := t.buyers[b]] && t.satisfaction == s.satisfaction && |t.shops| == |s.shops|
            && Buying(t.shops, t.buyers[b], b, x.at, x.bag, s.shops[x.at].load, 0)
  {
  }

  /** A buyer at the free door of a shop brings home all that is on the shelf. */
  lemma Buys(s0: State, s: State, b: nat) returns (t: State)
    requires Quiet(s0, s) && b < |s.buyers| && s.buyers[b].pc == TryDoor && s.shops[s.buyers[b].at].door == Free
    ensures Quiet(s0, t) && t.buyers == s.buyers[b := t.buyers[b]] && t.satisfaction == s.satisfaction
    ensures t.buyers[b].pc == Decide && t.buyers[b].bag == s.buyers[b].bag + s.shops[s.buyers[b].at].load
  {
    GoesOn(s0, s, BuyerThread(b));
    Enters(s, b);
    var x := s.buyers[b];
    hide Good, Leads, BuyerStep, Buying, WellFormed;
    t := BuysOut(s0, BuyerStep(s, b), b, x.at, x.bag, s.shops[x.at].load, 0);
  }

  // ---- One buyer after the other goes home ----

  function Missing(bag: nat, need: nat): nat {
    if bag >= need then 0 else need - bag
  }

  lemma Decides(s: State, b: nat)
    requires WellFormed(s) && b < |s.buyers| && s.buyers[b].pc == Decide
    ensures var t := BuyerStep(s, b);
            && |t.buyers| == |s.buyers| && t.buyers == s.buyers[b := t.buyers[b]]
            && t.buyers[b].bag == s.buyers[b].bag
            && t.buyers[b].pc == if s.buyers[b].bag >= s.need then Home else TryDoor
  {
  }

  /** A buyer at a door is served: the loader brings goods there first. */
  lemma BuysOnce(s0: State, s: State, b: nat) returns (t: State)
    requires Quiet(s0, s) && b < |s.buyers| && s.buyers[b].pc == TryDoor
    ensures Quiet(s0, t) && t.buyers == s.buyers[b := t.buyers[b]]
    ensures t.buyers[b].pc == Decide && t.buyers[b].bag >= s.buyers[b].bag + s0.goods
  {
    var at := s.buyers[b].at;
    assert !s.satisfaction[b] && at < |s.shops|;
    hide Good, Leads, Inside;
    t := LoaderComes(s0, s, at, b);
    t := Delivers(s0, t, at);
    t := Buys(s0, t, b);
  }

  lemma {:induction false} GoesHome(s0: State, s: State, b: nat) returns (t: State)
    requires Quiet(s0, s) && b < |s.buyers| && s.buyers[b].pc == Decide && (s0.goods > 0 || s0.need == 0)
    ensures Quiet(s0, t) && t.buyers == s.buyers[b := t.buyers[b]] && t.buyers[b].pc == Home
    decreases Missing(s.buyers[b].bag, s0.need)
  {
    GoesOn(s0, s, BuyerThread(b));
    Decides(s, b);
    hide Good, Leads, BuyerStep;
    t := BuyerStep(s, b);
    if s.buyers[b].bag < s.need {
      t := BuysOnce(s0, t, b);
      t := GoesHome(s0, t, b);
    }
  }

  lemma {:induction false} AllGoHome(s0: State, s: State, n: nat) returns (t: State)
    requires Quiet(s0, s) && n <= |s.buyers| && (s0.goods > 0 || s0.need == 0)
    ensures Quiet(s0, t) && forall b :: 0 <= b < n ==> t.buyers[b].pc == Home
  {
    if n == 0 {
      t := s;
    } else {
      t := AllGoHome(s0, s, n - 1);
      var b := n - 1;
      hide Good, Leads;
      if t.buyers[b].pc == TryDoor {
        t := BuysOnce(s0, t, b);
      }
      if t.buyers[b].pc == Decide {
        t := GoesHome(s0, t, b);
      }
    }
  }

  // ---- The loader stops ----

  function LoaderTurns(n: nat): (schedule: seq<Thread>)
    ensures Turns(schedule) == n
  {
    if n == 0 then []
    else
      var before := LoaderTurns(n - 1);
      assert (before + [LoaderThread])[..|before|] == before;
      before + [LoaderThread]
  }

  predicate Closed(s: State) {
    s.loader.pc == Stopped && forall x :: x in s.buyers ==> x.pc == Home && x.bag >= s.need
  }

  ghost predicate CanClose(s0: State, schedule: seq<Thread>)
    requires WellFormed(s0)
  {
    exists rest :: Closed(Exec(s0, schedule + rest))
  }

  lemma LoaderEnds(s0: State, s: State) returns (t: State)
    requires Leads(s0, s) && Good(s) && forall b :: 0 <= b < |s.buyers| ==> s.buyers[b].pc == Home
    ensures Leads(s0, t) && t.loader.pc == Stopped
  {
    assert AllSatisfied(s);
    var turns := LoaderTurns(LoaderWork(s));
    SatisfiedScanStops(s, turns);
    var rest :| Exec(s0, rest) == s;
    ExecAppend(s0, rest, turns);
    t := Exec(s, turns);
    assert Exec(s0, rest + turns) == t;
  }

  lemma EverybodyServed(s0: State, schedule: seq<Thread>)
    requires Init(s0) && (s0.goods > 0 || s0.need == 0 || s0.buyers == [])
    ensures CanClose(s0, schedule)
  {
    var s := Exec(s0, schedule);
    InitGood(s0);
    ExecGood(s0, schedule);
    LeadsSelf(s);
    var t := AllGetOut(s, s, |s.buyers|);
    if s0.buyers != [] {
      t := AllGoHome(s, t, |s.buyers|);
    }
    t := LoaderEnds(s, t);
    var rest :| Exec(s, rest) == t;
    ExecAppend(s0, schedule, rest);
    AllHome(s0, schedule + rest);
    ExecInv(s0, schedule + rest);
    assert Closed(Exec(s0, schedule + rest));
  }

  /** Every run can be continued until every buyer is home with all it needs and the loader has stopped, if and
      only if a delivery brings something, or nobody needs anything. */
  lemma EverybodyServedExactly(s0: State)
    requires Init(s0)
    ensures (forall schedule :: CanClose(s0, schedule)) <==> s0.goods > 0 || s0.need == 0 || s0.buyers == []
  {
    if s0.goods > 0 || s0.need == 0 || s0.buyers == [] {
      forall schedule ensures CanClose(s0, schedule) {
        EverybodyServed(s0, schedule);
      }
    } else {
      forall rest ensures !Closed(Exec(s0, [] + rest)) {
        NobodyServed(s0, rest);
      }
      assert !CanClose(s0, []);
    }
  }

  lemma NothingIsTooLittle(need: nat, buyers: nat, loads: nat)
    requires need > 0 && buyers > 0
    ensures need * buyers > 0 * loads
  {
    assert need * buyers >= buyers;
  }

  lemma NobodyServed(s0: State, rest: seq<Thread>)
    requires Init(s0) && s0.goods == 0 && s0.need > 0 && s0.buyers != []
    ensures !Closed(Exec(s0, [] + rest))
  {
    NothingIsTooLittle(s0.need, |s0.buyers|, |s0.shops| + Exec(s0, [] + rest).deliveries);
    if Closed(Exec(s0, [] + rest)) {
      LoaderStopsOnlyWhenAllSatisfied(s0, [] + rest);
    }
  }
}
