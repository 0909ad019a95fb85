/** The shops of 35_pthread_mutex/pthread_shops: buyers empty the shelves and one loader refills them, each
    inside a shop only with its door locked; the loader stops after a scan of the buyers' flags that takes
    no lock.  Every access to a shelf, a door or a flag is one atomic step. */
module Shops {
  import opened Counting

  datatype Door = Free | ByBuyer(id: nat) | ByLoader

  datatype Shop = Shop(load: nat, door: Door)

  datatype BuyerPc = TryDoor | Look | Pay | EmptyShelf | Leave | Decide | Home

  /** `at` is the loop index, `paid` the goods in the bag that are still on the shelf. */
  datatype Buyer = Buyer(pc: BuyerPc, at: nat, bag: nat, paid: nat)

  datatype LoaderPc = TryShop | ReadShelf | WriteShelf | CloseDoor | NextShop | Scan | Stopped

  datatype Loader = Loader(pc: LoaderPc, at: nat, shelf: nat, scanned: nat, allSatisfied: bool)

  /** `goods` is what a shop starts with and a delivery brings, `need` what satisfies a buyer. */
  datatype State = State(
    shops: seq<Shop>, buyers: seq<Buyer>, satisfaction: seq<bool>, loader: Loader,
    goods: nat, need: nat,
    deliveries: nat)      // history: completed refills

  datatype Thread = BuyerThread(id: nat) | LoaderThread

  // ---------------------------------------------------------------------------------------------
  // Steps
  // ---------------------------------------------------------------------------------------------

  function SetDoor(s: State, i: nat, door: Door): State
    requires i < |s.shops|
  {
    s.(shops := s.shops[i := s.shops[i].(door := door)])
  }

  function SetLoad(s: State, i: nat, load: nat): State
    requires i < |s.shops|
  {
    s.(shops := s.shops[i := s.shops[i].(load := load)])
  }

  function SetBuyer(s: State, b: nat, x: Buyer): State
    requires b < |s.buyers|
  {
    s.(buyers := s.buyers[b := x])
  }

  predicate WellFormed(s: State) {
    && |s.shops| >= 1 && |s.satisfaction| == |s.buyers|
    && (forall b :: 0 <= b < |s.buyers| ==> s.buyers[b].at < |s.shops|)
    && s.loader.at < |s.shops|
    && s.loader.scanned <= |s.buyers|
  }

  function BuyerStep(s: State, b: nat): State
    requires WellFormed(s) && b < |s.buyers|
  {
    var x := s.buyers[b];
    var shop := s.shops[x.at];
    match x.pc
    case TryDoor =>
      if shop.door == Free then SetBuyer(SetDoor(s, x.at, ByBuyer(b)), b, x.(pc := Look))
      else SetBuyer(s, b, x.(pc := Decide))
    case Look => SetBuyer(s, b, x.(pc := if shop.load > 0 then Pay else Leave))
    case Pay => SetBuyer(s, b, x.(pc := EmptyShelf, bag := x.bag + shop.load, paid := shop.load))
    case EmptyShelf => SetBuyer(SetLoad(s, x.at, 0), b, x.(pc := Leave, paid := 0))
    case Leave => SetBuyer(SetDoor(s, x.at, Free), b, x.(pc := Decide))
    case Decide =>
      if x.bag >= s.need then SetBuyer(s, b, x.(pc := Home)).(satisfaction := s.satisfaction[b := true])
      else SetBuyer(s, b, x.(pc := TryDoor, at := if x.at + 1 < |s.shops| then x.at + 1 else 0))
    case Home => s
  }

  function LoaderStep(s: State): State
    requires WellFormed(s)
  {
    var l := s.loader;
    var shop := s.shops[l.at];
    match l.pc
    case TryShop =>
      if shop.door == Free then SetDoor(s, l.at, ByLoader).(loader := l.(pc := ReadShelf))
      else s.(loader := l.(pc := NextShop))
    case ReadShelf => s.(loader := l.(pc := WriteShelf, shelf := shop.load))
    case WriteShelf =>
      SetLoad(s, l.at, l.shelf + s.goods).(loader := l.(pc := CloseDoor), deliveries := s.deliveries + 1)
    case CloseDoor => SetDoor(s, l.at, Free).(loader := l.(pc := NextShop))
    case NextShop =>
      if l.at + 1 < |s.shops| then s.(loader := l.(pc := TryShop, at := l.at + 1))
      else s.(loader := l.(pc := Scan, scanned := 0, allSatisfied := true))
    case Scan =>
      if l.scanned < |s.buyers| then
        s.(loader := l.(scanned := l.scanned + 1, allSatisfied := l.allSatisfied && s.satisfaction[l.scanned]))
      else if l.allSatisfied then s.(loader := l.(pc := Stopped))
      else s.(loader := l.(pc := TryShop, at := 0))
    case Stopped => s
  }

  function Step(s: State, t: Thread): (r: State)
    requires WellFormed(s)
    ensures WellFormed(r)
  {
    match t
    case BuyerThread(id) => if id < |s.buyers| then BuyerStep(s, id) else s
    case LoaderThread => LoaderStep(s)
  }

  function Exec(s: State, schedule: seq<Thread>): (r: State)
    requires WellFormed(s)
    ensures WellFormed(r)
    decreases |schedule|
  {
    if schedule == [] then s
    else Step(Exec(s, schedule[..|schedule| - 1]), schedule[|schedule| - 1])
  }

  ghost predicate Init(s: State) {
    && WellFormed(s)
    && s.deliveries == 0
    && (forall i :: 0 <= i < |s.shops| ==> s.shops[i] == Shop(s.goods, Free))
    && (forall b :: 0 <= b < |s.buyers| ==> s.buyers[b] == Buyer(TryDoor, 0, 0, 0) && !s.satisfaction[b])
    && s.loader.pc == TryShop && s.loader.at == 0
  }

  // ---------------------------------------------------------------------------------------------
  // The invariant
  // ---------------------------------------------------------------------------------------------

  function Load(x: Shop): nat { x.load }
  function Bag(x: Buyer): nat { x.bag }
  function Paid(x: Buyer): nat { x.paid }

  predicate Inside(x: Buyer) {
    x.pc in {Look, Pay, EmptyShelf, Leave}
  }

  predicate LoaderInside(l: Loader) {
    l.pc in {ReadShelf, WriteShelf, CloseDoor}
  }

  /** What `n` loads of `goods` come to. */
  function Loads(goods: nat, n: nat): nat {
    if n == 0 then 0 else Loads(goods, n - 1) + goods
  }

  lemma {:induction false} LoadsIsProduct(goods: nat, n: nat)
    ensures Loads(goods, n) == goods * n
  {
    if n == 0 {
    } else {
      LoadsIsProduct(goods, n - 1);
    }
  }

  /** Whoever is inside a shop holds its door, and nobody else touches the shelf meanwhile. */
  ghost predicate Doors(s: State)
    requires WellFormed(s)
  {
    && (forall b :: 0 <= b < |s.buyers| && Inside(s.buyers[b]) ==> s.shops[s.buyers[b].at].door == ByBuyer(b))
    && (forall b :: 0 <= b < |s.buyers| ==>
          s.buyers[b].paid == if s.buyers[b].pc == EmptyShelf then s.shops[s.buyers[b].at].load else 0)
    && (LoaderInside(s.loader) ==> s.shops[s.loader.at].door == ByLoader)
    && (s.loader.pc == WriteShelf ==> s.loader.shelf == s.shops[s.loader.at].load)
  }

  /** Goods on shelves and in bags are the initial stock and the deliveries, except that goods paid for
      inside a locked shop are counted twice until the shelf is emptied. */
  ghost predicate Conserved(s: State) {
    Sum(s.shops, Load) + Sum(s.buyers, Bag) == Loads(s.goods, |s.shops| + s.deliveries) + Sum(s.buyers, Paid)
  }

  /** Flags never lie, and a scan that is still favourable has seen only true flags. */
  ghost predicate Flags(s: State)
    requires WellFormed(s)
  {
    && (forall b :: 0 <= b < |s.buyers| ==> (s.satisfaction[b] <==> s.buyers[b].pc == Home))
    && (forall b :: 0 <= b < |s.buyers| && s.satisfaction[b] ==> s.buyers[b].bag >= s.need)
    && (s.loader.pc == Scan && s.loader.allSatisfied ==> forall b :: 0 <= b < s.loader.scanned ==> s.satisfaction[b])
    && (s.loader.pc == Stopped ==> forall b :: 0 <= b < |s.buyers| ==> s.satisfaction[b])
  }

  ghost predicate Inv(s: State) {
    WellFormed(s) && Doors(s) && Conserved(s) && Flags(s)
  }

  lemma BuyerDoors(s: State, b: nat)
    requires WellFormed(s) && Doors(s) && b < |s.buyers|
    ensures Doors(BuyerStep(s, b))
  {
  }

  lemma LoaderDoors(s: State)
    requires WellFormed(s) && Doors(s)
    ensures Doors(LoaderStep(s))
  {
  }

  lemma BuyerFrame(s: State, b: nat)
    requires WellFormed(s) && b < |s.buyers|
    ensures var t, at := BuyerStep(s, b), s.buyers[b].at;
            t.shops == s.shops[at := t.shops[at]] && t.buyers == s.buyers[b := t.buyers[b]]
                  && t.deliveries == s.deliveries
  {
  }

  lemma BuyerConserves(s: State, b: nat)
    requires WellFormed(s) && Doors(s) && Conserved(s) && b < |s.buyers|
    ensures Conserved(BuyerStep(s, b))
  {
    var t := BuyerStep(s, b);
    var at := s.buyers[b].at;
    BuyerFrame(s, b);
    SumUpdate(s.shops, at, t.shops[at], Load);
    SumUpdate(s.buyers, b, t.buyers[b], Bag);
    SumUpdate(s.buyers, b, t.buyers[b], Paid);
  }

  lemma LoaderConserves(s: State)
    requires WellFormed(s) && Doors(s) && Conserved(s)
    ensures Conserved(LoaderStep(s))
  {
    var t := LoaderStep(s);
    var at := s.loader.at;
    assert t.shops == s.shops[at := t.shops[at]];
    SumUpdate(s.shops, at, t.shops[at], Load);
  }

  lemma BuyerFlags(s: State, b: nat)
    requires WellFormed(s) && Flags(s) && b < |s.buyers|
    ensures Flags(BuyerStep(s, b))
  {
  }

  lemma LoaderFlags(s: State)
    requires WellFormed(s) && Flags(s)
    ensures Flags(LoaderStep(s))
  {
  }

  lemma StepInv(s: State, t: Thread)
    requires Inv(s)
    ensures Inv(Step(s, t))
  {
    match t
    case BuyerThread(id) =>
      if id < |s.buyers| {
        BuyerDoors(s, id);
        BuyerConserves(s, id);
        BuyerFlags(s, id);
      }
    case LoaderThread =>
      LoaderDoors(s);
      LoaderConserves(s);
      LoaderFlags(s);
  }

  lemma {:induction false} SumConstant<T>(s: seq<T>, n: nat, f: T -> nat, k: nat)
    requires n <= |s| && forall i :: 0 <= i < n ==> f(s[i]) == k
    ensures SumTo(s, n, f) == Loads(k, n)
  {
    if n == 0 {
    } else {
      SumConstant(s, n - 1, f, k);
    }
  }

  lemma {:induction false} SumAtLeast<T>(s: seq<T>, n: nat, f: T -> nat, k: nat)
    requires n <= |s| && forall i :: 0 <= i < n ==> f(s[i]) >= k
    ensures SumTo(s, n, f) >= Loads(k, n)
  {
    if n == 0 {
    } else {
      SumAtLeast(s, n - 1, f, k);
    }
  }

  lemma InitInv(s: State)
    requires Init(s)
    ensures Inv(s)
  {
    SumConstant(s.shops, |s.shops|, Load, s.goods);
    SumZero(s.buyers, Bag);
    SumZero(s.buyers, Paid);
  }

  lemma {:induction false} ExecInv(s: State, schedule: seq<Thread>)
    requires Init(s)
    ensures Inv(Exec(s, schedule))
    ensures var r := Exec(s, schedule);
            && |r.shops| == |s.shops| && |r.buyers| == |s.buyers| && r.goods == s.goods && r.need == s.need
    decreases |schedule|
  {
    if schedule == [] {
      InitInv(s);
    } else {
      var before := schedule[..|schedule| - 1];
      ExecInv(s, before);
      StepInv(Exec(s, before), schedule[|schedule| - 1]);
      StepKeepsSizes(Exec(s, before), schedule[|schedule| - 1]);
    }
  }

  lemma StepKeepsSizes(s: State, t: Thread)
    requires WellFormed(s)
    ensures var r := Step(s, t);
            && |r.shops| == |s.shops| && |r.buyers| == |s.buyers| && r.goods == s.goods && r.need == s.need
  {
  }

  // ---------------------------------------------------------------------------------------------
  // Every run
  // ---------------------------------------------------------------------------------------------

  /** At most one person is in a shop. */
  lemma OnePersonPerShop(s0: State, schedule: seq<Thread>, a: nat, b: nat)
    requires Init(s0)
    requires var s := Exec(s0, schedule); a < |s.buyers| && b < |s.buyers| && Inside(s.buyers[a])
    ensures var s := Exec(s0, schedule);
            && (Inside(s.buyers[b]) && s.buyers[a].at == s.buyers[b].at ==> a == b)
            && (LoaderInside(s.loader) ==> s.loader.at != s.buyers[a].at)
  {
    ExecInv(s0, schedule);
  }

  /** Goods are conserved, up to the amounts in transfer, each of which still sits on the shelf of a shop
      whose door that buyer holds. */
  lemma GoodsConserved(s0: State, schedule: seq<Thread>)
    requires Init(s0)
    ensures var s := Exec(s0, schedule);
            && Sum(s.shops, Load) + Sum(s.buyers, Bag) ==
                 s0.goods * (|s0.shops| + s.deliveries) + Sum(s.buyers, Paid)
            && forall b :: 0 <= b < |s.buyers| && s.buyers[b].paid > 0 ==>
                 && s.shops[s.buyers[b].at].door == ByBuyer(b)
                 && s.shops[s.buyers[b].at].load == s.buyers[b].paid
  {
    hide Exec;
    ExecInv(s0, schedule);
    LoadsIsProduct(s0.goods, |s0.shops| + Exec(s0, schedule).deliveries);
  }

  lemma AllHome(s0: State, schedule: seq<Thread>)
    requires Init(s0) && Exec(s0, schedule).loader.pc == Stopped
    ensures forall x :: x in Exec(s0, schedule).buyers ==> x.pc == Home && x.bag >= s0.need && x.paid == 0
    ensures |Exec(s0, schedule).buyers| == |s0.buyers|
  {
    ExecInv(s0, schedule);
  }

  /** When the lock-free scan lets the loader return, every buyer has gone home with all it needs, and
      the deliveries made that possible. */
  lemma LoaderStopsOnlyWhenAllSatisfied(s0: State, schedule: seq<Thread>)
    requires Init(s0) && Exec(s0, schedule).loader.pc == Stopped
    ensures var s := Exec(s0, schedule);
            && (forall x :: x in s.buyers ==> x.pc == Home && x.bag >= s0.need)
            && Sum(s.shops, Load) + Sum(s.buyers, Bag) == s0.goods * (|s0.shops| + s.deliveries)
            && s0.need * |s0.buyers| <= s0.goods * (|s0.shops| + s.deliveries)
  {
    var s := Exec(s0, schedule);
    GoodsConserved(s0, schedule);
    AllHome(s0, schedule);
    SumZero(s.buyers, Paid);
    SumAtLeast(s.buyers, |s.buyers|, Bag, s0.need);
    LoadsIsProduct(s0.need, |s0.buyers|);
  }

  /** With the program's constants, at least 25 deliveries have been made by then. */
  lemma AtLeast25Deliveries(s0: State, schedule: seq<Thread>)
    requires Init(s0) && Exec(s0, schedule).loader.pc == Stopped
    requires |s0.shops| == 5 && |s0.buyers| == 3 && s0.need == 10000 && s0.goods == 1000
    ensures Exec(s0, schedule).deliveries >= 25
  {
    LoaderStopsOnlyWhenAllSatisfied(s0, schedule);
  }

  /** The most turns that the loader still takes once every flag is set: five a shop, one a flag and one to
      decide; a scan that has already met an unset flag is wasted. */
  function LoaderWork(s: State): nat
    requires WellFormed(s)
  {
    var scan, l := |s.buyers| + 1, s.loader;
    var fromHere := 5 * (|s.shops| - l.at) + scan;
    match l.pc
    case TryShop => fromHere
    case ReadShelf => fromHere - 1
    case WriteShelf => fromHere - 2
    case CloseDoor => fromHere - 3
    case NextShop => fromHere - 4
    case Scan => scan - l.scanned + if l.allSatisfied then 0 else 5 * |s.shops| + scan
    case Stopped => 0
  }

  ghost predicate AllSatisfied(s: State)
    requires WellFormed(s)
  {
    forall b :: 0 <= b < |s.buyers| ==> s.satisfaction[b]
  }

  predicate LastScan(l: Loader) {
    l.pc == Stopped || (l.pc == Scan && l.allSatisfied)
  }

  lemma LoaderWorks(s: State)
    requires WellFormed(s) && AllSatisfied(s)
    ensures var t := LoaderStep(s);
            && WellFormed(t) && AllSatisfied(t)
            && (s.loader.pc == Stopped ==> t == s)
            && (s.loader.pc != Stopped ==> LoaderWork(t) < LoaderWork(s))
            && (LastScan(s.loader) && s.loader.pc != Stopped ==>
                  LastScan(t.loader) && LoaderWork(t) == LoaderWork(s) - 1)
  {
  }

  lemma BuyersChangeNothing(s: State, b: nat)
    requires WellFormed(s) && AllSatisfied(s) && b < |s.buyers|
    ensures var t := BuyerStep(s, b);
            WellFormed(t) && AllSatisfied(t) && t.loader == s.loader && LoaderWork(t) == LoaderWork(s)
  {
  }

  /** Once everybody is satisfied the loader stops, from wherever it is, after at most `LoaderWork` turns of
      its own, whatever the buyers do in between; and after exactly so many if it is on its last scan. */
  lemma {:induction false} SatisfiedScanStops(s: State, schedule: seq<Thread>)
    requires WellFormed(s) && AllSatisfied(s)
    ensures var t := Exec(s, schedule);
            && AllSatisfied(t)
            && (t.loader.pc == Stopped || LoaderWork(t) + Turns(schedule) <= LoaderWork(s))
            && (Turns(schedule) >= LoaderWork(s) ==> t.loader.pc == Stopped)
            && (LastScan(s.loader) ==>
                  && LastScan(t.loader) && (t.loader.pc == Stopped <==> Turns(schedule) >= LoaderWork(s))
                  && (t.loader.pc != Stopped ==> LoaderWork(t) + Turns(schedule) == LoaderWork(s)))
    decreases |schedule|
  {
    if schedule == [] {
    } else {
      var before, t := schedule[..|schedule| - 1], schedule[|schedule| - 1];
      SatisfiedScanStops(s, before);
      if t == LoaderThread {
        LoaderWorks(Exec(s, before));
      } else if t.id < |Exec(s, before).buyers| {
        BuyersChangeNothing(Exec(s, before), t.id);
      }
      WorkIsPositive(Exec(s, schedule));
      hide LoaderWork, AllSatisfied, LoaderStep, BuyerStep;
    }
  }

  lemma WorkIsPositive(s: State)
    requires WellFormed(s)
    ensures s.loader.pc == Stopped <==> LoaderWork(s) == 0
  {
  }

  /** How often the loader runs in a schedule. */
  function Turns(schedule: seq<Thread>): nat
    decreases |schedule|
  {
    if schedule == [] then 0
    else Turns(schedule[..|schedule| - 1]) + if schedule[|schedule| - 1] == LoaderThread then 1 else 0
  }

  // ---------------------------------------------------------------------------------------------
  // The program, in place
  // ---------------------------------------------------------------------------------------------

  /** The global arrays and the threads of `main`. */
  class Street {
    var shops: array<Shop>
    var satisfaction: array<bool>
    var buyers: seq<Buyer>
    var loader: Loader
    const goods: nat
    const need: nat
    ghost var deliveries: nat

    ghost function Model(): State
      reads this, shops, satisfaction
    {
      State(shops[..], buyers, satisfaction[..], loader, goods, need, deliveries)
    }

    ghost predicate Valid()
      reads this, shops, satisfaction
    {
      shops as object != satisfaction && Inv(Model())
    }

    constructor (shopCount: nat, buyerCount: nat, goods: nat, need: nat)
      requires shopCount >= 1
      ensures Valid() && Init(Model()) && fresh(shops) && fresh(satisfaction)
      ensures shops.Length == shopCount && |buyers| == buyerCount && this.goods == goods && this.need == need
    {
      shops := new Shop[shopCount](_ => Shop(goods, Free));
      satisfaction := new bool[buyerCount](_ => false);
      buyers := seq(buyerCount, _ => Buyer(TryDoor, 0, 0, 0));
      loader := Loader(TryShop, 0, 0, 0, true);
      this.goods, this.need := goods, need;
      deliveries := 0;
      new;
      InitInv(Model());
    }

    /** A buyer tries the door of the next shop. */
    method TryToEnter(b: nat)
      requires Valid() && b < |buyers| && buyers[b].pc == TryDoor
      modifies shops, this`buyers
      ensures Valid() && Model() == BuyerStep(old(Model()), b)
    {
      assert WellFormed(Model()) && buyers[b].at < shops.Length && b < satisfaction.Length;
      hide Inv, WellFormed;
      StepInv(Model(), BuyerThread(b));
      var x := buyers[b];
      var shop := shops[x.at];
      if shop.door == Free {
        shops[x.at] := shop.(door := ByBuyer(b));
        assert shops[..] == old(shops[..])[x.at := shop.(door := ByBuyer(b))];
        buyers := buyers[b := x.(pc := Look)];
      } else {
        buyers := buyers[b := x.(pc := Decide)];
      }
    }

    /** A buyer looks whether there is anything on the shelf. */
    method LookAtShelf(b: nat)
      requires Valid() && b < |buyers| && buyers[b].pc == Look
      modifies this`buyers
      ensures Valid() && Model() == BuyerStep(old(Model()), b)
    {
      assert WellFormed(Model()) && buyers[b].at < shops.Length && b < satisfaction.Length;
      hide Inv, WellFormed;
      StepInv(Model(), BuyerThread(b));
      var x := buyers[b];
      buyers := buyers[b := x.(pc := if shops[x.at].load > 0 then Pay else Leave)];
    }

    /** A buyer puts what is on the shelf in its bag. */
    method TakeGoods(b: nat)
      requires Valid() && b < |buyers| && buyers[b].pc == Pay
      modifies this`buyers
      ensures Valid() && Model() == BuyerStep(old(Model()), b)
    {
      assert WellFormed(Model()) && buyers[b].at < shops.Length && b < satisfaction.Length;
      hide Inv, WellFormed;
      StepInv(Model(), BuyerThread(b));
      ghost var next := BuyerStep(Model(), b);
      var x := buyers[b];
      var load := shops[x.at].load;
      buyers := buyers[b := x.(pc := EmptyShelf, bag := x.bag + load, paid := load)];
      assert satisfaction[..] == next.satisfaction && buyers == next.buyers;
      assert Model() == next;
    }

    /** A buyer sets the shelf to nothing. */
    method ClearShelf(b: nat)
      requires Valid() && b < |buyers| && buyers[b].pc == EmptyShelf
      modifies shops, this`buyers
      ensures Valid() && Model() == BuyerStep(old(Model()), b)
    {
      assert WellFormed(Model()) && buyers[b].at < shops.Length && b < satisfaction.Length;
      hide Inv, WellFormed;
      StepInv(Model(), BuyerThread(b));
      var x := buyers[b];
      shops[x.at] := shops[x.at].(load := 0);
      assert shops[..] == old(shops[..])[x.at := old(shops[x.at]).(load := 0)];
      buyers := buyers[b := x.(pc := Leave, paid := 0)];
    }

    /** A buyer unlocks the door. */
    method LeaveShop(b: nat)
      requires Valid() && b < |buyers| && buyers[b].pc == Leave
      modifies shops, this`buyers
      ensures Valid() && Model() == BuyerStep(old(Model()), b)
    {
      assert WellFormed(Model()) && buyers[b].at < shops.Length && b < satisfaction.Length;
      hide Inv, WellFormed;
      StepInv(Model(), BuyerThread(b));
      var x := buyers[b];
      shops[x.at] := shops[x.at].(door := Free);
      assert shops[..] == old(shops[..])[x.at := old(shops[x.at]).(door := Free)];
      buyers := buyers[b := x.(pc := Decide)];
    }

    /** A buyer that has enough says so and goes home; another goes on to the next shop. */
    method GoHomeOrOn(b: nat)
      requires Valid() && b < |buyers| && buyers[b].pc == Decide
      modifies satisfaction, this`buyers
      ensures Valid() && Model() == BuyerStep(old(Model()), b)
    {
      assert WellFormed(Model()) && buyers[b].at < shops.Length && b < satisfaction.Length;
      hide Inv, WellFormed;
      StepInv(Model(), BuyerThread(b));
      ghost var next := BuyerStep(Model(), b);
      var x := buyers[b];
      if x.bag >= need {
        satisfaction[b] := true;
        x := x.(pc := Home);
      } else {
        x := x.(pc := TryDoor, at := if x.at + 1 < shops.Length then x.at + 1 else 0);
      }
      buyers := buyers[b := x];
      assert satisfaction[..] == next.satisfaction && buyers == next.buyers;
      assert Model() == next;
    }

    /** The loader tries the door of the next shop. */
    method TryToDeliver()
      requires Valid() && loader.pc == TryShop
      modifies shops, this`loader
      ensures Valid() && Model() == LoaderStep(old(Model()))
    {
      assert WellFormed(Model()) && loader.at < shops.Length && loader.scanned <= |buyers| == satisfaction.Length;
      hide Inv, WellFormed;
      StepInv(Model(), LoaderThread);
      var at := loader.at;
      if shops[at].door == Free {
        shops[at] := shops[at].(door := ByLoader);
        assert shops[..] == old(shops[..])[at := old(shops[at]).(door := ByLoader)];
        loader := loader.(pc := ReadShelf);
      } else {
        loader := loader.(pc := NextShop);
      }
    }

    /** The loader reads the load of the shelf. */
    method ReadLoad()
      requires Valid() && loader.pc == ReadShelf
      modifies this`loader
      ensures Valid() && Model() == LoaderStep(old(Model()))
    {
      assert WellFormed(Model()) && loader.at < shops.Length && loader.scanned <= |buyers| == satisfaction.Length;
      hide Inv, WellFormed;
      StepInv(Model(), LoaderThread);
      loader := loader.(pc := WriteShelf, shelf := shops[loader.at].load);
    }

    /** The loader writes what it read and the new goods. */
    method WriteLoad()
      requires Valid() && loader.pc == WriteShelf
      modifies shops, this`loader, this`deliveries
      ensures Valid() && Model() == LoaderStep(old(Model()))
    {
      assert WellFormed(Model()) && loader.at < shops.Length && loader.scanned <= |buyers| == satisfaction.Length;
      hide Inv, WellFormed;
      StepInv(Model(), LoaderThread);
      ghost var next := LoaderStep(Model());
      var at := loader.at;
      shops[at] := shops[at].(load := loader.shelf + goods);
      assert shops[..] == old(shops[..])[at := old(shops[at]).(load := loader.shelf + goods)];
      deliveries := deliveries + 1;
      loader := loader.(pc := CloseDoor);
      assert shops[..] == next.shops && loader == next.loader;
      assert Model() == next;
    }

    /** The loader unlocks the door. */
    method UnlockDoor()
      requires Valid() && loader.pc == CloseDoor
      modifies shops, this`loader
      ensures Valid() && Model() == LoaderStep(old(Model()))
    {
      assert WellFormed(Model()) && loader.at < shops.Length && loader.scanned <= |buyers| == satisfaction.Length;
      hide Inv, WellFormed;
      StepInv(Model(), LoaderThread);
      var at := loader.at;
      shops[at] := shops[at].(door := Free);
      assert shops[..] == old(shops[..])[at := old(shops[at]).(door := Free)];
      loader := loader.(pc := NextShop);
    }

    /** The loader goes on to the next shop, or starts its scan after the last one. */
    method GoOn()
      requires Valid() && loader.pc == NextShop
      modifies this`loader
      ensures Valid() && Model() == LoaderStep(old(Model()))
    {
      assert WellFormed(Model()) && loader.at < shops.Length && loader.scanned <= |buyers| == satisfaction.Length;
      hide Inv, WellFormed;
      StepInv(Model(), LoaderThread);
      ghost var next := LoaderStep(Model());
      if loader.at + 1 < shops.Length {
        loader := loader.(pc := TryShop, at := loader.at + 1);
      } else {
        loader := loader.(pc := Scan, scanned := 0, allSatisfied := true);
      }
      assert shops[..] == next.shops && loader == next.loader;
      assert Model() == next;
    }

    /** The loader reads one flag, or stops or starts again after the last one. */
    method ScanFlag()
      requires Valid() && loader.pc == Scan
      modifies this`loader
      ensures Valid() && Model() == LoaderStep(old(Model()))
    {
      assert WellFormed(Model()) && loader.at < shops.Length && loader.scanned <= |buyers| == satisfaction.Length;
      hide Inv, WellFormed;
      StepInv(Model(), LoaderThread);
      ghost var next := LoaderStep(Model());
      if loader.scanned < |buyers| {
        loader := loader.(scanned := loader.scanned + 1,
                          allSatisfied := loader.allSatisfied && satisfaction[loader.scanned]);
      } else if loader.allSatisfied {
        loader := loader.(pc := Stopped);
      } else {
        loader := loader.(pc := TryShop, at := 0);
      }
      assert shops[..] == next.shops && loader == next.loader;
      assert Model() == next;
    }
  }
}
