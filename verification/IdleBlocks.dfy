/** Idle blocks of the service pool: a close drops one block at most, so that a pool may end in an idle block. */
module IdleBlocks {
  import opened Counting
  import opened ServicePool

  // ---------------------------------------------------------------------------------------------
  // Few clients: what keeps the last block busy
  // ---------------------------------------------------------------------------------------------

  /** A service that is busy for ever: the reply that announced it was refused. */
  ghost predicate Orphan(pool: seq<Status>, clients: seq<Client>, i: nat) {
    i < |pool| && pool[i] == Busy && forall c :: 0 <= c < |clients| ==> clients[c] != Connected(i)
  }

  ghost predicate HasOrphan(pool: seq<Status>, clients: seq<Client>, lo: nat, n: nat) {
    exists i :: lo <= i < lo + n && Orphan(pool, clients, i)
  }

  /** Wherever a block could end the pool once the last one goes, there is an orphan. */
  ghost predicate Anchored(s: State) {
    && !LastBlockFree(s.pool, s.block)
    && forall lo: nat :: lo + s.block + s.block <= |s.pool| ==> HasOrphan(s.pool, s.clients, lo, s.block)
  }

  function Interval(lo: nat, n: nat): (r: set<nat>)
    ensures |r| == n && forall i :: i in r <==> lo <= i < lo + n
  {
    if n == 0 then {} else Interval(lo, n - 1) + {lo + n - 1}
  }

  /** More services than connected clients: one of them has no client. */
  lemma {:induction false} Unheld(clients: seq<Client>, n: nat, ids: set<nat>) returns (i: nat)
    requires n <= |clients| && SumTo(clients, n, IsConnected()) < |ids|
    ensures i in ids && forall c :: 0 <= c < n ==> clients[c] != Connected(i)
  {
    if n == 0 {
      i :| i in ids;
    } else if clients[n - 1].Connected? {
      var rest := ids - {clients[n - 1].sid};
      assert ids <= rest + {clients[n - 1].sid};
      assert |rest| + 1 >= |ids|;
      i := Unheld(clients, n - 1, rest);
    } else {
      i := Unheld(clients, n - 1, ids);
    }
  }

  lemma OneOutside(clients: seq<Client>, c: nat)
    requires c < |clients| && clients[c] == Outside
    ensures Sum(clients, IsConnected()) < |clients|
  {
    var full := clients[c := Connected(0)];
    SumUpdate(clients, c, Connected(0), IsConnected());
    SumAtMost(full, IsConnected());
  }

  /** When all services are busy, every stretch as long as a block has an orphan. */
  lemma AllBusyHasOrphan(pool: seq<Status>, clients: seq<Client>, c: nat, lo: nat, n: nat)
    requires c < |clients| <= n && clients[c] == Outside && lo + n <= |pool|
    requires forall i :: 0 <= i < |pool| ==> pool[i] == Busy
    ensures HasOrphan(pool, clients, lo, n)
  {
    OneOutside(clients, c);
    var i := Unheld(clients, |clients|, Interval(lo, n));
    assert Orphan(pool, clients, i);
  }

  lemma ConnectAnchored(s: State, c: nat, ok: bool)
    requires Anchored(s) && c < |s.clients| <= s.block
    ensures Anchored(ConnectStep(s, c, ok))
  {
    var t := ConnectStep(s, c, ok);
    if t != s {
      var f := FirstAvailable(s.pool);
      forall lo: nat | lo + s.block + s.block <= |t.pool| ensures HasOrphan(t.pool, t.clients, lo, s.block) {
        if f == |s.pool| {
          AllBusyHasOrphan(s.pool, s.clients, c, lo, s.block);
        }
        assert HasOrphan(s.pool, s.clients, lo, s.block);
        var i: nat :| lo <= i < lo + s.block && Orphan(s.pool, s.clients, i);
        assert Orphan(t.pool, t.clients, i);
      }
      LastStaysBusy(s.pool, s.block);
    }
  }

  lemma LastStaysBusy(pool: seq<Status>, block: nat)
    requires !LastBlockFree(pool, block) && block > 0
    ensures !LastBlockFree(AfterConnect(pool, block), block)
  {
    var f, after := FirstAvailable(pool), AfterConnect(pool, block);
    if f == |pool| {
      assert after[|pool|] == Busy;
    } else if |pool| > block {
      var i :| |pool| - block <= i < |pool| && pool[i] != Available;
      assert after[i] == Busy;
    }
  }

  lemma FreedHasOrphan(s: State, c: nat, lo: nat)
    requires c < |s.clients| && s.clients[c].Connected? && s.clients[c].sid < |s.pool|
    requires HasOrphan(s.pool, s.clients, lo, s.block)
    ensures HasOrphan(s.pool[s.clients[c].sid := Available], s.clients[c := Outside], lo, s.block)
  {
    var i: nat :| lo <= i < lo + s.block && Orphan(s.pool, s.clients, i);
    assert Orphan(s.pool[s.clients[c].sid := Available], s.clients[c := Outside], i);
  }

  lemma ShorterHasOrphan(pool: seq<Status>, clients: seq<Client>, n: nat, lo: nat, block: nat)
    requires HasOrphan(pool, clients, lo, block) && lo + block <= n <= |pool|
    ensures HasOrphan(pool[..n], clients, lo, block)
    ensures exists i :: lo <= i < lo + block && pool[..n][i] == Busy
  {
    var i: nat :| lo <= i < lo + block && Orphan(pool, clients, i);
    assert Orphan(pool[..n], clients, i) && pool[..n][i] == Busy;
  }

  lemma CloseAnchored(s: State, c: nat)
    requires Anchored(s) && c < |s.clients|
    ensures Anchored(CloseStep(s, c))
  {
    var t := CloseStep(s, c);
    if t != s {
      var freed := s.pool[s.clients[c].sid := Available];
      hide HasOrphan;
      forall lo: nat | lo + s.block + s.block <= |s.pool| ensures HasOrphan(freed, t.clients, lo, s.block) {
        FreedHasOrphan(s, c, lo);
      }
      if LastBlockFree(freed, s.block) {
        forall lo: nat | lo + s.block <= |t.pool| ensures HasOrphan(t.pool, t.clients, lo, s.block) {
          ShorterHasOrphan(freed, t.clients, |t.pool|, lo, s.block);
        }
        if |t.pool| >= s.block {
          ShorterHasOrphan(freed, t.clients, |t.pool|, |t.pool| - s.block, s.block);
        }
      }
    }
  }

  lemma StepAnchored(s: State, a: Action)
    requires Anchored(s) && |s.clients| <= s.block
    ensures Anchored(Step(s, a)) && |Step(s, a).clients| == |s.clients| && Step(s, a).block == s.block
  {
    match a
    case Connect(c, ok) => if c < |s.clients| { ConnectAnchored(s, c, ok); }
    case Close(c) => if c < |s.clients| { CloseAnchored(s, c); }
    case _ =>
  }

  lemma {:induction false} ExecAnchored(s0: State, schedule: seq<Action>)
    requires Init(s0) && |s0.clients| <= s0.block
    ensures var s := Exec(s0, schedule); Anchored(s) && |s.clients| == |s0.clients| && s.block == s0.block
    decreases |schedule|
  {
    if schedule == [] {
    } else {
      ExecAnchored(s0, schedule[..|schedule| - 1]);
      StepAnchored(Exec(s0, schedule[..|schedule| - 1]), schedule[|schedule| - 1]);
    }
  }

  // ---------------------------------------------------------------------------------------------
  // More clients than a block has services: a run
  // ---------------------------------------------------------------------------------------------

  /** The first block is lost; of the next services the first `m` have been closed, and the third block has
      only one that is busy. */
  ghost predicate Closing(s: State, m: nat) {
    && s.server == Listening && s.block > 0 && m <= s.block < |s.clients| && |s.pool| == 3 * s.block
    && (forall i :: 0 <= i < |s.pool| ==>
          s.pool[i] == if i < s.block || s.block + m <= i <= 2 * s.block then Busy else Available)
    && (forall c :: m <= c <= s.block ==> s.clients[c] == Connected(s.block + c))
  }

  lemma ThreeBlocks(s: State)
    requires Filled(s, s.block, s.block + 1)
    ensures Closing(s, 0)
  {
    var b := s.block;
    assert RoundUp(b + b + 1, b) == b + RoundUp(b + 1, b);
    assert RoundUp(b + 1, b) == b + RoundUp(1, b);
    assert RoundUp(1, b) == b;
  }

  lemma CloseNext(s: State, m: nat)
    requires Closing(s, m) && m < s.block
    ensures Closing(Step(s, Close(m)), m + 1) && Step(s, Close(m)).block == s.block
  {
    var freed := s.pool[s.block + m := Available];
    assert s.clients[m] == Connected(s.block + m);
    assert freed[2 * s.block] == Busy;
  }

  /** The last client leaves: its block goes, and the one before it stays idle. */
  lemma CloseLast(s: State)
    requires Closing(s, s.block)
    ensures LastBlockFree(Step(s, Close(s.block)).pool, s.block) && Step(s, Close(s.block)).block == s.block
  {
    var freed := s.pool[2 * s.block := Available];
    assert s.clients[s.block] == Connected(2 * s.block);
    assert LastBlockFree(freed, s.block);
  }

  lemma {:induction false} CloseUpTo(s0: State, m: nat) returns (schedule: seq<Action>)
    requires Init(s0) && |s0.clients| > s0.block && m <= s0.block
    ensures var s := Exec(s0, schedule); Closing(s, m) && s.block == s0.block
  {
    if m == 0 {
      schedule := Connects(s0.block, s0.block + 1);
      ConnectAll(s0, s0.block, s0.block + 1);
      ThreeBlocks(Exec(s0, schedule));
    } else {
      schedule := CloseUpTo(s0, m - 1);
      hide Exec, Step, Closing;
      ExecSnoc(s0, schedule, Close(m - 1));
      CloseNext(Exec(s0, schedule), m - 1);
      schedule := schedule + [Close(m - 1)];
    }
  }

  /** Three blocks are filled; the second is given back, then the third. */
  lemma IdleBlockStays(s0: State) returns (schedule: seq<Action>)
    requires Init(s0) && |s0.clients| > s0.block
    ensures LastBlockFree(Exec(s0, schedule).pool, s0.block)
  {
    schedule := CloseUpTo(s0, s0.block);
    hide Exec, Step, Closing;
    ExecSnoc(s0, schedule, Close(s0.block));
    CloseLast(Exec(s0, schedule));
    schedule := schedule + [Close(s0.block)];
  }

  /** No run leaves an idle block at the end of the pool, so that a close undoes a connect in every run, if and
      only if there are no more clients than a block has services. */
  lemma IdleBlockGoesExactly(s0: State)
    requires Init(s0)
    ensures (forall schedule :: !LastBlockFree(Exec(s0, schedule).pool, s0.block)) <==> |s0.clients| <= s0.block
  {
    if |s0.clients| <= s0.block {
      forall schedule ensures !LastBlockFree(Exec(s0, schedule).pool, s0.block) {
        ExecAnchored(s0, schedule);
      }
    } else {
      var schedule := IdleBlockStays(s0);
      assert LastBlockFree(Exec(s0, schedule).pool, s0.block);
    }
  }
}
