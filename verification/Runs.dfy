/** Runs of a system under a schedule, one step a time.  A step that is blocked leaves the state as it is. */
module Runs {

  function Run<S, A>(step: (S, A) -> S, s: S, schedule: seq<A>): S
    decreases |schedule|
  {
    if schedule == [] then s
    else step(Run(step, s, schedule[..|schedule| - 1]), schedule[|schedule| - 1])
  }

  lemma {:induction false} RunAppend<S, A>(step: (S, A) -> S, s: S, a: seq<A>, b: seq<A>)
    ensures Run(step, s, a + b) == Run(step, Run(step, s, a), b)
    decreases |b|
  {
    if b == [] {
      assert a + b == a;
    } else {
      var front := b[..|b| - 1];
      assert (a + b)[..|a + b| - 1] == a + front;
      RunAppend(step, s, a, front);
    }
  }

  lemma RunOne<S, A>(step: (S, A) -> S, s: S, a: A)
    ensures Run(step, s, [a]) == step(s, a)
  {
    assert [a][..0] == [];
  }

  /** `n` steps of one process. */
  function Times<S, A>(step: (S, A) -> S, s: S, a: A, n: nat): S {
    if n == 0 then s else step(Times(step, s, a, n - 1), a)
  }

  lemma TwoTimes<S, A>(step: (S, A) -> S, s: S, a: A)
    ensures Times(step, s, a, 2) == step(step(s, a), a)
  {
    assert Times(step, s, a, 1) == step(s, a);
  }

  lemma FourTimes<S, A>(step: (S, A) -> S, s: S, a: A)
    ensures Times(step, s, a, 4) == step(step(step(step(s, a), a), a), a)
  {
    TwoTimes(step, s, a);
    assert Times(step, s, a, 3) == step(Times(step, s, a, 2), a);
  }

  function Repeat<A>(a: A, n: nat): seq<A> {
    if n == 0 then [] else Repeat(a, n - 1) + [a]
  }

  lemma {:induction false} RunTimes<S, A>(step: (S, A) -> S, s: S, a: A, n: nat)
    ensures Run(step, s, Repeat(a, n)) == Times(step, s, a, n)
  {
    if n == 0 {
    } else {
      RunTimes(step, s, a, n - 1);
      assert Repeat(a, n)[..|Repeat(a, n)| - 1] == Repeat(a, n - 1);
    }
  }

  lemma ThenTimes<S, A>(step: (S, A) -> S, s: S, schedule: seq<A>, a: A, n: nat) returns (longer: seq<A>)
    ensures Run(step, s, longer) == Times(step, Run(step, s, schedule), a, n)
  {
    longer := schedule + Repeat(a, n);
    RunAppend(step, s, schedule, Repeat(a, n));
    RunTimes(step, Run(step, s, schedule), a, n);
  }

  /** The number of steps of a schedule that did not block. */
  function Progress<S(==), A>(step: (S, A) -> S, s: S, schedule: seq<A>): nat
    decreases |schedule|
  {
    if schedule == [] then 0
    else
      var before := schedule[..|schedule| - 1];
      Progress(step, s, before) + if Run(step, s, schedule) == Run(step, s, before) then 0 else 1
  }

  /** No step changes the state. */
  ghost predicate Stuck<S, A(!new)>(step: (S, A) -> S, s: S) {
    forall a :: step(s, a) == s
  }

  lemma StuckStep<S, A(!new)>(step: (S, A) -> S, s: S, a: A)
    requires Stuck(step, s)
    ensures step(s, a) == s
  {
  }

  ghost predicate Decreases<S(!new), A(!new)>(step: (S, A) -> S, measure: S -> nat) {
    forall s, a :: step(s, a) == s || measure(step(s, a)) < measure(s)
  }

  /** With a measure that every step decreases, it bounds the steps that do not block. */
  lemma {:induction false} ProgressBounded<S(!new), A(!new)>(
      step: (S, A) -> S, measure: S -> nat, s: S, schedule: seq<A>)
    requires Decreases(step, measure)
    ensures Progress(step, s, schedule) + measure(Run(step, s, schedule)) <= measure(s)
    decreases |schedule|
  {
    if schedule == [] {
    } else {
      ProgressBounded(step, measure, s, schedule[..|schedule| - 1]);
    }
  }

  /** Then every state leads to one in which no step changes anything. */
  lemma {:induction false} EndReached<S(!new), A(!new)>(step: (S, A) -> S, measure: S -> nat, s: S)
    returns (rest: seq<A>)
    requires Decreases(step, measure)
    ensures Stuck(step, Run(step, s, rest))
    decreases measure(s)
  {
    if Stuck(step, s) {
      rest := [];
    } else {
      var a :| step(s, a) != s;
      rest := EndReached(step, measure, step(s, a));
      RunOne(step, s, a);
      RunAppend(step, s, [a], rest);
      rest := [a] + rest;
    }
  }

  /** Every run can be continued to such an end. */
  lemma EndAfter<S(!new), A(!new)>(step: (S, A) -> S, measure: S -> nat, s: S, schedule: seq<A>)
    returns (rest: seq<A>)
    requires Decreases(step, measure)
    ensures Stuck(step, Run(step, s, schedule + rest))
  {
    rest := EndReached(step, measure, Run(step, s, schedule));
    RunAppend(step, s, schedule, rest);
  }

  ghost predicate Reaches<S(!new), A(!new)>(step: (S, A) -> S, s: S, t: S) {
    exists schedule: seq<A> :: Run(step, s, schedule) == t
  }

  lemma ReachesSelf<S(!new), A(!new)>(step: (S, A) -> S, s: S)
    ensures Reaches(step, s, s)
  {
    assert Run(step, s, []) == s;
  }

  lemma ReachesNext<S(!new), A(!new)>(step: (S, A) -> S, s: S, t: S, a: A)
    requires Reaches(step, s, t)
    ensures Reaches(step, s, step(t, a))
  {
    var schedule :| Run(step, s, schedule) == t;
    RunOne(step, t, a);
    RunAppend(step, s, schedule, [a]);
    assert Run(step, s, schedule + [a]) == step(t, a);
  }
}
