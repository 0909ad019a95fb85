/** Sums of a weight over the processes or messages of a system: every counting argument of this project
    is a statement about such sums. */
module Counting {

  /** The weight of the first `n` elements. */
  function SumTo<T>(s: seq<T>, n: nat, f: T -> nat): nat
    requires n <= |s|
  {
    if n == 0 then 0 else SumTo(s, n - 1, f) + f(s[n - 1])
  }

  function Sum<T>(s: seq<T>, f: T -> nat): nat {
    SumTo(s, |s|, f)
  }

  lemma {:induction false} SumToSame<T>(s: seq<T>, t: seq<T>, n: nat, f: T -> nat)
    requires n <= |s| && n <= |t| && forall k :: 0 <= k < n ==> s[k] == t[k]
    ensures SumTo(s, n, f) == SumTo(t, n, f)
  {
    if n == 0 {
    } else {
      SumToSame(s, t, n - 1, f);
    }
  }

  /** Adding one element adds its weight. */
  lemma SumSnoc<T>(s: seq<T>, x: T, f: T -> nat)
    ensures Sum(s + [x], f) == Sum(s, f) + f(x)
  {
    SumToSame(s + [x], s, |s|, f);
  }

  lemma {:induction false} SumToUpdate<T>(s: seq<T>, i: nat, x: T, n: nat, f: T -> nat)
    requires i < n <= |s|
    ensures SumTo(s[i := x], n, f) + f(s[i]) == SumTo(s, n, f) + f(x)
  {
    if i < n - 1 {
      SumToUpdate(s, i, x, n - 1, f);
    } else {
      SumToSame(s[i := x], s, i, f);
    }
  }

  /** Changing one element changes a sum by that element's weight only. */
  lemma SumUpdate<T>(s: seq<T>, i: nat, x: T, f: T -> nat)
    requires i < |s|
    ensures Sum(s[i := x], f) + f(s[i]) == Sum(s, f) + f(x)
  {
    SumToUpdate(s, i, x, |s|, f);
  }

  lemma {:induction false} SumToRemove<T>(s: seq<T>, i: nat, n: nat, f: T -> nat)
    requires i < n <= |s|
    ensures SumTo(s[..i] + s[i+1..], n - 1, f) + f(s[i]) == SumTo(s, n, f)
  {
    if i < n - 1 {
      SumToRemove(s, i, n - 1, f);
    } else {
      SumToSame(s[..i] + s[i+1..], s, i, f);
    }
  }

  /** Removing one element subtracts its weight. */
  lemma SumRemove<T>(s: seq<T>, i: nat, f: T -> nat)
    requires i < |s|
    ensures Sum(s[..i] + s[i+1..], f) + f(s[i]) == Sum(s, f)
  {
    SumToRemove(s, i, |s|, f);
  }

  /** Taking the first element off a queue. */
  lemma SumTail<T>(s: seq<T>, f: T -> nat)
    requires s != []
    ensures Sum(s[1..], f) + f(s[0]) == Sum(s, f)
  {
    SumRemove(s, 0, f);
    assert s[..0] + s[1..] == s[1..];
  }

  lemma {:induction false} SumToGrows<T>(s: seq<T>, m: nat, n: nat, f: T -> nat)
    requires m <= n <= |s|
    ensures SumTo(s, m, f) <= SumTo(s, n, f)
  {
    if m == n {
    } else {
      SumToGrows(s, m, n - 1, f);
    }
  }

  lemma {:induction false} SumToAtMost<T>(s: seq<T>, n: nat, f: T -> nat)
    requires n <= |s| && forall i :: 0 <= i < n ==> f(s[i]) <= 1
    ensures SumTo(s, n, f) <= n
  {
    if n == 0 {
    } else {
      SumToAtMost(s, n - 1, f);
    }
  }

  /** At most one each. */
  lemma SumAtMost<T>(s: seq<T>, f: T -> nat)
    requires forall i :: 0 <= i < |s| ==> f(s[i]) <= 1
    ensures Sum(s, f) <= |s|
  {
    SumToAtMost(s, |s|, f);
  }

  lemma {:induction false} SumToPart<T>(s: seq<T>, i: nat, n: nat, f: T -> nat)
    requires i < n <= |s|
    ensures f(s[i]) <= SumTo(s, n, f)
  {
    if i == n - 1 {
    } else {
      SumToPart(s, i, n - 1, f);
    }
  }

  lemma SumPart<T>(s: seq<T>, i: nat, f: T -> nat)
    requires i < |s|
    ensures f(s[i]) <= Sum(s, f)
  {
    SumToPart(s, i, |s|, f);
  }

  lemma {:induction false} SumToPair<T>(s: seq<T>, i: nat, j: nat, n: nat, f: T -> nat)
    requires i < j < n <= |s|
    ensures f(s[i]) + f(s[j]) <= SumTo(s, n, f)
  {
    if j < n - 1 {
      SumToPair(s, i, j, n - 1, f);
    } else {
      SumToPart(s, i, n - 1, f);
    }
  }

  lemma SumPair<T>(s: seq<T>, i: nat, j: nat, f: T -> nat)
    requires i < j < |s|
    ensures f(s[i]) + f(s[j]) <= Sum(s, f)
  {
    SumToPair(s, i, j, |s|, f);
  }

  lemma {:induction false} SumToZero<T>(s: seq<T>, n: nat, f: T -> nat)
    requires n <= |s| && forall i :: 0 <= i < n ==> f(s[i]) == 0
    ensures SumTo(s, n, f) == 0
  {
    if n == 0 {
    } else {
      SumToZero(s, n - 1, f);
    }
  }

  lemma SumZero<T>(s: seq<T>, f: T -> nat)
    requires forall i :: 0 <= i < |s| ==> f(s[i]) == 0
    ensures Sum(s, f) == 0
  {
    SumToZero(s, |s|, f);
  }

  /** All but one weigh nothing. */
  lemma SumOnly<T>(s: seq<T>, i: nat, f: T -> nat)
    requires i < |s| && forall j :: 0 <= j < |s| && j != i ==> f(s[j]) == 0
    ensures Sum(s, f) == f(s[i])
  {
    SumToOnly(s, i, |s|, f);
  }

  lemma {:induction false} SumToOnly<T>(s: seq<T>, i: nat, n: nat, f: T -> nat)
    requires i < n <= |s| && forall j :: 0 <= j < |s| && j != i ==> f(s[j]) == 0
    ensures SumTo(s, n, f) == f(s[i])
  {
    if i == n - 1 {
      SumToZero(s, i, f);
    } else {
      SumToOnly(s, i, n - 1, f);
    }
  }

  lemma {:induction false} SumToPositive<T>(s: seq<T>, n: nat, f: T -> nat) returns (i: nat)
    requires n <= |s| && SumTo(s, n, f) > 0
    ensures i < n && f(s[i]) > 0
  {
    if f(s[n - 1]) > 0 {
      i := n - 1;
    } else {
      i := SumToPositive(s, n - 1, f);
    }
  }

  lemma SumPositive<T>(s: seq<T>, f: T -> nat) returns (i: nat)
    requires Sum(s, f) > 0
    ensures i < |s| && f(s[i]) > 0
  {
    i := SumToPositive(s, |s|, f);
  }

  lemma {:induction false} SumToBelow<T>(s: seq<T>, n: nat, f: T -> nat, g: T -> nat)
    requires n <= |s| && forall x :: x in s ==> f(x) <= g(x)
    ensures SumTo(s, n, f) <= SumTo(s, n, g)
  {
    if n == 0 {
    } else {
      SumToBelow(s, n - 1, f, g);
      assert s[n - 1] in s;
    }
  }

  lemma SumBelow<T>(s: seq<T>, f: T -> nat, g: T -> nat)
    requires forall x :: x in s ==> f(x) <= g(x)
    ensures Sum(s, f) <= Sum(s, g)
  {
    SumToBelow(s, |s|, f, g);
  }

  lemma {:induction false} SumToGap<T>(s: seq<T>, i: nat, n: nat, f: T -> nat, g: T -> nat)
    requires i < n <= |s| && forall x :: x in s ==> f(x) <= g(x)
    ensures SumTo(s, n, f) + g(s[i]) <= SumTo(s, n, g) + f(s[i])
  {
    if i < n - 1 {
      SumToGap(s, i, n - 1, f, g);
      assert s[n - 1] in s;
    } else {
      SumToBelow(s, n - 1, f, g);
    }
  }

  /** A strict gap at one element survives in the sums. */
  lemma SumGap<T>(s: seq<T>, i: nat, f: T -> nat, g: T -> nat)
    requires i < |s|
    requires forall x :: x in s ==> f(x) <= g(x)
    ensures Sum(s, f) + g(s[i]) <= Sum(s, g) + f(s[i])
  {
    SumToGap(s, i, |s|, f, g);
  }
}
