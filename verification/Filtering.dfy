/** The elements of a sequence that satisfy a predicate, in order: one type of message in a queue, or what one
    process wrote in a log. */
module Filtering {

  /** A queue after the message at `k` is taken out. */
  function Without<T>(queue: seq<T>, k: nat): seq<T> {
    if k < |queue| then queue[..k] + queue[k + 1..] else queue
  }

  /** Those among the first `n` elements. */
  function FilterTo<T>(s: seq<T>, n: nat, p: T -> bool): seq<T>
    requires n <= |s|
  {
    if n == 0 then []
    else if p(s[n - 1]) then FilterTo(s, n - 1, p) + [s[n - 1]]
    else FilterTo(s, n - 1, p)
  }

  function Filter<T>(s: seq<T>, p: T -> bool): seq<T> {
    FilterTo(s, |s|, p)
  }

  lemma {:induction false} FilterToSame<T>(s: seq<T>, t: seq<T>, n: nat, p: T -> bool)
    requires n <= |s| && n <= |t| && forall k :: 0 <= k < n ==> s[k] == t[k]
    ensures FilterTo(s, n, p) == FilterTo(t, n, p)
  {
    if n == 0 {
    } else {
      FilterToSame(s, t, n - 1, p);
    }
  }

  /** An element added at the back comes last. */
  lemma FilterSnoc<T>(s: seq<T>, x: T, p: T -> bool)
    ensures Filter(s + [x], p) == if p(x) then Filter(s, p) + [x] else Filter(s, p)
  {
    FilterToSame(s + [x], s, |s|, p);
  }

  lemma {:induction false} FilterToNone<T>(s: seq<T>, n: nat, p: T -> bool)
    requires n <= |s| && forall k :: 0 <= k < n ==> !p(s[k])
    ensures FilterTo(s, n, p) == []
  {
    if n == 0 {
    } else {
      FilterToNone(s, n - 1, p);
    }
  }

  lemma {:induction false} FilterToRemove<T>(s: seq<T>, k: nat, n: nat, p: T -> bool)
    requires k < n <= |s|
    ensures !p(s[k]) ==> FilterTo(s[..k] + s[k+1..], n - 1, p) == FilterTo(s, n, p)
    ensures p(s[k]) && (forall j :: 0 <= j < k ==> !p(s[j])) ==>
              [s[k]] + FilterTo(s[..k] + s[k+1..], n - 1, p) == FilterTo(s, n, p)
  {
    var rest := s[..k] + s[k+1..];
    if k < n - 1 {
      FilterToRemove(s, k, n - 1, p);
      assert rest[n - 2] == s[n - 1];
      if p(s[k]) && (forall j :: 0 <= j < k ==> !p(s[j])) && p(s[n - 1]) {
        assert [s[k]] + (FilterTo(rest, n - 2, p) + [s[n - 1]]) == [s[k]] + FilterTo(rest, n - 2, p) + [s[n - 1]];
      }
    } else {
      FilterToSame(rest, s, k, p);
      if forall j :: 0 <= j < k ==> !p(s[j]) {
        FilterToNone(s, k, p);
      }
    }
  }

  /** Removing another element changes nothing; removing the first one takes it off the front. */
  lemma FilterRemove<T>(s: seq<T>, k: nat, p: T -> bool)
    requires k < |s|
    ensures !p(s[k]) ==> Filter(s[..k] + s[k+1..], p) == Filter(s, p)
    ensures p(s[k]) && (forall j :: 0 <= j < k ==> !p(s[j])) ==>
              [s[k]] + Filter(s[..k] + s[k+1..], p) == Filter(s, p)
  {
    FilterToRemove(s, k, |s|, p);
  }

  /** The texts of the entries of a log that satisfy a predicate. */
  function Texts<T>(log: seq<T>, p: T -> bool, text: T -> string): seq<string> {
    if log == [] then []
    else
      var before, last := Texts(log[..|log| - 1], p, text), log[|log| - 1];
      if p(last) then before + [text(last)] else before
  }

  lemma TextsSnoc<T>(log: seq<T>, x: T, p: T -> bool, text: T -> string)
    ensures Texts(log + [x], p, text) == if p(x) then Texts(log, p, text) + [text(x)] else Texts(log, p, text)
  {
    assert (log + [x])[..|log|] == log;
  }

  lemma {:induction false} TextsPrefix<T>(log: seq<T>, n: nat, p: T -> bool, text: T -> string)
    requires n <= |log|
    ensures Texts(log[..n], p, text) <= Texts(log, p, text)
    decreases |log|
  {
    if n == |log| {
      assert log[..n] == log;
    } else {
      TextsPrefix(log[..|log| - 1], n, p, text);
      assert log[..|log| - 1][..n] == log[..n];
    }
  }
}
