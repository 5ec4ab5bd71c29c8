/** Sequences of parts and the whole they make up; finite sets of numbers in order. */
module Sequences {
  import opened Wrappers

  /** The first `n` parts, joined. */
  function Flatten<T>(parts: seq<seq<T>>, n: nat): seq<T>
    requires n <= |parts|
  {
    if n == 0 then [] else Flatten(parts, n - 1) + parts[n - 1]
  }

  /** Each part starts where the parts before it end. */
  lemma {:induction false} PartAt<T>(parts: seq<seq<T>>, i: nat, n: nat)
    requires i < n <= |parts|
    ensures |Flatten(parts, i)| + |parts[i]| <= |Flatten(parts, n)|
    ensures Flatten(parts, n)[|Flatten(parts, i)|..|Flatten(parts, i)| + |parts[i]|] == parts[i]
  {
    if i < n - 1 {
      PartAt(parts, i, n - 1);
    }
  }

  /** Every element of the whole comes from some part. */
  lemma {:induction false} InPart<T>(parts: seq<seq<T>>, n: nat, x: T) returns (i: nat)
    requires n <= |parts| && x in Flatten(parts, n)
    ensures i < n && x in parts[i]
  {
    if x in parts[n - 1] {
      i := n - 1;
    } else {
      i := InPart(parts, n - 1, x);
    }
  }

  lemma {:induction false} FlattenCons<T>(first: seq<T>, rest: seq<seq<T>>, n: nat)
    requires n <= |rest|
    ensures Flatten([first] + rest, n + 1) == first + Flatten(rest, n)
  {
    var parts := [first] + rest;
    if n == 0 {
      assert Flatten(parts, 0) == [];
    } else {
      FlattenCons(first, rest, n - 1);
      assert Flatten(parts, n + 1) == Flatten(parts, n) + parts[n];
      assert Flatten(rest, n) == Flatten(rest, n - 1) + rest[n - 1];
      Reassociate(first, Flatten(rest, n - 1), rest[n - 1]);
    }
  }

  lemma Reassociate<T>(a: seq<T>, b: seq<T>, c: seq<T>)
    ensures (a + b) + c == a + (b + c)
  {
  }

  ghost predicate Least(s: set<nat>, least: nat) {
    least in s && forall x :: x in s ==> least <= x
  }

  lemma {:induction false} LeastExists(s: set<nat>)
    requires s != {}
    ensures exists least :: Least(s, least)
  {
    var x :| x in s;
    if s - {x} == {} {
      assert s == {x};
      assert Least(s, x);
    } else {
      LeastExists(s - {x});
      var rest :| Least(s - {x}, rest);
      assert forall y :: y in s ==> y == x || y in s - {x};
      assert Least(s, if x < rest then x else rest);
    }
  }

  ghost predicate Increasing(s: seq<nat>) {
    forall i, j :: 0 <= i < j < |s| ==> s[i] < s[j]
  }

  lemma IncreasingCons(least: nat, rest: seq<nat>, s: set<nat>)
    requires Increasing(rest) && (forall x :: x in rest <==> x in s - {least}) && Least(s, least)
    ensures Increasing([least] + rest) && forall x :: x in [least] + rest <==> x in s
  {
    assert forall i :: 0 <= i < |rest| ==> rest[i] in s - {least};
  }

  /** The elements of a set in order. */
  function Sorted(s: set<nat>): (r: seq<nat>)
    ensures Increasing(r) && |r| == |s| && forall x :: x in r <==> x in s
  {
    if s == {} then []
    else
      LeastExists(s);
      var least: nat :| least in s && forall x :: x in s ==> least <= x;
      IncreasingCons(least, Sorted(s - {least}), s);
      [least] + Sorted(s - {least})
  }

  // ------------------------------------------------------------------------ steps in turn

  /** One step for each item in turn, up to the first that fails. */
  function Steps<S, T, F>(start: S, items: seq<T>, step: (S, T) -> Result<S, F>): Result<S, F>
    decreases |items|
  {
    if items == [] then Ok(start)
    else
      match Steps(start, items[..|items| - 1], step)
      case Err(failure) => Err(failure)
      case Ok(state) => step(state, items[|items| - 1])
  }

  lemma {:induction false} FirstFailureStays<S, T, F>(start: S, items: seq<T>, step: (S, T) -> Result<S, F>, n: nat)
    requires n <= |items| && Steps(start, items[..n], step).Err?
    ensures Steps(start, items, step) == Steps(start, items[..n], step)
    decreases |items|
  {
    if n < |items| {
      assert items[..|items| - 1][..n] == items[..n];
      FirstFailureStays(start, items[..|items| - 1], step, n);
    } else {
      assert items[..n] == items;
    }
  }

  /** What holds at first and is kept by every step that succeeds holds at the end. */
  lemma {:induction false} StepsKeep<S(!new), T,
      F>(start: S, items: seq<T>, step: (S, T) -> Result<S, F>, holds: (S, nat) -> bool, n: nat)
    requires n <= |items| && Steps(start, items[..n], step).Ok? && holds(start, 0)
    requires forall state, i ::
        0 <= i < |items| && holds(state, i) && step(state, items[i]).Ok? ==> holds(step(state, items[i]).value, i + 1)
    ensures holds(Steps(start, items[..n], step).value, n)
    decreases n
  {
    if n > 0 {
      assert items[..n][..n - 1] == items[..n - 1];
      StepsKeep(start, items, step, holds, n - 1);
    }
  }

  /** What holds of the empty sequence and is kept by every next element holds of every prefix. */
  lemma {:induction false} PrefixesKeep<T>(s: seq<T>, holds: seq<T> -> bool, n: nat)
    requires n <= |s| && holds([])
    requires forall i :: 0 <= i < |s| && holds(s[..i]) ==> holds(s[..i + 1])
    ensures holds(s[..n])
  {
    if n == 0 {
      assert s[..0] == [];
    } else {
      PrefixesKeep(s, holds, n - 1);
      assert holds(s[..(n - 1) + 1]);
    }
  }
}
