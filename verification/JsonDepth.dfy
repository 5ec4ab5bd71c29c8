/** The container-nesting preflight: an explicit stack over an object graph that may share
    containers and may be cyclic. */
module JsonDepth {
  import opened Sequences

  /** A scalar, or a container by identity. */
  datatype Item = Scalar | Container(id: nat)

  /** The items each container holds. */
  type Graph = map<nat, seq<Item>>

  datatype Frame = Frame(item: Item, parentDepth: nat, leaving: bool)

  ghost predicate Known(g: Graph, item: Item) {
    item.Container? ==> item.id in g
  }

  ghost predicate Closed(g: Graph) {
    forall id, k :: id in g && 0 <= k < |g[id]| ==> Known(g, g[id][k])
  }

  // ---------------------------------------------------------------- specification

  /** Depth-first search below an item whose ancestors are `active`. */
  ghost predicate Search(g: Graph, item: Item, depth: nat, active: set<nat>, maximum: nat)
    requires depth <= maximum && Closed(g) && Known(g, item)
    decreases maximum - depth
  {
    item.Container? && item.id !in active &&
    (depth == maximum || exists k ::
        0 <= k < |g[item.id]| && Search(g, g[item.id][k], depth + 1, active + {item.id}, maximum))
  }

  /** A chain of distinct containers, each held by the one before, avoiding `active`. */
  ghost predicate Chain(g: Graph, item: Item, active: set<nat>, path: seq<nat>) {
    && path != [] && item == Container(path[0])
    && (forall i :: 0 <= i < |path| ==> path[i] in g && path[i] !in active)
    && (forall i, j :: 0 <= i < j < |path| ==> path[i] != path[j])
    && (forall i :: 0 <= i < |path| - 1 ==> Container(path[i + 1]) in g[path[i]])
  }

  lemma {:induction false} SearchFindsChain(g: Graph, item: Item, depth: nat, active: set<nat>, maximum: nat)
      returns (path: seq<nat>)
    requires depth <= maximum && Closed(g) && Known(g, item) && Search(g, item, depth, active, maximum)
    ensures Chain(g, item, active, path) && |path| == maximum - depth + 1
    decreases maximum - depth
  {
    if depth == maximum {
      path := [item.id];
    } else {
      var k :| 0 <= k < |g[item.id]| && Search(g, g[item.id][k], depth + 1, active + {item.id}, maximum);
      var rest := SearchFindsChain(g, g[item.id][k], depth + 1, active + {item.id}, maximum);
      path := [item.id] + rest;
      assert g[item.id][k] == Container(rest[0]);
    }
  }

  lemma {:induction false} ChainIsFound(g: Graph, item: Item, depth: nat, active: set<nat>, maximum: nat,
      path: seq<nat>)
    requires depth <= maximum && Closed(g) && Known(g, item) && Chain(g, item, active, path)
        && |path| == maximum - depth + 1
    ensures Search(g, item, depth, active, maximum)
    decreases maximum - depth
  {
    if depth < maximum {
      assert Container(path[0 + 1]) in g[path[0]];
      var k :| 0 <= k < |g[item.id]| && g[item.id][k] == Container(path[1]);
      var rest := path[1..];
      forall i | 0 <= i < |rest| - 1
        ensures Container(rest[i + 1]) in g[rest[i]]
      {
        assert Container(path[i + 1 + 1]) in g[path[i + 1]];
      }
      ChainIsFound(g, g[item.id][k], depth + 1, active + {item.id}, maximum, rest);
    }
  }

  // ------------------------------------------------------------------ acyclic values

  /** Ranks that decrease from every container to the containers it holds. */
  ghost predicate Ranked(g: Graph, rank: map<nat, nat>) {
    && g.Keys <= rank.Keys
    && forall id, k ::
        id in g && 0 <= k < |g[id]| && g[id][k].Container? && g[id][k].id in g ==> rank[g[id][k].id] < rank[id]
  }

  ghost function Deepest(g: Graph, rank: map<nat, nat>, id: nat, n: nat): nat
    requires Closed(g) && Ranked(g, rank) && id in g && n <= |g[id]|
    decreases rank[id], n
  {
    if n == 0 then 0
    else
      var before, last := Deepest(g, rank, id, n - 1), Nesting(g, rank, g[id][n - 1]);
      if before < last then last else before
  }

  /** How deeply containers nest, by recursion on the value. */
  ghost function Nesting(g: Graph, rank: map<nat, nat>, item: Item): nat
    requires Closed(g) && Ranked(g, rank) && Known(g, item)
    decreases if item.Container? then rank[item.id] else 0, if item.Container? then |g[item.id]| + 1 else 0
  {
    if item.Scalar? then 0 else 1 + Deepest(g, rank, item.id, |g[item.id]|)
  }

  lemma {:induction false} DeepestIsMaximum(g: Graph, rank: map<nat, nat>, id: nat, n: nat, bound: nat)
    requires Closed(g) && Ranked(g, rank) && id in g && n <= |g[id]|
    ensures Deepest(g, rank, id, n) > bound <==> exists k :: 0 <= k < n && Nesting(g, rank, g[id][k]) > bound
    decreases n
  {
    if n > 0 {
      DeepestIsMaximum(g, rank, id, n - 1, bound);
    }
  }

  lemma {:induction false} SearchIsNesting(g: Graph, rank: map<nat, nat>, item: Item, depth: nat, active: set<nat>,
      maximum: nat)
    requires depth <= maximum && Closed(g) && Ranked(g, rank) && Known(g, item)
    requires item.Container? ==> forall a :: a in active ==> a in g && rank[item.id] < rank[a]
    ensures Search(g, item, depth, active, maximum) <==> depth + Nesting(g, rank, item) > maximum
    decreases maximum - depth
  {
    if item.Container? && depth < maximum {
      var children := g[item.id];
      forall k | 0 <= k < |children|
        ensures Search(g, children[k], depth + 1, active + {item.id}, maximum) <==>
            Nesting(g, rank, children[k]) > maximum - depth - 1
      {
        SearchIsNesting(g, rank, children[k], depth + 1, active + {item.id}, maximum);
      }
      DeepestIsMaximum(g, rank, item.id, |children|, maximum - depth - 1);
    }
  }

  // ------------------------------------------------------------------------ the stack

  /** The containers entered and not yet left, innermost last. */
  function Ancestors(stack: seq<Frame>): seq<nat>
    decreases |stack|
  {
    if stack == [] then []
    else
      var f := stack[|stack| - 1];
      Ancestors(stack[..|stack| - 1]) + if f.leaving && f.item.Container? then [f.item.id] else []
  }

  ghost function ToSet(ids: seq<nat>): set<nat> {
    set id | id in ids
  }

  /** A frame that may sit on a stack with these ancestors: it records how many they are, and
      a frame that leaves a container leaves one that was entered only once. */
  ghost predicate Fits(g: Graph, f: Frame, ancestors: seq<nat>, maximum: nat) {
    && Known(g, f.item) && f.parentDepth == |ancestors| <= maximum
    && (f.leaving ==> f.item.Container? && f.item.id !in ancestors)
  }

  ghost predicate Stacked(g: Graph, stack: seq<Frame>, maximum: nat)
    decreases |stack|
  {
    stack == [] ||
    (Stacked(g, stack[..|stack| - 1], maximum) && Fits(g, stack[|stack| - 1], Ancestors(stack[..|stack| - 1]), maximum))
  }

  /** What the rest of the loop will answer: some frame still to be visited searches deep enough. */
  ghost predicate Pending(g: Graph, stack: seq<Frame>, maximum: nat)
    requires Closed(g) && Stacked(g, stack, maximum)
    decreases |stack|
  {
    stack != [] &&
    var f := stack[|stack| - 1];
    var below := stack[..|stack| - 1];
    (!f.leaving && Search(g, f.item, f.parentDepth, ToSet(Ancestors(below)), maximum)) || Pending(g, below, maximum)
  }

  /** Loop rounds that visiting the first `n` items takes, each with everything it pushes. */
  ghost function Rounds(g: Graph, items: seq<Item>, n: nat, depth: nat, active: set<nat>, maximum: nat): nat
    requires depth <= maximum && Closed(g) && n <= |items| && forall k :: 0 <= k < |items| ==> Known(g, items[k])
    decreases maximum - depth, n
  {
    if n == 0 then 0
    else
      var item := items[n - 1];
      Rounds(g, items, n - 1, depth, active, maximum)
      + if item.Scalar? || item.id in active || depth == maximum then 1
        else 2 + Rounds(g, g[item.id], |g[item.id]|, depth + 1, active + {item.id}, maximum)
  }

  /** Loop rounds a whole stack takes when nothing too deep is found. */
  ghost function Cost(g: Graph, stack: seq<Frame>, maximum: nat): nat
    requires Closed(g) && Stacked(g, stack, maximum)
    decreases |stack|
  {
    if stack == [] then 0
    else
      var f := stack[|stack| - 1];
      var below := stack[..|stack| - 1];
      Cost(g, below, maximum)
      + if f.leaving then 1 else Rounds(g, [f.item], 1, f.parentDepth, ToSet(Ancestors(below)), maximum)
  }

  lemma Push(g: Graph, stack: seq<Frame>, f: Frame, maximum: nat)
    requires Closed(g) && Stacked(g, stack, maximum) && Fits(g, f, Ancestors(stack), maximum)
    ensures Stacked(g, stack + [f], maximum)
    ensures Ancestors(stack + [f]) == Ancestors(stack) + if f.leaving then [f.item.id] else []
    ensures Pending(g, stack + [f], maximum) <==>
              (!f.leaving && Search(g, f.item, f.parentDepth, ToSet(Ancestors(stack)), maximum))
                  || Pending(g, stack, maximum)
    ensures Cost(g, stack + [f], maximum) ==
              Cost(g, stack, maximum)
              + if f.leaving then 1 else Rounds(g, [f.item], 1, f.parentDepth, ToSet(Ancestors(stack)), maximum)
  {
    assert (stack + [f])[..|stack|] == stack;
  }

  function Children(items: seq<Item>, n: nat, depth: nat): seq<Frame>
    requires n <= |items|
  {
    if n == 0 then [] else Children(items, n - 1, depth) + [Frame(items[n - 1], depth, false)]
  }

  ghost predicate AnySearch(g: Graph, items: seq<Item>, n: nat, depth: nat, active: set<nat>, maximum: nat)
    requires depth <= maximum && Closed(g) && n <= |items| && forall k :: 0 <= k < |items| ==> Known(g, items[k])
  {
    exists k :: 0 <= k < n && Search(g, items[k], depth, active, maximum)
  }

  lemma {:induction false} PushChildren(g: Graph, stack: seq<Frame>, items: seq<Item>, n: nat, maximum: nat)
    requires Closed(g) && Stacked(g, stack, maximum) && |Ancestors(stack)| <= maximum && n <= |items|
    requires forall k :: 0 <= k < |items| ==> Known(g, items[k])
    ensures Stacked(g, stack + Children(items, n, |Ancestors(stack)|), maximum)
    ensures Ancestors(stack + Children(items, n, |Ancestors(stack)|)) == Ancestors(stack)
    ensures Pending(g, stack + Children(items, n, |Ancestors(stack)|), maximum) <==>
              AnySearch(g, items, n, |Ancestors(stack)|, ToSet(Ancestors(stack)), maximum) || Pending(g, stack, maximum)
    ensures Cost(g, stack + Children(items, n, |Ancestors(stack)|), maximum) ==
              Cost(g, stack, maximum) + Rounds(g, items, n, |Ancestors(stack)|, ToSet(Ancestors(stack)), maximum)
    decreases n
  {
    var depth := |Ancestors(stack)|;
    if n == 0 {
      assert stack + Children(items, 0, depth) == stack;
    } else {
      PushChildren(g, stack, items, n - 1, maximum);
      var before := stack + Children(items, n - 1, depth);
      var f := Frame(items[n - 1], depth, false);
      Push(g, before, f, maximum);
      Reassociate(stack, Children(items, n - 1, depth), [f]);
      assert stack + Children(items, n, depth) == before + [f];
      LastRound(g, items, n, depth, ToSet(Ancestors(stack)), maximum);
      assert Pending(g, before + [f], maximum) <==>
          Search(g, items[n - 1], depth, ToSet(Ancestors(stack)), maximum) || Pending(g, before, maximum);
    }
  }

  lemma LastRound(g: Graph, items: seq<Item>, n: nat, depth: nat, active: set<nat>, maximum: nat)
    requires depth <= maximum && Closed(g) && 0 < n <= |items| && forall k :: 0 <= k < |items| ==> Known(g, items[k])
    ensures Rounds(g, items, n, depth, active, maximum) ==
              Rounds(g, items, n - 1, depth, active, maximum) + Rounds(g, [items[n - 1]], 1, depth, active, maximum)
    ensures AnySearch(g, items, n, depth, active, maximum) <==>
              Search(g, items[n - 1], depth, active, maximum) || AnySearch(g, items, n - 1, depth, active, maximum)
  {
    var one := [items[n - 1]];
    assert Rounds(g, one, 0, depth, active, maximum) == 0;
  }

  /** Popping a leaving frame, a scalar or a container already entered leaves the answer alone. */
  lemma PopSettled(g: Graph, stack: seq<Frame>, maximum: nat)
    requires Closed(g) && stack != [] && Stacked(g, stack, maximum)
    requires
      var f := stack[|stack| - 1];
      f.leaving || f.item.Scalar? || f.item.id in Ancestors(stack)
    ensures
      var f := stack[|stack| - 1];
      var below := stack[..|stack| - 1];
      && (Pending(g, below, maximum) <==> Pending(g, stack, maximum))
      && Cost(g, below, maximum) < Cost(g, stack, maximum)
      && ToSet(Ancestors(below)) == if f.leaving then ToSet(Ancestors(stack)) - {f.item.id} else ToSet(Ancestors(stack))
  {
    var f := stack[|stack| - 1];
    var below := stack[..|stack| - 1];
    if f.leaving {
      assert ToSet(Ancestors(stack)) == ToSet(Ancestors(below)) + {f.item.id};
    } else {
      assert Rounds(g, [f.item], 0, f.parentDepth, ToSet(Ancestors(below)), maximum) == 0;
    }
  }

  lemma TopFrame(g: Graph, stack: seq<Frame>, maximum: nat)
    requires Closed(g) && stack != [] && Stacked(g, stack, maximum) && !stack[|stack| - 1].leaving
    ensures
      var f := stack[|stack| - 1];
      var below := stack[..|stack| - 1];
      && Fits(g, f, Ancestors(below), maximum) && Ancestors(stack) == Ancestors(below)
      && (Pending(g, stack, maximum) <==>
            Search(g, f.item, f.parentDepth, ToSet(Ancestors(below)), maximum) || Pending(g, below, maximum))
      && Cost(g, stack, maximum) ==
           Cost(g, below, maximum) + Rounds(g, [f.item], 1, f.parentDepth, ToSet(Ancestors(below)), maximum)
  {
  }

  /** A leaving frame adds one ancestor and one round. */
  lemma EnterOne(g: Graph, below: seq<Frame>, f: Frame, maximum: nat)
    requires Closed(g) && Stacked(g, below, maximum) && f.leaving && Fits(g, f, Ancestors(below), maximum)
    ensures
      var left := below + [f];
      && Stacked(g, left, maximum) && |Ancestors(left)| == |Ancestors(below)| + 1
      && ToSet(Ancestors(left)) == ToSet(Ancestors(below)) + {f.item.id}
      && (Pending(g, left, maximum) <==> Pending(g, below, maximum))
      && Cost(g, left, maximum) == Cost(g, below, maximum) + 1
  {
    Push(g, below, f, maximum);
  }

  /** Entering a container trades its frame for a leaving frame and one frame for each child. */
  lemma Enter(g: Graph, stack: seq<Frame>, maximum: nat)
    requires Closed(g) && stack != [] && Stacked(g, stack, maximum)
    requires
      var f := stack[|stack| - 1];
      !f.leaving && f.item.Container? && f.item.id !in Ancestors(stack) && f.parentDepth < maximum
    ensures
      var f := stack[|stack| - 1];
      var pushed := stack[..|stack| - 1] + [f.(leaving := true)] + Children(g[f.item.id], |g[f.item.id]|,
          f.parentDepth + 1);
      && Stacked(g, pushed, maximum) && ToSet(Ancestors(pushed)) == ToSet(Ancestors(stack)) + {f.item.id}
      && (Pending(g, pushed, maximum) <==> Pending(g, stack, maximum))
      && Cost(g, pushed, maximum) < Cost(g, stack, maximum)
  {
    var f := stack[|stack| - 1];
    var below := stack[..|stack| - 1];
    var left := below + [f.(leaving := true)];
    TopFrame(g, stack, maximum);
    EnterOne(g, below, f.(leaving := true), maximum);
    PushChildren(g, left, g[f.item.id], |g[f.item.id]|, maximum);
  }

  lemma Start(g: Graph, value: Item, maximum: nat)
    requires Closed(g) && Known(g, value)
    ensures
      var stack := [Frame(value, 0, false)];
      && Stacked(g, stack, maximum) && ToSet(Ancestors(stack)) == {}
      && (Pending(g, stack, maximum) <==> Search(g, value, 0, {}, maximum))
  {
    var bottom: seq<Frame> := [];
    assert ToSet(Ancestors(bottom)) == {};
    Push(g, bottom, Frame(value, 0, false), maximum);
    assert bottom + [Frame(value, 0, false)] == [Frame(value, 0, false)];
  }

  /** The preflight itself. */
  method JsonDepthExceeds(g: Graph, value: Item, maximum: nat) returns (exceeds: bool)
    requires Closed(g) && Known(g, value)
    ensures exceeds <==> Search(g, value, 0, {}, maximum)
  {
    var stack := [Frame(value, 0, false)];
    var active: set<nat> := {};
    Start(g, value, maximum);
    while stack != []
      invariant Stacked(g, stack, maximum)
      invariant active == ToSet(Ancestors(stack))
      invariant Pending(g, stack, maximum) <==> Search(g, value, 0, {}, maximum)
      decreases Cost(g, stack, maximum)
    {
      var f := stack[|stack| - 1];
      ghost var full := stack;
      stack := stack[..|stack| - 1];
      if f.leaving {
        PopSettled(g, full, maximum);
        active := active - {f.item.id};
        continue;
      }
      if f.item.Scalar? || f.item.id in active {
        PopSettled(g, full, maximum);
        continue;
      }
      var depth := f.parentDepth + 1;
      if depth > maximum {
        return true;
      }
      Enter(g, full, maximum);
      active := active + {f.item.id};
      stack := stack + [Frame(f.item, f.parentDepth, true)] + Children(g[f.item.id], |g[f.item.id]|, depth);
    }
    return false;
  }

  // ------------------------------------------------------------------------ main results

  /** On any finite graph, cyclic ones included, the preflight answers whether some chain of
      distinct containers below the value is longer than the limit. */
  lemma ExceedsExactlyOnLongChains(g: Graph, value: Item, maximum: nat)
    requires Closed(g) && Known(g, value)
    ensures Search(g, value, 0, {}, maximum) <==> exists path :: Chain(g, value, {}, path) && |path| == maximum + 1
  {
    if Search(g, value, 0, {}, maximum) {
      var path := SearchFindsChain(g, value, 0, {}, maximum);
    }
    if path :| Chain(g, value, {}, path) && |path| == maximum + 1 {
      ChainIsFound(g, value, 0, {}, maximum, path);
    }
  }

  /** On acyclic values it answers whether the recursive nesting depth exceeds the limit. */
  lemma ExceedsExactlyOnDeepValues(g: Graph, rank: map<nat, nat>, value: Item, maximum: nat)
    requires Closed(g) && Ranked(g, rank) && Known(g, value)
    ensures Search(g, value, 0, {}, maximum) <==> Nesting(g, rank, value) > maximum
  {
    SearchIsNesting(g, rank, value, 0, {}, maximum);
  }
}
