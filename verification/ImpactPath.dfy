/** Depth-bounded breadth-first search over code edges. Symbols are numbered in the order their
    identifiers sort. */
module ImpactPath {
  import opened Sequences
  import opened Wrappers

  datatype Direction = Forward | Reverse | Both

  datatype Edge = Edge(kind: nat, source: nat, target: nat)

  datatype Failure = SymbolNotFound | DirectionInvalid | DepthInvalid

  datatype Impact = Impact(impacted: seq<nat>, paths: seq<seq<nat>>, edges: seq<Edge>)

  /** The direction an upper-cased name stands for. */
  function ParseDirection(name: string): Option<Direction> {
    if name == "FORWARD" || name == "OUTGOING" then Some(Forward)
    else if name == "REVERSE" || name == "INCOMING" then Some(Reverse)
    else if name == "BOTH" then Some(Both)
    else None
  }

  function Follows(direction: Direction, e: Edge, u: nat, v: nat): bool {
    (direction != Reverse && e.source == u && e.target == v) || (direction != Forward && e.target == u && e.source == v)
  }

  /** One step of the graph that is searched. */
  ghost predicate Step(edges: seq<Edge>, direction: Direction, u: nat, v: nat) {
    exists e :: e in edges && Follows(direction, e, u, v)
  }

  /** A walk along the searched graph. */
  ghost predicate Walk(edges: seq<Edge>, direction: Direction, path: seq<nat>) {
    path != [] && forall i :: 0 <= i < |path| - 1 ==> Step(edges, direction, path[i], path[i + 1])
  }

  /** A walk from `start` to `v` of at most `limit` edges. */
  ghost predicate Leads(edges: seq<Edge>, direction: Direction, start: nat, v: nat, limit: int, path: seq<nat>) {
    Walk(edges, direction, path) && path[0] == start && path[|path| - 1] == v && |path| - 1 <= limit
  }

  // ----------------------------------------------------------------------- adjacency

  function Neighbors(adjacency: map<nat, set<nat>>, u: nat): set<nat> {
    if u in adjacency then adjacency[u] else {}
  }

  ghost predicate Adjacent(adjacency: map<nat, set<nat>>, edges: seq<Edge>, direction: Direction) {
    forall u, v :: v in Neighbors(adjacency, u) <==> Step(edges, direction, u, v)
  }

  function Added(adjacency: map<nat, set<nat>>, u: nat, v: nat): map<nat, set<nat>> {
    adjacency[u := Neighbors(adjacency, u) + {v}]
  }

  method BuildAdjacency(edges: seq<Edge>, direction: Direction) returns (adjacency: map<nat, set<nat>>)
    ensures Adjacent(adjacency, edges, direction)
  {
    adjacency := map[];
    for i := 0 to |edges|
      invariant Adjacent(adjacency, edges[..i], direction)
    {
      var e := edges[i];
      ghost var before := adjacency;
      if direction != Reverse {
        adjacency := Added(adjacency, e.source, e.target);
      }
      if direction != Forward {
        adjacency := Added(adjacency, e.target, e.source);
      }
      forall u, v
        ensures v in Neighbors(adjacency, u) <==> Step(edges[..i + 1], direction, u, v)
      {
        assert edges[..i + 1] == edges[..i] + [e];
        assert v in Neighbors(adjacency, u) <==> v in Neighbors(before, u) || Follows(direction, e, u, v);
        if Follows(direction, e, u, v) {
          assert e in edges[..i + 1];
        }
      }
    }
    assert edges[..|edges|] == edges;
  }

  // -------------------------------------------------------------------------- search

  /** What the search knows: how far each visited symbol is, along the path that found it. */
  ghost predicate Explored(edges: seq<Edge>, direction: Direction, start: nat, limit: int, found: map<nat, seq<nat>>) {
    && start in found && found[start] == [start]
    && forall v :: v in found ==> Leads(edges, direction, start, v, limit, found[v])
  }

  /** Every step out of `u` leads to a symbol found at most one step further. */
  ghost predicate Expanded(adjacency: map<nat, set<nat>>, found: map<nat, seq<nat>>, u: nat)
    requires u in found
  {
    forall v :: v in Neighbors(adjacency, u) ==> v in found && |found[v]| <= |found[u]| + 1
  }

  /** When every symbol closer than the limit is expanded, each walk ends at a symbol found along
      a path that is no longer. */
  lemma {:induction false} WalksAreCovered(edges: seq<Edge>, direction: Direction, adjacency: map<nat, set<nat>>,
      start: nat, limit: int, found: map<nat, seq<nat>>, path: seq<nat>)
    requires Adjacent(adjacency, edges, direction) && Explored(edges, direction, start, limit, found)
    requires forall u :: u in found && |found[u]| - 1 < limit ==> Expanded(adjacency, found, u)
    requires Walk(edges, direction, path) && path[0] == start && |path| - 1 <= limit
    ensures path[|path| - 1] in found && |found[path[|path| - 1]]| <= |path|
    decreases |path|
  {
    if |path| > 1 {
      var before := path[..|path| - 1];
      WalksAreCovered(edges, direction, adjacency, start, limit, found, before);
      var u, v := path[|path| - 2], path[|path| - 1];
      assert Step(edges, direction, path[|path| - 2], path[|path| - 2 + 1]);
      assert Expanded(adjacency, found, u);
      assert v in Neighbors(adjacency, u);
    }
  }

  datatype Visit = Visit(symbol: nat, path: seq<nat>)

  /** The search: what is waiting, what was found along which path, and every path listed. */
  datatype Search = Search(queue: seq<Visit>, found: map<nat, seq<nat>>, paths: seq<seq<nat>>)

  /** Meeting a neighbor at the end of a path: listed always, queued the first time. */
  function Meet(s: Search, path: seq<nat>, v: nat): Search {
    var next := path + [v];
    if v in s.found then s.(paths := s.paths + [next])
    else Search(s.queue + [Visit(v, next)], s.found[v := next], s.paths + [next])
  }

  function MeetAll(s: Search, path: seq<nat>, symbols: seq<nat>): Search {
    if symbols == [] then s
    else Meet(MeetAll(s, path, symbols[..|symbols| - 1]), path, symbols[|symbols| - 1])
  }

  ghost predicate InQueue(queue: seq<Visit>, u: nat) {
    exists visit :: visit in queue && visit.symbol == u
  }

  /** The queue holds found symbols with their paths, nearest first, spanning at most two
      distances; everything found is at most one step further than its front. */
  ghost predicate Queued(s: Search, near: nat) {
    && (forall visit :: visit in s.queue ==> visit.symbol in s.found && s.found[visit.symbol] == visit.path)
    && (forall i :: 0 <= i < |s.queue| ==> near <= |s.queue[i].path| <= near + 1)
    && (forall i, j :: 0 <= i < j < |s.queue| ==> |s.queue[i].path| <= |s.queue[j].path|)
    && (forall v :: v in s.found ==> |s.found[v]| <= near + 1)
  }

  /** Each step out of a symbol continues the path to it as a listed path. */
  ghost predicate Continued(adjacency: map<nat, set<nat>>, s: Search, u: nat)
    requires u in s.found
  {
    forall v :: v in Neighbors(adjacency, u) ==> s.found[u] + [v] in s.paths
  }

  /** Every found symbol that has left the queue is expanded, unless it is at the limit. */
  ghost predicate Settled(adjacency: map<nat, set<nat>>, s: Search, limit: int) {
    forall u :: u in s.found && |s.found[u]| - 1 < limit && !InQueue(s.queue, u) ==>
                  Expanded(adjacency, s.found, u) && Continued(adjacency, s, u)
  }

  /** Every found symbol other than the start was found along a listed path. */
  ghost predicate Listed(s: Search, start: nat) {
    forall v :: v in s.found && v != start ==> s.found[v] in s.paths
  }

  /** Every listed path is a walk of one edge or more, up to the limit. */
  ghost predicate PathsLead(edges: seq<Edge>, direction: Direction, start: nat, limit: int, paths: seq<seq<nat>>) {
    forall p :: p in paths ==> |p| >= 2 && Leads(edges, direction, start, p[|p| - 1], limit, p)
  }

  lemma StepExtendsWalk(edges: seq<Edge>, direction: Direction, start: nat, u: nat, v: nat, limit: int, path: seq<nat>)
    requires Leads(edges, direction, start, u, limit, path) && Step(edges, direction, u, v) && |path| <= limit
    ensures Leads(edges, direction, start, v, limit, path + [v])
  {
    var longer := path + [v];
    forall i | 0 <= i < |longer| - 1
      ensures Step(edges, direction, longer[i], longer[i + 1])
    {
      if i < |path| - 1 {
        assert Step(edges, direction, path[i], path[i + 1]);
      }
    }
  }

  lemma {:induction false} MeetAllExplores(edges: seq<Edge>, direction: Direction, start: nat, limit: int, s: Search,
      u: nat, path: seq<nat>, symbols: seq<nat>)
    requires Explored(edges, direction, start, limit, s.found)
    requires Leads(edges, direction, start, u, limit, path) && |path| <= limit
    requires forall v :: v in symbols ==> Step(edges, direction, u, v)
    requires PathsLead(edges, direction, start, limit, s.paths)
    ensures Explored(edges, direction, start, limit, MeetAll(s, path, symbols).found)
    ensures PathsLead(edges, direction, start, limit, MeetAll(s, path, symbols).paths)
  {
    if symbols != [] {
      MeetAllExplores(edges, direction, start, limit, s, u, path, symbols[..|symbols| - 1]);
      StepExtendsWalk(edges, direction, start, u, symbols[|symbols| - 1], limit, path);
    }
  }

  lemma {:induction false} MeetAllQueues(s: Search, path: seq<nat>, symbols: seq<nat>)
    requires Queued(s, |path|)
    ensures Queued(MeetAll(s, path, symbols), |path|)
  {
    if symbols != [] {
      MeetAllQueues(s, path, symbols[..|symbols| - 1]);
    }
  }

  /** What was found stays found along the same path; what is new waits in the queue. */
  lemma {:induction false} MeetAllKeeps(s: Search, path: seq<nat>, symbols: seq<nat>, u: nat)
    ensures u in s.found ==> u in MeetAll(s, path, symbols).found && MeetAll(s, path, symbols).found[u] == s.found[u]
    ensures u in symbols ==> u in MeetAll(s, path, symbols).found
    ensures u in MeetAll(s, path, symbols).found ==>
        u in s.found || (u in symbols && InQueue(MeetAll(s, path, symbols).queue, u))
    ensures InQueue(s.queue, u) ==> InQueue(MeetAll(s, path, symbols).queue, u)
  {
    if symbols != [] {
      var front, last := symbols[..|symbols| - 1], symbols[|symbols| - 1];
      var before := MeetAll(s, path, front);
      MeetAllKeeps(s, path, front, u);
      var after := MeetAll(s, path, symbols);
      if InQueue(before.queue, u) {
        var visit :| visit in before.queue && visit.symbol == u;
        assert visit in after.queue;
      }
      if last !in before.found {
        assert Visit(last, path + [last]) in after.queue;
      }
    }
  }

  lemma {:induction false} MeetAllLists(s: Search, path: seq<nat>, symbols: seq<nat>, start: nat)
    requires Listed(s, start)
    ensures Listed(MeetAll(s, path, symbols), start)
    ensures forall p :: p in s.paths ==> p in MeetAll(s, path, symbols).paths
    ensures forall v :: v in symbols ==> path + [v] in MeetAll(s, path, symbols).paths
  {
    if symbols != [] {
      MeetAllLists(s, path, symbols[..|symbols| - 1], start);
    }
  }

  /** The state after taking one visit from the queue. */
  function Advance(adjacency: map<nat, set<nat>>, s: Search, limit: int): Search
    requires s.queue != []
  {
    var visit := s.queue[0];
    var popped := s.(queue := s.queue[1..]);
    if |visit.path| - 1 >= limit then popped
    else MeetAll(popped, visit.path, Sorted(Neighbors(adjacency, visit.symbol)))
  }

  /** What every round of the search keeps. */
  ghost predicate Searching(edges: seq<Edge>, direction: Direction, adjacency: map<nat, set<nat>>, start: nat,
      limit: int, s: Search) {
    && Adjacent(adjacency, edges, direction) && Explored(edges, direction, start, limit, s.found)
    && (exists near: nat :: Queued(s, near)) && Settled(adjacency, s, limit) && Listed(s, start)
    && PathsLead(edges, direction, start, limit, s.paths)
  }

  lemma PopQueues(s: Search, near: nat)
    requires s.queue != [] && Queued(s, near)
    ensures Queued(s.(queue := s.queue[1..]), |s.queue[0].path|)
  {
    var popped := s.(queue := s.queue[1..]);
    assert s.queue[0] in s.queue;
    forall i | 0 <= i < |popped.queue|
      ensures |s.queue[0].path| <= |popped.queue[i].path| <= |s.queue[0].path| + 1
    {
      assert popped.queue[i] == s.queue[i + 1];
    }
    assert forall visit :: visit in popped.queue ==> visit in s.queue;
    assert forall i, j ::
        0 <= i < j < |popped.queue| ==> popped.queue[i] == s.queue[i + 1] && popped.queue[j] == s.queue[j + 1];
  }

  lemma AdvanceSettles(adjacency: map<nat, set<nat>>, s: Search, limit: int, start: nat, near: nat, u: nat)
    requires s.queue != [] && Queued(s, near) && Settled(adjacency, s, limit) && Listed(s, start)
    requires
      var after := Advance(adjacency, s, limit);
      u in after.found && |after.found[u]| - 1 < limit && !InQueue(after.queue, u)
    ensures Expanded(adjacency, Advance(adjacency, s, limit).found, u)
    ensures Continued(adjacency, Advance(adjacency, s, limit), u)
  {
    var visit := s.queue[0];
    var popped := s.(queue := s.queue[1..]);
    var after := Advance(adjacency, s, limit);
    assert visit in s.queue;
    if |visit.path| - 1 < limit {
      var symbols := Sorted(Neighbors(adjacency, visit.symbol));
      MeetAllKeeps(popped, visit.path, symbols, u);
      MeetAllLists(popped, visit.path, symbols, start);
      PopQueues(s, near);
      MeetAllQueues(popped, visit.path, symbols);
      if u != visit.symbol {
        assert Expanded(adjacency, s.found, u) && Continued(adjacency, s, u);
      }
      forall v | v in Neighbors(adjacency, u)
        ensures v in after.found && |after.found[v]| <= |after.found[u]| + 1
      {
        MeetAllKeeps(popped, visit.path, symbols, v);
      }
    }
  }

  lemma AdvanceKeeps(edges: seq<Edge>, direction: Direction, adjacency: map<nat, set<nat>>, start: nat, limit: int,
      s: Search)
    requires Searching(edges, direction, adjacency, start, limit, s) && s.queue != []
    ensures Searching(edges, direction, adjacency, start, limit, Advance(adjacency, s, limit))
  {
    var near: nat :| Queued(s, near);
    var visit := s.queue[0];
    var popped := s.(queue := s.queue[1..]);
    var after := Advance(adjacency, s, limit);
    assert visit in s.queue;
    PopQueues(s, near);
    forall u | u in after.found && |after.found[u]| - 1 < limit && !InQueue(after.queue, u)
      ensures Expanded(adjacency, after.found, u) && Continued(adjacency, after, u)
    {
      AdvanceSettles(adjacency, s, limit, start, near, u);
    }
    if |visit.path| - 1 < limit {
      var symbols := Sorted(Neighbors(adjacency, visit.symbol));
      MeetAllExplores(edges, direction, start, limit, popped, visit.symbol, visit.path, symbols);
      MeetAllQueues(popped, visit.path, symbols);
      MeetAllLists(popped, visit.path, symbols, start);
    }
  }

  // ----------------------------------------------------------------- the imperative search

  ghost function Symbols(edges: seq<Edge>, start: nat): set<nat> {
    {start} + (set e | e in edges :: e.source) + (set e | e in edges :: e.target)
  }

  lemma {:induction false} MeetAllMeasure(s: Search, path: seq<nat>, symbols: seq<nat>)
    ensures s.found.Keys <= MeetAll(s, path, symbols).found.Keys
    ensures MeetAll(s, path, symbols).found.Keys == s.found.Keys ==> MeetAll(s, path, symbols).queue == s.queue
    ensures forall v :: v in MeetAll(s, path, symbols).found ==> v in s.found || v in symbols
  {
    if symbols != [] {
      MeetAllMeasure(s, path, symbols[..|symbols| - 1]);
    }
  }

  /** Visiting the neighbors of one symbol in order. */
  method Expand(symbols: seq<nat>, visit: Visit, queue: seq<Visit>, visited: set<nat>, paths: seq<seq<nat>>,
      ghost s: Search)
    returns (nextQueue: seq<Visit>, nextVisited: set<nat>, nextPaths: seq<seq<nat>>)
    requires s.queue == queue && s.found.Keys == visited && s.paths == paths
    ensures
      var after := MeetAll(s, visit.path, symbols);
      after.queue == nextQueue && after.found.Keys == nextVisited && after.paths == nextPaths
  {
    nextQueue, nextVisited, nextPaths := queue, visited, paths;
    for i := 0 to |symbols|
      invariant
        var after := MeetAll(s, visit.path, symbols[..i]);
        after.queue == nextQueue && after.found.Keys == nextVisited && after.paths == nextPaths
    {
      assert symbols[..i + 1][..i] == symbols[..i];
      var next := visit.path + [symbols[i]];
      nextPaths := nextPaths + [next];
      if symbols[i] !in nextVisited {
        nextVisited := nextVisited + {symbols[i]};
        nextQueue := nextQueue + [Visit(symbols[i], next)];
      }
    }
    assert symbols[..|symbols|] == symbols;
  }

  lemma StartSearching(edges: seq<Edge>, direction: Direction, adjacency: map<nat, set<nat>>, start: nat, limit: nat)
    requires Adjacent(adjacency, edges, direction)
    ensures Searching(edges, direction, adjacency, start, limit,
        Search([Visit(start, [start])], map[start := [start]], []))
  {
    var s := Search([Visit(start, [start])], map[start := [start]], []);
    assert Queued(s, 1);
    assert InQueue(s.queue, start) by { assert s.queue[0] in s.queue; }
  }

  /** Each round either finds a new symbol or shortens the queue. */
  lemma AdvanceMeasure(edges: seq<Edge>, direction: Direction, adjacency: map<nat, set<nat>>, start: nat, limit: int,
      s: Search)
    requires Adjacent(adjacency, edges, direction) && s.queue != [] && s.found.Keys <= Symbols(edges, start)
    ensures
      var after := Advance(adjacency, s, limit);
      && s.found.Keys <= after.found.Keys <= Symbols(edges, start)
      && (after.found.Keys == s.found.Keys ==> |after.queue| < |s.queue|)
  {
    var visit := s.queue[0];
    MeetAllMeasure(s.(queue := s.queue[1..]), visit.path, Sorted(Neighbors(adjacency, visit.symbol)));
  }

  /** Taking one visit from the queue. */
  method Round(adjacency: map<nat, set<nat>>, limit: nat, queue: seq<Visit>, visited: set<nat>, paths: seq<seq<nat>>,
               ghost edges: seq<Edge>, ghost direction: Direction, ghost start: nat, ghost s: Search)
    returns (nextQueue: seq<Visit>, nextVisited: set<nat>, nextPaths: seq<seq<nat>>, ghost after: Search)
    requires Searching(edges, direction, adjacency, start, limit, s)
    requires queue != [] && s.queue == queue && s.found.Keys == visited <= Symbols(edges, start) && s.paths == paths
    ensures Searching(edges, direction, adjacency, start, limit, after)
    ensures after.queue == nextQueue && after.found.Keys == nextVisited && after.paths == nextPaths
    ensures visited <= nextVisited <= Symbols(edges, start)
    ensures nextVisited == visited ==> |nextQueue| < |queue|
  {
    after := Advance(adjacency, s, limit);
    AdvanceKeeps(edges, direction, adjacency, start, limit, s);
    AdvanceMeasure(edges, direction, adjacency, start, limit, s);
    var visit := queue[0];
    nextQueue, nextVisited, nextPaths := queue[1..], visited, paths;
    if |visit.path| - 1 < limit {
      var symbols := Sorted(Neighbors(adjacency, visit.symbol));
      nextQueue, nextVisited, nextPaths := Expand(symbols, visit, nextQueue, visited, paths, s.(queue := nextQueue));
    }
  }

  method Explore(adjacency: map<nat, set<nat>>, start: nat, limit: nat, ghost edges: seq<Edge>,
      ghost direction: Direction)
    returns (visited: set<nat>, paths: seq<seq<nat>>, ghost s: Search)
    requires Adjacent(adjacency, edges, direction)
    ensures Searching(edges, direction, adjacency, start, limit, s) && s.queue == []
    ensures visited == s.found.Keys && paths == s.paths
  {
    var queue := [Visit(start, [start])];
    visited, paths := {start}, [];
    s := Search(queue, map[start := [start]], []);
    StartSearching(edges, direction, adjacency, start, limit);
    ghost var universe := Symbols(edges, start);
    while queue != []
      invariant Searching(edges, direction, adjacency, start, limit, s)
      invariant s.queue == queue && s.found.Keys == visited && s.paths == paths
      invariant visited <= universe
      decreases universe - visited, |queue|
    {
      queue, visited, paths, s := Round(adjacency, limit, queue, visited, paths, edges, direction, start, s);
    }
  }

  // ------------------------------------------------------------------------ main results

  /** A shortest walk from the start. */
  ghost predicate Shortest(edges: seq<Edge>, direction: Direction, start: nat, path: seq<nat>) {
    && path != [] && Walk(edges, direction, path) && path[0] == start
    && forall other :: Walk(edges, direction, other) && other[0] == start && other[|other| - 1] == path[|path| - 1] ==>
                         |path| <= |other|
  }

  ghost predicate ReachedWithin(edges: seq<Edge>, direction: Direction, start: nat, v: nat, limit: int) {
    exists path :: Leads(edges, direction, start, v, limit, path)
  }

  ghost predicate HasShortestPath(edges: seq<Edge>, direction: Direction, start: nat, v: nat, paths: seq<seq<nat>>) {
    exists path :: path in paths && Shortest(edges, direction, start, path) && path[|path| - 1] == v
  }

  ghost predicate StepListed(u: nat, v: nat, paths: seq<seq<nat>>) {
    exists path :: path in paths && |path| >= 2 && path[|path| - 1] == v && path[|path| - 2] == u
  }

  /** The answer: exactly the other symbols within the limit, a shortest path to each of them, only
      walks within the limit, and every step out of a symbol nearer than the limit. */
  ghost predicate Exact(edges: seq<Edge>, direction: Direction, start: nat, limit: nat, visited: set<nat>,
      paths: seq<seq<nat>>) {
    && (forall v :: v in visited <==> ReachedWithin(edges, direction, start, v, limit))
    && (forall v :: v in visited && v != start ==> HasShortestPath(edges, direction, start, v, paths))
    && PathsLead(edges, direction, start, limit, paths)
    && (forall u, v ::
        ReachedWithin(edges, direction, start, u, limit - 1) && Step(edges, direction, u, v) ==>
        StepListed(u, v, paths))
  }

  lemma StepIsListed(edges: seq<Edge>, direction: Direction, adjacency: map<nat, set<nat>>, start: nat, limit: nat,
      s: Search, u: nat, v: nat)
    requires Searching(edges, direction, adjacency, start, limit, s) && s.queue == []
    requires ReachedWithin(edges, direction, start, u, limit - 1) && Step(edges, direction, u, v)
    ensures StepListed(u, v, s.paths)
  {
    assert forall w :: w in s.found && |s.found[w]| - 1 < limit ==> Expanded(adjacency, s.found, w);
    var path :| Leads(edges, direction, start, u, limit - 1, path);
    WalksAreCovered(edges, direction, adjacency, start, limit, s.found, path);
    assert Continued(adjacency, s, u) && v in Neighbors(adjacency, u);
    var longer := s.found[u] + [v];
    assert longer in s.paths && longer[|longer| - 2] == u;
  }

  /** An empty queue means the search is exact. */
  lemma FinishedIsExact(edges: seq<Edge>, direction: Direction, adjacency: map<nat, set<nat>>, start: nat, limit: nat,
      s: Search)
    requires Searching(edges, direction, adjacency, start, limit, s) && s.queue == []
    ensures Exact(edges, direction, start, limit, s.found.Keys, s.paths)
  {
    assert forall u :: u in s.found && |s.found[u]| - 1 < limit ==> Expanded(adjacency, s.found, u);
    forall v
      ensures v in s.found <==> ReachedWithin(edges, direction, start, v, limit)
    {
      if v in s.found {
        assert Leads(edges, direction, start, v, limit, s.found[v]);
      } else if ReachedWithin(edges, direction, start, v, limit) {
        var path :| Leads(edges, direction, start, v, limit, path);
        WalksAreCovered(edges, direction, adjacency, start, limit, s.found, path);
      }
    }
    forall v | v in s.found
      ensures Shortest(edges, direction, start, s.found[v])
    {
      FoundIsShortest(edges, direction, adjacency, start, limit, s, v);
    }
    forall u, v | ReachedWithin(edges, direction, start, u, limit - 1) && Step(edges, direction, u, v)
      ensures StepListed(u, v, s.paths)
    {
      StepIsListed(edges, direction, adjacency, start, limit, s, u, v);
    }
  }

  lemma FoundIsShortest(edges: seq<Edge>, direction: Direction, adjacency: map<nat, set<nat>>, start: nat, limit: nat,
      s: Search, v: nat)
    requires Searching(edges, direction, adjacency, start, limit, s) && s.queue == [] && v in s.found
    ensures Shortest(edges, direction, start, s.found[v])
  {
    assert forall u :: u in s.found && |s.found[u]| - 1 < limit ==> Expanded(adjacency, s.found, u);
    forall other | Walk(edges, direction, other) && other[0] == start && other[|other| - 1] == v
      ensures |s.found[v]| <= |other|
    {
      if |other| - 1 <= limit {
        WalksAreCovered(edges, direction, adjacency, start, limit, s.found, other);
      }
    }
  }

  ghost predicate Within(relevant: seq<Edge>, edges: seq<Edge>, visited: set<nat>) {
    && (forall e :: e in relevant ==> e in edges && e.source in visited && e.target in visited)
    && (forall i, j :: 0 <= i < j < |relevant| ==> relevant[i] != relevant[j])
  }

  /** The edges of one symbol that stay among the visited ones, added unless already there. */
  method AddTouching(edges: seq<Edge>, visited: set<nat>, symbol: nat, before: seq<Edge>) returns (relevant: seq<Edge>)
    requires Within(before, edges, visited)
    ensures Within(relevant, edges, visited) && forall e :: e in before ==> e in relevant
    ensures forall e :: e in edges && e.source == symbol && e.source in visited && e.target in visited ==> e in relevant
  {
    relevant := before;
    for k := 0 to |edges|
      invariant Within(relevant, edges, visited) && forall e :: e in before ==> e in relevant
      invariant forall e ::
          e in edges[..k] && e.source == symbol && e.source in visited && e.target in visited ==> e in relevant
    {
      var e := edges[k];
      assert edges[..k + 1] == edges[..k] + [e];
      if (e.source == symbol || e.target == symbol) && e.source in visited && e.target in visited && e !in relevant {
        relevant := relevant + [e];
      }
    }
    assert edges[..|edges|] == edges;
  }

  /** The edges between visited symbols, each once. */
  method RelevantEdges(edges: seq<Edge>, visited: set<nat>) returns (relevant: seq<Edge>)
    ensures forall e :: e in relevant <==> e in edges && e.source in visited && e.target in visited
    ensures forall i, j :: 0 <= i < j < |relevant| ==> relevant[i] != relevant[j]
  {
    relevant := [];
    var symbols := Sorted(visited);
    for i := 0 to |symbols|
      invariant Within(relevant, edges, visited)
      invariant forall e :: e in edges && e.source in symbols[..i] && e.target in visited ==> e in relevant
    {
      assert symbols[..i + 1] == symbols[..i] + [symbols[i]];
      relevant := AddTouching(edges, visited, symbols[i], relevant);
    }
    assert symbols[..|symbols|] == symbols;
  }

  /** By kind, then source, then target. */
  predicate EdgeBefore(a: Edge, b: Edge) {
    if a.kind != b.kind then a.kind < b.kind else if a.source != b.source then a.source < b.source
        else a.target < b.target
  }

  ghost predicate EdgesInOrder(s: seq<Edge>) {
    forall i, j :: 0 <= i < j < |s| ==> EdgeBefore(s[i], s[j])
  }

  /** The sorted edges with one more. */
  function WithEdge(s: seq<Edge>, e: Edge): (r: seq<Edge>)
    ensures forall x :: x in r <==> x in s || x == e
    ensures EdgesInOrder(s) && e !in s ==> EdgesInOrder(r)
  {
    if s == [] then [e]
    else
      var n := |s| - 1;
      assert s == s[..n] + [s[n]];
      if EdgeBefore(e, s[n]) then
        var front := WithEdge(s[..n], e);
        assert EdgesInOrder(s) ==> forall x :: x in front ==> EdgeBefore(x, s[n]);
        front + [s[n]]
      else
        assert EdgesInOrder(s) && e !in s ==> forall x :: x in s ==> EdgeBefore(x, e);
        s + [e]
  }

  function SortEdges(s: seq<Edge>): (r: seq<Edge>)
    requires forall i, j :: 0 <= i < j < |s| ==> s[i] != s[j]
    ensures EdgesInOrder(r) && forall x :: x in r <==> x in s
  {
    if s == [] then []
    else
      var n := |s| - 1;
      assert s == s[..n] + [s[n]];
      WithEdge(SortEdges(s[..n]), s[n])
  }

  method FindImpact(symbols: set<nat>, edges: seq<Edge>, symbol: nat, maxDepth: int, directionName: string)
    returns (result: Result<Impact, Failure>)
    ensures symbol !in symbols ==> result == Err(SymbolNotFound)
    ensures symbol in symbols && ParseDirection(directionName).None? ==> result == Err(DirectionInvalid)
    ensures symbol in symbols && ParseDirection(directionName).Some? && !(1 <= maxDepth <= 16) ==>
        result == Err(DepthInvalid)
    ensures symbol in symbols && ParseDirection(directionName).Some? && 1 <= maxDepth <= 16 ==> result.Ok?
    ensures result.Ok? ==>
              && Increasing(result.value.impacted) && symbol !in result.value.impacted
              && Exact(edges, ParseDirection(directionName).value, symbol, maxDepth,
                  {symbol} + (set v | v in result.value.impacted), result.value.paths)
              && EdgesInOrder(result.value.edges)
              && forall e :: e in result.value.edges <==>
                   e in edges && e.source in {symbol} + (set v | v in result.value.impacted)
                       && e.target in {symbol} + (set v | v in result.value.impacted)
  {
    if symbol !in symbols {
      return Err(SymbolNotFound);
    }
    var direction := ParseDirection(directionName);
    if direction.None? {
      return Err(DirectionInvalid);
    }
    if maxDepth < 1 || maxDepth > 16 {
      return Err(DepthInvalid);
    }
    var adjacency := BuildAdjacency(edges, direction.value);
    var visited, paths;
    ghost var s;
    visited, paths, s := Explore(adjacency, symbol, maxDepth, edges, direction.value);
    FinishedIsExact(edges, direction.value, adjacency, symbol, maxDepth, s);
    var relevant := RelevantEdges(edges, visited);
    var impacted := Sorted(visited - {symbol});
    assert symbol in s.found;
    assert visited == {symbol} + (set v | v in impacted);
    return Ok(Impact(impacted, paths, SortEdges(relevant)));
  }
}
