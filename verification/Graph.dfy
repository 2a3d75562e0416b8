/** The dependency relation of a configuration, independent of any graph structure. */
module Dependencies {
  import opened Common

  /** Each configured program with the list it gave in depends_on. */
  type Listing = map<string, seq<string>>

  ghost predicate Edge(deps: Listing, n: string, d: string) {
    n in deps && d in deps && d in deps[n]
  }

  ghost predicate Link(deps: Listing, p: seq<string>, i: nat)
    requires i + 1 < |p|
  {
    Edge(deps, p[i], p[i + 1])
  }

  /** A chain of dependencies: every program is followed by one it depends on. */
  ghost predicate IsChain(deps: Listing, p: seq<string>) {
    && p != []
    && p[0] in deps
    && forall i :: 0 <= i < |p| - 1 ==> Link(deps, p, i)
  }

  ghost predicate WaitsInside(deps: Listing, stuck: set<string>, n: string) {
    exists d :: d in stuck && Edge(deps, n, d)
  }

  ghost predicate IsCycle(deps: Listing, p: seq<string>) {
    IsChain(deps, p) && |p| >= 2 && p[0] == p[|p| - 1]
  }

  ghost predicate Cyclic(deps: Listing) {
    exists p :: IsCycle(deps, p)
  }

  /** No program lists the same configured program twice. */
  ghost predicate ListedOnce(deps: Listing) {
    forall n :: n in deps ==> OnceAt(deps, n)
  }

  ghost predicate NoRepeat(deps: Listing, list: seq<string>) {
    forall i, j :: 0 <= i < j < |list| && list[i] == list[j] ==> list[i] !in deps
  }

  ghost predicate OnceAt(deps: Listing, n: string)
    requires n in deps
  {
    NoRepeat(deps, deps[n])
  }

  /** The longest chain of dependencies starting at n has k edges. */
  ghost predicate LongestChain(deps: Listing, n: string, k: nat) {
    && (exists p :: IsChain(deps, p) && p[0] == n && |p| == k + 1)
    && (forall p :: IsChain(deps, p) && p[0] == n ==> |p| <= k + 1)
  }

  lemma ChainTail(deps: Listing, p: seq<string>, i: nat)
    requires IsChain(deps, p) && i < |p|
    ensures IsChain(deps, p[i..])
  {
    if i > 0 { assert Link(deps, p, i - 1); }
    forall k | 0 <= k < |p[i..]| - 1 ensures Link(deps, p[i..], k) {
      assert Link(deps, p, i + k);
    }
  }

  lemma ChainPrefix(deps: Listing, p: seq<string>, i: nat)
    requires IsChain(deps, p) && 0 < i <= |p|
    ensures IsChain(deps, p[..i])
  {
    forall k | 0 <= k < |p[..i]| - 1 ensures Link(deps, p[..i], k) {
      assert Link(deps, p, k);
    }
  }

  lemma ChainCons(deps: Listing, n: string, p: seq<string>)
    requires IsChain(deps, p) && Edge(deps, n, p[0])
    ensures IsChain(deps, [n] + p) && ([n] + p)[0] == n
  {
    var q := [n] + p;
    forall k | 0 <= k < |q| - 1 ensures Link(deps, q, k) {
      if k > 0 { assert Link(deps, p, k - 1); }
    }
  }

  /** A rank that falls along every edge. */
  ghost predicate Ranks(deps: Listing, rank: map<string, nat>) {
    forall n, d :: Edge(deps, n, d) ==> n in rank && d in rank && rank[d] < rank[n]
  }

  lemma {:induction false} ChainFalls(deps: Listing, rank: map<string, nat>, p: seq<string>)
    requires Ranks(deps, rank) && IsChain(deps, p) && |p| >= 2
    ensures p[0] in rank && p[|p| - 1] in rank
    ensures rank[p[|p| - 1]] + |p| - 1 <= rank[p[0]]
  {
    assert Link(deps, p, 0);
    if |p| > 2 {
      ChainTail(deps, p, 1);
      ChainFalls(deps, rank, p[1..]);
    }
  }

  lemma RankedIsAcyclic(deps: Listing, rank: map<string, nat>)
    requires Ranks(deps, rank)
    ensures !Cyclic(deps)
  {
    forall p | IsCycle(deps, p) ensures false {
      ChainFalls(deps, rank, p);
    }
  }

  /** A walk of any length inside a set every member of which has an edge into the set. */
  lemma {:induction false} WalkInside(deps: Listing, stuck: set<string>, n: string, len: nat)
    returns (p: seq<string>)
    requires n in stuck && stuck <= deps.Keys
    requires forall m :: m in stuck ==> WaitsInside(deps, stuck, m)
    ensures IsChain(deps, p) && |p| == len + 1 && p[0] == n
    ensures forall x :: x in p ==> x in stuck
    decreases len
  {
    if len == 0 {
      p := [n];
    } else {
      var d :| d in stuck && Edge(deps, n, d);
      var q := WalkInside(deps, stuck, d, len - 1);
      ChainCons(deps, n, q);
      p := [n] + q;
    }
  }

  /** A chain that comes back to where it was holds a cycle. */
  lemma ReturnIsCyclic(deps: Listing, p: seq<string>, i: nat, j: nat)
    requires IsChain(deps, p) && i < j < |p| && p[i] == p[j]
    ensures Cyclic(deps)
  {
    hide IsChain;
    ChainPrefix(deps, p, j + 1);
    ChainTail(deps, p[..j + 1], i);
    assert IsCycle(deps, p[..j + 1][i..]);
  }

  /** If every member of a non-empty set waits for another member, there is a cycle. */
  lemma StuckIsCyclic(deps: Listing, stuck: set<string>)
    requires stuck != {} && stuck <= deps.Keys
    requires forall m :: m in stuck ==> WaitsInside(deps, stuck, m)
    ensures Cyclic(deps)
  {
    hide *;
    var n :| n in stuck;
    var p := WalkInside(deps, stuck, n, |stuck|);
    var i, j := Pigeonhole(p, stuck);
    ReturnIsCyclic(deps, p, i, j);
  }
}

/** internal/dependency/graph.go */
module DependencyGraph {
  import opened Common
  import opened Dependencies

  datatype Node = Node(dependencies: seq<string>, dependents: seq<string>)

  type Nodes = map<string, Node>

  function DepsOf(nodes: Nodes): (deps: Listing)
    ensures deps.Keys == nodes.Keys
  {
    map n | n in nodes :: nodes[n].dependencies
  }

  /** Dependents is the duplicate-free inverse of Dependencies among present nodes. */
  ghost predicate Mirrored(nodes: Nodes) {
    forall d :: d in nodes ==>
                  && NoDup(nodes[d].dependents)
                  && forall n :: n in nodes[d].dependents <==> Edge(DepsOf(nodes), n, d)
  }

  /** Two graphs holding the same lists hold the same dependents, however they were built. */
  lemma DependentsDetermined(a: Nodes, b: Nodes, d: string)
    requires Mirrored(a) && Mirrored(b) && DepsOf(a) == DepsOf(b) && d in a
    ensures d in b && multiset(a[d].dependents) == multiset(b[d].dependents)
  {
    assert d in DepsOf(a);
    forall n ensures multiset(a[d].dependents)[n] == multiset(b[d].dependents)[n] {
      CountNoDup(a[d].dependents, n);
      CountNoDup(b[d].dependents, n);
    }
  }

  lemma {:induction false} CountNoDup<T>(s: seq<T>, x: T)
    requires NoDup(s)
    ensures multiset(s)[x] == if x in s then 1 else 0
  {
    if s != [] {
      CountNoDup(s[1..], x);
      assert s == [s[0]] + s[1..];
    }
  }

  /** What a sequence of AddNode calls leaves: the last list given for each name. */
  function LastLists(calls: seq<(string, seq<string>)>): Listing {
    if calls == [] then map[]
    else LastLists(calls[..|calls| - 1])[calls[|calls| - 1].0 := calls[|calls| - 1].1]
  }

  lemma {:induction false} LastListWins(calls: seq<(string, seq<string>)>, i: nat)
    requires i < |calls| && forall j :: i < j < |calls| ==> calls[j].0 != calls[i].0
    ensures calls[i].0 in LastLists(calls) && LastLists(calls)[calls[i].0] == calls[i].1
  {
    var front := calls[..|calls| - 1];
    if i < |front| {
      assert front[i] == calls[i];
      LastListWins(front, i);
    }
  }

  lemma {:induction false} NeverAdded(calls: seq<(string, seq<string>)>, n: string)
    requires forall j :: 0 <= j < |calls| ==> calls[j].0 != n
    ensures n !in LastLists(calls)
  {
    if calls != [] { NeverAdded(calls[..|calls| - 1], n); }
  }

  /** The entries of a list that name a present node, counted with repetition. */
  function Listings(deps: Listing, list: seq<string>): nat {
    if list == [] then 0
    else Listings(deps, list[..|list| - 1]) + if list[|list| - 1] in deps then 1 else 0
  }

  function PresentIn(deps: Listing, list: seq<string>): set<string> {
    set d | d in list && d in deps
  }

  /** Listings exceeds the number of distinct present names exactly when one is repeated. */
  lemma {:induction false} ListingsCount(deps: Listing, list: seq<string>)
    ensures |PresentIn(deps, list)| <= Listings(deps, list)
    ensures |PresentIn(deps, list)| == Listings(deps, list) <==> NoRepeat(deps, list)
  {
    if list != [] {
      var front, last := list[..|list| - 1], list[|list| - 1];
      ListingsCount(deps, front);
      RepeatLast(deps, front, last);
      assert list == front + [last];
      assert PresentIn(deps, list) == PresentIn(deps, front) + (if last in deps then {last} else {});
      hide NoRepeat;
    }
  }

  lemma RepeatLast(deps: Listing, front: seq<string>, last: string)
    ensures NoRepeat(deps, front + [last]) <==> NoRepeat(deps, front) && !(last in front && last in deps)
  {
    var list := front + [last];
    if NoRepeat(deps, list) {
      forall i, j | 0 <= i < j < |front| && front[i] == front[j] ensures front[i] !in deps {
        assert list[i] == front[i] && list[j] == front[j];
      }
      if last in front {
        var i :| 0 <= i < |front| && front[i] == last;
        assert list[i] == list[|front|];
      }
    }
  }

  /** n waits for nothing once the nodes of placed are out of the way. */
  ghost predicate Ready(deps: Listing, placed: set<string>, n: string)
    requires n in deps
  {
    OnceAt(deps, n) && PresentIn(deps, deps[n]) <= placed
  }

  /** The in-degree table after the nodes of placed were processed. */
  ghost predicate Tracks(deps: Listing, placed: set<string>, inDegree: map<string, int>) {
    && inDegree.Keys == deps.Keys
    && forall n :: n in deps ==>
                     inDegree[n] == Listings(deps, deps[n]) - |PresentIn(deps, deps[n]) * placed|
  }

  lemma ZeroIsReady(deps: Listing, placed: set<string>, inDegree: map<string, int>, n: string)
    requires Tracks(deps, placed, inDegree) && n in deps
    ensures inDegree[n] == 0 <==> Ready(deps, placed, n)
  {
    var present := PresentIn(deps, deps[n]);
    ListingsCount(deps, deps[n]);
    SubsetCard(present * placed, present);
    if present <= placed { assert present * placed == present; }
  }

  lemma TracksPlaced(deps: Listing, placed: set<string>, before: map<string, int>, after: map<string, int>, c: string)
    requires Tracks(deps, placed, before) && c in deps && c !in placed
    requires after.Keys == before.Keys
    requires forall n :: n in deps ==> after[n] == before[n] - if Edge(deps, n, c) then 1 else 0
    ensures Tracks(deps, placed + {c}, after)
  {
    forall n | n in deps ensures after[n] == Listings(deps, deps[n]) - |PresentIn(deps, deps[n]) * (placed + {c})| {
      CountPlaced(PresentIn(deps, deps[n]), placed, c);
    }
  }

  lemma CountPlaced(present: set<string>, placed: set<string>, c: string)
    requires c !in placed
    ensures |present * (placed + {c})| == |present * placed| + if c in present then 1 else 0
  {
    assert present * (placed + {c}) == present * placed + (if c in present then {c} else {});
  }

  /** Kahn's frontier: the waiting nodes are those of in-degree zero not yet placed. */
  ghost predicate Frontier(deps: Listing, placed: set<string>, waiting: set<string>, inDegree: map<string, int>) {
    Tracks(deps, placed, inDegree) && Zeros(placed, waiting, inDegree)
  }

  ghost predicate Zeros(placed: set<string>, waiting: set<string>, inDegree: map<string, int>) {
    && placed !! waiting
    && forall n :: n in placed || n in waiting <==> n in inDegree && inDegree[n] == 0
  }

  lemma FrontierKeys(deps: Listing, placed: set<string>, waiting: set<string>, inDegree: map<string, int>)
    requires Frontier(deps, placed, waiting, inDegree)
    ensures inDegree.Keys == deps.Keys
  {
  }

  lemma FrontierIsReady(deps: Listing, placed: set<string>, waiting: set<string>, inDegree: map<string, int>)
    requires Frontier(deps, placed, waiting, inDegree)
    ensures placed <= deps.Keys && waiting <= deps.Keys
    ensures forall n :: n in deps ==> (n in placed || n in waiting <==> Ready(deps, placed, n))
  {
    forall n | n in deps ensures n in placed || n in waiting <==> Ready(deps, placed, n) {
      ZeroIsReady(deps, placed, inDegree, n);
    }
  }

  lemma Advance(deps: Listing, placed: set<string>, waiting: set<string>, before: map<string, int>,
                c: string, after: map<string, int>, freed: set<string>)
    requires Frontier(deps, placed, waiting, before) && c in waiting
    requires after.Keys == before.Keys
    requires forall n :: n in before ==> after[n] == before[n] - if Edge(deps, n, c) then 1 else 0
    requires forall n :: n in freed <==> Edge(deps, n, c) && after[n] == 0
    ensures freed !! waiting && freed !! placed
    ensures Frontier(deps, placed + {c}, waiting - {c} + freed, after)
  {
    TracksPlaced(deps, placed, before, after, c);
    ZeroStays(deps, placed, waiting, before, c);
    var waitsForC := set n | n in before && Edge(deps, n, c);
    AdvanceZeros(placed, waiting, before, c, waitsForC, after, freed);
  }

  lemma AdvanceZeros(placed: set<string>, waiting: set<string>, before: map<string, int>, c: string,
                     waitsForC: set<string>, after: map<string, int>, freed: set<string>)
    requires Zeros(placed, waiting, before) && c in waiting
    requires waitsForC !! placed + waiting && waitsForC <= before.Keys
    requires after.Keys == before.Keys
    requires forall n :: n in before ==> after[n] == before[n] - if n in waitsForC then 1 else 0
    requires forall n :: n in freed <==> n in waitsForC && after[n] == 0
    ensures freed !! waiting && freed !! placed
    ensures Zeros(placed + {c}, waiting - {c} + freed, after)
  {
  }

  lemma ZeroStays(deps: Listing, placed: set<string>, waiting: set<string>, inDegree: map<string, int>, c: string)
    requires Frontier(deps, placed, waiting, inDegree) && c in waiting
    ensures forall n :: n in placed || n in waiting ==> !Edge(deps, n, c)
  {
    FrontierIsReady(deps, placed, waiting, inDegree);
    forall n | n in placed || n in waiting ensures !Edge(deps, n, c) {
      assert n in deps && Ready(deps, placed, n);
      assert c !in PresentIn(deps, deps[n]);
    }
  }

  /** What Kahn's algorithm leaves over is a cycle, or a name listed twice. */
  lemma LeftOver(deps: Listing, placed: set<string>)
    requires placed < deps.Keys
    requires forall n :: n in deps && Ready(deps, placed, n) ==> n in placed
    ensures Cyclic(deps) || !ListedOnce(deps)
  {
    if ListedOnce(deps) {
      var stuck := deps.Keys - placed;
      var w :| w in deps.Keys && w !in placed;
      assert w in stuck;
      forall m | m in stuck ensures WaitsInside(deps, stuck, m) {
        var d :| d in PresentIn(deps, deps[m]) && d !in placed;
        assert d in stuck && Edge(deps, m, d);
      }
      StuckIsCyclic(deps, stuck);
    }
  }

  ghost predicate DependenciesFirst(deps: Listing, order: seq<string>) {
    forall i, d :: 0 <= i < |order| && Edge(deps, order[i], d) ==> d in order[..i]
  }

  lemma AppendReady(deps: Listing, order: seq<string>, n: string)
    requires DependenciesFirst(deps, order) && n in deps && Ready(deps, Elements(order), n)
    ensures DependenciesFirst(deps, order + [n])
  {
    var longer := order + [n];
    forall i, d | 0 <= i < |longer| && Edge(deps, longer[i], d) ensures d in longer[..i] {
      if i < |order| {
        assert longer[..i] == order[..i] && longer[i] == order[i];
      } else {
        assert longer[..i] == order && d in PresentIn(deps, deps[n]);
      }
    }
  }

  /** Every configured program once, dependencies before their dependents. */
  ghost predicate IsOrder(deps: Listing, order: seq<string>) {
    NoDup(order) && Elements(order) == deps.Keys && DependenciesFirst(deps, order)
  }

  lemma OrderIsAcyclic(deps: Listing, order: seq<string>)
    requires IsOrder(deps, order)
    ensures !Cyclic(deps)
  {
    var rank: map<string, nat> := map n | n in deps :: IndexIn(order, n);
    forall n, d | Edge(deps, n, d) ensures n in rank && d in rank && rank[d] < rank[n] {
      assert n in Elements(order);
      assert order[IndexIn(order, n)] == n;
      var j :| 0 <= j < IndexIn(order, n) && order[j] == d;
      assert order[IndexIn(order, d)] == d && IndexIn(order, d) == j;
    }
    RankedIsAcyclic(deps, rank);
  }

  ghost function IndexIn(s: seq<string>, n: string): (i: nat)
    ensures n in s ==> i < |s| && s[i] == n
  {
    if n in s then var i :| 0 <= i < |s| && s[i] == n; i else 0
  }

  ghost predicate SortLoop(deps: Listing, result: seq<string>, queue: seq<string>, inDegree: map<string, int>) {
    && NoDup(result) && NoDup(queue)
    && Frontier(deps, Elements(result), Elements(queue), inDegree)
    && DependenciesFirst(deps, result)
  }

  lemma SortStart(deps: Listing, queue: seq<string>, inDegree: map<string, int>)
    requires Tracks(deps, {}, inDegree) && NoDup(queue)
    requires forall n :: n in queue <==> n in inDegree && inDegree[n] == 0
    ensures SortLoop(deps, [], queue, inDegree)
  {
    assert Elements<string>([]) == {};
  }

  lemma QueueHead(deps: Listing, result: seq<string>, queue: seq<string>, inDegree: map<string, int>)
    requires SortLoop(deps, result, queue, inDegree) && queue != []
    ensures queue[0] in deps && inDegree.Keys == deps.Keys
  {
  }

  lemma QueueStep(deps: Listing, result: seq<string>, queue: seq<string>, before: map<string, int>,
                  after: map<string, int>, freed: seq<string>)
    requires SortLoop(deps, result, queue, before) && queue != [] && NoDup(freed)
    requires after.Keys == before.Keys
    requires forall n :: n in before ==> after[n] == before[n] - if Edge(deps, n, queue[0]) then 1 else 0
    requires forall n :: n in freed <==> Edge(deps, n, queue[0]) && after[n] == 0
    ensures SortLoop(deps, result + [queue[0]], queue[1..] + freed, after)
    ensures Elements(result) < Elements(result + [queue[0]]) <= deps.Keys
  {
    hide Tracks;
    var current := queue[0];
    assert current in Elements(queue) && queue == [current] + queue[1..];
    FrontierIsReady(deps, Elements(result), Elements(queue), before);
    Advance(deps, Elements(result), Elements(queue), before, current, after, Elements(freed));
    AppendReady(deps, result, current);
    NoDupAppend(result, [current]);
    assert Elements(queue[1..]) == Elements(queue) - {current};
    NoDupAppend(queue[1..], freed);
    assert Elements(queue[1..] + freed) == Elements(queue) - {current} + Elements(freed);
    assert Elements(result + [current]) == Elements(result) + {current};
  }

  lemma SortOutcome(deps: Listing, result: seq<string>, inDegree: map<string, int>)
    requires SortLoop(deps, result, [], inDegree)
    ensures |result| == |deps.Keys| <==> !Cyclic(deps) && ListedOnce(deps)
    ensures |result| == |deps.Keys| ==> IsOrder(deps, result)
  {
    assert Elements<string>([]) == {};
    FrontierIsReady(deps, Elements(result), {}, inDegree);
    NoDupCard(result);
    PlacedOutcome(deps, Elements(result));
    if |result| == |deps.Keys| { OrderIsAcyclic(deps, result); }
  }

  lemma PlacedOutcome(deps: Listing, placed: set<string>)
    requires placed <= deps.Keys
    requires forall n :: n in deps ==> (n in placed <==> Ready(deps, placed, n))
    ensures |placed| == |deps.Keys| ==> placed == deps.Keys && ListedOnce(deps)
    ensures |placed| != |deps.Keys| ==> Cyclic(deps) || !ListedOnce(deps)
  {
    SubsetCard(placed, deps.Keys);
    if placed != deps.Keys { LeftOver(deps, placed); }
  }

  ghost predicate InTier(tiers: seq<seq<string>>, n: string, k: nat) {
    k < |tiers| && n in tiers[k]
  }

  /** Each placed node is in the tier numbered by its longest chain of dependencies. */
  ghost predicate TiersOf(deps: Listing, placed: set<string>, tiers: seq<seq<string>>) {
    && (forall n :: n in placed ==> exists k :: InTier(tiers, n, k))
    && (forall n, k :: InTier(tiers, n, k) ==> n in placed && LongestChain(deps, n, k))
    && (forall k :: 0 <= k < |tiers| ==> tiers[k] != [] && Sorted(tiers[k]) && NoDup(tiers[k]))
  }

  ghost predicate AreTiers(deps: Listing, tiers: seq<seq<string>>) {
    TiersOf(deps, deps.Keys, tiers)
  }

  /** A node is in one tier only. */
  lemma TierUnique(deps: Listing, tiers: seq<seq<string>>, n: string, j: nat, k: nat)
    requires AreTiers(deps, tiers) && InTier(tiers, n, j) && InTier(tiers, n, k)
    ensures j == k
  {
  }

  /** A dependency is in an earlier tier than its dependent. */
  lemma TierOfDependency(deps: Listing, tiers: seq<seq<string>>, n: string, d: string, j: nat, k: nat)
    requires AreTiers(deps, tiers) && InTier(tiers, n, j) && InTier(tiers, d, k) && Edge(deps, n, d)
    ensures k < j
  {
    assert LongestChain(deps, n, j) && LongestChain(deps, d, k);
    var p :| IsChain(deps, p) && p[0] == d && |p| == k + 1;
    ChainCons(deps, n, p);
  }

  /** No grouping that keeps dependencies before dependents uses fewer groups. */
  lemma FewestTiers(deps: Listing, tiers: seq<seq<string>>, group: map<string, nat>, groups: nat)
    requires AreTiers(deps, tiers)
    requires forall n :: n in deps ==> n in group && group[n] < groups
    requires Ranks(deps, group)
    ensures |tiers| <= groups
  {
    if tiers != [] {
      var k := |tiers| - 1;
      var n := tiers[k][0];
      assert InTier(tiers, n, k) && LongestChain(deps, n, k);
      var p :| IsChain(deps, p) && p[0] == n && |p| == k + 1;
      if |p| >= 2 {
        ChainFalls(deps, group, p);
      }
    }
  }

  lemma TiersAreAcyclic(deps: Listing, tiers: seq<seq<string>>)
    requires AreTiers(deps, tiers)
    ensures !Cyclic(deps)
  {
    var rank: map<string, nat> := map n | n in deps :: TierOf(deps, tiers, n);
    forall n, d | Edge(deps, n, d) ensures n in rank && d in rank && rank[d] < rank[n] {
      TierOfDependency(deps, tiers, n, d, rank[n], rank[d]);
    }
    RankedIsAcyclic(deps, rank);
  }

  ghost function TierOf(deps: Listing, tiers: seq<seq<string>>, n: string): (k: nat)
    requires AreTiers(deps, tiers) && n in deps
    ensures InTier(tiers, n, k)
  {
    var k: nat :| InTier(tiers, n, k);
    k
  }

  /** A node that only waits for placed ones, one of them in the last tier, goes in the next. */
  lemma ReadyIsNextTier(deps: Listing, placed: set<string>, tiers: seq<seq<string>>, n: string)
    requires TiersOf(deps, placed, tiers) && n in deps && Ready(deps, placed, n)
    requires tiers != [] ==> WaitsInside(deps, Elements(tiers[|tiers| - 1]), n)
    ensures LongestChain(deps, n, |tiers|)
  {
    if tiers == [] {
      assert IsChain(deps, [n]);
    } else {
      var d :| d in Elements(tiers[|tiers| - 1]) && Edge(deps, n, d);
      assert InTier(tiers, d, |tiers| - 1) && LongestChain(deps, d, |tiers| - 1);
      var p :| IsChain(deps, p) && p[0] == d && |p| == |tiers| - 1 + 1;
      ChainCons(deps, n, p);
    }
    forall p | IsChain(deps, p) && p[0] == n ensures |p| <= |tiers| + 1 {
      if |p| > 1 {
        assert Link(deps, p, 0);
        assert p[1] in PresentIn(deps, deps[n]);
        var k: nat :| InTier(tiers, p[1], k);
        ChainTail(deps, p, 1);
        assert p[1..][0] == p[1];
        assert LongestChain(deps, p[1], k);
      }
    }
  }

  lemma AppendTier(deps: Listing, placed: set<string>, tiers: seq<seq<string>>, tier: seq<string>)
    requires TiersOf(deps, placed, tiers)
    requires tier != [] && Sorted(tier) && NoDup(tier)
    requires forall n :: n in tier ==> n in deps && Ready(deps, placed, n)
    requires tiers != [] ==> forall n :: n in tier ==> WaitsInside(deps, Elements(tiers[|tiers| - 1]), n)
    ensures TiersOf(deps, placed + Elements(tier), tiers + [tier])
  {
    var longer := tiers + [tier];
    forall n | n in placed + Elements(tier) ensures exists k :: InTier(longer, n, k) {
      if n in tier {
        assert InTier(longer, n, |tiers|);
      } else {
        var k: nat :| InTier(tiers, n, k);
        assert InTier(longer, n, k);
      }
    }
    forall n, k: nat | InTier(longer, n, k) ensures n in placed + Elements(tier) && LongestChain(deps, n, k) {
      if k < |tiers| {
        assert InTier(tiers, n, k);
      } else {
        ReadyIsNextTier(deps, placed, tiers, n);
      }
    }
  }

  ghost predicate TierLoop(deps: Listing, placed: set<string>, tiers: seq<seq<string>>, current: seq<string>,
                           inDegree: map<string, int>) {
    && NoDup(current)
    && Frontier(deps, placed, Elements(current), inDegree)
    && TiersOf(deps, placed, tiers)
    && (tiers != [] ==> forall n :: n in current ==> WaitsInside(deps, Elements(tiers[|tiers| - 1]), n))
  }

  lemma TiersStart(deps: Listing, current: seq<string>, inDegree: map<string, int>)
    requires Tracks(deps, {}, inDegree) && NoDup(current)
    requires forall n :: n in current <==> n in inDegree && inDegree[n] == 0
    ensures TierLoop(deps, {}, [], current, inDegree)
  {
  }

  lemma TierStep(deps: Listing, placed: set<string>, tiers: seq<seq<string>>, tier: seq<string>,
                 inDegree: map<string, int>)
    requires TiersOf(deps, placed, tiers)
    requires tier != [] && Sorted(tier) && NoDup(tier)
    requires Frontier(deps, placed, Elements(tier), inDegree)
    requires tiers != [] ==> forall n :: n in tier ==> WaitsInside(deps, Elements(tiers[|tiers| - 1]), n)
    ensures TiersOf(deps, placed + Elements(tier), tiers + [tier])
    ensures placed < placed + Elements(tier) <= deps.Keys
    ensures |placed + Elements(tier)| == |placed| + |tier|
  {
    FrontierIsReady(deps, placed, Elements(tier), inDegree);
    assert tier[0] in Elements(tier);
    NoDupCard(tier);
    AppendTier(deps, placed, tiers, tier);
  }

  lemma TiersOutcome(deps: Listing, placed: set<string>, tiers: seq<seq<string>>, current: seq<string>,
                     inDegree: map<string, int>)
    requires TierLoop(deps, placed, tiers, current, inDegree) && current == []
    ensures |placed| == |deps.Keys| <==> !Cyclic(deps) && ListedOnce(deps)
    ensures |placed| == |deps.Keys| ==> AreTiers(deps, tiers)
  {
    assert Elements(current) == {};
    FrontierIsReady(deps, placed, {}, inDegree);
    PlacedOutcome(deps, placed);
    if |placed| == |deps.Keys| { TiersAreAcyclic(deps, tiers); }
  }

  lemma MemberStep(deps: Listing, placed: set<string>, tier: seq<string>, i: nat, next: seq<string>,
                   before: map<string, int>, after: map<string, int>, freed: seq<string>)
    requires i < |tier| && NoDup(tier) && NoDup(next) && NoDup(freed)
    requires Elements(next) !! Elements(tier)
    requires Frontier(deps, placed + Elements(tier[..i]), Elements(tier[i..]) + Elements(next), before)
    requires after.Keys == before.Keys
    requires forall n :: n in before ==> after[n] == before[n] - if Edge(deps, n, tier[i]) then 1 else 0
    requires forall n :: n in freed <==> Edge(deps, n, tier[i]) && after[n] == 0
    ensures NoDup(next + freed) && Elements(next + freed) !! Elements(tier)
    ensures Frontier(deps, placed + Elements(tier[..i + 1]), Elements(tier[i + 1..]) + Elements(next + freed), after)
    ensures forall n :: n in freed ==> WaitsInside(deps, Elements(tier), n)
  {
    hide Tracks;
    var done, waiting := placed + Elements(tier[..i]), Elements(tier[i..]) + Elements(next);
    assert tier[i..][0] == tier[i] && tier[i] in Elements(tier);
    Advance(deps, done, waiting, before, tier[i], after, Elements(freed));
    assert done + {tier[i]} == placed + Elements(tier[..i + 1]);
    assert Elements(tier[i + 1..]) == Elements(tier[i..]) - {tier[i]} by {
      assert tier[i..] == [tier[i]] + tier[i + 1..];
    }
    assert Elements(tier) == Elements(tier[..i]) + Elements(tier[i..]);
    NoDupAppend(next, freed);
    assert waiting - {tier[i]} + Elements(freed) == Elements(tier[i + 1..]) + Elements(next + freed);
  }

  method Without(list: seq<string>, name: string) returns (kept: seq<string>)
    requires NoDup(list)
    ensures NoDup(kept)
    ensures forall n :: n in kept <==> n in list && n != name
  {
    kept := [];
    for i := 0 to |list|
      invariant NoDup(kept)
      invariant forall n :: n in kept <==> n in list[..i] && n != name
    {
      if list[i] != name {
        assert list[i] !in list[..i];
        kept := kept + [list[i]];
      }
    }
    assert list[..|list|] == list;
  }

  class Graph {
    var nodes: Nodes

    constructor ()
      ensures nodes == map[] && Mirrored(nodes)
    {
      nodes := map[];
    }

    /** graph.go: replaces or adds a node and keeps Dependents the inverse of Dependencies. */
    method AddNode(name: string, dependencies: seq<string>)
      requires Mirrored(nodes)
      modifies this
      ensures Mirrored(nodes)
      ensures DepsOf(nodes) == DepsOf(old(nodes))[name := dependencies]
    {
      ghost var lists := DepsOf(nodes);
      if name in nodes {
        ForgetDependent(name, nodes[name].dependencies);
        assert forall d :: d in nodes ==> d in lists;
        nodes := nodes[name := nodes[name].(dependencies := dependencies)];
      } else {
        nodes := nodes[name := Node(dependencies, [])];
      }
      ghost var updated := lists[name := dependencies];
      assert DepsOf(nodes) == updated;
      assert forall d :: d in nodes ==> NoDup(nodes[d].dependents);
      assert forall d, n :: d in nodes && d != name ==>
          (n in nodes[d].dependents <==> n != name && Edge(updated, n, d));
      assert forall n :: n in nodes[name].dependents ==> n != name && Edge(updated, n, name);

      RecordDependent(name, dependencies);
      AdoptDependents(name);
    }

    method ForgetDependent(name: string, list: seq<string>)
      requires Mirrored(nodes) && name in nodes && list == nodes[name].dependencies
      modifies this
      ensures DepsOf(nodes) == old(DepsOf(nodes))
      ensures forall d :: d in nodes ==> NoDup(nodes[d].dependents)
      ensures forall d, n :: d in nodes ==>
                (n in nodes[d].dependents <==> n != name && Edge(DepsOf(nodes), n, d))
    {
      for i := 0 to |list|
        invariant DepsOf(nodes) == old(DepsOf(nodes)) && nodes.Keys == old(nodes).Keys
        invariant forall d :: d in nodes ==> NoDup(nodes[d].dependents)
        invariant forall d, n :: d in nodes ==>
                    (n in nodes[d].dependents <==>
                     n in old(nodes)[d].dependents && !(n == name && d in list[..i]))
      {
        if list[i] in nodes {
          var kept := Without(nodes[list[i]].dependents, name);
          nodes := nodes[list[i] := nodes[list[i]].(dependents := kept)];
        }
      }
      assert list[..|list|] == list;
      assert name in DepsOf(old(nodes));
    }

    method RecordDependent(name: string, list: seq<string>)
      requires name in nodes && nodes[name].dependencies == list
      requires forall d :: d in nodes ==> NoDup(nodes[d].dependents)
      modifies this
      ensures DepsOf(nodes) == old(DepsOf(nodes))
      ensures forall d :: d in nodes ==> NoDup(nodes[d].dependents)
      ensures forall d, n :: d in nodes ==>
                (n in nodes[d].dependents <==>
                 d in old(nodes) && (n in old(nodes)[d].dependents || (n == name && d in list)))
    {
      for i := 0 to |list|
        invariant DepsOf(nodes) == old(DepsOf(nodes)) && nodes.Keys == old(nodes).Keys
        invariant forall d :: d in nodes ==> NoDup(nodes[d].dependents)
        invariant forall d, n :: d in nodes ==>
                    (n in nodes[d].dependents <==>
                     n in old(nodes)[d].dependents || (n == name && d in list[..i]))
      {
        if list[i] in nodes && name !in nodes[list[i]].dependents {
          nodes := nodes[list[i] := nodes[list[i]].(dependents := nodes[list[i]].dependents + [name])];
        }
      }
      assert list[..|list|] == list;
    }

    /** Nodes already present that list the new node become its dependents. */
    method AdoptDependents(name: string)
      requires name in nodes
      requires forall d :: d in nodes ==> NoDup(nodes[d].dependents)
      requires forall d, n :: d in nodes && d != name ==>
                 (n in nodes[d].dependents <==> Edge(DepsOf(nodes), n, d))
      requires forall n :: n in nodes[name].dependents ==> Edge(DepsOf(nodes), n, name)
      requires Edge(DepsOf(nodes), name, name) ==> name in nodes[name].dependents
      modifies this
      ensures DepsOf(nodes) == old(DepsOf(nodes))
      ensures Mirrored(nodes)
    {
      ghost var deps := DepsOf(nodes);
      var others := nodes.Keys;
      while others != {}
        invariant others <= nodes.Keys && DepsOf(nodes) == deps
        invariant NoDup(nodes[name].dependents)
        invariant forall d :: d in nodes && d != name ==> nodes[d] == old(nodes)[d]
        invariant forall n :: n in nodes[name].dependents ==> Edge(deps, n, name)
        invariant forall n :: Edge(deps, n, name) && n !in others ==> n in nodes[name].dependents
        invariant Edge(deps, name, name) ==> name in nodes[name].dependents
      {
        var other :| other in others;
        if other != name { AdoptOne(name, other); }
        others := others - {other};
      }
      assert nodes.Keys == deps.Keys;
    }

    method AdoptOne(name: string, other: string)
      requires name in nodes && other in nodes && other != name
      modifies this
      ensures DepsOf(nodes) == old(DepsOf(nodes))
      ensures name in nodes && nodes == old(nodes)[name := nodes[name]]
      ensures nodes[name].dependencies == old(nodes)[name].dependencies
      ensures nodes[name].dependents == old(nodes)[name].dependents +
                                        if name in nodes[other].dependencies && other !in old(nodes)[name].dependents
                                        then [other] else []
    {
      var list := nodes[other].dependencies;
      for i := 0 to |list|
        invariant name in nodes && nodes == old(nodes)[name := nodes[name]]
        invariant nodes[name].dependencies == old(nodes)[name].dependencies
        invariant nodes[name].dependents == old(nodes)[name].dependents +
                                            if name in list[..i] && other !in old(nodes)[name].dependents
                                            then [other] else []
      {
        if list[i] == name && other !in nodes[name].dependents {
          nodes := nodes[name := nodes[name].(dependents := nodes[name].dependents + [other])];
        }
      }
      assert list[..|list|] == list;
    }

    /** reload.go, buildDependencyGraph: one AddNode per program, in any order. */
    method Build(calls: seq<(string, seq<string>)>)
      requires nodes == map[]
      modifies this
      ensures Mirrored(nodes)
      ensures DepsOf(nodes) == LastLists(calls)
    {
      for i := 0 to |calls|
        invariant Mirrored(nodes) && DepsOf(nodes) == LastLists(calls[..i])
      {
        assert calls[..i + 1][..i] == calls[..i];
        AddNode(calls[i].0, calls[i].1);
      }
      assert calls[..|calls|] == calls;
    }

    method CountInDegrees() returns (inDegree: map<string, int>)
      ensures Tracks(DepsOf(nodes), {}, inDegree)
    {
      ghost var deps := DepsOf(nodes);
      inDegree := map[];
      var left := nodes.Keys;
      while left != {}
        invariant left <= nodes.Keys
        invariant inDegree.Keys == nodes.Keys - left
        invariant forall n :: n in inDegree ==> inDegree[n] == Listings(deps, deps[n])
      {
        var name :| name in left;
        var list := nodes[name].dependencies;
        var degree := 0;
        for i := 0 to |list|
          invariant degree == Listings(deps, list[..i])
        {
          assert list[..i + 1][..i] == list[..i];
          if list[i] in nodes { degree := degree + 1; }
        }
        assert list[..|list|] == list;
        inDegree := inDegree[name := degree];
        left := left - {name};
      }
      assert forall n :: n in deps ==> PresentIn(deps, deps[n]) * {} == {};
    }

    /** The nodes whose in-degree is zero, in no particular order. */
    method ZeroDegrees(inDegree: map<string, int>) returns (zero: seq<string>)
      ensures NoDup(zero)
      ensures forall n :: n in zero <==> n in inDegree && inDegree[n] == 0
    {
      zero := [];
      var left := inDegree.Keys;
      while left != {}
        invariant left <= inDegree.Keys
        invariant NoDup(zero)
        invariant forall n :: n in zero <==> n in inDegree && n !in left && inDegree[n] == 0
      {
        var name :| name in left;
        if inDegree[name] == 0 { zero := zero + [name]; }
        left := left - {name};
      }
    }

    /** The inner loop both sorts share: take current out of its dependents' way. */
    method Release(current: string, before: map<string, int>) returns (inDegree: map<string, int>, freed: seq<string>)
      requires Mirrored(nodes) && current in nodes && before.Keys == nodes.Keys
      ensures inDegree.Keys == before.Keys
      ensures forall n :: n in before ==>
                            inDegree[n] == before[n] - if Edge(DepsOf(nodes), n, current) then 1 else 0
      ensures NoDup(freed)
      ensures forall n :: n in freed <==> Edge(DepsOf(nodes), n, current) && inDegree[n] == 0
    {
      var dependents := nodes[current].dependents;
      inDegree, freed := before, [];
      for i := 0 to |dependents|
        invariant inDegree.Keys == before.Keys
        invariant forall n :: n in before ==>
                                inDegree[n] == before[n] - if n in dependents[..i] then 1 else 0
        invariant NoDup(freed)
        invariant forall n :: n in freed <==> n in dependents[..i] && n in before && inDegree[n] == 0
      {
        var dependent := dependents[i];
        assert dependent in dependents && dependent !in dependents[..i];
        inDegree := inDegree[dependent := inDegree[dependent] - 1];
        if inDegree[dependent] == 0 { freed := freed + [dependent]; }
      }
      assert dependents[..|dependents|] == dependents;
    }

    method TopologicalSort() returns (r: Option<seq<string>>)
      requires Mirrored(nodes)
      ensures r.Some? <==> !Cyclic(DepsOf(nodes)) && ListedOnce(DepsOf(nodes))
      ensures r.Some? ==> IsOrder(DepsOf(nodes), r.value)
    {
      ghost var deps := DepsOf(nodes);
      var inDegree := CountInDegrees();
      var queue := ZeroDegrees(inDegree);
      var result: seq<string> := [];
      hide SortLoop, Mirrored, Cyclic, ListedOnce, IsOrder;
      SortStart(deps, queue, inDegree);
      while queue != []
        invariant SortLoop(deps, result, queue, inDegree)
        decreases deps.Keys - Elements(result)
      {
        var current := queue[0];
        QueueHead(deps, result, queue, inDegree);
        var updated, freed := Release(current, inDegree);
        QueueStep(deps, result, queue, inDegree, updated, freed);
        queue := queue[1..] + freed;
        result := result + [current];
        inDegree := updated;
      }
      SortOutcome(deps, result, inDegree);
      r := if |result| != |nodes| then None else Some(result);
    }

    method Tiers() returns (r: Option<seq<seq<string>>>)
      requires Mirrored(nodes)
      ensures r.Some? <==> !Cyclic(DepsOf(nodes)) && ListedOnce(DepsOf(nodes))
      ensures r.Some? ==> AreTiers(DepsOf(nodes), r.value)
    {
      ghost var deps := DepsOf(nodes);
      hide TierLoop, Tracks, Mirrored, Cyclic, ListedOnce, TiersOf;
      var inDegree := CountInDegrees();
      var current := ZeroDegrees(inDegree);
      var tiers: seq<seq<string>> := [];
      var count := 0;
      ghost var placed: set<string> := {};
      TiersStart(deps, current, inDegree);
      while current != []
        invariant TierLoop(deps, placed, tiers, current, inDegree) && count == |placed|
        decreases deps.Keys - placed
      {
        var tier, next, updated := PlaceTier(tiers, current, placed, inDegree);
        tiers := tiers + [tier];
        count := count + |tier|;
        placed := placed + Elements(tier);
        current, inDegree := next, updated;
      }
      TiersOutcome(deps, placed, tiers, current, inDegree);
      r := if count != |nodes| then None else Some(tiers);
    }

    /** One round of Tiers: sort the tier and find the one that waits only for what is placed. */
    method PlaceTier(ghost tiers: seq<seq<string>>, current: seq<string>, ghost placed: set<string>,
                     before: map<string, int>)
      returns (tier: seq<string>, next: seq<string>, inDegree: map<string, int>)
      requires Mirrored(nodes) && current != []
      requires TierLoop(DepsOf(nodes), placed, tiers, current, before)
      ensures Elements(tier) == Elements(current)
      ensures TierLoop(DepsOf(nodes), placed + Elements(tier), tiers + [tier], next, inDegree)
      ensures placed < placed + Elements(tier) <= DepsOf(nodes).Keys
      ensures |placed + Elements(tier)| == |placed| + |tier|
    {
      hide TiersOf, Frontier, Sorted, Mirrored, WaitsInside;
      tier := SortStrings(current);
      assert Elements(tier) == Elements(current);
      next, inDegree := ReleaseTier(tier, placed, before);
      TierStep(DepsOf(nodes), placed, tiers, tier, before);
    }

    method ReleaseTier(current: seq<string>, ghost placed: set<string>, before: map<string, int>)
      returns (next: seq<string>, inDegree: map<string, int>)
      requires Mirrored(nodes) && NoDup(current)
      requires Frontier(DepsOf(nodes), placed, Elements(current), before)
      ensures NoDup(next)
      ensures Frontier(DepsOf(nodes), placed + Elements(current), Elements(next), inDegree)
      ensures forall n :: n in next ==> WaitsInside(DepsOf(nodes), Elements(current), n)
    {
      hide Frontier, Mirrored, Ready, WaitsInside;
      ghost var deps := DepsOf(nodes);
      inDegree, next := before, [];
      assert inDegree.Keys == nodes.Keys by { FrontierKeys(deps, placed, Elements(current), before); }
      assert placed + Elements(current[..0]) == placed && current[0..] == current;
      assert Elements(current) + Elements(next) == Elements(current);
      for i := 0 to |current|
        invariant NoDup(next) && Elements(next) !! Elements(current)
        invariant Frontier(deps, placed + Elements(current[..i]), Elements(current[i..]) + Elements(next), inDegree)
        invariant inDegree.Keys == nodes.Keys
        invariant forall n :: n in next ==> WaitsInside(deps, Elements(current), n)
      {
        assert current[i] in Elements(current[i..]) by { assert current[i..][0] == current[i]; }
        FrontierIsReady(deps, placed + Elements(current[..i]), Elements(current[i..]) + Elements(next), inDegree);
        var updated, freed := Release(current[i], inDegree);
        MemberStep(deps, placed, current, i, next, inDegree, updated, freed);
        next := next + freed;
        inDegree := updated;
      }
      assert current[..|current|] == current;
      assert Elements(current[|current|..]) + Elements(next) == Elements(next);
    }
  }
}
