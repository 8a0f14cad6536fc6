/** Contact graphs and the geometry oracle's two worklist searches (geometry/oracle.py). */
module ContactGraph {
  import opened Walks

  /** The neighbours of each part index. */
  type Graph = seq<set<nat>>

  predicate InRange(g: Graph) { forall i :: 0 <= i < |g| ==> forall v <- g[i] :: v < |g| }

  predicate Symmetric(g: Graph) {
    InRange(g) && forall i, j :: 0 <= i < |g| && 0 <= j < |g| ==> (j in g[i] <==> i in g[j])
  }

  predicate Edge(g: Graph, a: nat, b: nat) { a < |g| && b < |g| && b in g[a] }

  /** "Touches", inside the subgraph induced by `within`. */
  function Within(g: Graph, within: set<nat>): Relation { (a: nat, b: nat) => Edge(g, a, b) && a in within && b in within }

  lemma WithinSymmetrical(g: Graph, within: set<nat>)
    requires Symmetric(g)
    ensures Symmetrical(Within(g, within))
  {
  }

  // ---- Building the graph ----------------------------------------------------------------

  /** _contact_graph: one contact test for each pair, recorded in both directions. */
  method BuildContactGraph(n: nat, touches: (nat, nat) -> bool) returns (g: Graph)
    ensures |g| == n && Symmetric(g)
    ensures forall i, j :: 0 <= i < j < n ==> (j in g[i] <==> touches(i, j))
    ensures forall i :: 0 <= i < n ==> i !in g[i]
  {
    g := seq(n, _ => {});
    for left := 0 to n
      invariant |g| == n && Symmetric(g)
      invariant forall i, j :: 0 <= i < j < n ==> (j in g[i] <==> i < left && touches(i, j))
      invariant forall i :: 0 <= i < n ==> i !in g[i]
    {
      for right := left + 1 to n
        invariant |g| == n && Symmetric(g)
        invariant forall i, j :: 0 <= i < j < n ==>
          (j in g[i] <==> (i < left || (i == left && j < right)) && touches(i, j))
        invariant forall i :: 0 <= i < n ==> i !in g[i]
      {
        if touches(left, right) {
          g := g[left := g[left] + {right}];
          g := g[right := g[right] + {left}];
        }
      }
    }
  }

  // ---- _roles_connected ------------------------------------------------------------------

  function Indices(n: nat): (s: set<nat>)
    ensures forall i: nat :: i in s <==> i < n
  {
    if n == 0 then {} else Indices(n - 1) + {n - 1}
  }

  lemma PopSplits(s: seq<nat>)
    requires s != []
    ensures forall v :: v in s <==> v == s[|s| - 1] || v in s[..|s| - 1]
  {
    assert s == s[..|s| - 1] + [s[|s| - 1]];
  }

  /** The innermost loop of both searches: queue each newcomer, in whatever order the set yields. */
  method Enqueue(pending: seq<nat>, newcomers: set<nat>) returns (queued: seq<nat>)
    ensures forall v :: v in queued <==> v in pending || v in newcomers
    ensures newcomers == {} ==> queued == pending
  {
    queued := pending;
    var left := newcomers;
    while left != {}
      invariant left <= newcomers
      invariant forall v :: v in queued <==> v in pending || v in newcomers - left
      invariant newcomers == {} ==> queued == pending
      decreases left
    {
      var neighbour :| neighbour in left;
      queued := queued + [neighbour];
      left := left - {neighbour};
    }
  }

  ghost predicate Reached(g: Graph, starts: seq<nat>, v: nat) {
    exists a :: a in starts && Linked(Within(g, Indices(|g|)), a, v)
  }

  lemma StartsReached(g: Graph, starts: seq<nat>)
    requires forall v <- starts :: v < |g|
    ensures forall v <- starts :: Reached(g, starts, v)
  {
    forall v <- starts ensures Reached(g, starts, v) {
      LinkedRefl(Within(g, Indices(|g|)), v);
    }
  }

  lemma NeighboursReached(g: Graph, starts: seq<nat>, v: nat)
    requires InRange(g) && v < |g| && Reached(g, starts, v)
    ensures forall u <- g[v] :: u < |g| && Reached(g, starts, u)
  {
    var a :| a in starts && Linked(Within(g, Indices(|g|)), a, v);
    forall u <- g[v] ensures u < |g| && Reached(g, starts, u) {
      LinkedStep(Within(g, Indices(|g|)), a, v, u);
    }
  }

  lemma ClosedHoldsReached(g: Graph, starts: seq<nat>, c: set<nat>)
    requires (forall v <- starts :: v in c) && forall v <- c :: v < |g| && g[v] <= c
    ensures forall b :: Reached(g, starts, b) ==> b in c
  {
    forall b | Reached(g, starts, b) ensures b in c {
      var a :| a in starts && Linked(Within(g, Indices(|g|)), a, b);
      LinkedKeeps(Within(g, Indices(|g|)), v => v in c, a, b);
    }
  }

  /** Every visited index is still queued or has been searched: it is no target and all its neighbours are visited. */
  predicate Searched(g: Graph, targets: set<nat>, visited: set<nat>, pending: seq<nat>) {
    forall v <- visited :: v in pending || (v < |g| && v !in targets && g[v] <= visited)
  }

  lemma SearchedStep(g: Graph, targets: set<nat>, visited: set<nat>, pending: seq<nat>, queued: seq<nat>)
    requires pending != [] && Searched(g, targets, visited, pending)
    requires pending[|pending| - 1] < |g| && pending[|pending| - 1] !in targets
    requires forall v :: v in queued <==> v in pending[..|pending| - 1] || v in g[pending[|pending| - 1]] - visited
    ensures Searched(g, targets, visited + g[pending[|pending| - 1]], queued)
  {
    PopSplits(pending);
  }

  /** One round of the search: take the last queued index off, queue its unvisited neighbours. */
  method Visit(g: Graph, ghost starts: seq<nat>, ghost targets: set<nat>, visited: set<nat>, pending: seq<nat>)
    returns (seen: set<nat>, queued: seq<nat>)
    requires InRange(g) && pending != [] && (forall v <- pending :: v in visited) && pending[|pending| - 1] !in targets
    requires (forall v <- visited :: v < |g| && Reached(g, starts, v)) && Searched(g, targets, visited, pending)
    ensures visited <= seen && forall v <- queued :: v in seen
    ensures (forall v <- seen :: v < |g| && Reached(g, starts, v)) && Searched(g, targets, seen, queued)
    ensures Indices(|g|) - seen < Indices(|g|) - visited || (seen == visited && |queued| < |pending|)
  {
    var current := pending[|pending| - 1];
    PopSplits(pending);
    NeighboursReached(g, starts, current);
    var newcomers := g[current] - visited;
    queued := Enqueue(pending[..|pending| - 1], newcomers);
    SearchedStep(g, targets, visited, pending, queued);
    seen := visited + newcomers;
    assert seen == visited + g[current];
    if newcomers == {} {
      assert seen == visited;
    } else {
      ghost var v :| v in newcomers;
      assert v in Indices(|g|) - visited && v !in Indices(|g|) - seen;
    }
  }

  lemma StartSearched(g: Graph, targets: set<nat>, starts: seq<nat>)
    ensures Searched(g, targets, (set v <- starts), starts)
  {
  }

  lemma AllSearched(g: Graph, starts: seq<nat>, targets: set<nat>, visited: set<nat>)
    requires Searched(g, targets, visited, []) && forall v <- starts :: v in visited
    ensures forall b <- targets :: !Reached(g, starts, b)
  {
    hide Reached;
    ClosedHoldsReached(g, starts, visited);
  }

  /** _roles_connected: true exactly when some walk joins a start index to a target index. */
  method RolesConnected(g: Graph, starts: seq<nat>, targets: set<nat>) returns (connected: bool)
    requires InRange(g) && forall v <- starts :: v < |g|
    ensures connected <==> exists b :: b in targets && Reached(g, starts, b)
  {
    hide Searched, Reached, InRange;
    var pending, visited: set<nat> := starts, set v <- starts;
    StartsReached(g, starts);
    StartSearched(g, targets, starts);
    while pending != []
      invariant forall v <- pending :: v in visited
      invariant forall v <- visited :: v < |g| && Reached(g, starts, v)
      invariant Searched(g, targets, visited, pending)
      invariant forall v <- starts :: v in visited
      decreases Indices(|g|) - visited, |pending|
    {
      if pending[|pending| - 1] in targets {
        return true;
      }
      visited, pending := Visit(g, starts, targets, visited, pending);
    }
    AllSearched(g, starts, targets, visited);
    return false;
  }

  // ---- _sample_component_volumes ---------------------------------------------------------

  function SumIn(s: set<nat>, volumes: seq<real>, n: nat): real
    requires n <= |volumes|
  {
    if n == 0 then 0.0 else SumIn(s, volumes, n - 1) + if n - 1 in s then volumes[n - 1] else 0.0
  }

  lemma {:induction false} SumInUnion(a: set<nat>, b: set<nat>, volumes: seq<real>, n: nat)
    requires a !! b && n <= |volumes|
    ensures SumIn(a + b, volumes, n) == SumIn(a, volumes, n) + SumIn(b, volumes, n)
  {
    if n > 0 {
      SumInUnion(a, b, volumes, n - 1);
    }
  }

  /** `c` is exactly one class of "linked inside the samples". */
  ghost predicate IsComponent(g: Graph, samples: set<nat>, c: set<nat>) {
    && c != {} && c <= samples
    && forall a <- c :: forall b <- samples :: Linked(Within(g, samples), a, b) <==> b in c
  }

  ghost function UnionOf(cs: seq<set<nat>>): set<nat> {
    if cs == [] then {} else UnionOf(cs[..|cs| - 1]) + cs[|cs| - 1]
  }

  function Total(values: seq<real>): real {
    if values == [] then 0.0 else Total(values[..|values| - 1]) + values[|values| - 1]
  }

  /** One search of the inner loop: everything linked to `start` inside the samples. */
  method GrowComponent(g: Graph, samples: set<nat>, start: nat) returns (component: set<nat>)
    requires Symmetric(g) && start in samples && forall v <- samples :: v < |g|
    ensures start in component && IsComponent(g, samples, component)
  {
    var pending := [start];
    component := {start};
    LinkedRefl(Within(g, samples), start);
    while pending != []
      invariant start in component && component <= samples
      invariant forall v <- pending :: v in component
      invariant forall v <- component :: Linked(Within(g, samples), start, v)
      invariant forall v <- component :: v in pending || g[v] * samples <= component
      decreases samples - component, |pending|
    {
      var current := pending[|pending| - 1];
      PopSplits(pending);
      assert current in component;
      pending := pending[..|pending| - 1];
      var newcomers := g[current] * (samples - component);
      forall u <- newcomers ensures Linked(Within(g, samples), start, u) {
        LinkedStep(Within(g, samples), start, current, u);
      }
      component := component + newcomers;
      pending := Enqueue(pending, newcomers);
    }
    ClosedIsComponent(g, samples, start, component);
  }

  lemma ClosedIsComponent(g: Graph, samples: set<nat>, start: nat, component: set<nat>)
    requires Symmetric(g) && start in component && component <= samples && forall v <- samples :: v < |g|
    requires forall v <- component :: Linked(Within(g, samples), start, v)
    requires forall v <- component :: g[v] * samples <= component
    ensures IsComponent(g, samples, component)
  {
    forall a <- component, b <- samples ensures Linked(Within(g, samples), a, b) <==> b in component {
      if b in component {
        WithinSymmetrical(g, samples);
        LinkedSym(Within(g, samples), start, a);
        LinkedTrans(Within(g, samples), a, start, b);
      } else if Linked(Within(g, samples), a, b) {
        LinkedKeeps(Within(g, samples), v => v in component, a, b);
      }
    }
  }

  lemma ComponentsAreDisjoint(g: Graph, samples: set<nat>, c: set<nat>, d: set<nat>, x: nat)
    requires IsComponent(g, samples, c) && IsComponent(g, samples, d) && x in d && x !in c
    ensures c !! d
  {
    forall y <- c ensures y !in d {
      assert Linked(Within(g, samples), y, x) <==> x in c;
    }
  }

  /** What holds of the components found so far. */
  ghost predicate Partial(g: Graph, samples: set<nat>, volumes: seq<real>,
                          r: seq<real>, cs: seq<set<nat>>, done: set<nat>)
    requires |volumes| == |g|
  {
    && |r| == |cs|
    && (forall i :: 0 <= i < |r| ==>
          IsComponent(g, samples, cs[i]) && cs[i] <= done && r[i] == SumIn(cs[i], volumes, |volumes|))
    && (forall i, j :: 0 <= i < j < |r| ==> cs[i] !! cs[j])
    && done == UnionOf(cs)
    && Total(r) == SumIn(done, volumes, |volumes|)
  }

  lemma {:induction false} InUnionOf(cs: seq<set<nat>>, x: nat)
    ensures x in UnionOf(cs) <==> exists i :: 0 <= i < |cs| && x in cs[i]
  {
    if cs != [] {
      var init := cs[..|cs| - 1];
      InUnionOf(init, x);
      assert forall i :: 0 <= i < |init| ==> init[i] == cs[i];
    }
  }

  lemma PartialStep(g: Graph, samples: set<nat>, volumes: seq<real>,
                    r: seq<real>, cs: seq<set<nat>>, done: set<nat>, c: set<nat>, start: nat)
    requires |volumes| == |g| && Partial(g, samples, volumes, r, cs, done)
    requires IsComponent(g, samples, c) && start in c && start !in done
    ensures Partial(g, samples, volumes, r + [SumIn(c, volumes, |volumes|)], cs + [c], done + c)
  {
    forall i | 0 <= i < |cs| ensures cs[i] !! c {
      ComponentsAreDisjoint(g, samples, cs[i], c, start);
    }
    forall x | x in done && x in c ensures false {
      InUnionOf(cs, x);
    }
    SumInUnion(done, c, volumes, |volumes|);
    var v := SumIn(c, volumes, |volumes|);
    assert (r + [v])[..|r|] == r && (cs + [c])[..|cs|] == cs;
  }

  /** _sample_component_volumes: one entry for each component of the sample-induced subgraph, with that
      component's volume; the components partition the samples, so the entries add up to their volume. */
  method SampleComponentVolumes(g: Graph, samples: set<nat>, volumes: seq<real>)
    returns (r: seq<real>, ghost components: seq<set<nat>>)
    requires Symmetric(g) && |volumes| == |g| && forall v <- samples :: v < |g|
    ensures |r| == |components|
    ensures forall i :: 0 <= i < |r| ==>
      IsComponent(g, samples, components[i]) && r[i] == SumIn(components[i], volumes, |volumes|)
    ensures forall i, j :: 0 <= i < j < |r| ==> components[i] !! components[j]
    ensures UnionOf(components) == samples
    ensures Total(r) == SumIn(samples, volumes, |volumes|)
  {
    var remaining := samples;
    r, components := [], [];
    ghost var done: set<nat> := {};
    SumInEmpty(volumes, |volumes|);
    while remaining != {}
      invariant Partial(g, samples, volumes, r, components, done)
      invariant remaining == samples - done && done <= samples
      decreases remaining
    {
      var start :| start in remaining;
      var component := GrowComponent(g, samples, start);
      PartialStep(g, samples, volumes, r, components, done, component, start);
      var volume := SumOf(component, volumes);
      r, components := r + [volume], components + [component];
      remaining, done := remaining - component, done + component;
    }
  }

  lemma {:induction false} SumInEmpty(volumes: seq<real>, n: nat)
    requires n <= |volumes|
    ensures SumIn({}, volumes, n) == 0.0
  {
    if n > 0 {
      SumInEmpty(volumes, n - 1);
    }
  }

  method SumOf(component: set<nat>, volumes: seq<real>) returns (sum: real)
    ensures sum == SumIn(component, volumes, |volumes|)
  {
    sum := 0.0;
    for i := 0 to |volumes|
      invariant sum == SumIn(component, volumes, i)
    {
      if i in component {
        sum := sum + volumes[i];
      }
    }
  }
}
