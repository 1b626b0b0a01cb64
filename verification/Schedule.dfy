/** The dependency schedule of active effects. */
module Schedule {
  import opened Wrappers
  import opened Paths
  import opened Plans

  datatype Node = Node(path: Path, outcome: ActiveOutcome, incoming: Option<EntryId>, entry: Option<ImageEntry>)

  datatype Refusal =
    | MissingImage
    | MissingEntry
    | EntryMismatch
    | MissingAnchor
    | MissingOldObject
    | DependencyCycle

  datatype Result<+T> = Ok(value: T) | Refused(reason: Refusal)

  // ---------------------------------------------------------------- nodes

  predicate MechanismRequired(outcome: ActiveOutcome) {
    outcome.ActivateIncoming? || outcome.RemoveObserved? || outcome.RemoveDirectoryIfEmpty?
  }

  /** The image entry bound to an incoming decision, or why it is refused. */
  function BoundEntry(decision: Decision, image: Option<Image>): Result<ImageEntry> {
    if image.None? then Refused(MissingImage)
    else if decision.incoming.None? then Refused(MissingEntry)
    else if decision.incoming.value !in image.value then Refused(EntryMismatch)
    else if image.value[decision.incoming.value].path != decision.path then Refused(EntryMismatch)
    else Ok(image.value[decision.incoming.value])
  }

  function NodeOf(decision: Decision, image: Option<Image>): Result<Node> {
    if decision.active.ActivateIncoming? then
      var entry := BoundEntry(decision, image);
      if entry.Refused? then Refused(entry.reason)
      else Ok(Node(decision.path, decision.active, decision.incoming, Some(entry.value)))
    else Ok(Node(decision.path, decision.active, decision.incoming, None))
  }

  /** Every mechanism decision becomes one node, in plan order; the first
      decision whose image entry cannot be bound refuses the plan. */
  function NodesOf(plan: Plan, image: Option<Image>): Result<seq<Node>> {
    if plan == [] then Ok([])
    else
      var before := NodesOf(plan[..|plan| - 1], image);
      var last := plan[|plan| - 1];
      if before.Refused? || !MechanismRequired(last.active) then before
      else
        var bound := NodeOf(last, image);
        if bound.Refused? then Refused(bound.reason) else Ok(before.value + [bound.value])
  }

  method ActiveNodes(plan: Plan, image: Option<Image>) returns (r: Result<seq<Node>>)
    ensures r == NodesOf(plan, image)
  {
    var nodes: seq<Node> := [];
    for k := 0 to |plan|
      invariant NodesOf(plan[..k], image) == Ok(nodes)
    {
      assert plan[..k + 1][..k] == plan[..k];
      if MechanismRequired(plan[k].active) {
        var bound := NodeOf(plan[k], image);
        if bound.Refused? {
          RefusedStays(plan, image, k + 1);
          return Refused(bound.reason);
        }
        nodes := nodes + [bound.value];
      }
    }
    assert plan[..|plan|] == plan;
    return Ok(nodes);
  }

  lemma {:induction false} RefusedStays(plan: Plan, image: Option<Image>, k: nat)
    requires k <= |plan| && NodesOf(plan[..k], image).Refused?
    ensures NodesOf(plan, image) == NodesOf(plan[..k], image)
    decreases |plan|
  {
    if k == |plan| {
      assert plan[..k] == plan;
    } else {
      assert plan[..|plan| - 1][..k] == plan[..k];
      RefusedStays(plan[..|plan| - 1], image, k);
    }
  }

  /** The nodes are exactly the bound mechanism decisions. */
  lemma {:induction false} NodesAreDecisions(plan: Plan, image: Option<Image>, n: Node)
    requires NodesOf(plan, image).Ok?
    ensures n in NodesOf(plan, image).value <==>
              exists d :: d in plan && MechanismRequired(d.active) && NodeOf(d, image) == Ok(n)
  {
    if plan != [] {
      var rest, last := plan[..|plan| - 1], plan[|plan| - 1];
      NodesAreDecisions(rest, image, n);
      assert plan == rest + [last];
      assert forall d :: d in plan <==> d in rest || d == last;
    }
  }

  lemma {:induction false} NodesDistinct(plan: Plan, image: Option<Image>)
    requires NodesOf(plan, image).Ok? && Canonical(plan)
    ensures DistinctPaths(NodesOf(plan, image).value)
  {
    if plan != [] {
      var rest, last := plan[..|plan| - 1], plan[|plan| - 1];
      CanonicalDistinct(plan);
      assert Canonical(rest) by {
        assert PlanPaths(rest) == PlanPaths(plan)[..|rest|];
      }
      NodesDistinct(rest, image);
      forall n | n in NodesOf(rest, image).value ensures n.path != last.path {
        NodesAreDecisions(rest, image, n);
        var d :| d in rest && MechanismRequired(d.active) && NodeOf(d, image) == Ok(n);
        assert n.path == d.path;
      }
    }
  }

  ghost predicate DistinctPaths(nodes: seq<Node>) {
    forall i, j :: 0 <= i < j < |nodes| ==> nodes[i].path != nodes[j].path
  }

  // ---------------------------------------------------------------- edges

  predicate ParentBeforeChild(parent: Node) {
    parent.outcome.ActivateIncoming? && parent.entry.Some? && parent.entry.value.kind.Directory?
  }

  /** An incoming directory precedes all its descendants; any other node
      follows all of them. */
  predicate AncestorEdge(before: Node, after: Node) {
    || (IsAncestorOf(before.path, after.path) && ParentBeforeChild(before))
    || (IsAncestorOf(after.path, before.path) && !ParentBeforeChild(after))
  }

  predicate IsHardlink(node: Node) {
    node.entry.Some? && node.entry.value.kind.Hardlink?
  }

  predicate HardlinkEdge(anchor: Node, link: Node) {
    IsHardlink(link) && link.entry.value.hardlinkTarget == Some(anchor.path)
  }

  predicate Edge(nodes: seq<Node>, hasImage: bool, i: nat, j: nat) {
    && i < |nodes| && j < |nodes| && i != j
    && (AncestorEdge(nodes[i], nodes[j]) || (hasImage && HardlinkEdge(nodes[i], nodes[j])))
  }

  ghost predicate InRange(edges: seq<set<nat>>) {
    forall i, j :: 0 <= i < |edges| && j in edges[i] ==> j < |edges|
  }

  /** Predecessors of j that are not in `emitted`. */
  ghost function Waiting(edges: seq<set<nat>>, emitted: set<nat>, j: nat): set<nat> {
    set i: nat | i < |edges| && i !in emitted && j in edges[i]
  }

  ghost predicate Counts(edges: seq<set<nat>>, indegree: seq<nat>) {
    && |indegree| == |edges|
    && forall j: nat :: j < |indegree| ==> indegree[j] == |Waiting(edges, {}, j)|
  }

  method AddEdge(edges: seq<set<nat>>, indegree: seq<nat>, before: nat, after: nat)
    returns (edges': seq<set<nat>>, indegree': seq<nat>)
    requires before < |edges| && after < |edges| && before != after
    requires Counts(edges, indegree)
    ensures edges' == edges[before := edges[before] + {after}]
    ensures Counts(edges', indegree')
  {
    hide Distinct;
    edges', indegree' := edges, indegree;
    if after in edges[before] {
      assert edges[before] + {after} == edges[before];
      return;
    }
    edges' := edges[before := edges[before] + {after}];
    indegree' := indegree[after := indegree[after] + 1];
    forall j: nat | j < |edges| ensures indegree'[j] == |Waiting(edges', {}, j)| {
      if j == after {
        assert Waiting(edges', {}, j) == Waiting(edges, {}, j) + {before};
      } else {
        assert Waiting(edges', {}, j) == Waiting(edges, {}, j);
      }
    }
  }

  /** Whether the ordered pair (p, c) precedes (parent, child) in the scan. */
  predicate Scanned(p: nat, c: nat, parent: nat, child: nat) {
    p < parent || (p == parent && c < child)
  }

  ghost predicate AncestorEdgesUpTo(nodes: seq<Node>, edges: seq<set<nat>>, parent: nat, child: nat) {
    && |edges| == |nodes|
    && forall i: nat, j: nat {:trigger j in edges[i]} :: i < |nodes| ==>
         (j in edges[i] <==>
            && j < |nodes|
            && ((IsAncestorOf(nodes[i].path, nodes[j].path) && ParentBeforeChild(nodes[i]) && Scanned(i, j, parent, child))
                || (IsAncestorOf(nodes[j].path, nodes[i].path) && !ParentBeforeChild(nodes[j]) && Scanned(j, i, parent, child))))
  }

  method AncestorEdges(nodes: seq<Node>) returns (edges: seq<set<nat>>, indegree: seq<nat>)
    ensures |edges| == |nodes| && Counts(edges, indegree)
    ensures forall i: nat, j: nat :: i < |nodes| ==> (j in edges[i] <==> Edge(nodes, false, i, j))
  {
    var count := |nodes|;
    edges := seq(count, _ => {});
    indegree := seq(count, _ => 0);
    assert forall j: nat :: j < count ==> Waiting(edges, {}, j) == {};
    for parent := 0 to count
      invariant Counts(edges, indegree)
      invariant AncestorEdgesUpTo(nodes, edges, parent, 0)
    {
      for child := 0 to count
        invariant Counts(edges, indegree)
        invariant AncestorEdgesUpTo(nodes, edges, parent, child)
      {
        if parent != child && IsAncestorOf(nodes[parent].path, nodes[child].path) {
          if ParentBeforeChild(nodes[parent]) {
            edges, indegree := AddEdge(edges, indegree, parent, child);
          } else {
            edges, indegree := AddEdge(edges, indegree, child, parent);
          }
        }
      }
    }
  }

  ghost predicate LinkEdgesUpTo(nodes: seq<Node>, edges: seq<set<nat>>, link: nat, candidate: nat) {
    && |edges| == |nodes|
    && forall i: nat, j: nat {:trigger j in edges[i]} :: i < |nodes| ==>
         (j in edges[i] <==>
            && j < |nodes| && i != j
            && (AncestorEdge(nodes[i], nodes[j]) || (HardlinkEdge(nodes[i], nodes[j]) && Scanned(j, i, link, candidate))))
  }

  ghost predicate AnchorsPresent(nodes: seq<Node>) {
    forall n :: n in nodes && IsHardlink(n) ==> n.entry.value.hardlinkTarget.Some?
  }

  method BuildEdges(nodes: seq<Node>, hasImage: bool)
    returns (anchored: bool, edges: seq<set<nat>>, indegree: seq<nat>)
    ensures anchored <==> (hasImage ==> AnchorsPresent(nodes))
    ensures anchored ==>
              && |edges| == |nodes| && Counts(edges, indegree)
              && forall i: nat, j: nat :: i < |nodes| ==> (j in edges[i] <==> Edge(nodes, hasImage, i, j))
  {
    edges, indegree := AncestorEdges(nodes);
    anchored := true;
    if !hasImage {
      return;
    }
    for link := 0 to |nodes|
      invariant anchored
      invariant Counts(edges, indegree)
      invariant LinkEdgesUpTo(nodes, edges, link, 0)
      invariant forall n :: n in nodes[..link] && IsHardlink(n) ==> n.entry.value.hardlinkTarget.Some?
    {
      if IsHardlink(nodes[link]) {
        if nodes[link].entry.value.hardlinkTarget.None? {
          assert nodes[link] in nodes;
          anchored := false;
          return;
        }
        var anchor := nodes[link].entry.value.hardlinkTarget.value;
        for candidate := 0 to |nodes|
          invariant Counts(edges, indegree)
          invariant LinkEdgesUpTo(nodes, edges, link, candidate)
        {
          if nodes[candidate].path == anchor && candidate != link {
            edges, indegree := AddEdge(edges, indegree, candidate, link);
          }
        }
      }
    }
    assert nodes[..|nodes|] == nodes;
    forall i: nat, j: nat | i < |nodes| ensures j in edges[i] <==> Edge(nodes, hasImage, i, j) {
      if j < |nodes| && i != j {
        assert Scanned(j, i, |nodes|, 0);
        assert j in edges[i] <==> AncestorEdge(nodes[i], nodes[j]) || HardlinkEdge(nodes[i], nodes[j]);
      } else {
        assert j !in edges[i];
      }
    }
  }

  // ---------------------------------------------------------------- cycles

  ghost predicate ClosedWalk(edges: seq<set<nat>>, walk: seq<nat>) {
    && |walk| >= 2
    && walk[0] == walk[|walk| - 1]
    && (forall k :: 0 <= k < |walk| ==> walk[k] < |edges|)
    && forall k :: 0 <= k < |walk| - 1 ==> walk[k + 1] in edges[walk[k]]
  }

  ghost predicate HasCycle(edges: seq<set<nat>>) {
    exists walk :: ClosedWalk(edges, walk)
  }

  ghost predicate OpenWalk(edges: seq<set<nat>>, among: set<nat>, walk: seq<nat>) {
    && (forall k :: 0 <= k < |walk| ==> walk[k] < |edges| && walk[k] in among)
    && forall k :: 0 <= k < |walk| - 1 ==> walk[k + 1] in edges[walk[k]]
  }

  ghost predicate WaitsIn(edges: seq<set<nat>>, stuck: set<nat>, j: nat) {
    exists i :: i in stuck && i < |edges| && j in edges[i]
  }

  /** Each node of `stuck` still waits for a node of `stuck`. */
  ghost predicate Stuck(edges: seq<set<nat>>, stuck: set<nat>) {
    forall j {:trigger WaitsIn(edges, stuck, j)} :: j in stuck ==> j < |edges| && WaitsIn(edges, stuck, j)
  }

  lemma {:induction false} BackwardWalk(edges: seq<set<nat>>, stuck: set<nat>, length: nat) returns (walk: seq<nat>)
    requires Stuck(edges, stuck) && stuck != {}
    ensures |walk| == length + 1 && OpenWalk(edges, stuck, walk)
  {
    if length == 0 {
      var start :| start in stuck;
      assert WaitsIn(edges, stuck, start);
      walk := [start];
    } else {
      var rest := BackwardWalk(edges, stuck, length - 1);
      assert WaitsIn(edges, stuck, rest[0]);
      var before :| before in stuck && before < |edges| && rest[0] in edges[before];
      walk := [before] + rest;
      assert forall k :: 0 < k < |walk| ==> walk[k] == rest[k - 1];
    }
  }

  lemma {:induction false} DistinctBound(items: seq<nat>, among: set<nat>)
    requires Distinct(items) && forall k :: 0 <= k < |items| ==> items[k] in among
    ensures |items| <= |among|
  {
    if items != [] {
      var last := items[|items| - 1];
      var rest := items[..|items| - 1];
      DistinctBound(rest, among - {last});
    }
  }

  lemma StuckHasCycle(edges: seq<set<nat>>, stuck: set<nat>)
    requires Stuck(edges, stuck) && stuck != {}
    ensures HasCycle(edges)
  {
    var walk := BackwardWalk(edges, stuck, |stuck|);
    if Distinct(walk) {
      DistinctBound(walk, stuck);
    }
    var i, j :| 0 <= i < j < |walk| && walk[i] == walk[j];
    var loop := walk[i..j + 1];
    assert forall k :: 0 <= k < |loop| ==> loop[k] == walk[i + k];
    assert ClosedWalk(edges, loop);
  }

  // ---------------------------------------------------------------- order

  predicate Precedes(nodes: seq<Node>, i: nat, j: nat)
    requires i < |nodes| && j < |nodes|
  {
    if nodes[i].path != nodes[j].path then Less(nodes[i].path, nodes[j].path) else i < j
  }

  lemma PrecedesTransitive(nodes: seq<Node>, i: nat, j: nat, k: nat)
    requires i < |nodes| && j < |nodes| && k < |nodes|
    requires Precedes(nodes, i, j) && Precedes(nodes, j, k)
    ensures Precedes(nodes, i, k)
  {
    if nodes[i].path != nodes[j].path && nodes[j].path != nodes[k].path {
      LessTransitive(nodes[i].path, nodes[j].path, nodes[k].path);
      LessIrreflexive(nodes[i].path);
    }
  }

  method LeastReady(nodes: seq<Node>, ready: set<nat>) returns (least: nat)
    requires ready != {} && forall i :: i in ready ==> i < |nodes|
    ensures least in ready
    ensures forall i :: i in ready && i != least ==> Precedes(nodes, least, i)
  {
    var start :| start in ready;
    least := start;
    var rest := ready - {least};
    while rest != {}
      invariant rest <= ready && least in ready && least !in rest
      invariant forall i :: i in ready - rest && i != least ==> Precedes(nodes, least, i)
      decreases rest
    {
      var next :| next in rest;
      if Precedes(nodes, next, least) {
        forall i | i in ready - rest && i != least ensures Precedes(nodes, next, i) {
          PrecedesTransitive(nodes, next, least, i);
        }
        least := next;
      } else {
        LessTotal(nodes[next].path, nodes[least].path);
      }
      rest := rest - {next};
    }
  }

  ghost function ToSet(order: seq<nat>): set<nat> {
    set i | i in order
  }

  ghost predicate ReadyAfter(edges: seq<set<nat>>, emitted: seq<nat>, j: nat) {
    forall i: nat :: i < |edges| && j in edges[i] ==> i in emitted
  }

  /** Every emitted node was ready, and was the least ready node. */
  ghost predicate Greedy(nodes: seq<Node>, edges: seq<set<nat>>, order: seq<nat>) {
    && |edges| == |nodes|
    && Distinct(order)
    && forall k :: 0 <= k < |order| ==>
         && order[k] < |nodes|
         && ReadyAfter(edges, order[..k], order[k])
         && forall j: nat :: j < |nodes| && j !in order[..k] && j != order[k] && ReadyAfter(edges, order[..k], j) ==>
                               Precedes(nodes, order[k], j)
  }

  ghost predicate IsPermutation(count: nat, order: seq<nat>) {
    && |order| == count
    && Distinct(order)
    && forall i: nat :: i < count <==> i in order
  }

  ghost predicate EdgesForward(edges: seq<set<nat>>, order: seq<nat>) {
    forall p, q :: 0 <= p < |order| && 0 <= q < |order| && order[p] < |edges| && order[q] in edges[order[p]] ==> p < q
  }

  /** The scheduling loop's state: indegree counts the unemitted predecessors
      and `ready` holds exactly the unemitted nodes that wait for none. */
  ghost predicate LoopState(edges: seq<set<nat>>, indegree: seq<nat>, emitted: set<nat>, ready: set<nat>) {
    && |indegree| == |edges|
    && (forall j: nat :: j < |edges| ==> indegree[j] == |Waiting(edges, emitted, j)|)
    && (forall j: nat :: j in ready <==> j < |edges| && j !in emitted && indegree[j] == 0)
    && (forall j: nat :: j in emitted ==> j < |edges| && Waiting(edges, emitted, j) == {})
  }

  /** After `current` is emitted each of its successors in `owed` still has
      one decrement coming. */
  ghost predicate Owing(edges: seq<set<nat>>, indegree: seq<nat>, emitted: set<nat>, owed: set<nat>) {
    && |indegree| == |edges|
    && forall j: nat :: j < |edges| ==> indegree[j] == |Waiting(edges, emitted, j)| + (if j in owed then 1 else 0)
  }

  lemma EmitOwes(edges: seq<set<nat>>, indegree: seq<nat>, ready: set<nat>, emitted: set<nat>, current: nat)
    requires InRange(edges) && LoopState(edges, indegree, emitted, ready) && current in ready
    ensures Owing(edges, indegree, emitted + {current}, edges[current])
    ensures forall j: nat :: j in emitted + {current} ==> j !in edges[current] && Waiting(edges, emitted + {current}, j) == {}
  {
    var emitted' := emitted + {current};
    assert Waiting(edges, emitted, current) == {};
    forall j: nat | j < |edges|
      ensures indegree[j] == |Waiting(edges, emitted', j)| + (if j in edges[current] then 1 else 0)
      ensures j in emitted' ==> j !in edges[current] && Waiting(edges, emitted', j) == {}
    {
      if j in edges[current] {
        assert Waiting(edges, emitted, j) == Waiting(edges, emitted', j) + {current};
      } else {
        assert Waiting(edges, emitted, j) == Waiting(edges, emitted', j);
      }
    }
  }

  /** Emits `current`: one decrement for every successor. */
  method Release(edges: seq<set<nat>>, indegree: seq<nat>, ready: set<nat>, ghost emitted: set<nat>, current: nat)
    returns (indegree': seq<nat>, ready': set<nat>)
    requires InRange(edges) && LoopState(edges, indegree, emitted, ready) && current in ready
    ensures LoopState(edges, indegree', emitted + {current}, ready')
  {
    hide EdgeSets, Greedy;
    ghost var emitted' := emitted + {current};
    EmitOwes(edges, indegree, ready, emitted, current);
    indegree', ready' := indegree, ready - {current};
    var rest := edges[current];
    while rest != {}
      invariant rest <= edges[current]
      invariant Owing(edges, indegree', emitted', rest)
      invariant forall j: nat :: j in ready' <==> j < |edges| && j !in emitted' && indegree'[j] == 0
      decreases rest
    {
      var next :| next in rest;
      indegree' := indegree'[next := indegree'[next] - 1];
      if indegree'[next] == 0 {
        ready' := ready' + {next};
      }
      rest := rest - {next};
    }
  }

  lemma RemainingStuck(edges: seq<set<nat>>, indegree: seq<nat>, emitted: set<nat>)
    requires InRange(edges) && LoopState(edges, indegree, emitted, {})
    ensures Stuck(edges, set j: nat | j < |edges| && j !in emitted)
  {
    var stuck := set j: nat | j < |edges| && j !in emitted;
    forall j | j in stuck ensures WaitsIn(edges, stuck, j) {
      assert indegree[j] != 0;
      var i :| i in Waiting(edges, emitted, j);
      assert i in stuck && j in edges[i];
    }
  }

  lemma FullOrder(count: nat, order: seq<nat>)
    requires Distinct(order) && (forall k :: 0 <= k < |order| ==> order[k] < count)
    ensures |order| == count <==> IsPermutation(count, order)
  {
    DistinctSize(order);
    assert ToSet(order) <= Below(count);
    if |order| == count {
      SubsetSameSize(ToSet(order), Below(count));
      forall i: nat ensures i < count <==> i in order {
        assert i in Below(count) <==> i in ToSet(order);
      }
    }
  }

  ghost function Below(count: nat): (all: set<nat>)
    ensures |all| == count
    ensures forall i: nat :: i in all <==> i < count
  {
    if count == 0 then {} else Below(count - 1) + {count - 1}
  }

  lemma {:induction false} DistinctSize(order: seq<nat>)
    requires Distinct(order)
    ensures |ToSet(order)| == |order|
  {
    if order == [] {
      assert ToSet(order) == {};
    } else {
      var rest, last := order[..|order| - 1], order[|order| - 1];
      DistinctSize(rest);
      assert order == rest + [last];
      assert ToSet(order) == ToSet(rest) + {last};
    }
  }

  lemma SubsetSameSize<T>(a: set<T>, b: set<T>)
    requires a <= b && |a| == |b|
    ensures a == b
  {
    assert b == a + (b - a);
    assert |b - a| == 0;
  }

  /** The nodes that wait for none from the start. */
  method InitiallyReady(edges: seq<set<nat>>, indegree: seq<nat>) returns (ready: set<nat>)
    requires Counts(edges, indegree)
    ensures LoopState(edges, indegree, {}, ready)
  {
    ready := {};
    for index := 0 to |indegree|
      invariant forall j: nat :: j in ready <==> j < index && indegree[j] == 0
    {
      if indegree[index] == 0 {
        ready := ready + {index};
      }
    }
  }

  lemma EmitOne(order: seq<nat>, all: set<nat>, current: nat)
    requires ToSet(order) <= all && current in all && current !in ToSet(order)
    ensures ToSet(order + [current]) == ToSet(order) + {current}
    ensures all - ToSet(order + [current]) < all - ToSet(order)
  {
    assert current in all - ToSet(order);
  }

  /** Deterministic topological sort: always the least ready node next. */
  method TopologicalOrder(nodes: seq<Node>, edges: seq<set<nat>>, indegree: seq<nat>)
    returns (order: seq<nat>)
    requires |edges| == |nodes| && InRange(edges) && Counts(edges, indegree)
    ensures Greedy(nodes, edges, order)
    ensures |order| != |nodes| ==> HasCycle(edges)
    ensures |order| == |nodes| ==> IsPermutation(|nodes|, order)
  {
    var waits := indegree;
    var ready := InitiallyReady(edges, indegree);
    order := [];
    ghost var all := Below(|nodes|);
    assert ToSet(order) == {};
    while ready != {}
      invariant ToSet(order) <= all
      invariant LoopState(edges, waits, ToSet(order), ready)
      invariant Greedy(nodes, edges, order)
      decreases all - ToSet(order)
    {
      var current := LeastReady(nodes, ready);
      ExtendGreedy(nodes, edges, waits, order, ready, current);
      EmitOne(order, all, current);
      waits, ready := Release(edges, waits, ready, ToSet(order), current);
      order := order + [current];
    }
    OrderOutcome(edges, waits, order);
  }

  lemma OrderOutcome(edges: seq<set<nat>>, waits: seq<nat>, order: seq<nat>)
    requires InRange(edges) && LoopState(edges, waits, ToSet(order), {}) && Distinct(order)
    ensures |order| != |edges| ==> HasCycle(edges)
    ensures |order| == |edges| ==> IsPermutation(|edges|, order)
  {
    forall k | 0 <= k < |order| ensures order[k] < |edges| {
      assert order[k] in ToSet(order);
    }
    FullOrder(|edges|, order);
    if |order| != |edges| {
      RemainingStuck(edges, waits, ToSet(order));
      var stuck := set j: nat | j < |edges| && j !in ToSet(order);
      if stuck == {} {
        assert ToSet(order) == Below(|edges|);
        DistinctSize(order);
      } else {
        StuckHasCycle(edges, stuck);
      }
    }
  }

  lemma ExtendGreedy(nodes: seq<Node>, edges: seq<set<nat>>, waits: seq<nat>, order: seq<nat>, ready: set<nat>, current: nat)
    requires |edges| == |nodes| && LoopState(edges, waits, ToSet(order), ready) && Greedy(nodes, edges, order)
    requires current in ready && forall i :: i in ready && i != current ==> i < |nodes| && Precedes(nodes, current, i)
    ensures Greedy(nodes, edges, order + [current])
  {
    var order' := order + [current];
    forall j: nat | j < |nodes| && j !in order && ReadyAfter(edges, order, j) ensures j in ready {
      assert Waiting(edges, ToSet(order), j) == {};
    }
    assert ReadyAfter(edges, order, current) by {
      assert |Waiting(edges, ToSet(order), current)| == 0;
      forall i: nat | i < |edges| && current in edges[i] ensures i in order {
        assert i !in Waiting(edges, ToSet(order), current);
      }
    }
    forall k | 0 <= k < |order'|
      ensures order'[k] < |nodes| && ReadyAfter(edges, order'[..k], order'[k])
      ensures forall j: nat :: j < |nodes| && j !in order'[..k] && j != order'[k] && ReadyAfter(edges, order'[..k], j) ==>
                Precedes(nodes, order'[k], j)
    {
      if k < |order| {
        assert order'[..k] == order[..k];
      } else {
        assert order'[..k] == order;
      }
    }
    assert current !in order by {
      assert current !in ToSet(order);
    }
  }

  // ---------------------------------------------------------------- nodes in place of indices

  ghost function EdgeSets(nodes: seq<Node>, hasImage: bool): seq<set<nat>> {
    seq(|nodes|, i requires 0 <= i < |nodes| => set j: nat | j < |nodes| && Edge(nodes, hasImage, i, j))
  }

  ghost function NodeSet(nodes: seq<Node>): set<Node> {
    set n | n in nodes
  }

  ghost predicate NodeEdge(hasImage: bool, before: Node, after: Node) {
    before.path != after.path && (AncestorEdge(before, after) || (hasImage && HardlinkEdge(before, after)))
  }

  ghost predicate CyclicWalk(hasImage: bool, all: set<Node>, walk: seq<Node>) {
    && |walk| >= 2
    && walk[0] == walk[|walk| - 1]
    && (forall k :: 0 <= k < |walk| ==> walk[k] in all)
    && forall k :: 0 <= k < |walk| - 1 ==> NodeEdge(hasImage, walk[k], walk[k + 1])
  }

  ghost predicate Cyclic(hasImage: bool, all: set<Node>) {
    exists walk :: CyclicWalk(hasImage, all, walk)
  }

  ghost predicate NodeReady(hasImage: bool, all: set<Node>, emitted: seq<Node>, n: Node) {
    forall m :: m in all && NodeEdge(hasImage, m, n) ==> m in emitted
  }

  ghost predicate LeastReadyNode(hasImage: bool, all: set<Node>, emitted: seq<Node>, n: Node) {
    && n in all && n !in emitted
    && NodeReady(hasImage, all, emitted, n)
    && forall m :: m in all && m !in emitted && m != n && NodeReady(hasImage, all, emitted, m) ==> Less(n.path, m.path)
  }

  /** Each node is ready when it is emitted, and has the least path among the
      ready nodes. */
  ghost predicate LeastFirst(hasImage: bool, all: set<Node>, order: seq<Node>) {
    forall k :: 0 <= k < |order| ==> LeastReadyNode(hasImage, all, order[..k], order[k])
  }

  lemma LeastFirstDistinct(hasImage: bool, all: set<Node>, order: seq<Node>)
    requires LeastFirst(hasImage, all, order)
    ensures Distinct(order)
  {
    forall i, j | 0 <= i < j < |order| ensures order[i] != order[j] {
      assert LeastReadyNode(hasImage, all, order[..j], order[j]);
      assert order[..j][i] == order[i];
    }
  }

  /** A complete schedule of a set of nodes. */
  ghost predicate Schedules(hasImage: bool, all: set<Node>, order: seq<Node>) {
    && |order| == |all|
    && NodeSet(order) == all
    && LeastFirst(hasImage, all, order)
  }

  function Select(nodes: seq<Node>, order: seq<nat>): (selected: seq<Node>)
    requires forall k :: 0 <= k < |order| ==> order[k] < |nodes|
    ensures |selected| == |order|
  {
    seq(|order|, k requires 0 <= k < |order| => nodes[order[k]])
  }

  lemma DistinctIndices(nodes: seq<Node>, i: nat, j: nat)
    requires DistinctPaths(nodes) && i < |nodes| && j < |nodes|
    ensures i != j <==> nodes[i].path != nodes[j].path
    ensures nodes[i] == nodes[j] ==> i == j
  {
    if i < j { assert nodes[i].path != nodes[j].path; } else if j < i { assert nodes[j].path != nodes[i].path; }
  }

  lemma EdgeIsNodeEdge(nodes: seq<Node>, hasImage: bool, i: nat, j: nat)
    requires DistinctPaths(nodes) && i < |nodes| && j < |nodes|
    ensures Edge(nodes, hasImage, i, j) <==> NodeEdge(hasImage, nodes[i], nodes[j])
  {
    DistinctIndices(nodes, i, j);
  }

  lemma NodeSetSize(nodes: seq<Node>)
    requires forall i, j :: 0 <= i < j < |nodes| ==> nodes[i] != nodes[j]
    ensures |NodeSet(nodes)| == |nodes|
  {
    if nodes == [] {
      assert NodeSet(nodes) == {};
    } else {
      var rest, last := nodes[..|nodes| - 1], nodes[|nodes| - 1];
      NodeSetSize(rest);
      assert nodes == rest + [last];
      assert NodeSet(nodes) == NodeSet(rest) + {last};
    }
  }

  lemma ReadyIsNodeReady(nodes: seq<Node>, hasImage: bool, emitted: seq<nat>, j: nat)
    requires DistinctPaths(nodes) && j < |nodes| && (forall k :: 0 <= k < |emitted| ==> emitted[k] < |nodes|)
    ensures ReadyAfter(EdgeSets(nodes, hasImage), emitted, j) <==>
              NodeReady(hasImage, NodeSet(nodes), Select(nodes, emitted), nodes[j])
    ensures j in emitted <==> nodes[j] in Select(nodes, emitted)
  {
    var chosen := Select(nodes, emitted);
    forall i: nat | i < |nodes| && i in emitted ensures nodes[i] in chosen {
      var k :| 0 <= k < |emitted| && emitted[k] == i;
      assert chosen[k] == nodes[i];
    }
    forall i: nat | i < |nodes| && nodes[i] in chosen ensures i in emitted {
      var k :| 0 <= k < |chosen| && chosen[k] == nodes[i];
      DistinctIndices(nodes, i, emitted[k]);
    }
    forall i: nat | i < |nodes| ensures j in EdgeSets(nodes, hasImage)[i] <==> NodeEdge(hasImage, nodes[i], nodes[j]) {
      EdgeIsNodeEdge(nodes, hasImage, i, j);
    }
    forall m | m in NodeSet(nodes) ensures exists i: nat :: i < |nodes| && nodes[i] == m {
    }
  }

  lemma GreedyIsLeastFirst(nodes: seq<Node>, hasImage: bool, order: seq<nat>)
    requires DistinctPaths(nodes) && Greedy(nodes, EdgeSets(nodes, hasImage), order)
    ensures LeastFirst(hasImage, NodeSet(nodes), Select(nodes, order))
  {
    var chosen := Select(nodes, order);
    forall k | 0 <= k < |order|
      ensures LeastReadyNode(hasImage, NodeSet(nodes), chosen[..k], chosen[k])
    {
      var emitted := order[..k];
      assert Select(nodes, emitted) == chosen[..k];
      assert order[k] !in emitted;
      ReadyIsNodeReady(nodes, hasImage, emitted, order[k]);
      forall n | n in NodeSet(nodes) && n !in chosen[..k] && n != chosen[k]
                 && NodeReady(hasImage, NodeSet(nodes), chosen[..k], n)
        ensures Less(chosen[k].path, n.path)
      {
        var j :| 0 <= j < |nodes| && nodes[j] == n;
        ReadyIsNodeReady(nodes, hasImage, emitted, j);
        assert Precedes(nodes, order[k], j);
        DistinctIndices(nodes, order[k], j);
      }
    }
  }

  lemma PermutationSchedules(nodes: seq<Node>, hasImage: bool, order: seq<nat>)
    requires DistinctPaths(nodes) && Greedy(nodes, EdgeSets(nodes, hasImage), order) && IsPermutation(|nodes|, order)
    ensures Schedules(hasImage, NodeSet(nodes), Select(nodes, order))
  {
    var chosen := Select(nodes, order);
    GreedyIsLeastFirst(nodes, hasImage, order);
    forall n ensures n in chosen <==> n in nodes {
      if n in nodes {
        var i :| 0 <= i < |nodes| && nodes[i] == n;
        ReadyIsNodeReady(nodes, hasImage, order, i);
      }
    }
    NodeSetSize(nodes);
  }

  // ---------------------------------------------------------------- cycles and orders

  lemma GreedyForward(nodes: seq<Node>, edges: seq<set<nat>>, order: seq<nat>)
    requires Greedy(nodes, edges, order)
    ensures EdgesForward(edges, order)
  {
    forall p, q | 0 <= p < |order| && 0 <= q < |order| && order[p] < |edges| && order[q] in edges[order[p]]
      ensures p < q
    {
      assert ReadyAfter(edges, order[..q], order[q]);
      assert order[p] in order[..q];
      var k :| 0 <= k < q && order[k] == order[p];
      assert k == p;
    }
  }

  ghost function Position(order: seq<nat>, i: nat): (p: nat)
    requires i in order
    ensures p < |order| && order[p] == i
  {
    var p :| 0 <= p < |order| && order[p] == i;
    p
  }

  lemma {:induction false} WalkAdvances(edges: seq<set<nat>>, order: seq<nat>, walk: seq<nat>, k: nat)
    requires IsPermutation(|edges|, order) && EdgesForward(edges, order) && ClosedWalk(edges, walk) && k < |walk|
    ensures Position(order, walk[k]) >= Position(order, walk[0]) + k
  {
    if k > 0 {
      WalkAdvances(edges, order, walk, k - 1);
      assert walk[(k - 1) + 1] in edges[walk[k - 1]];
      var p, q := Position(order, walk[k - 1]), Position(order, walk[k]);
      assert order[q] in edges[order[p]];
    }
  }

  lemma ForwardAcyclic(edges: seq<set<nat>>, order: seq<nat>)
    requires IsPermutation(|edges|, order) && EdgesForward(edges, order)
    ensures !HasCycle(edges)
  {
    if HasCycle(edges) {
      var walk :| ClosedWalk(edges, walk);
      WalkAdvances(edges, order, walk, |walk| - 1);
    }
  }

  lemma CycleOfNodes(nodes: seq<Node>, hasImage: bool)
    requires DistinctPaths(nodes)
    ensures HasCycle(EdgeSets(nodes, hasImage)) <==> Cyclic(hasImage, NodeSet(nodes))
  {
    var edges := EdgeSets(nodes, hasImage);
    if HasCycle(edges) {
      var walk :| ClosedWalk(edges, walk);
      var named := Select(nodes, walk);
      forall k | 0 <= k < |named| - 1 ensures NodeEdge(hasImage, named[k], named[k + 1]) {
        assert walk[k + 1] in edges[walk[k]];
        EdgeIsNodeEdge(nodes, hasImage, walk[k], walk[k + 1]);
      }
      assert CyclicWalk(hasImage, NodeSet(nodes), named);
    }
    if Cyclic(hasImage, NodeSet(nodes)) {
      var named :| CyclicWalk(hasImage, NodeSet(nodes), named);
      var walk := IndicesOf(nodes, named);
      forall k | 0 <= k < |walk| - 1 ensures walk[k + 1] in edges[walk[k]] {
        assert NodeEdge(hasImage, named[k], named[k + 1]);
        EdgeIsNodeEdge(nodes, hasImage, walk[k], walk[k + 1]);
      }
      DistinctIndices(nodes, walk[0], walk[|walk| - 1]);
      assert ClosedWalk(edges, walk);
    }
  }

  lemma {:induction false} IndicesOf(nodes: seq<Node>, named: seq<Node>) returns (indices: seq<nat>)
    requires forall k :: 0 <= k < |named| ==> named[k] in nodes
    ensures |indices| == |named|
    ensures forall k :: 0 <= k < |indices| ==> indices[k] < |nodes| && nodes[indices[k]] == named[k]
  {
    indices := [];
    if named != [] {
      var before := IndicesOf(nodes, named[..|named| - 1]);
      var i: nat :| i < |nodes| && nodes[i] == named[|named| - 1];
      indices := before + [i];
    }
  }

  // ---------------------------------------------------------------- the scheduler

  /** Orders the active nodes, or refuses them. */
  method OrderActiveNodes(nodes: seq<Node>, hasImage: bool) returns (r: Result<seq<Node>>)
    ensures r.Refused? <==> (hasImage && !AnchorsPresent(nodes)) || HasCycle(EdgeSets(nodes, hasImage))
    ensures r.Refused? ==> r.reason == if hasImage && !AnchorsPresent(nodes) then MissingAnchor else DependencyCycle
    ensures r.Ok? ==> exists order ::
                && IsPermutation(|nodes|, order)
                && EdgesForward(EdgeSets(nodes, hasImage), order)
                && Greedy(nodes, EdgeSets(nodes, hasImage), order)
                && r.value == Select(nodes, order)
    ensures DistinctPaths(nodes) && r.Ok? ==> Schedules(hasImage, NodeSet(nodes), r.value)
  {
    var anchored, edges, indegree := BuildEdges(nodes, hasImage);
    if !anchored {
      return Refused(MissingAnchor);
    }
    assert edges == EdgeSets(nodes, hasImage) by {
      forall i | 0 <= i < |nodes| ensures edges[i] == EdgeSets(nodes, hasImage)[i] {
        assert forall j: nat :: j in edges[i] <==> Edge(nodes, hasImage, i, j);
      }
    }
    var order := TopologicalOrder(nodes, edges, indegree);
    if |order| != |nodes| {
      return Refused(DependencyCycle);
    }
    GreedyForward(nodes, edges, order);
    ForwardAcyclic(edges, order);
    if DistinctPaths(nodes) {
      PermutationSchedules(nodes, hasImage, order);
    }
    return Ok(Select(nodes, order));
  }

  // ---------------------------------------------------------------- properties of schedules

  lemma LeastReadyUnique(hasImage: bool, all: set<Node>, emitted: seq<Node>, x: Node, y: Node)
    requires LeastReadyNode(hasImage, all, emitted, x) && LeastReadyNode(hasImage, all, emitted, y)
    ensures x == y
  {
    if x != y {
      LessAntisymmetric(x.path, y.path);
    }
  }

  lemma NextUnique(hasImage: bool, all: set<Node>, a: seq<Node>, b: seq<Node>, m: nat)
    requires m < |a| && m < |b| && a[..m] == b[..m]
    requires LeastReadyNode(hasImage, all, a[..m], a[m]) && LeastReadyNode(hasImage, all, b[..m], b[m])
    ensures a[..m + 1] == b[..m + 1]
  {
    LeastReadyUnique(hasImage, all, a[..m], a[m], b[m]);
    assert a[..m + 1] == a[..m] + [a[m]] && b[..m + 1] == b[..m] + [b[m]];
  }

  /** A set of nodes with distinct paths has at most one schedule. */
  lemma {:induction false} ScheduleUnique(hasImage: bool, all: set<Node>, a: seq<Node>, b: seq<Node>, k: nat)
    requires LeastFirst(hasImage, all, a) && LeastFirst(hasImage, all, b)
    requires k <= |a| && k <= |b|
    ensures a[..k] == b[..k]
  {
    if k > 0 {
      ScheduleUnique(hasImage, all, a, b, k - 1);
      NextUnique(hasImage, all, a, b, k - 1);
    }
  }

  /** The schedule does not depend on the order in which nodes are given. */
  lemma ScheduleIndependent(hasImage: bool, nodes: seq<Node>, permuted: seq<Node>, a: seq<Node>, b: seq<Node>)
    requires DistinctPaths(nodes) && DistinctPaths(permuted) && NodeSet(nodes) == NodeSet(permuted)
    requires Schedules(hasImage, NodeSet(nodes), a) && Schedules(hasImage, NodeSet(permuted), b)
    ensures a == b
    ensures HasCycle(EdgeSets(nodes, hasImage)) <==> HasCycle(EdgeSets(permuted, hasImage))
  {
    ScheduleUnique(hasImage, NodeSet(nodes), a, b, |a|);
    assert a[..|a|] == a && b[..|a|] == b;
    CycleOfNodes(nodes, hasImage);
    CycleOfNodes(permuted, hasImage);
  }

  lemma {:induction false} ShortestNode(walk: seq<Node>) returns (t: nat)
    requires |walk| > 0
    ensures t < |walk| && forall k :: 0 <= k < |walk| ==> |walk[t].path| <= |walk[k].path|
  {
    t := 0;
    if |walk| > 1 {
      var last := |walk| - 1;
      t := ShortestNode(walk[..last]);
      if |walk[last].path| < |walk[t].path| {
        t := last;
      }
    }
  }

  lemma TopmostNode(hasImage: bool, before: Node, top: Node, after: Node)
    requires |top.path| <= |before.path| && |top.path| <= |after.path|
    requires hasImage ==> !IsHardlink(top) && !IsHardlink(after)
    ensures NodeEdge(hasImage, top, after) ==> ParentBeforeChild(top)
    ensures NodeEdge(hasImage, before, top) ==> !ParentBeforeChild(top)
  {
  }

  /** Ancestor edges alone never form a cycle, whatever the outcomes: the
      topmost node of a cycle would have to come both before and after its
      descendants. */
  lemma AncestorEdgesAcyclic(hasImage: bool, all: set<Node>)
    requires hasImage ==> forall n :: n in all ==> !IsHardlink(n)
    ensures !Cyclic(hasImage, all)
  {
    if Cyclic(hasImage, all) {
      var walk: seq<Node> :| CyclicWalk(hasImage, all, walk);
      var ring := walk[..|walk| - 1];
      var t := ShortestNode(ring);
      assert forall k :: 0 <= k < |walk| ==> |walk[t].path| <= |walk[k].path| by {
        assert ring[0] == walk[|walk| - 1];
        assert forall k :: 0 <= k < |walk| - 1 ==> walk[k] == ring[k];
      }
      var before := if t == 0 then |walk| - 2 else t - 1;
      assert walk[before + 1] == walk[t];
      TopmostNode(hasImage, walk[before], walk[t], walk[t + 1]);
    }
  }

  /** In a complete schedule every dependency edge goes forward. */
  lemma ScheduleForward(hasImage: bool, all: set<Node>, order: seq<Node>, i: nat, j: nat)
    requires Schedules(hasImage, all, order) && i < |order| && j < |order|
    requires NodeEdge(hasImage, order[i], order[j])
    ensures i < j
  {
    assert order[i] in NodeSet(order);
    assert LeastReadyNode(hasImage, all, order[..j], order[j]);
    assert order[i] in order[..j];
    var k :| 0 <= k < j && order[k] == order[i];
    LeastFirstDistinct(hasImage, all, order);
    assert k == i;
  }

  /** Plans without an image, or whose image puts no hard link in the active
      namespace, are always schedulable; a removal puts every descendant
      before its ancestors and an incoming directory comes before everything
      below it. */
  lemma AncestorOrder(hasImage: bool, nodes: seq<Node>, order: seq<Node>)
    requires DistinctPaths(nodes)
    requires hasImage ==> forall n :: n in nodes ==> !IsHardlink(n)
    ensures hasImage ==> AnchorsPresent(nodes)
    ensures !HasCycle(EdgeSets(nodes, hasImage))
    ensures Schedules(hasImage, NodeSet(nodes), order) ==>
              forall i, j :: 0 <= i < |order| && 0 <= j < |order| && IsAncestorOf(order[i].path, order[j].path) ==>
                               if ParentBeforeChild(order[i]) then i < j else j < i
  {
    AncestorEdgesAcyclic(hasImage, NodeSet(nodes));
    CycleOfNodes(nodes, hasImage);
    if Schedules(hasImage, NodeSet(nodes), order) {
      forall i, j | 0 <= i < |order| && 0 <= j < |order| && IsAncestorOf(order[i].path, order[j].path)
        ensures if ParentBeforeChild(order[i]) then i < j else j < i
      {
        if ParentBeforeChild(order[i]) {
          ScheduleForward(hasImage, NodeSet(nodes), order, i, j);
        } else {
          ScheduleForward(hasImage, NodeSet(nodes), order, j, i);
        }
      }
    }
  }
}
