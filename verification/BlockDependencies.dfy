/**
 * The block's dependency relation, projected out of the repository's whole graph.
 *
 * The walk goes up the whole graph and the restriction to members happens once, at the
 * end: a member may depend on another only through tasks the block does not hold.
 */
module BlockDependencies {
  import opened Base
  import opened Identifiers
  import opened PlanEncoding
  import opened BlockDefinition

  /** `node(id)?.dependsOn` for every task the repository knows. */
  type TaskGraph = map<string, seq<string>>

  /** `graph.node(id)?.dependsOn ?? []` */
  function Successors(graph: TaskGraph, id: string): seq<string> {
    if id in graph then graph[id] else []
  }

  /** A walk along dependency edges, one edge or more. */
  ghost predicate Path(graph: TaskGraph, p: seq<string>) {
    |p| >= 2 && forall i | 0 <= i < |p| - 1 :: p[i + 1] in Successors(graph, p[i])
  }

  ghost predicate PathBetween(graph: TaskGraph, a: string, b: string, p: seq<string>) {
    Path(graph, p) && p[0] == a && p[|p| - 1] == b
  }

  ghost predicate Reaches(graph: TaskGraph, a: string, b: string) {
    exists p :: PathBetween(graph, a, b, p)
  }

  ghost predicate Acyclic(graph: TaskGraph) {
    forall a :: !Reaches(graph, a, a)
  }

  lemma ReachesByEdge(graph: TaskGraph, a: string, b: string)
    requires b in Successors(graph, a)
    ensures Reaches(graph, a, b)
  {
    assert PathBetween(graph, a, b, [a, b]);
  }

  lemma ReachesIsTransitive(graph: TaskGraph, a: string, b: string, c: string)
    requires Reaches(graph, a, b) && Reaches(graph, b, c)
    ensures Reaches(graph, a, c)
  {
    var p :| PathBetween(graph, a, b, p);
    var q :| PathBetween(graph, b, c, q);
    var r := p + q[1..];
    forall i | 0 <= i < |r| - 1 ensures r[i + 1] in Successors(graph, r[i]) {
      if i >= |p| - 1 { assert r[i] == q[i - |p| + 1] && r[i + 1] == q[i - |p| + 2]; }
    }
    assert PathBetween(graph, a, c, r);
  }

  // ------------------------------------------------------------------- the walk

  /** Every task the walk can ever name. */
  function Universe(graph: TaskGraph): set<string> {
    graph.Keys + set id, k | id in graph && 0 <= k < |graph[id]| :: graph[id][k]
  }

  lemma SuccessorsInUniverse(graph: TaskGraph, id: string)
    ensures forall s | s in Successors(graph, id) :: s in Universe(graph)
  {
    forall s | s in Successors(graph, id) ensures s in Universe(graph) {
      var k :| 0 <= k < |graph[id]| && graph[id][k] == s;
    }
  }

  /** Everything seen or queued is reachable, and nothing seen has an unseen, unqueued successor. */
  ghost predicate WalkInvariant(graph: TaskGraph, start: string, reached: seq<string>, queue: seq<string>) {
    && NoRepeats(reached)
    && (forall x | x in reached || x in queue :: Reaches(graph, start, x) && x in Universe(graph))
    && (forall s | s in Successors(graph, start) :: s in reached || s in queue)
    && (forall x, s | x in reached && s in Successors(graph, x) :: s in reached || s in queue)
  }

  lemma WalkStep(graph: TaskGraph, start: string, reached: seq<string>, queue: seq<string>)
    requires WalkInvariant(graph, start, reached, queue)
    requires queue != [] && queue[0] !in reached
    ensures WalkInvariant(graph, start, reached + [queue[0]], queue[1..] + Successors(graph, queue[0]))
  {
    var current := queue[0];
    SuccessorsInUniverse(graph, current);
    forall s | s in Successors(graph, current) ensures Reaches(graph, start, s) {
      ReachesByEdge(graph, current, s);
      ReachesIsTransitive(graph, start, current, s);
    }
    assert forall x | x in queue :: x == current || x in queue[1..];
  }

  lemma WalkSkip(graph: TaskGraph, start: string, reached: seq<string>, queue: seq<string>)
    requires WalkInvariant(graph, start, reached, queue)
    requires queue != [] && queue[0] in reached
    ensures WalkInvariant(graph, start, reached, queue[1..])
  {
    assert forall x | x in queue :: x == queue[0] || x in queue[1..];
  }

  /** A set closed under dependency that holds the first step of a walk holds all of it. */
  lemma {:induction false} ClosedHoldsPaths(
    graph: TaskGraph, start: string, reached: seq<string>, p: seq<string>, k: nat)
    requires WalkInvariant(graph, start, reached, [])
    requires Path(graph, p) && p[0] == start && 1 <= k < |p|
    ensures p[k] in reached
  {
    if k > 1 {
      ClosedHoldsPaths(graph, start, reached, p, k - 1);
    }
    assert p[(k - 1) + 1] in Successors(graph, p[k - 1]);
  }

  lemma WalkFindsExactlyTheReachable(graph: TaskGraph, start: string, reached: seq<string>)
    requires WalkInvariant(graph, start, reached, [])
    ensures forall x :: x in reached <==> Reaches(graph, start, x)
  {
    forall x | Reaches(graph, start, x) ensures x in reached {
      var p :| PathBetween(graph, start, x, p);
      ClosedHoldsPaths(graph, start, reached, p, |p| - 1);
    }
  }

  lemma GrowingReached(u: set<string>, reached: seq<string>, x: string)
    requires x in u && x !in reached
    ensures |u - set y | y in reached + [x]| < |u - set y | y in reached|
  {
    var before, after := u - (set y | y in reached), u - set y | y in reached + [x];
    assert after == before - {x};
  }

  /** The queue-and-visited walk. It ends on every finite graph, cyclic ones included. */
  method Walk(graph: TaskGraph, taskId: string) returns (reached: seq<string>)
    ensures NoRepeats(reached)
    ensures forall x :: x in reached <==> Reaches(graph, taskId, x)
  {
    reached := [];
    var queue := Successors(graph, taskId);
    SuccessorsInUniverse(graph, taskId);
    forall s | s in queue ensures Reaches(graph, taskId, s) { ReachesByEdge(graph, taskId, s); }
    while |queue| > 0
      invariant WalkInvariant(graph, taskId, reached, queue)
      decreases |Universe(graph) - set y | y in reached|, |queue|
    {
      var current := queue[0];
      if current in reached {
        WalkSkip(graph, taskId, reached, queue);
        queue := queue[1..];
        continue;
      }
      WalkStep(graph, taskId, reached, queue);
      GrowingReached(Universe(graph), reached, current);
      reached := reached + [current];
      queue := queue[1..] + Successors(graph, current);
    }
    WalkFindsExactlyTheReachable(graph, taskId, reached);
  }

  // ------------------------------------------------------------- the projection

  /** One row per member, in member order, listing exactly the other members it reaches. */
  ghost predicate IsProjection(graph: TaskGraph, taskIds: seq<string>, rows: seq<Row>) {
    && |rows| == |taskIds|
    && forall i | 0 <= i < |rows| :: IsProjectedRow(graph, taskIds, taskIds[i], rows[i])
  }

  ghost predicate IsProjectedRow(graph: TaskGraph, taskIds: seq<string>, taskId: string, row: Row) {
    && row.taskId == taskId
    && StrictlySorted(row.dependsOn)
    && forall d :: d in row.dependsOn <==> d in taskIds && d != taskId && Reaches(graph, taskId, d)
  }

  function Restrict(reached: seq<string>, taskIds: seq<string>, self: string): (r: seq<string>)
    ensures forall d :: d in r <==> d in reached && d in taskIds && d != self
  {
    if reached == [] then []
    else
      var rest := Restrict(reached[1..], taskIds, self);
      if reached[0] in taskIds && reached[0] != self then [reached[0]] + rest else rest
  }

  /** Refuses exactly when some member is no task of the repository, and names the first such member. */
  method ProjectBlockDependencies(graph: TaskGraph, taskIds: seq<string>)
    returns (r: Result<seq<Row>, string>)
    ensures r.Ok? <==> forall t | t in taskIds :: t in graph
    ensures r.Ok? ==> IsProjection(graph, taskIds, r.value)
    ensures r.Err? ==> exists i | 0 <= i < |taskIds| ::
      r.error == taskIds[i] && taskIds[i] !in graph && forall k | 0 <= k < i :: taskIds[k] in graph
  {
    for i := 0 to |taskIds|
      invariant forall k | 0 <= k < i :: taskIds[k] in graph
    {
      if taskIds[i] !in graph { return Err(taskIds[i]); }
    }
    var rows: seq<Row> := [];
    for i := 0 to |taskIds|
      invariant |rows| == i
      invariant forall k | 0 <= k < i :: IsProjectedRow(graph, taskIds, taskIds[k], rows[k])
    {
      var reached := Walk(graph, taskIds[i]);
      rows := rows + [Row(taskIds[i], Canonical(Restrict(reached, taskIds, taskIds[i])))];
    }
    return Ok(rows);
  }

  // ----------------------------------------------------- what the projection is

  /** The relation the rows state: `a` waits for `b`. */
  ghost predicate Requires(rows: seq<Row>, a: string, b: string) {
    exists i | 0 <= i < |rows| :: rows[i].taskId == a && b in rows[i].dependsOn
  }

  lemma ProjectionRequires(graph: TaskGraph, taskIds: seq<string>, rows: seq<Row>, a: string, b: string)
    requires IsProjection(graph, taskIds, rows)
    ensures Requires(rows, a, b) <==> a in taskIds && b in taskIds && a != b && Reaches(graph, a, b)
  {
    if a in taskIds && b in taskIds && a != b && Reaches(graph, a, b) {
      var i :| 0 <= i < |taskIds| && taskIds[i] == a;
      assert IsProjectedRow(graph, taskIds, taskIds[i], rows[i]);
    }
  }

  /**
   * On an acyclic graph the projected relation is a strict order on the members, however
   * many non-members its paths run through.
   */
  lemma ProjectionIsAStrictOrder(graph: TaskGraph, taskIds: seq<string>, rows: seq<Row>)
    requires Acyclic(graph) && IsProjection(graph, taskIds, rows)
    ensures forall a :: !Requires(rows, a, a)
    ensures forall a, b, c :: Requires(rows, a, b) && Requires(rows, b, c) ==> Requires(rows, a, c)
  {
    forall a ensures !Requires(rows, a, a) { ProjectionRequires(graph, taskIds, rows, a, a); }
    forall a, b, c | Requires(rows, a, b) && Requires(rows, b, c) ensures Requires(rows, a, c) {
      ProjectionRequires(graph, taskIds, rows, a, b);
      ProjectionRequires(graph, taskIds, rows, b, c);
      ReachesIsTransitive(graph, a, b, c);
      ProjectionRequires(graph, taskIds, rows, a, c);
    }
  }

  /** A projection is never refused by `defineBlock` for a reason about dependencies. */
  lemma ProjectionIsAcceptedByDefinition(graph: TaskGraph, taskIds: seq<string>, rows: seq<Row>)
    requires NoRepeats(taskIds) && IsProjection(graph, taskIds, rows)
    ensures RelationAccepted(taskIds, rows)
    ensures forall blockId, code: DefinitionFailure |
      code in {DependencyRowMissing, DependencyRowUnknown, DependencyRowRepeated, DependencyUnknown, DependencySelf} ::
      !Explains(code, blockId, taskIds, rows)
  {
    forall i | 0 <= i < |rows|
      ensures RowAccepted(taskIds, rows[i]) && !NamesStranger(taskIds, rows[i]) && rows[i].taskId !in rows[i].dependsOn
    {
      assert IsProjectedRow(graph, taskIds, taskIds[i], rows[i]);
    }
    forall t | t in taskIds ensures HasRow(rows, t) {
      var i :| 0 <= i < |taskIds| && taskIds[i] == t;
      assert IsProjectedRow(graph, taskIds, taskIds[i], rows[i]);
    }
    forall i, j | 0 <= i < j < |rows| ensures rows[i].taskId != rows[j].taskId {
      assert IsProjectedRow(graph, taskIds, taskIds[i], rows[i]);
      assert IsProjectedRow(graph, taskIds, taskIds[j], rows[j]);
    }
  }

  /**
   * Keeping only the members a task names directly is unsound: with `X` outside the
   * block, `B` reaches `A` through `X` and no edge between members says so.
   */
  lemma DirectEdgesMissDependencies()
    ensures
      var graph: TaskGraph := map["A" := [], "X" := ["A"], "B" := ["X"]];
      && Restrict(Successors(graph, "B"), ["A", "B"], "B") == []
      && Reaches(graph, "B", "A")
  {
    var graph: TaskGraph := map["A" := [], "X" := ["A"], "B" := ["X"]];
    assert Successors(graph, "B") == ["X"];
    assert Restrict(["X"], ["A", "B"], "B") == [] by { assert Restrict([], ["A", "B"], "B") == []; }
    var p := ["B", "X", "A"];
    assert p[1] in Successors(graph, p[0]) && p[2] in Successors(graph, p[1]);
    assert PathBetween(graph, "B", "A", p);
  }
}
