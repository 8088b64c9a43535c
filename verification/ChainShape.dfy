/**
 * Which predecessor a member chains onto, read from the frozen relation.
 *
 * A chained member is built on one commit, so its required members must be totally
 * ordered: the last of them then contains all the others.
 */
module ChainShape {
  import opened Base
  import opened Identifiers
  import opened PlanEncoding
  import opened BlockDefinition
  import opened BlockDependencies

  datatype ShapeRefusal = NoUniqueMaximum | TaskNotInRelation

  /** `dependencies.find(entry => entry.taskId === taskId)` */
  function FindRow(rows: seq<Row>, taskId: string): (r: Option<Row>)
    ensures r.Some? ==> r.value in rows && r.value.taskId == taskId
    ensures r.None? <==> !HasRow(rows, taskId)
  {
    if rows == [] then None
    else if rows[0].taskId == taskId then Some(rows[0])
    else
      assert forall i | 0 <= i < |rows[1..]| :: rows[1..][i] == rows[i + 1];
      FindRow(rows[1..], taskId)
  }

  /** The last row of a task: what the `reach` map holds when a task has several. */
  function LastRow(rows: seq<Row>, taskId: string): (r: Option<Row>)
    ensures r.Some? ==> r.value in rows && r.value.taskId == taskId
    ensures r.None? <==> !HasRow(rows, taskId)
  {
    if rows == [] then None
    else if rows[|rows| - 1].taskId == taskId then Some(rows[|rows| - 1])
    else LastRow(rows[..|rows| - 1], taskId)
  }

  predicate Dominates(rows: seq<Row>, required: seq<string>, candidate: string) {
    var below := LastRow(rows, candidate);
    below.Some? && forall other | other in required :: other == candidate || other in below.value.dependsOn
  }

  function Dominating(rows: seq<Row>, required: seq<string>, candidates: seq<string>): (r: seq<string>)
    ensures forall c :: c in r <==> c in candidates && Dominates(rows, required, c)
    ensures r == [] <==> forall c | c in candidates :: !Dominates(rows, required, c)
  {
    if candidates == [] then []
    else
      var rest := Dominating(rows, required, candidates[1..]);
      if Dominates(rows, required, candidates[0]) then [candidates[0]] + rest else rest
  }

  /** `None` inside `Ok` exactly when the member waits for no other member. */
  function UniqueMaximumOf(rows: seq<Row>, taskId: string): Result<Option<string>, ShapeRefusal> {
    match FindRow(rows, taskId)
    case None => Err(TaskNotInRelation)
    case Some(row) =>
      if row.dependsOn == [] then Ok(None)
      else
        var dominating := Dominating(rows, row.dependsOn, row.dependsOn);
        if |dominating| == 1 then Ok(Some(dominating[0])) else Err(NoUniqueMaximum)
  }

  datatype ShapeResult = Shaped | Unshaped(code: ShapeRefusal, taskId: string)

  predicate HasShape(rows: seq<Row>, row: Row) {
    UniqueMaximumOf(rows, row.taskId).Ok?
  }

  /** The position of the first `false`; the length when there is none. */
  function FirstFalse(answers: seq<bool>): (k: nat)
    ensures k <= |answers|
    ensures forall i | 0 <= i < k :: answers[i]
    ensures k < |answers| ==> !answers[k]
  {
    if answers == [] || !answers[0] then 0 else 1 + FirstFalse(answers[1..])
  }

  /** Reports the first row without a shape. */
  function ChainShapeOf(rows: seq<Row>): ShapeResult {
    var k := FirstFalse(seq(|rows|, i requires 0 <= i < |rows| => HasShape(rows, rows[i])));
    if k == |rows| then Shaped
    else Unshaped(UniqueMaximumOf(rows, rows[k].taskId).error, rows[k].taskId)
  }

  lemma ShapedMeansEveryRowHasShape(rows: seq<Row>)
    ensures ChainShapeOf(rows) == Shaped <==> forall row | row in rows :: HasShape(rows, row)
  {
    var answers := seq(|rows|, i requires 0 <= i < |rows| => HasShape(rows, rows[i]));
    var k := FirstFalse(answers);
    if k < |rows| { assert !answers[k] && rows[k] in rows; }
    forall row | row in rows && k == |rows| ensures HasShape(rows, row) {
      var i :| 0 <= i < |rows| && rows[i] == row;
      assert answers[i];
    }
  }

  // ------------------------------------------------- strict orders over members

  /**
   * What every relation that comes out of the projection satisfies: one duplicate-free
   * row per task, nothing named without a row, and a strict order.
   */
  ghost predicate StrictRelation(rows: seq<Row>) {
    && RowsDistinct(rows)
    && (forall i | 0 <= i < |rows| :: NoRepeats(rows[i].dependsOn))
    && (forall i, d | 0 <= i < |rows| && d in rows[i].dependsOn :: HasRow(rows, d))
    && (forall a :: !Requires(rows, a, a))
    && (forall a, b, c :: Requires(rows, a, b) && Requires(rows, b, c) ==> Requires(rows, a, c))
  }

  lemma ProjectionIsAStrictRelation(graph: TaskGraph, taskIds: seq<string>, rows: seq<Row>)
    requires Acyclic(graph) && NoRepeats(taskIds) && IsProjection(graph, taskIds, rows)
    ensures StrictRelation(rows)
  {
    ProjectionIsAStrictOrder(graph, taskIds, rows);
    ProjectionIsAcceptedByDefinition(graph, taskIds, rows);
    forall i | 0 <= i < |rows|
      ensures NoRepeats(rows[i].dependsOn)
      ensures forall d | d in rows[i].dependsOn :: HasRow(rows, d)
    {
      assert IsProjectedRow(graph, taskIds, taskIds[i], rows[i]);
      SortedHasNoRepeats(rows[i].dependsOn);
    }
  }

  lemma RowsAgree(rows: seq<Row>, row: Row)
    requires RowsDistinct(rows) && row in rows
    ensures FindRow(rows, row.taskId) == Some(row)
    ensures LastRow(rows, row.taskId) == Some(row)
    ensures forall d :: Requires(rows, row.taskId, d) <==> d in row.dependsOn
  {
    var i :| 0 <= i < |rows| && rows[i] == row;
    assert HasRow(rows, row.taskId);
    var f, l := FindRow(rows, row.taskId).value, LastRow(rows, row.taskId).value;
    var j :| 0 <= j < |rows| && rows[j] == f;
    var k :| 0 <= k < |rows| && rows[k] == l;
    forall d | d in row.dependsOn ensures Requires(rows, row.taskId, d) {
      assert rows[i].taskId == row.taskId && d in rows[i].dependsOn;
    }
  }

  ghost predicate Comparable(rows: seq<Row>, a: string, b: string) {
    a == b || Requires(rows, a, b) || Requires(rows, b, a)
  }

  ghost predicate TotallyOrdered(rows: seq<Row>, members: seq<string>) {
    forall a, b | a in members && b in members :: Comparable(rows, a, b)
  }

  lemma DominatesIsMaximum(rows: seq<Row>, required: seq<string>, m: string)
    requires RowsDistinct(rows) && m in required
    requires forall d | d in required :: HasRow(rows, d)
    ensures Dominates(rows, required, m) <==> forall other | other in required :: other == m || Requires(rows, m, other)
  {
    assert HasRow(rows, m);
    var row := LastRow(rows, m).value;
    RowsAgree(rows, row);
  }

  /** At most one member dominates: two would each lie below the other. */
  lemma DominatorIsUnique(rows: seq<Row>, required: seq<string>, m: string, n: string)
    requires StrictRelation(rows) && m in required && n in required
    requires forall d | d in required :: HasRow(rows, d)
    requires Dominates(rows, required, m) && Dominates(rows, required, n)
    ensures m == n
  {
    DominatesIsMaximum(rows, required, m);
    DominatesIsMaximum(rows, required, n);
  }

  lemma {:induction false} FilterOfDistinct(rows: seq<Row>, required: seq<string>, candidates: seq<string>)
    requires NoRepeats(candidates)
    ensures NoRepeats(Dominating(rows, required, candidates))
    decreases |candidates|
  {
    if candidates != [] {
      var rest := candidates[1..];
      assert forall i | 0 <= i < |rest| :: rest[i] == candidates[i + 1];
      FilterOfDistinct(rows, required, rest);
      assert candidates[0] !in rest;
    }
  }

  /** The question `uniqueMaximumOf` answers, with the list bookkeeping gone. */
  lemma UniqueMaximumMeans(rows: seq<Row>, row: Row)
    requires StrictRelation(rows) && row in rows && row.dependsOn != []
    ensures UniqueMaximumOf(rows, row.taskId).Ok? <==> exists m | m in row.dependsOn :: Dominates(rows, row.dependsOn, m)
    ensures UniqueMaximumOf(rows, row.taskId).Ok? ==>
      var m := UniqueMaximumOf(rows, row.taskId).value;
      m.Some? && m.value in row.dependsOn && Dominates(rows, row.dependsOn, m.value)
  {
    RowsAgree(rows, row);
    var required := row.dependsOn;
    var i :| 0 <= i < |rows| && rows[i] == row;
    var dominating := Dominating(rows, required, required);
    FilterOfDistinct(rows, required, required);
    if |dominating| >= 2 {
      DominatorIsUnique(rows, required, dominating[0], dominating[1]);
      assert false;
    }
    assert |dominating| == 1 ==> dominating[0] in dominating;
    if m :| m in required && Dominates(rows, required, m) {
      assert m in dominating;
    }
  }

  /** A non-empty, totally ordered required set has a greatest element. */
  lemma {:induction false} GreatestExists(rows: seq<Row>, members: seq<string>) returns (m: string)
    requires StrictRelation(rows) && members != [] && TotallyOrdered(rows, members)
    ensures m in members && forall other | other in members :: other == m || Requires(rows, m, other)
    decreases |members|
  {
    if |members| == 1 {
      m := members[0];
    } else {
      var rest := members[1..];
      assert forall x | x in rest :: x in members;
      var n := GreatestExists(rows, rest);
      assert Comparable(rows, members[0], n);
      m := if members[0] == n || Requires(rows, n, members[0]) then n else members[0];
      forall other | other in members ensures other == m || Requires(rows, m, other) {
        assert other == members[0] || other in rest;
      }
    }
  }

  lemma RowIsIn(rows: seq<Row>, taskId: string) returns (row: Row)
    requires HasRow(rows, taskId)
    ensures row in rows && row.taskId == taskId
  {
    var i :| 0 <= i < |rows| && rows[i].taskId == taskId;
    row := rows[i];
  }

  lemma AllShapedMeansMaxima(rows: seq<Row>, row: Row)
    requires StrictRelation(rows) && ChainShapeOf(rows) == Shaped && row in rows && row.dependsOn != []
    ensures exists m | m in row.dependsOn :: Dominates(rows, row.dependsOn, m)
  {
    ShapedMeansEveryRowHasShape(rows);
    assert HasShape(rows, row);
    UniqueMaximumMeans(rows, row);
  }

  lemma SmallerRow(rows: seq<Row>, row: Row, m: string, below: Row)
    requires StrictRelation(rows) && row in rows && below in rows && below.taskId == m
    requires m in row.dependsOn
    ensures m !in below.dependsOn && forall d | d in below.dependsOn :: d in row.dependsOn
    ensures |set d | d in below.dependsOn| < |set d | d in row.dependsOn|
  {
    RowsAgree(rows, row);
    RowsAgree(rows, below);
    forall d | d in below.dependsOn ensures d in row.dependsOn {
      assert Requires(rows, row.taskId, m) && Requires(rows, m, d);
    }
    var small, large := set d | d in below.dependsOn, set d | d in row.dependsOn;
    assert small <= large - {m};
    SubsetSize(small, large - {m});
  }

  lemma {:induction false} SubsetSize(a: set<string>, b: set<string>)
    requires a <= b
    ensures |a| <= |b|
  {
    if a != {} {
      var x :| x in a;
      SubsetSize(a - {x}, b - {x});
    }
  }

  /** A maximum at every level leaves no two required members incomparable. */
  lemma {:induction false} ShapedRowsAreTotallyOrdered(rows: seq<Row>, row: Row)
    requires StrictRelation(rows) && ChainShapeOf(rows) == Shaped && row in rows
    ensures TotallyOrdered(rows, row.dependsOn)
    decreases |set d | d in row.dependsOn|
  {
    if row.dependsOn != [] {
      AllShapedMeansMaxima(rows, row);
      var m :| m in row.dependsOn && Dominates(rows, row.dependsOn, m);
      var at :| 0 <= at < |rows| && rows[at] == row;
      DominatesIsMaximum(rows, row.dependsOn, m);
      var below := RowIsIn(rows, m);
      RowsAgree(rows, below);
      SmallerRow(rows, row, m, below);
      ShapedRowsAreTotallyOrdered(rows, below);
      forall a, b | a in row.dependsOn && b in row.dependsOn ensures Comparable(rows, a, b) {
        if a != m && b != m { assert a in below.dependsOn && b in below.dependsOn; }
      }
    }
  }

  lemma OrderedRowIsShaped(rows: seq<Row>, row: Row)
    requires StrictRelation(rows) && row in rows && TotallyOrdered(rows, row.dependsOn)
    ensures UniqueMaximumOf(rows, row.taskId).Ok?
  {
    RowsAgree(rows, row);
    if row.dependsOn != [] {
      var at :| 0 <= at < |rows| && rows[at] == row;
      var m := GreatestExists(rows, row.dependsOn);
      DominatesIsMaximum(rows, row.dependsOn, m);
      UniqueMaximumMeans(rows, row);
    }
  }

  /**
   * The freeze-time gate accepts a relation exactly when every member's required set is
   * a chain.
   */
  lemma ShapedIffTotallyOrdered(rows: seq<Row>)
    requires StrictRelation(rows)
    ensures ChainShapeOf(rows) == Shaped <==> forall row | row in rows :: TotallyOrdered(rows, row.dependsOn)
  {
    ShapedMeansEveryRowHasShape(rows);
    if ChainShapeOf(rows) == Shaped {
      forall row | row in rows ensures TotallyOrdered(rows, row.dependsOn) {
        ShapedRowsAreTotallyOrdered(rows, row);
      }
    }
    if forall row | row in rows :: TotallyOrdered(rows, row.dependsOn) {
      forall row | row in rows ensures HasShape(rows, row) {
        OrderedRowIsShaped(rows, row);
      }
    }
  }

  /** In an accepted relation a required set is its maximum and everything below it, and nothing else. */
  lemma RequiredSetIsMaximumAndBelow(rows: seq<Row>, row: Row)
    requires StrictRelation(rows) && ChainShapeOf(rows) == Shaped && row in rows && row.dependsOn != []
    ensures
      var shape := UniqueMaximumOf(rows, row.taskId);
      && shape.Ok? && shape.value.Some?
      && forall d :: d in row.dependsOn <==> d == shape.value.value || Requires(rows, shape.value.value, d)
  {
    AllShapedMeansMaxima(rows, row);
    UniqueMaximumMeans(rows, row);
    RowsAgree(rows, row);
    var at :| 0 <= at < |rows| && rows[at] == row;
    var m := UniqueMaximumOf(rows, row.taskId).value.value;
    DominatesIsMaximum(rows, row.dependsOn, m);
    forall d | Requires(rows, m, d) ensures d in row.dependsOn {
      assert Requires(rows, row.taskId, m);
    }
  }
}
