/** What a block is supposed to work through: its members, in order, and their relation. */
module BlockDefinition {
  import opened Base
  import opened Identifiers
  import opened PlanEncoding

  const MAX_BLOCK_TASKS := 64

  datatype Definition = Definition(blockId: string, taskIds: seq<string>, dependencies: seq<Row>)

  datatype DefinitionFailure =
    | BlockIdInvalid
    | BlockEmpty
    | BlockTooLarge
    | TaskIdInvalid
    | TaskRepeated
    | BlockIdCollidesWithTask
    | DependencyRowMissing
    | DependencyRowUnknown
    | DependencyRowRepeated
    | DependencyUnknown
    | DependencySelf

  predicate MembersAccepted(blockId: string, taskIds: seq<string>) {
    && IsValidTaskId(blockId)
    && 0 < |taskIds| <= MAX_BLOCK_TASKS
    && (forall i | 0 <= i < |taskIds| :: IsValidTaskId(taskIds[i]))
    && NoRepeats(taskIds)
    && blockId !in taskIds
  }

  predicate RowAccepted(taskIds: seq<string>, row: Row) {
    && row.taskId in taskIds
    && forall d | d in row.dependsOn :: d != row.taskId && d in taskIds
  }

  predicate RowsDistinct(rows: seq<Row>) {
    forall i, j | 0 <= i < j < |rows| :: rows[i].taskId != rows[j].taskId
  }

  predicate HasRow(rows: seq<Row>, taskId: string) {
    exists i | 0 <= i < |rows| :: rows[i].taskId == taskId
  }

  /** Exactly one row per member, and no row says anything about a stranger or about itself. */
  predicate RelationAccepted(taskIds: seq<string>, rows: seq<Row>) {
    && (forall i | 0 <= i < |rows| :: RowAccepted(taskIds, rows[i]))
    && RowsDistinct(rows)
    && (forall t | t in taskIds :: HasRow(rows, t))
  }

  /** What each refusal says about the request it refuses. */
  ghost predicate Explains(code: DefinitionFailure, blockId: string, taskIds: seq<string>, rows: seq<Row>) {
    match code
    case BlockIdInvalid => !IsValidTaskId(blockId)
    case BlockEmpty => taskIds == []
    case BlockTooLarge => |taskIds| > MAX_BLOCK_TASKS
    case TaskIdInvalid => exists t | t in taskIds :: !IsValidTaskId(t)
    case TaskRepeated => !NoRepeats(taskIds)
    case BlockIdCollidesWithTask => blockId in taskIds
    case DependencyRowMissing => exists t | t in taskIds :: !HasRow(rows, t)
    case DependencyRowUnknown => exists row | row in rows :: row.taskId !in taskIds
    case DependencyRowRepeated => !RowsDistinct(rows)
    case DependencyUnknown => exists row | row in rows :: NamesStranger(taskIds, row)
    case DependencySelf => exists row | row in rows :: row.taskId in row.dependsOn
  }

  predicate NamesStranger(taskIds: seq<string>, row: Row) {
    exists d | d in row.dependsOn :: d !in taskIds
  }

  predicate SameElements(a: seq<string>, b: seq<string>) {
    (forall x | x in a :: x in b) && (forall x | x in b :: x in a)
  }

  /** The definition is the request with its rows put in member order and canonically spelled. */
  ghost predicate Canonicalises(definition: Definition, taskIds: seq<string>, rows: seq<Row>) {
    && definition.taskIds == taskIds
    && |definition.dependencies| == |taskIds|
    && (forall i | 0 <= i < |taskIds| ::
          && definition.dependencies[i].taskId == taskIds[i]
          && StrictlySorted(definition.dependencies[i].dependsOn))
    && (forall i, j | 0 <= i < |taskIds| && 0 <= j < |rows| && rows[j].taskId == taskIds[i] ::
          SameElements(definition.dependencies[i].dependsOn, rows[j].dependsOn))
  }

  method CheckMembers(blockId: string, taskIds: seq<string>) returns (failure: Option<DefinitionFailure>)
    ensures failure.None? <==> MembersAccepted(blockId, taskIds)
    ensures failure.Some? ==> forall rows :: Explains(failure.value, blockId, taskIds, rows)
  {
    if !IsValidTaskId(blockId) { return Some(BlockIdInvalid); }
    if taskIds == [] { return Some(BlockEmpty); }
    if |taskIds| > MAX_BLOCK_TASKS { return Some(BlockTooLarge); }
    var seen: set<string> := {};
    for i := 0 to |taskIds|
      invariant seen == set k | 0 <= k < i :: taskIds[k]
      invariant forall k | 0 <= k < i :: IsValidTaskId(taskIds[k]) && taskIds[k] != blockId
      invariant NoRepeats(taskIds[..i])
    {
      var taskId := taskIds[i];
      if !IsValidTaskId(taskId) { return Some(TaskIdInvalid); }
      if taskId in seen { return Some(TaskRepeated); }
      if taskId == blockId { return Some(BlockIdCollidesWithTask); }
      seen := seen + {taskId};
      assert taskIds[..i + 1] == taskIds[..i] + [taskId];
    }
    assert taskIds[..|taskIds|] == taskIds;
    return None;
  }

  /** What one member's row lists: never itself, never a stranger. */
  method CheckRow(row: Row, taskIds: seq<string>) returns (failure: Option<DefinitionFailure>)
    requires row.taskId in taskIds
    ensures failure.None? <==> RowAccepted(taskIds, row)
    ensures failure.Some? ==>
      || (failure.value == DependencySelf && row.taskId in row.dependsOn)
      || (failure.value == DependencyUnknown && NamesStranger(taskIds, row))
  {
    for i := 0 to |row.dependsOn|
      invariant forall k | 0 <= k < i :: row.dependsOn[k] != row.taskId && row.dependsOn[k] in taskIds
    {
      var dependency := row.dependsOn[i];
      if dependency == row.taskId { return Some(DependencySelf); }
      if dependency !in taskIds { return Some(DependencyUnknown); }
    }
    return None;
  }

  /** The rows read so far are accepted, distinct, and recorded under their own task. */
  ghost predicate Collected(rows: map<string, seq<string>>, taskIds: seq<string>, read: seq<Row>) {
    && (forall k | 0 <= k < |read| :: RowAccepted(taskIds, read[k]))
    && RowsDistinct(read)
    && (forall t :: t in rows <==> HasRow(read, t))
    && (forall k | 0 <= k < |read| ::
          read[k].taskId in rows && rows[read[k].taskId] == Canonical(read[k].dependsOn))
  }

  lemma CollectedGrows(
    rows: map<string, seq<string>>, taskIds: seq<string>, read: seq<Row>, row: Row)
    requires Collected(rows, taskIds, read)
    requires RowAccepted(taskIds, row) && row.taskId !in rows
    ensures Collected(rows[row.taskId := Canonical(row.dependsOn)], taskIds, read + [row])
  {
    var after, all := rows[row.taskId := Canonical(row.dependsOn)], read + [row];
    forall k | 0 <= k < |read| ensures read[k].taskId != row.taskId { }
    forall t ensures t in after <==> HasRow(all, t) {
      if HasRow(read, t) {
        var k :| 0 <= k < |read| && read[k].taskId == t;
        assert all[k].taskId == t;
      }
      if t == row.taskId { assert all[|read|].taskId == t; }
    }
  }

  lemma RepeatedRow(rows: map<string, seq<string>>, taskIds: seq<string>, all: seq<Row>, i: nat)
    requires i < |all| && Collected(rows, taskIds, all[..i]) && all[i].taskId in rows
    ensures !RowsDistinct(all)
  {
    var k :| 0 <= k < i && all[..i][k].taskId == all[i].taskId;
    assert all[k].taskId == all[i].taskId;
  }

  /**
   * Reads the rows in order. A row that is not a member's is refused before a repeated
   * one, and a repeated one before anything is asked about what it lists.
   */
  method CollectRows(taskIds: seq<string>, dependencies: seq<Row>)
    returns (failure: Option<DefinitionFailure>, rows: map<string, seq<string>>)
    ensures failure.None? <==>
      (forall k | 0 <= k < |dependencies| :: RowAccepted(taskIds, dependencies[k])) && RowsDistinct(dependencies)
    ensures failure.None? ==> Collected(rows, taskIds, dependencies)
    ensures failure.Some? ==> !RelationAccepted(taskIds, dependencies)
    ensures failure.Some? ==> forall blockId :: Explains(failure.value, blockId, taskIds, dependencies)
  {
    rows := map[];
    for i := 0 to |dependencies|
      invariant Collected(rows, taskIds, dependencies[..i])
    {
      var row := dependencies[i];
      assert row in dependencies;
      if row.taskId !in taskIds { return Some(DependencyRowUnknown), rows; }
      if row.taskId in rows {
        RepeatedRow(rows, taskIds, dependencies, i);
        return Some(DependencyRowRepeated), rows;
      }
      var bad := CheckRow(row, taskIds);
      if bad.Some? { return bad, rows; }
      CollectedGrows(rows, taskIds, dependencies[..i], row);
      assert dependencies[..i + 1] == dependencies[..i] + [row];
      rows := rows[row.taskId := Canonical(row.dependsOn)];
    }
    assert dependencies[..|dependencies|] == dependencies;
    return None, rows;
  }

  method DefineBlock(blockId: string, taskIds: seq<string>, dependencies: seq<Row>)
    returns (r: Result<Definition, DefinitionFailure>)
    ensures r.Ok? <==> MembersAccepted(blockId, taskIds) && RelationAccepted(taskIds, dependencies)
    ensures r.Ok? ==> r.value.blockId == blockId && Canonicalises(r.value, taskIds, dependencies)
    ensures r.Err? ==> Explains(r.error, blockId, taskIds, dependencies)
  {
    var members := CheckMembers(blockId, taskIds);
    if members.Some? { return Err(members.value); }
    var failure, rows := CollectRows(taskIds, dependencies);
    if failure.Some? { return Err(failure.value); }
    for i := 0 to |taskIds|
      invariant forall k | 0 <= k < i :: taskIds[k] in rows
    {
      if taskIds[i] !in rows {
        assert !HasRow(dependencies, taskIds[i]);
        return Err(DependencyRowMissing);
      }
    }
    var canonical := seq(|taskIds|, i requires 0 <= i < |taskIds| && taskIds[i] in rows =>
      Row(taskIds[i], rows[taskIds[i]]));
    forall i | 0 <= i < |taskIds| ensures StrictlySorted(rows[taskIds[i]]) {
      var k :| 0 <= k < |dependencies| && dependencies[k].taskId == taskIds[i];
    }
    return Ok(Definition(blockId, taskIds, canonical));
  }
}
