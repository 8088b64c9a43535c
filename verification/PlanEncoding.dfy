/**
 * The canonical encoding behind `planFingerprint`.
 *
 * SHA-256 is represented by its own input: a fingerprint is the encoded text. What is
 * left to prove is the part the digest cannot supply, that two plans never encode alike.
 */
module PlanEncoding {
  import opened Identifiers

  /** What one member waits for, restricted to members of its block. */
  datatype Row = Row(taskId: string, dependsOn: seq<string>)

  const CANONICAL_SEPARATOR: char := '\U{0000}'
  const DEPENDENCY_ROW_SEPARATOR: char := '\U{0001}'
  const CANONICAL_SECTION_SEPARATOR: char := '\U{0002}'

  function Join(parts: seq<string>, sep: char): string {
    if parts == [] then []
    else if |parts| == 1 then parts[0]
    else parts[0] + [sep] + Join(parts[1..], sep)
  }

  function EncodeRow(row: Row): string {
    Join([row.taskId] + row.dependsOn, CANONICAL_SEPARATOR)
  }

  function EncodeRows(rows: seq<Row>): seq<string> {
    seq(|rows|, i requires 0 <= i < |rows| => EncodeRow(rows[i]))
  }

  /** `fingerprintFrozenMembership`. */
  function Fingerprint(blockId: string, taskIds: seq<string>, rows: seq<Row>): string {
    Join([blockId] + taskIds, CANONICAL_SEPARATOR)
    + [CANONICAL_SECTION_SEPARATOR]
    + Join(EncodeRows(rows), DEPENDENCY_ROW_SEPARATOR)
  }

  /** No character of `s` is the separator. */
  predicate Free(s: string, sep: char) {
    forall i | 0 <= i < |s| :: s[i] != sep
  }

  /** Non-empty and free of the three separators: all the encoding asks of an identifier. */
  predicate Encodable(id: string) {
    && id != []
    && Free(id, CANONICAL_SEPARATOR)
    && Free(id, DEPENDENCY_ROW_SEPARATOR)
    && Free(id, CANONICAL_SECTION_SEPARATOR)
  }

  predicate AllEncodable(ids: seq<string>) {
    forall i | 0 <= i < |ids| :: Encodable(ids[i])
  }

  predicate EncodableRow(row: Row) {
    Encodable(row.taskId) && AllEncodable(row.dependsOn)
  }

  predicate EncodableRows(rows: seq<Row>) {
    forall i | 0 <= i < |rows| :: EncodableRow(rows[i])
  }

  /** The grammar of task ids is stricter than what the encoding needs. */
  lemma ValidIdsAreEncodable(id: string)
    requires IsValidTaskId(id)
    ensures Encodable(id)
  {
    forall i | 0 <= i < |id| ensures IsIdTail(id[i]) { }
  }

  // ---------------------------------------------------------------- splitting

  /** The text before the first separator; the whole text when there is none. */
  function Head(s: string, sep: char): (h: string)
    ensures |h| <= |s| && h == s[..|h|]
    ensures Free(h, sep)
    ensures |h| < |s| ==> s[|h|] == sep
  {
    if s == [] || s[0] == sep then [] else [s[0]] + Head(s[1..], sep)
  }

  lemma {:induction false} HeadOfFree(a: string, sep: char, rest: string)
    requires Free(a, sep)
    requires rest == [] || rest[0] == sep
    ensures Head(a + rest, sep) == a
  {
    if a == [] {
      assert a + rest == rest;
    } else {
      assert (a + rest)[1..] == a[1..] + rest;
      HeadOfFree(a[1..], sep, rest);
    }
  }

  predicate Parts(parts: seq<string>, sep: char) {
    forall i | 0 <= i < |parts| :: parts[i] != [] && Free(parts[i], sep)
  }

  /** Joining loses nothing as long as no part is empty or holds the separator. */
  lemma {:induction false} JoinIsInjective(a: seq<string>, b: seq<string>, sep: char)
    requires Parts(a, sep) && Parts(b, sep)
    requires Join(a, sep) == Join(b, sep)
    ensures a == b
    decreases |a|
  {
    if a == [] || b == [] {
      JoinOfSomeIsSome(a, sep);
      JoinOfSomeIsSome(b, sep);
    } else {
      JoinHead(a, sep);
      JoinHead(b, sep);
      assert a[0] == b[0];
      if |a| == 1 || |b| == 1 {
        assert |a| == 1 <==> |Join(a, sep)| == |a[0]|;
        assert |b| == 1 <==> |Join(b, sep)| == |b[0]|;
      } else {
        var n := |a[0]| + 1;
        assert Join(a, sep)[n..] == Join(a[1..], sep);
        assert Join(b, sep)[n..] == Join(b[1..], sep);
        JoinIsInjective(a[1..], b[1..], sep);
      }
      assert a == [a[0]] + a[1..] && b == [b[0]] + b[1..];
    }
  }

  lemma JoinOfSomeIsSome(a: seq<string>, sep: char)
    requires Parts(a, sep)
    ensures a == [] <==> Join(a, sep) == []
  {
  }

  lemma JoinHead(a: seq<string>, sep: char)
    requires Parts(a, sep) && a != []
    ensures Head(Join(a, sep), sep) == a[0]
  {
    if |a| == 1 {
      assert a[0] + [] == a[0];
      HeadOfFree(a[0], sep, []);
    } else {
      var rest := [sep] + Join(a[1..], sep);
      assert Join(a, sep) == a[0] + rest;
      HeadOfFree(a[0], sep, rest);
    }
  }

  /** A joined text holds no character that neither its parts nor its separator hold. */
  lemma {:induction false} JoinKeepsFree(a: seq<string>, sep: char, other: char)
    requires other != sep
    requires forall i | 0 <= i < |a| :: Free(a[i], other)
    ensures Free(Join(a, sep), other)
    decreases |a|
  {
    if |a| > 1 {
      JoinKeepsFree(a[1..], sep, other);
    }
  }

  lemma RowTextIsAPart(row: Row)
    requires EncodableRow(row)
    ensures EncodeRow(row) != []
    ensures Free(EncodeRow(row), DEPENDENCY_ROW_SEPARATOR)
    ensures Free(EncodeRow(row), CANONICAL_SECTION_SEPARATOR)
  {
    var parts := [row.taskId] + row.dependsOn;
    JoinKeepsFree(parts, CANONICAL_SEPARATOR, DEPENDENCY_ROW_SEPARATOR);
    JoinKeepsFree(parts, CANONICAL_SEPARATOR, CANONICAL_SECTION_SEPARATOR);
    JoinOfSomeIsSome(parts, CANONICAL_SEPARATOR);
  }

  lemma RowEncodingIsInjective(a: Row, b: Row)
    requires EncodableRow(a) && EncodableRow(b)
    requires EncodeRow(a) == EncodeRow(b)
    ensures a == b
  {
    var pa, pb := [a.taskId] + a.dependsOn, [b.taskId] + b.dependsOn;
    JoinIsInjective(pa, pb, CANONICAL_SEPARATOR);
    assert pa[0] == pb[0] && pa[1..] == pb[1..];
  }

  /** Equal fingerprints mean equal plans: same block, same order, same relation. */
  lemma FingerprintIsInjective(
    blockId: string, taskIds: seq<string>, rows: seq<Row>,
    blockId': string, taskIds': seq<string>, rows': seq<Row>)
    requires Encodable(blockId) && AllEncodable(taskIds) && EncodableRows(rows)
    requires Encodable(blockId') && AllEncodable(taskIds') && EncodableRows(rows')
    requires Fingerprint(blockId, taskIds, rows) == Fingerprint(blockId', taskIds', rows')
    ensures blockId == blockId' && taskIds == taskIds' && rows == rows'
  {
    var m, m' := [blockId] + taskIds, [blockId'] + taskIds';
    var r, r' := EncodeRows(rows), EncodeRows(rows');
    var left, left' := Join(m, CANONICAL_SEPARATOR), Join(m', CANONICAL_SEPARATOR);
    var right, right' := Join(r, DEPENDENCY_ROW_SEPARATOR), Join(r', DEPENDENCY_ROW_SEPARATOR);
    JoinKeepsFree(m, CANONICAL_SEPARATOR, CANONICAL_SECTION_SEPARATOR);
    JoinKeepsFree(m', CANONICAL_SEPARATOR, CANONICAL_SECTION_SEPARATOR);
    SectionsAreDetermined(left, right, left', right');
    JoinIsInjective(m, m', CANONICAL_SEPARATOR);
    assert m[0] == m'[0] && m[1..] == m'[1..];
    forall i | 0 <= i < |rows| ensures r[i] != [] && Free(r[i], DEPENDENCY_ROW_SEPARATOR) {
      RowTextIsAPart(rows[i]);
    }
    forall i | 0 <= i < |rows'| ensures r'[i] != [] && Free(r'[i], DEPENDENCY_ROW_SEPARATOR) {
      RowTextIsAPart(rows'[i]);
    }
    JoinIsInjective(r, r', DEPENDENCY_ROW_SEPARATOR);
    forall i | 0 <= i < |rows| ensures rows[i] == rows'[i] {
      assert r[i] == r'[i];
      RowEncodingIsInjective(rows[i], rows'[i]);
    }
  }

  lemma SectionsAreDetermined(left: string, right: string, left': string, right': string)
    requires Free(left, CANONICAL_SECTION_SEPARATOR) && Free(left', CANONICAL_SECTION_SEPARATOR)
    requires left + [CANONICAL_SECTION_SEPARATOR] + right == left' + [CANONICAL_SECTION_SEPARATOR] + right'
    ensures left == left' && right == right'
  {
    var tail, tail' := [CANONICAL_SECTION_SEPARATOR] + right, [CANONICAL_SECTION_SEPARATOR] + right';
    assert left + [CANONICAL_SECTION_SEPARATOR] + right == left + tail;
    assert left' + [CANONICAL_SECTION_SEPARATOR] + right' == left' + tail';
    HeadOfFree(left, CANONICAL_SECTION_SEPARATOR, tail);
    HeadOfFree(left', CANONICAL_SECTION_SEPARATOR, tail');
    assert (left + tail)[|left|..] == tail && (left' + tail')[|left'|..] == tail';
    assert tail[1..] == right && tail'[1..] == right';
  }

  /**
   * With one separator for everything the two plans `{A: [B], B: []}` and
   * `{A: [], B: [A]}` differ only in the order of their tokens; the three levels of
   * separator keep them apart.
   */
  lemma EdgesInEitherDirectionEncodeApart(block: string, a: string, b: string)
    requires Encodable(block) && Encodable(a) && Encodable(b) && a != b
    ensures Fingerprint(block, [a, b], [Row(a, [b]), Row(b, [])])
         != Fingerprint(block, [a, b], [Row(a, []), Row(b, [a])])
  {
    var p, q := [Row(a, [b]), Row(b, [])], [Row(a, []), Row(b, [a])];
    assert p[0] != q[0];
    if Fingerprint(block, [a, b], p) == Fingerprint(block, [a, b], q) {
      FingerprintIsInjective(block, [a, b], p, block, [a, b], q);
    }
  }
}
