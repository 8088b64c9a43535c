/**
 * Task, block and run identifiers: one grammar for all three, and one order.
 *
 * `compareTaskIds` orders identifiers by code unit. Everything the plan freezes is
 * sorted by it, so what matters here is that sorting has exactly one answer.
 */
module Identifiers {

  const MAX_TASK_ID_LENGTH := 128

  const RESERVED_DEVICE_NAMES: set<string> := {
    "CON", "PRN", "AUX", "NUL",
    "COM1", "COM2", "COM3", "COM4", "COM5", "COM6", "COM7", "COM8", "COM9",
    "LPT1", "LPT2", "LPT3", "LPT4", "LPT5", "LPT6", "LPT7", "LPT8", "LPT9"
  }

  predicate IsIdHead(c: char) {
    'A' <= c <= 'Z' || 'a' <= c <= 'z' || '0' <= c <= '9'
  }

  predicate IsIdTail(c: char) {
    IsIdHead(c) || c == '.' || c == '_' || c == '-'
  }

  function UpperChar(c: char): char {
    if 'a' <= c <= 'z' then 'A' + (c - 'a') else c
  }

  function Upper(s: string): string {
    seq(|s|, i requires 0 <= i < |s| => UpperChar(s[i]))
  }

  predicate IsValidTaskId(s: string) {
    && 0 < |s| <= MAX_TASK_ID_LENGTH
    && IsIdHead(s[0])
    && (forall i | 1 <= i < |s| :: IsIdTail(s[i]))
    && s[|s| - 1] != '.'
    && Upper(s) !in RESERVED_DEVICE_NAMES
  }

  /** The same word, whatever the case of its letters; `word` is in upper case. */
  ghost predicate Spells(s: string, word: string) {
    |s| == |word| && forall i | 0 <= i < |s| :: s[i] == word[i] || ('a' <= s[i] <= 'z' && s[i] as int == word[i] as int + 32)
  }

  /** A name Windows keeps for a device, in any case. */
  ghost predicate NamesADevice(s: string) {
    || Spells(s, "CON") || Spells(s, "PRN") || Spells(s, "AUX") || Spells(s, "NUL")
    || (|s| == 4 && '1' <= s[3] <= '9' && (Spells(s[..3], "COM") || Spells(s[..3], "LPT")))
  }

  lemma UpperSpells(s: string, word: string)
    requires forall i | 0 <= i < |word| :: !('a' <= word[i] <= 'z')
    ensures Upper(s) == word <==> Spells(s, word)
  {
    if Spells(s, word) { assert forall i | 0 <= i < |s| :: Upper(s)[i] == word[i]; }
    if Upper(s) == word { assert forall i | 0 <= i < |s| :: Upper(s)[i] == UpperChar(s[i]); }
  }

  /** The nine ports of a kind, in upper case. */
  ghost function Ports(kind: string): set<string> {
    {kind + "1", kind + "2", kind + "3", kind + "4", kind + "5", kind + "6", kind + "7", kind + "8", kind + "9"}
  }

  lemma PortsMean(s: string, kind: string)
    requires kind == "COM" || kind == "LPT"
    ensures |s| == 4 && '1' <= s[3] <= '9' && Spells(s[..3], kind) <==> Upper(s) in Ports(kind)
  {
    hide Spells;
    if |s| == 4 {
      UpperSpells(s[..3], kind);
      assert Upper(s) == Upper(s[..3]) + [UpperChar(s[3])];
      PortAt(Upper(s[..3]), kind, UpperChar(s[3]));
    }
  }

  lemma PortAt(stem: string, kind: string, c: char)
    requires |stem| == 3 && |kind| == 3
    ensures stem == kind && '1' <= c <= '9' <==> stem + [c] in Ports(kind)
  {
    forall d: char ensures stem + [c] == kind + [d] <==> stem == kind && c == d {
      if stem + [c] == kind + [d] {
        assert stem == (stem + [c])[..3] && kind == (kind + [d])[..3] && (stem + [c])[3] == (kind + [d])[3];
      }
    }
  }

  lemma DevicesMean(s: string)
    ensures Upper(s) in RESERVED_DEVICE_NAMES <==> NamesADevice(s)
  {
    hide Spells, RESERVED_DEVICE_NAMES, Ports, Upper;
    UpperSpells(s, "CON");
    UpperSpells(s, "PRN");
    UpperSpells(s, "AUX");
    UpperSpells(s, "NUL");
    PortsMean(s, "COM");
    PortsMean(s, "LPT");
    PortsAreListed("COM", "LPT");
  }

  /** The reserved names, kind by kind. */
  lemma PortsAreListed(com: string, lpt: string)
    requires com == "COM" && lpt == "LPT"
    ensures RESERVED_DEVICE_NAMES == {"CON", "PRN", "AUX", "NUL"} + Ports(com) + Ports(lpt)
  {
    assert com + "1" == "COM1" && com + "2" == "COM2" && com + "3" == "COM3" && com + "4" == "COM4" && com + "5" == "COM5";
    assert com + "6" == "COM6" && com + "7" == "COM7" && com + "8" == "COM8" && com + "9" == "COM9";
    assert lpt + "1" == "LPT1" && lpt + "2" == "LPT2" && lpt + "3" == "LPT3" && lpt + "4" == "LPT4" && lpt + "5" == "LPT5";
    assert lpt + "6" == "LPT6" && lpt + "7" == "LPT7" && lpt + "8" == "LPT8" && lpt + "9" == "LPT9";
  }

  /**
   * An id is a file name on every platform: letters, digits, dots, underlines and hyphens,
   * beginning with a letter or digit, ending in no dot, of at most 128 characters, and the
   * name of no device.
   */
  lemma IdsAreFileNames(s: string)
    ensures IsValidTaskId(s) <==>
      && 1 <= |s| <= 128
      && (forall c | c in s :: 'A' <= c <= 'Z' || 'a' <= c <= 'z' || '0' <= c <= '9' || c in ['.', '_', '-'])
      && s[0] !in ['.', '_', '-'] && s[|s| - 1] != '.'
      && !NamesADevice(s)
  {
    hide Upper, RESERVED_DEVICE_NAMES, NamesADevice;
    DevicesMean(s);
    assert s != "" ==> s[0] in s;
    assert forall i | 0 <= i < |s| :: s[i] in s;
  }

  /** `compareTaskIds(a, b) < 0`. */
  predicate Before(a: string, b: string)
    decreases |a|
  {
    if b == [] then false
    else if a == [] then true
    else if a[0] != b[0] then a[0] < b[0]
    else Before(a[1..], b[1..])
  }

  lemma {:induction false} BeforeIsTransitive(a: string, b: string, c: string)
    requires Before(a, b) && Before(b, c)
    ensures Before(a, c)
    decreases |a|
  {
    if a != [] && a[0] == b[0] && b[0] == c[0] {
      BeforeIsTransitive(a[1..], b[1..], c[1..]);
    }
  }

  /** Two different identifiers are ordered one way, and only one. */
  lemma {:induction false} BeforeIsTotal(a: string, b: string)
    ensures a != b ==> Before(a, b) || Before(b, a)
    ensures Before(a, b) ==> a != b && !Before(b, a)
    decreases |a|
  {
    if a != [] && b != [] && a[0] == b[0] {
      assert a == [a[0]] + a[1..] && b == [b[0]] + b[1..];
      BeforeIsTotal(a[1..], b[1..]);
    }
  }

  predicate StrictlySorted(s: seq<string>) {
    forall i, j | 0 <= i < j < |s| :: Before(s[i], s[j])
  }

  function Insert(x: string, s: seq<string>): (r: seq<string>)
    requires StrictlySorted(s)
    ensures StrictlySorted(r)
    ensures forall y :: y in r <==> y == x || y in s
  {
    if s == [] then [x]
    else if x == s[0] then s
    else if Before(x, s[0]) then
      assert forall j | 0 < j < |s| :: Before(s[0], s[j]);
      assert forall j | 0 <= j < |s| :: Before(x, s[j]) by {
        forall j | 0 < j < |s| ensures Before(x, s[j]) { BeforeIsTransitive(x, s[0], s[j]); }
      }
      [x] + s
    else
      BeforeIsTotal(x, s[0]);
      var rest := Insert(x, s[1..]);
      assert forall y | y in rest :: Before(s[0], y);
      [s[0]] + rest
  }

  /** `[...new Set(xs)].sort(compareTaskIds)`. */
  function Canonical(xs: seq<string>): (r: seq<string>)
    ensures StrictlySorted(r)
    ensures forall y :: y in r <==> y in xs
  {
    if xs == [] then [] else Insert(xs[0], Canonical(xs[1..]))
  }

  lemma SortedHeadIsLeast(s: seq<string>, y: string)
    requires StrictlySorted(s) && s != [] && y in s
    ensures y == s[0] || Before(s[0], y)
  {
    var i :| 0 <= i < |s| && s[i] == y;
  }

  lemma TailElements(s: seq<string>)
    requires StrictlySorted(s) && s != []
    ensures s[0] !in s[1..]
    ensures forall y :: y in s[1..] <==> y in s && y != s[0]
  {
    forall i | 0 < i < |s| ensures s[i] != s[0] { BeforeIsTotal(s[0], s[i]); }
  }

  /** A set of identifiers has one sorted spelling: sort order cannot carry information. */
  lemma {:induction false} SortedSpellingIsUnique(a: seq<string>, b: seq<string>)
    requires StrictlySorted(a) && StrictlySorted(b)
    requires forall y :: y in a <==> y in b
    ensures a == b
    decreases |a|
  {
    assert b != [] ==> b[0] in b;
    if a != [] {
      assert a[0] in b;
      assert b[0] in a;
      SortedHeadIsLeast(a, b[0]);
      SortedHeadIsLeast(b, a[0]);
      BeforeIsTotal(a[0], b[0]);
      TailElements(a);
      TailElements(b);
      SortedSpellingIsUnique(a[1..], b[1..]);
      assert a == [a[0]] + a[1..] && b == [b[0]] + b[1..];
    }
  }

  /** Being the canonical spelling of itself is exactly being strictly sorted. */
  lemma CanonicalIsFixedOnSorted(xs: seq<string>)
    ensures Canonical(xs) == xs <==> StrictlySorted(xs)
  {
    if StrictlySorted(xs) {
      SortedSpellingIsUnique(Canonical(xs), xs);
    }
  }

  predicate NoRepeats(s: seq<string>) {
    forall i, j | 0 <= i < j < |s| :: s[i] != s[j]
  }

  lemma SortedHasNoRepeats(s: seq<string>)
    requires StrictlySorted(s)
    ensures NoRepeats(s)
  {
    forall i, j | 0 <= i < j < |s| ensures s[i] != s[j] { BeforeIsTotal(s[i], s[j]); }
  }
}
