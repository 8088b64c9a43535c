/**
 * The command line the helper builds, and the rules by which a C program takes one apart
 * again: "Parsing C command-line arguments" in Microsoft's documentation. The two dialects
 * of a doubled quote inside a quoted argument are the parameter `pairs`.
 */
module CommandLine {
  const QUOTE := '"'
  const SLASH := '\\'

  predicate IsBlank(c: char) { c == ' ' || c == '\t' }

  function Slashes(n: nat): (s: string)
    ensures |s| == n && forall i | 0 <= i < n :: s[i] == SLASH
  {
    seq(n, _ => SLASH)
  }

  // ------------------------------------------------------------------- quoting

  predicate NeedsQuotes(value: string) {
    value == "" || exists c | c in value :: IsBlank(c) || c == QUOTE
  }

  /** What is still to be written for `value` after `pending` backslashes not yet written. */
  function Escaped(value: string, pending: nat): string
    decreases |value|
  {
    if value == "" then Slashes(2 * pending) + [QUOTE]
    else if value[0] == SLASH then Escaped(value[1..], pending + 1)
    else if value[0] == QUOTE then Slashes(2 * pending + 1) + [QUOTE] + Escaped(value[1..], 0)
    else Slashes(pending) + [value[0]] + Escaped(value[1..], 0)
  }

  function Quoted(value: string): string {
    if NeedsQuotes(value) then [QUOTE] + Escaped(value, 0) else value
  }

  method Quote(value: string) returns (quoted: string)
    ensures quoted == Quoted(value)
  {
    if !NeedsQuotes(value) { return value; }
    quoted := [QUOTE];
    var backslashes := 0;
    for i := 0 to |value|
      invariant quoted + Escaped(value[i..], backslashes) == [QUOTE] + Escaped(value, 0)
    {
      var c := value[i];
      assert value[i..][0] == c && value[i..][1..] == value[i + 1..];
      ghost var before := quoted;
      if c == SLASH {
        backslashes := backslashes + 1;
      } else if c == QUOTE {
        quoted := quoted + Slashes(backslashes * 2 + 1);
        quoted := quoted + [QUOTE];
        assert quoted + Escaped(value[i + 1..], 0) == before + Escaped(value[i..], backslashes);
        backslashes := 0;
      } else {
        quoted := quoted + Slashes(backslashes);
        quoted := quoted + [c];
        assert quoted + Escaped(value[i + 1..], 0) == before + Escaped(value[i..], backslashes);
        backslashes := 0;
      }
    }
    assert value[|value|..] == "";
    quoted := quoted + Slashes(backslashes * 2);
    quoted := quoted + [QUOTE];
  }

  function Tail(args: seq<string>): string {
    if args == [] then "" else " " + Quoted(args[0]) + Tail(args[1..])
  }

  function VerbatimTail(args: seq<string>): string {
    if args == [] then "" else " " + args[0] + VerbatimTail(args[1..])
  }

  function LineFor(file: string, args: seq<string>, verbatim: bool): string {
    if verbatim then [QUOTE] + file + [QUOTE] + VerbatimTail(args) else Quoted(file) + Tail(args)
  }

  method Build(file: string, args: seq<string>, verbatim: bool) returns (line: string)
    ensures line == LineFor(file, args, verbatim)
  {
    if verbatim {
      line := [QUOTE] + file + [QUOTE];
      for i := 0 to |args|
        invariant line + VerbatimTail(args[i..]) == LineFor(file, args, true)
      {
        assert args[i..][0] == args[i] && args[i..][1..] == args[i + 1..];
        assert line + VerbatimTail(args[i..]) == line + " " + args[i] + VerbatimTail(args[i + 1..]);
        line := line + " " + args[i];
      }
      return;
    }
    line := Quote(file);
    for i := 0 to |args|
      invariant line + Tail(args[i..]) == LineFor(file, args, false)
    {
      assert args[i..][0] == args[i] && args[i..][1..] == args[i + 1..];
      var quoted := Quote(args[i]);
      assert line + Tail(args[i..]) == line + " " + quoted + Tail(args[i + 1..]);
      line := line + " " + quoted;
    }
  }

  // ------------------------------------------------------------------- parsing

  datatype Arg = Between | Inside(text: string, slashes: nat, quoted: bool)

  /** The arguments in `s`, the one being read already holding what `arg` says. */
  function SplitFrom(s: string, arg: Arg, pairs: bool): seq<string>
    decreases |s|
  {
    if s == "" then if arg.Between? then [] else [arg.text + Slashes(arg.slashes)]
    else if arg.Between? then
      if IsBlank(s[0]) then SplitFrom(s[1..], Between, pairs) else ReadChar(s, "", 0, false, pairs)
    else if IsBlank(s[0]) && !arg.quoted then
      [arg.text + Slashes(arg.slashes)] + SplitFrom(s[1..], Between, pairs)
    else ReadChar(s, arg.text, arg.slashes, arg.quoted, pairs)
  }

  /** One character of an argument; backslashes mean something only in front of a quote. */
  function ReadChar(s: string, text: string, slashes: nat, quoted: bool, pairs: bool): seq<string>
    requires s != ""
    decreases |s|, 0
  {
    if s[0] == SLASH then SplitFrom(s[1..], Inside(text, slashes + 1, quoted), pairs)
    else if s[0] != QUOTE then SplitFrom(s[1..], Inside(text + Slashes(slashes) + [s[0]], 0, quoted), pairs)
    else if slashes % 2 == 1 then SplitFrom(s[1..], Inside(text + Slashes(slashes / 2) + [QUOTE], 0, quoted), pairs)
    else if pairs && quoted && |s| > 1 && s[1] == QUOTE then
      SplitFrom(s[2..], Inside(text + Slashes(slashes / 2) + [QUOTE], 0, quoted), pairs)
    else SplitFrom(s[1..], Inside(text + Slashes(slashes / 2), 0, !quoted), pairs)
  }

  function PastQuote(s: string): string {
    if s == "" then "" else if s[0] == QUOTE then s[1..] else PastQuote(s[1..])
  }

  function PastWord(s: string): string {
    if s == "" || IsBlank(s[0]) then s else PastWord(s[1..])
  }

  /** The program name ends at the next quote if it begins with one, at the next blank if not. */
  function Arguments(line: string, pairs: bool): seq<string> {
    SplitFrom(if line != "" && line[0] == QUOTE then PastQuote(line[1..]) else PastWord(line), Between, pairs)
  }

  // ---------------------------------------------------------------- round trip

  predicate ArgumentEnds(rest: string) { rest == "" || rest[0] == ' ' }

  function AfterArgument(text: string, rest: string, pairs: bool): seq<string>
    requires ArgumentEnds(rest)
  {
    [text] + if rest == "" then [] else SplitFrom(rest[1..], Between, pairs)
  }

  lemma {:induction false} SlashesRead(n: nat, s: string, text: string, slashes: nat, quoted: bool, pairs: bool)
    ensures SplitFrom(Slashes(n) + s, Inside(text, slashes, quoted), pairs)
      == SplitFrom(s, Inside(text, slashes + n, quoted), pairs)
    decreases n
  {
    if n == 0 {
      assert Slashes(0) + s == s;
    } else {
      assert (Slashes(n) + s)[1..] == Slashes(n - 1) + s;
      SlashesRead(n - 1, s, text, slashes + 1, quoted, pairs);
    }
  }

  /** Inside quotes, the escaped form of a value reads back as the value. */
  lemma {:induction false} EscapedReads(value: string, pending: nat, rest: string, text: string, pairs: bool)
    requires ArgumentEnds(rest)
    ensures SplitFrom(Escaped(value, pending) + rest, Inside(text, 0, true), pairs)
      == AfterArgument(text + Slashes(pending) + value, rest, pairs)
    decreases |value|
  {
    hide ReadChar, Escaped, SplitFrom, AfterArgument, Slashes;
    EscapedUnfolds(value, pending);
    if value == "" {
      assert Escaped(value, pending) + rest == Slashes(2 * pending) + ([QUOTE] + rest);
      SlashesRead(2 * pending, [QUOTE] + rest, text, 0, true, pairs);
      ClosingQuoteReads(rest, text, pending, pairs);
      assert text + Slashes(pending) + value == text + Slashes(pending);
    } else if value[0] == SLASH {
      EscapedReads(value[1..], pending + 1, rest, text, pairs);
      assert text + Slashes(pending + 1) + value[1..] == text + Slashes(pending) + value;
    } else if value[0] == QUOTE {
      var after := Escaped(value[1..], 0) + rest;
      assert Escaped(value, pending) + rest == Slashes(2 * pending + 1) + ([QUOTE] + after);
      SlashesRead(2 * pending + 1, [QUOTE] + after, text, 0, true, pairs);
      LiteralReads(QUOTE, after, text, 2 * pending + 1, pairs);
      EscapedReads(value[1..], 0, rest, text + Slashes(pending) + [QUOTE], pairs);
      assert text + Slashes(pending) + [QUOTE] + Slashes(0) + value[1..] == text + Slashes(pending) + value;
    } else {
      var after := Escaped(value[1..], 0) + rest;
      assert Escaped(value, pending) + rest == Slashes(pending) + ([value[0]] + after);
      SlashesRead(pending, [value[0]] + after, text, 0, true, pairs);
      LiteralReads(value[0], after, text, pending, pairs);
      EscapedReads(value[1..], 0, rest, text + Slashes(pending) + [value[0]], pairs);
      assert text + Slashes(pending) + [value[0]] + Slashes(0) + value[1..] == text + Slashes(pending) + value;
    }
  }

  lemma EscapedUnfolds(value: string, pending: nat)
    ensures value == "" ==> Escaped(value, pending) == Slashes(2 * pending) + [QUOTE]
    ensures value != "" && value[0] == SLASH ==> Escaped(value, pending) == Escaped(value[1..], pending + 1)
    ensures value != "" && value[0] == QUOTE ==>
      Escaped(value, pending) == Slashes(2 * pending + 1) + [QUOTE] + Escaped(value[1..], 0)
    ensures value != "" && value[0] != SLASH && value[0] != QUOTE ==>
      Escaped(value, pending) == Slashes(pending) + [value[0]] + Escaped(value[1..], 0)
  {
  }

  /** Behind an odd run of backslashes a quote is a character; any other character always is. */
  lemma LiteralReads(c: char, after: string, text: string, slashes: nat, pairs: bool)
    requires c != SLASH && (c == QUOTE ==> slashes % 2 == 1)
    ensures SplitFrom([c] + after, Inside(text, slashes, true), pairs)
      == SplitFrom(after, Inside(text + Slashes(if c == QUOTE then slashes / 2 else slashes) + [c], 0, true), pairs)
  {
    assert ([c] + after)[1..] == after;
  }

  lemma ClosingQuoteReads(rest: string, text: string, pending: nat, pairs: bool)
    requires ArgumentEnds(rest)
    ensures SplitFrom([QUOTE] + rest, Inside(text, 2 * pending, true), pairs)
      == AfterArgument(text + Slashes(pending), rest, pairs)
  {
    var s, whole := [QUOTE] + rest, text + Slashes(pending);
    assert s[1..] == rest && (rest != "" ==> s[1] == rest[0]);
    assert 2 * pending / 2 == pending && 2 * pending % 2 == 0;
    assert SplitFrom(s, Inside(text, 2 * pending, true), pairs) == SplitFrom(rest, Inside(whole, 0, false), pairs);
    assert whole + Slashes(0) == whole;
  }

  /** An argument without blanks or quotes stands for itself. */
  lemma {:induction false} BareReads(value: string, rest: string, text: string, slashes: nat, pairs: bool)
    requires ArgumentEnds(rest) && forall i | 0 <= i < |value| :: !IsBlank(value[i]) && value[i] != QUOTE
    ensures SplitFrom(value + rest, Inside(text, slashes, false), pairs)
      == AfterArgument(text + Slashes(slashes) + value, rest, pairs)
    decreases |value|
  {
    if value == "" {
      assert value + rest == rest && text + Slashes(slashes) + value == text + Slashes(slashes);
    } else {
      assert (value + rest)[1..] == value[1..] + rest;
      if value[0] == SLASH {
        BareReads(value[1..], rest, text, slashes + 1, pairs);
        assert text + Slashes(slashes + 1) + value[1..] == text + Slashes(slashes) + value;
      } else {
        BareReads(value[1..], rest, text + Slashes(slashes) + [value[0]], 0, pairs);
        assert text + Slashes(slashes) + [value[0]] + Slashes(0) + value[1..] == text + Slashes(slashes) + value;
      }
    }
  }

  lemma EscapedArgumentReads(value: string, rest: string, pairs: bool)
    requires ArgumentEnds(rest)
    ensures SplitFrom([QUOTE] + Escaped(value, 0) + rest, Between, pairs) == AfterArgument(value, rest, pairs)
  {
    hide Escaped, AfterArgument;
    EscapedReads(value, 0, rest, "", pairs);
    OpeningQuoteReads(Escaped(value, 0) + rest, pairs);
    assert [QUOTE] + Escaped(value, 0) + rest == [QUOTE] + (Escaped(value, 0) + rest);
    assert "" + Slashes(0) + value == value;
  }

  lemma OpeningQuoteReads(after: string, pairs: bool)
    ensures SplitFrom([QUOTE] + after, Between, pairs) == SplitFrom(after, Inside("", 0, true), pairs)
  {
    assert ([QUOTE] + after)[1..] == after;
    assert "" + Slashes(0 / 2) == "";
  }

  lemma QuotedReads(value: string, rest: string, pairs: bool)
    requires ArgumentEnds(rest)
    ensures SplitFrom(Quoted(value) + rest, Between, pairs) == AfterArgument(value, rest, pairs)
  {
    hide Escaped, AfterArgument;
    if NeedsQuotes(value) {
      hide SplitFrom;
      EscapedArgumentReads(value, rest, pairs);
    } else {
      assert forall i | 0 <= i < |value| :: value[i] in value;
      BareReads(value, rest, "", 0, pairs);
      assert "" + Slashes(0) + value == value;
      BareStarts(value + rest, pairs);
    }
  }

  lemma BareStarts(s: string, pairs: bool)
    requires s != "" && !IsBlank(s[0])
    ensures SplitFrom(s, Between, pairs) == SplitFrom(s, Inside("", 0, false), pairs)
  {
  }

  lemma {:induction false} TailReads(args: seq<string>, pairs: bool)
    ensures SplitFrom(Tail(args), Between, pairs) == args && ArgumentEnds(Tail(args))
    decreases |args|
  {
    if args != [] {
      TailReads(args[1..], pairs);
      var s := Quoted(args[0]) + Tail(args[1..]);
      assert Tail(args)[1..] == s;
      QuotedReads(args[0], Tail(args[1..]), pairs);
      AfterOne(args, pairs);
    }
  }

  lemma AfterOne(args: seq<string>, pairs: bool)
    requires args != [] && SplitFrom(Tail(args[1..]), Between, pairs) == args[1..] && ArgumentEnds(Tail(args[1..]))
    ensures AfterArgument(args[0], Tail(args[1..]), pairs) == args
  {
    assert args == [args[0]] + args[1..];
  }

  // -------------------------------------------------------------- the program name

  /** What follows the first quote of a path that has one. */
  function AfterFirstQuote(file: string): string
    requires QUOTE in file
  {
    if file[0] == QUOTE then file[1..]
    else
      assert file == [file[0]] + file[1..];
      AfterFirstQuote(file[1..])
  }

  lemma {:induction false} PastEscaped(file: string, pending: nat, tail: string)
    ensures PastQuote(Escaped(file, pending) + tail)
      == if QUOTE in file then Escaped(AfterFirstQuote(file), 0) + tail else tail
    decreases |file|
  {
    hide Escaped, PastQuote;
    EscapedUnfolds(file, pending);
    if file == "" {
      assert Escaped(file, pending) + tail == Slashes(2 * pending) + ([QUOTE] + tail);
      PastSlashes(2 * pending, QUOTE, tail);
    } else if file[0] == SLASH {
      assert file == [SLASH] + file[1..];
      PastEscaped(file[1..], pending + 1, tail);
    } else if file[0] == QUOTE {
      var after := Escaped(file[1..], 0) + tail;
      assert Escaped(file, pending) + tail == Slashes(2 * pending + 1) + ([QUOTE] + after);
      PastSlashes(2 * pending + 1, QUOTE, after);
    } else {
      var after := Escaped(file[1..], 0) + tail;
      assert Escaped(file, pending) + tail == Slashes(pending) + ([file[0]] + after);
      PastSlashes(pending, file[0], after);
      assert file == [file[0]] + file[1..];
      PastEscaped(file[1..], 0, tail);
    }
  }

  lemma {:induction false} PastSlashes(n: nat, c: char, after: string)
    requires c != SLASH
    ensures PastQuote(Slashes(n) + ([c] + after)) == if c == QUOTE then after else PastQuote(after)
    decreases n
  {
    var s := [c] + after;
    if n == 0 {
      assert Slashes(0) + s == s && s[1..] == after;
    } else {
      assert (Slashes(n) + s)[1..] == Slashes(n - 1) + s;
      PastSlashes(n - 1, c, after);
    }
  }

  lemma {:induction false} PastBare(file: string, tail: string)
    requires ArgumentEnds(tail) && forall i | 0 <= i < |file| :: !IsBlank(file[i])
    ensures PastWord(file + tail) == tail
    decreases |file|
  {
    if file == "" {
      assert file + tail == tail;
    } else {
      assert (file + tail)[1..] == file[1..] + tail;
      PastBare(file[1..], tail);
    }
  }

  lemma {:induction false} SomethingIsRead(s: string, arg: Arg, pairs: bool)
    requires arg.Inside? || QUOTE in s
    ensures SplitFrom(s, arg, pairs) != []
    decreases |s|
  {
    if s != "" {
      if arg.Between? {
        if IsBlank(s[0]) {
          assert s == [s[0]] + s[1..];
          SomethingIsRead(s[1..], Between, pairs);
        } else {
          SomeReadChar(s, "", 0, false, pairs);
        }
      } else if !(IsBlank(s[0]) && !arg.quoted) {
        SomeReadChar(s, arg.text, arg.slashes, arg.quoted, pairs);
      }
    }
  }

  lemma {:induction false} SomeReadChar(s: string, text: string, slashes: nat, quoted: bool, pairs: bool)
    requires s != ""
    ensures ReadChar(s, text, slashes, quoted, pairs) != []
    decreases |s|, 0
  {
    SomethingIsRead(s[1..], Inside(text, slashes + 1, quoted), pairs);
    SomethingIsRead(s[1..], Inside(text + Slashes(slashes) + [s[0]], 0, quoted), pairs);
    SomethingIsRead(s[1..], Inside(text + Slashes(slashes / 2) + [QUOTE], 0, quoted), pairs);
    if |s| > 1 { SomethingIsRead(s[2..], Inside(text + Slashes(slashes / 2) + [QUOTE], 0, quoted), pairs); }
    SomethingIsRead(s[1..], Inside(text + Slashes(slashes / 2), 0, !quoted), pairs);
  }

  lemma {:induction false} EscapedHasQuote(value: string, pending: nat)
    ensures QUOTE in Escaped(value, pending)
    decreases |value|
  {
    EscapedUnfolds(value, pending);
    if value != "" && value[0] == SLASH { EscapedHasQuote(value[1..], pending + 1); }
    if value != "" && value[0] != SLASH && value[0] != QUOTE { EscapedHasQuote(value[1..], 0); }
  }

  /** A program started with these arguments is handed exactly these arguments. */
  lemma ArgumentsSurviveQuoting(file: string, args: seq<string>, pairs: bool)
    requires QUOTE !in file
    ensures Arguments(LineFor(file, args, false), pairs) == args
  {
    hide Escaped, SplitFrom, Tail;
    var line := LineFor(file, args, false);
    TailReads(args, pairs);
    if NeedsQuotes(file) {
      assert line[1..] == Escaped(file, 0) + Tail(args);
      PastEscaped(file, 0, Tail(args));
    } else {
      assert forall i | 0 <= i < |file| :: file[i] in file;
      assert line[0] == file[0];
      PastBare(file, Tail(args));
    }
  }

  /** And that needs the program's own path to be free of quotes: with one, even no argument becomes some. */
  lemma ArgumentsSurviveIff(file: string, pairs: bool)
    ensures (forall args :: Arguments(LineFor(file, args, false), pairs) == args) <==> QUOTE !in file
  {
    hide Escaped, SplitFrom, Arguments, LineFor;
    if QUOTE in file {
      QuotedPathLeaks(file, pairs);
    } else {
      forall args ensures Arguments(LineFor(file, args, false), pairs) == args {
        ArgumentsSurviveQuoting(file, args, pairs);
      }
    }
  }

  lemma QuotedPathLeaks(file: string, pairs: bool)
    requires QUOTE in file
    ensures Arguments(LineFor(file, [], false), pairs) != []
  {
    hide Escaped, SplitFrom;
    var line := LineFor(file, [], false);
    assert NeedsQuotes(file);
    assert line[1..] == Escaped(file, 0) + "";
    PastEscaped(file, 0, "");
    var left := AfterFirstQuote(file);
    EscapedHasQuote(left, 0);
    assert Escaped(left, 0) + "" == Escaped(left, 0);
    SomethingIsRead(Escaped(left, 0), Between, pairs);
  }

  lemma AQuotedPathIsWritten()
    ensures LineFor("a\"b", [], false) == [QUOTE, 'a', SLASH, QUOTE, 'b', QUOTE]
  {
    var file: string := ['a', QUOTE, 'b'];
    assert QUOTE in file && NeedsQuotes(file);
    assert file[1..] == [QUOTE, 'b'] && file[1..][1..] == ['b'] && ['b'][1..] == "";
    assert Slashes(0) == "" && Slashes(1) == [SLASH];
    assert Escaped(['b'], 0) == ['b', QUOTE];
    assert Escaped(file, 0) == ['a', SLASH, QUOTE, 'b', QUOTE];
  }

  lemma WhatIsLeftIsRead(pairs: bool)
    ensures SplitFrom(['b', QUOTE], Between, pairs) == ["b"]
  {
    assert Slashes(0) == "" && "" + Slashes(0) + ['b'] == "b" && "b" + Slashes(0) == "b";
    assert [QUOTE][1..] == "" && ['b', QUOTE][1..] == [QUOTE];
    assert SplitFrom("", Inside("b", 0, true), pairs) == ["b"];
    assert ReadChar([QUOTE], "b", 0, false, pairs) == ["b"];
    assert SplitFrom([QUOTE], Inside("b", 0, false), pairs) == ["b"];
  }

  /** A program whose path is `a"b`, started without arguments, is handed the argument `b`. */
  lemma AQuotedPathLeaks(pairs: bool)
    ensures Arguments(LineFor("a\"b", [], false), pairs) == ["b"]
  {
    hide SplitFrom, LineFor;
    AQuotedPathIsWritten();
    WhatIsLeftIsRead(pairs);
    var rest := ['a', SLASH, QUOTE, 'b', QUOTE];
    assert LineFor("a\"b", [], false)[1..] == rest;
    assert rest[1..] == [SLASH, QUOTE, 'b', QUOTE] && rest[1..][1..] == [QUOTE, 'b', QUOTE];
    assert [QUOTE, 'b', QUOTE][1..] == ['b', QUOTE];
    assert PastQuote([QUOTE, 'b', QUOTE]) == ['b', QUOTE];
    assert PastQuote(rest[1..]) == ['b', QUOTE];
  }
}
