/**
 Windows argument quoting (apps/windows/ProcessSupport.cs) and the argument rules of the Microsoft
 C runtime that undo it.  `Quote` and `Join` are loops, proved equal to `Quoted` and `Joined`.
 */
module CommandLine {
  import opened Text

  // ---------- What the client writes ----------

  predicate NeedsQuotes(argument: Utf16) {
    argument == []
    || exists i :: 0 <= i < |argument| && argument[i] in {SPACE, TAB, LINE_FEED, VERTICAL_TAB, QUOTE}
  }

  /** The text between the opening quote and the end, with `slashes` backslashes still unwritten. */
  function Escaped(argument: Utf16, slashes: nat): Utf16 {
    if argument == [] then Repeat(BACKSLASH, 2 * slashes) + [QUOTE]
    else if argument[0] == BACKSLASH then Escaped(argument[1..], slashes + 1)
    else if argument[0] == QUOTE then Repeat(BACKSLASH, 2 * slashes + 1) + [QUOTE] + Escaped(argument[1..], 0)
    else Repeat(BACKSLASH, slashes) + [argument[0]] + Escaped(argument[1..], 0)
  }

  function Quoted(argument: Utf16): Utf16 {
    if NeedsQuotes(argument) then [QUOTE] + Escaped(argument, 0) else argument
  }

  function Joined(arguments: seq<Utf16>): Utf16 {
    if arguments == [] then []
    else if |arguments| == 1 then Quoted(arguments[0])
    else Quoted(arguments[0]) + [SPACE] + Joined(arguments[1..])
  }

  method Quote(argument: Utf16) returns (result: Utf16)
    ensures result == Quoted(argument)
  {
    if !NeedsQuotes(argument) {
      return argument;
    }
    result := [QUOTE];
    var slashes := 0;
    for i := 0 to |argument|
      invariant slashes >= 0
      invariant result + Escaped(argument[i..], slashes) == [QUOTE] + Escaped(argument, 0)
    {
      assert argument[i..][0] == argument[i] && argument[i..][1..] == argument[i + 1..];
      if argument[i] == BACKSLASH {
        slashes := slashes + 1;
      } else if argument[i] == QUOTE {
        result := result + Repeat(BACKSLASH, slashes * 2 + 1) + [QUOTE];
        slashes := 0;
      } else {
        result := result + Repeat(BACKSLASH, slashes) + [argument[i]];
        slashes := 0;
      }
    }
    result := result + Repeat(BACKSLASH, slashes * 2) + [QUOTE];
  }

  method Join(arguments: seq<Utf16>) returns (result: Utf16)
    ensures result == Joined(arguments)
  {
    result := [];
    for i := 0 to |arguments|
      invariant result == Joined(arguments[..i]) && (i > 0 <==> |result| > 0)
    {
      JoinedNext(arguments, i);
      if |result| > 0 {
        result := result + [SPACE];
      }
      var quoted := Quote(arguments[i]);
      result := result + quoted;
    }
    assert arguments[..|arguments|] == arguments;
  }

  lemma {:induction false} JoinedNext(arguments: seq<Utf16>, i: nat)
    requires i < |arguments|
    ensures Joined(arguments[..i + 1])
         == (if i == 0 then [] else Joined(arguments[..i]) + [SPACE]) + Quoted(arguments[i])
    ensures Quoted(arguments[i]) != []
  {
    if i > 0 {
      var rest := arguments[1..];
      JoinedNext(rest, i - 1);
      assert arguments[..i + 1][1..] == rest[..i] && arguments[..i][1..] == rest[..i - 1];
      if i == 1 {
        assert rest[..0] == [];
      }
    }
    QuotedHead(arguments[i]);
  }

  // ---------- How Microsoft's rules read it back ----------

  /** What an inner `""` does after it has produced one quote: newer runtimes stay inside the quoted
      part, `CommandLineToArgvW` and older runtimes leave it. */
  datatype Convention = StayInside | LeaveQuotes

  predicate IsSeparator(u: CodeUnit) {
    u == SPACE || u == TAB
  }

  /** Reads the rest of one argument, `slashes` backslashes being read but not yet settled: before a
      quote 2n of them give n and the quote delimits, 2n + 1 give n and a literal quote; elsewhere
      they are literal; a blank outside quotes ends the argument.  Yields the text and what is left. */
  function ParseArgument(c: Convention, s: Utf16, inside: bool, slashes: nat): (r: (Utf16, Utf16))
    ensures |r.1| <= |s|
    ensures s != [] && (inside || !IsSeparator(s[0])) ==> |r.1| < |s|
    decreases |s|
  {
    if s == [] then (Repeat(BACKSLASH, slashes), [])
    else if s[0] == BACKSLASH then ParseArgument(c, s[1..], inside, slashes + 1)
    else if s[0] == QUOTE && slashes % 2 == 1 then
      Prefixed(Repeat(BACKSLASH, slashes / 2) + [QUOTE], ParseArgument(c, s[1..], inside, 0))
    else if s[0] == QUOTE && inside && |s| > 1 && s[1] == QUOTE then
      Prefixed(Repeat(BACKSLASH, slashes / 2) + [QUOTE], ParseArgument(c, s[2..], c == StayInside, 0))
    else if s[0] == QUOTE then
      Prefixed(Repeat(BACKSLASH, slashes / 2), ParseArgument(c, s[1..], !inside, 0))
    else if !inside && IsSeparator(s[0]) then (Repeat(BACKSLASH, slashes), s)
    else Prefixed(Repeat(BACKSLASH, slashes) + [s[0]], ParseArgument(c, s[1..], inside, 0))
  }

  function Prefixed(text: Utf16, r: (Utf16, Utf16)): (Utf16, Utf16) {
    (text + r.0, r.1)
  }

  function ParseArguments(c: Convention, s: Utf16): (arguments: seq<Utf16>)
    decreases |s|
  {
    if s == [] then []
    else if IsSeparator(s[0]) then ParseArguments(c, s[1..])
    else
      var r := ParseArgument(c, s, false, 0);
      [r.0] + ParseArguments(c, r.1)
  }

  /** A command line is a C string: it ends at its first NUL. */
  function BeforeNul(s: Utf16): (r: Utf16)
    ensures NUL !in r
    ensures NUL !in s ==> r == s
  {
    if s == [] || s[0] == NUL then [] else [s[0]] + BeforeNul(s[1..])
  }

  function ParseCommandLine(c: Convention, line: Utf16): seq<Utf16> {
    ParseArguments(c, BeforeNul(line))
  }

  // ---------- Reading undoes writing ----------

  lemma {:induction false} ReadSlashes(c: Convention, k: nat, t: Utf16, inside: bool, slashes: nat)
    ensures ParseArgument(c, Repeat(BACKSLASH, k) + t, inside, slashes) == ParseArgument(c, t, inside, slashes + k)
  {
    if k == 0 {
      assert Repeat(BACKSLASH, k) + t == t;
    } else {
      assert (Repeat(BACKSLASH, k) + t)[1..] == Repeat(BACKSLASH, k - 1) + t;
      ReadSlashes(c, k - 1, t, inside, slashes + 1);
    }
  }

  ghost predicate EndsArgument(rest: Utf16) {
    rest == [] || IsSeparator(rest[0])
  }

  lemma ReadEnd(c: Convention, rest: Utf16, slashes: nat)
    requires EndsArgument(rest)
    ensures ParseArgument(c, rest, false, slashes) == (Repeat(BACKSLASH, slashes), rest)
  {
  }

  lemma ReadClosing(c: Convention, slashes: nat, rest: Utf16)
    requires EndsArgument(rest)
    ensures ParseArgument(c, Repeat(BACKSLASH, 2 * slashes) + [QUOTE] + rest, true, 0)
         == (Repeat(BACKSLASH, slashes), rest)
  {
    var t := [QUOTE] + rest;
    assert Repeat(BACKSLASH, 2 * slashes) + [QUOTE] + rest == Repeat(BACKSLASH, 2 * slashes) + t;
    ReadSlashes(c, 2 * slashes, t, true, 0);
    assert t[1..] == rest;
    ReadEnd(c, rest, 0);
    assert Repeat(BACKSLASH, slashes) + Repeat(BACKSLASH, 0) == Repeat(BACKSLASH, slashes);
  }

  /** Inside quotes, a run of backslashes written for `u` followed by `u` reads back as the
      original backslashes and `u`, whatever the rest is. */
  lemma ReadLiteral(c: Convention, slashes: nat, u: CodeUnit, tail: Utf16)
    requires u != BACKSLASH
    ensures var k := if u == QUOTE then 2 * slashes + 1 else slashes;
      ParseArgument(c, Repeat(BACKSLASH, k) + [u] + tail, true, 0)
      == Prefixed(Repeat(BACKSLASH, slashes) + [u], ParseArgument(c, tail, true, 0))
  {
    var k := if u == QUOTE then 2 * slashes + 1 else slashes;
    var t := [u] + tail;
    assert Repeat(BACKSLASH, k) + [u] + tail == Repeat(BACKSLASH, k) + t;
    ReadSlashes(c, k, t, true, 0);
    assert t[1..] == tail;
  }

  /** Backslashes, one unit and the rest of an argument, put together. */
  lemma Together(slashes: nat, argument: Utf16)
    requires argument != []
    ensures Repeat(BACKSLASH, slashes) + [argument[0]] + (Repeat(BACKSLASH, 0) + argument[1..]) == Repeat(BACKSLASH, slashes) + argument
    ensures argument[0] == BACKSLASH ==> Repeat(BACKSLASH, slashes + 1) + argument[1..] == Repeat(BACKSLASH, slashes) + argument
  {
  }

  lemma {:induction false} EscapedReadsBack(c: Convention, argument: Utf16, slashes: nat, rest: Utf16)
    requires EndsArgument(rest)
    ensures ParseArgument(c, Escaped(argument, slashes) + rest, true, 0)
         == (Repeat(BACKSLASH, slashes) + argument, rest)
  {
    if argument == [] {
      ReadClosing(c, slashes, rest);
      assert Repeat(BACKSLASH, slashes) + argument == Repeat(BACKSLASH, slashes);
    } else {
      Together(slashes, argument);
      if argument[0] == BACKSLASH {
        EscapedReadsBack(c, argument[1..], slashes + 1, rest);
      } else {
        EscapedReadsBack(c, argument[1..], 0, rest);
        ReadLiteral(c, slashes, argument[0], Escaped(argument[1..], 0) + rest);
        EscapedUnfolds(argument, slashes, rest);
      }
    }
  }

  lemma EscapedUnfolds(argument: Utf16, slashes: nat, rest: Utf16)
    requires argument != [] && argument[0] != BACKSLASH
    ensures var k := if argument[0] == QUOTE then 2 * slashes + 1 else slashes;
      Escaped(argument, slashes) + rest == Repeat(BACKSLASH, k) + [argument[0]] + (Escaped(argument[1..], 0) + rest)
  {
  }

  lemma {:induction false} PlainReadsBack(c: Convention, argument: Utf16, rest: Utf16, slashes: nat)
    requires EndsArgument(rest)
    requires forall i :: 0 <= i < |argument| ==> argument[i] !in {SPACE, TAB, QUOTE}
    ensures ParseArgument(c, argument + rest, false, slashes) == (Repeat(BACKSLASH, slashes) + argument, rest)
  {
    var line := argument + rest;
    if argument == [] {
      assert line == rest;
      ReadEnd(c, rest, slashes);
      assert Repeat(BACKSLASH, slashes) + argument == Repeat(BACKSLASH, slashes);
    } else {
      assert line[1..] == argument[1..] + rest;
      Together(slashes, argument);
      PlainReadsBack(c, argument[1..], rest, if argument[0] == BACKSLASH then slashes + 1 else 0);
    }
  }

  lemma ReadOpening(c: Convention, t: Utf16)
    ensures ParseArgument(c, [QUOTE] + t, false, 0) == ParseArgument(c, t, true, 0)
  {
    var s := [QUOTE] + t;
    assert s[1..] == t;
    var r := ParseArgument(c, t, true, 0);
    assert Repeat(BACKSLASH, 0) + r.0 == r.0;
  }

  lemma QuotedHead(argument: Utf16)
    ensures Quoted(argument) != [] && !IsSeparator(Quoted(argument)[0])
  {
    if !NeedsQuotes(argument) {
      assert argument[0] !in {SPACE, TAB, LINE_FEED, VERTICAL_TAB, QUOTE};
    }
  }

  /** One written argument followed by a blank or the end reads back as that argument. */
  lemma QuotedReadsBack(c: Convention, argument: Utf16, rest: Utf16)
    requires EndsArgument(rest)
    ensures ParseArgument(c, Quoted(argument) + rest, false, 0) == (argument, rest)
  {
    assert Repeat(BACKSLASH, 0) + argument == argument;
    if NeedsQuotes(argument) {
      EscapedReadsBack(c, argument, 0, rest);
      ReadOpening(c, Escaped(argument, 0) + rest);
      assert Quoted(argument) + rest == [QUOTE] + (Escaped(argument, 0) + rest);
    } else {
      PlainReadsBack(c, argument, rest, 0);
    }
  }

  lemma ReadFirst(c: Convention, argument: Utf16, rest: Utf16)
    requires EndsArgument(rest)
    ensures ParseArguments(c, Quoted(argument) + rest) == [argument] + ParseArguments(c, rest)
  {
    QuotedReadsBack(c, argument, rest);
    QuotedHead(argument);
    assert (Quoted(argument) + rest)[0] == Quoted(argument)[0];
  }

  lemma {:induction false} JoinedReadsBack(c: Convention, arguments: seq<Utf16>)
    ensures ParseArguments(c, Joined(arguments)) == arguments
  {
    if |arguments| == 1 {
      ReadFirst(c, arguments[0], []);
      assert Quoted(arguments[0]) + [] == Joined(arguments);
    } else if |arguments| > 1 {
      var rest := [SPACE] + Joined(arguments[1..]);
      assert Joined(arguments) == Quoted(arguments[0]) + rest;
      ReadFirst(c, arguments[0], rest);
      assert rest[1..] == Joined(arguments[1..]);
      JoinedReadsBack(c, arguments[1..]);
    }
  }

  lemma {:induction false} ParsedArgumentNul(c: Convention, s: Utf16, inside: bool, slashes: nat)
    requires NUL !in s
    ensures NUL !in ParseArgument(c, s, inside, slashes).0 && NUL !in ParseArgument(c, s, inside, slashes).1
    decreases |s|
  {
    if s != [] {
      ParsedArgumentNul(c, s[1..], inside, slashes + 1);
      ParsedArgumentNul(c, s[1..], inside, 0);
      ParsedArgumentNul(c, s[1..], !inside, 0);
      if |s| > 1 {
        ParsedArgumentNul(c, s[2..], c == StayInside, 0);
      }
    }
  }

  lemma {:induction false} ParsedNul(c: Convention, s: Utf16)
    requires NUL !in s
    ensures forall a :: a in ParseArguments(c, s) ==> NUL !in a
    decreases |s|
  {
    if s != [] {
      if IsSeparator(s[0]) {
        ParsedNul(c, s[1..]);
      } else {
        ParsedArgumentNul(c, s, false, 0);
        ParsedNul(c, ParseArgument(c, s, false, 0).1);
      }
    }
  }

  lemma {:induction false} EscapedNul(argument: Utf16, slashes: nat)
    ensures NUL in Escaped(argument, slashes) <==> NUL in argument
  {
    if argument != [] {
      assert argument == [argument[0]] + argument[1..];
      EscapedNul(argument[1..], slashes + 1);
      EscapedNul(argument[1..], 0);
    }
  }

  lemma {:induction false} JoinedNul(arguments: seq<Utf16>)
    requires forall a :: a in arguments ==> NUL !in a
    ensures NUL !in Joined(arguments)
  {
    if arguments != [] {
      EscapedNul(arguments[0], 0);
      assert NUL !in Quoted(arguments[0]);
      assert forall a :: a in arguments[1..] ==> a in arguments;
      JoinedNul(arguments[1..]);
    }
  }

  /** Main result: the child process receives exactly the arguments given, under either convention,
      if and only if none of them holds a NUL. */
  lemma CommandLineRoundTrip(c: Convention, arguments: seq<Utf16>)
    ensures ParseCommandLine(c, Joined(arguments)) == arguments <==> forall a :: a in arguments ==> NUL !in a
  {
    ParsedNul(c, BeforeNul(Joined(arguments)));
    if forall a :: a in arguments ==> NUL !in a {
      JoinedNul(arguments);
      JoinedReadsBack(c, arguments);
    }
  }

  /** Distinct argument lists, NULs or not, never share a command line. */
  lemma JoinIsInjective(a: seq<Utf16>, b: seq<Utf16>)
    requires Joined(a) == Joined(b)
    ensures a == b
  {
    JoinedReadsBack(StayInside, a);
    JoinedReadsBack(StayInside, b);
  }

  lemma {:induction false} EscapedLength(argument: Utf16, slashes: nat)
    ensures |argument| + slashes + 1 <= |Escaped(argument, slashes)| <= 2 * (|argument| + slashes) + 1
  {
    if argument != [] {
      EscapedLength(argument[1..], if argument[0] == BACKSLASH then slashes + 1 else 0);
    }
  }

  lemma QuotedLength(argument: Utf16)
    ensures |argument| <= |Quoted(argument)| <= 2 * |argument| + 2
  {
    EscapedLength(argument, 0);
  }

  // ---------- What exactly is written ----------

  /** An argument is left as it is exactly when it is not empty and has no blank, line break or quote. */
  lemma QuotedPlainExactly(argument: Utf16)
    ensures Quoted(argument) == argument <==>
      argument != [] && SPACE !in argument && TAB !in argument && LINE_FEED !in argument && VERTICAL_TAB !in argument && QUOTE !in argument
    ensures Quoted(argument) != argument ==> Quoted(argument) == [QUOTE] + Escaped(argument, 0)
  {
    EscapedLength(argument, 0);
  }

  lemma {:induction false} EscapedSlashes(n: nat, s: Utf16, slashes: nat)
    ensures Escaped(Repeat(BACKSLASH, n) + s, slashes) == Escaped(s, slashes + n)
  {
    if n == 0 {
      assert Repeat(BACKSLASH, n) + s == s;
    } else {
      assert (Repeat(BACKSLASH, n) + s)[1..] == Repeat(BACKSLASH, n - 1) + s;
      EscapedSlashes(n - 1, s, slashes + 1);
    }
  }

  /** Inside the quotes: backslashes at the end are doubled, those before a quote are doubled and the quote gets
      one more, and everything else is written as it is. */
  lemma EscapedExactly(n: nat, u: CodeUnit, rest: Utf16)
    ensures Escaped(Repeat(BACKSLASH, n), 0) == Repeat(BACKSLASH, 2 * n) + [QUOTE]
    ensures Escaped(Repeat(BACKSLASH, n) + ([QUOTE] + rest), 0) == Repeat(BACKSLASH, 2 * n + 1) + [QUOTE] + Escaped(rest, 0)
    ensures u != BACKSLASH && u != QUOTE ==>
      Escaped(Repeat(BACKSLASH, n) + ([u] + rest), 0) == Repeat(BACKSLASH, n) + [u] + Escaped(rest, 0)
  {
    EscapedSlashes(n, [], 0);
    assert Repeat(BACKSLASH, n) + [] == Repeat(BACKSLASH, n);
    EscapedSlashes(n, [QUOTE] + rest, 0);
    EscapedSlashes(n, [u] + rest, 0);
    assert ([QUOTE] + rest)[1..] == rest && ([u] + rest)[1..] == rest;
  }

  /** One space between each two arguments, and nothing else. */
  lemma {:induction false} JoinedExactly(a: seq<Utf16>, b: seq<Utf16>)
    ensures Joined([]) == []
    ensures |a| == 1 ==> Joined(a) == Quoted(a[0])
    ensures a != [] && b != [] ==> Joined(a + b) == Joined(a) + [SPACE] + Joined(b)
  {
    if |a| == 1 && b != [] {
      assert (a + b)[1..] == b;
    } else if |a| > 1 && b != [] {
      assert (a + b)[1..] == a[1..] + b;
      JoinedExactly(a[1..], b);
    }
  }
}
