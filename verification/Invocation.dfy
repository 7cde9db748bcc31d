/** Windows command-line rendering (src/core/invocation.cpp) against the splitting rules
    of CommandLineToArgvW. */
module Invocation {

  /* ---------- Reference: how a process splits its command line ---------- */

  predicate IsBlank(c: char) {
    c == ' ' || c == '\t'
  }

  function Backslashes(n: nat): (s: string)
    ensures |s| == n
  {
    seq(n, _ => '\\')
  }

  /** Length of the run of backslashes at the front of s. */
  function LeadingRun(s: string): (n: nat)
    ensures n <= |s|
    ensures n < |s| ==> s[n] != '\\'
    ensures s[..n] == Backslashes(n)
  {
    if s == "" || s[0] != '\\' then 0
    else
      assert s == [s[0]] + s[1..];
      1 + LeadingRun(s[1..])
  }

  datatype Scan = Scan(argument: string, rest: string)

  /** Read one argument. 2n backslashes before a quote are n backslashes and a delimiter;
      2n+1 are n backslashes and a literal quote; other backslashes are literal; inside
      quotes, two quotes are one literal quote; unquoted blanks end the argument. */
  function ReadArgument(s: string, quoted: bool): (r: Scan)
    ensures |r.rest| <= |s|
    ensures s != "" && (quoted || !IsBlank(s[0])) ==> |r.rest| < |s|
    decreases |s|
  {
    if s == "" || (!quoted && IsBlank(s[0])) then Scan("", s)
    else if s[0] == '\\' then
      var n := LeadingRun(s);
      var t := s[n..];
      if t == "" || t[0] != '"' then
        var r := ReadArgument(t, quoted);
        Scan(Backslashes(n) + r.argument, r.rest)
      else if n % 2 == 0 then
        var r := ReadArgument(t, quoted);
        Scan(Backslashes(n / 2) + r.argument, r.rest)
      else
        var r := ReadArgument(t[1..], quoted);
        Scan(Backslashes(n / 2) + "\"" + r.argument, r.rest)
    else if s[0] == '"' then
      if quoted && |s| > 1 && s[1] == '"' then
        var r := ReadArgument(s[2..], true);
        Scan("\"" + r.argument, r.rest)
      else
        ReadArgument(s[1..], !quoted)
    else
      var r := ReadArgument(s[1..], quoted);
      Scan([s[0]] + r.argument, r.rest)
  }

  function SkipBlanks(s: string): (t: string)
    ensures |t| <= |s| && (t != "" ==> !IsBlank(t[0]))
  {
    if s != "" && IsBlank(s[0]) then SkipBlanks(s[1..]) else s
  }

  function SplitArguments(s: string): seq<string>
    decreases |s|
  {
    var t := SkipBlanks(s);
    if t == "" then []
    else
      var r := ReadArgument(t, false);
      [r.argument] + SplitArguments(r.rest)
  }

  /** Characters before the first one that ends the program name. */
  function UntilQuote(s: string): (n: nat)
    ensures n <= |s| && '"' !in s[..n] && (n < |s| ==> s[n] == '"')
  {
    if s == "" || s[0] == '"' then 0
    else
      assert s == [s[0]] + s[1..];
      1 + UntilQuote(s[1..])
  }

  function UntilBlank(s: string): (n: nat)
    ensures n <= |s| && (n < |s| ==> IsBlank(s[n]))
  {
    if s == "" || IsBlank(s[0]) then 0 else 1 + UntilBlank(s[1..])
  }

  /** The program name has rules of its own: no escapes, a leading quote runs to the next one. */
  function ReadProgram(s: string): Scan {
    if s != "" && s[0] == '"' then
      var n := UntilQuote(s[1..]);
      Scan(s[1..][..n], if n < |s| - 1 then s[n + 2..] else "")
    else
      var n := UntilBlank(s);
      Scan(s[..n], s[n..])
  }

  /** A command line is a C string: it ends at the first NUL. */
  function CString(s: string): string {
    if s == "" || s[0] == '\0' then "" else [s[0]] + CString(s[1..])
  }

  function SplitCommandLine(s: string): seq<string> {
    var r := ReadProgram(CString(s));
    [r.argument] + SplitArguments(r.rest)
  }

  /* ---------- Rendering ---------- */

  predicate NeedsQuoting(argument: string) {
    argument == "" || ' ' in argument || '\t' in argument || '"' in argument
  }

  /** What the quoting loop still has to emit when n backslashes are pending. */
  function QuotedBody(argument: string, n: nat): string
    decreases argument
  {
    if argument == "" then Backslashes(2 * n) + "\""
    else if argument[0] == '\\' then QuotedBody(argument[1..], n + 1)
    else if argument[0] == '"' then Backslashes(2 * n + 1) + "\"" + QuotedBody(argument[1..], 0)
    else Backslashes(n) + [argument[0]] + QuotedBody(argument[1..], 0)
  }

  function Quoted(argument: string): string {
    if NeedsQuoting(argument) then "\"" + QuotedBody(argument, 0) else argument
  }

  function Rendered(argv: seq<string>): string {
    if argv == [] then ""
    else
      var n := |argv| - 1;
      (if n == 0 then "" else Rendered(argv[..n]) + " ") + Quoted(argv[n])
  }

  /** quote_windows_argument: whatever follows the rendered argument on the command line,
      if it is nothing or a blank, reading it back yields the argument. */
  method QuoteWindowsArgument(argument: string) returns (out: string)
    ensures out == Quoted(argument)
    ensures forall tail: string {:trigger ReadArgument(out + tail, false)} ::
      (tail == "" || tail[0] == ' ') ==> ReadArgument(out + tail, false) == Scan(argument, tail)
  {
    hide ReadArgument;
    hide QuotedBody;
    hide Backslashes;
    forall tail: string | tail == "" || tail[0] == ' '
      ensures ReadArgument(Quoted(argument) + tail, false) == Scan(argument, tail)
    {
      QuotedRoundTrip(argument, tail);
    }
    if !NeedsQuoting(argument) {
      out := argument;
      return;
    }
    out := "\"";
    var backslashes := 0;
    var i := 0;
    while i < |argument|
      invariant 0 <= i <= |argument|
      invariant out + QuotedBody(argument[i..], backslashes) == Quoted(argument)
    {
      var c := argument[i];
      ghost var rest := argument[i + 1..];
      assert argument[i..] == [c] + rest;
      if c == '\\' {
        BodyBackslash(rest, backslashes);
        backslashes := backslashes + 1;
      } else if c == '"' {
        BodyUnfold(c, rest, backslashes);
        Reassociate(out, Backslashes(backslashes * 2 + 1), "\"", QuotedBody(rest, 0));
        Reassociate(Backslashes(backslashes * 2 + 1), "\"", QuotedBody(rest, 0), "");
        out := out + Backslashes(backslashes * 2 + 1) + "\"";
        backslashes := 0;
      } else {
        BodyUnfold(c, rest, backslashes);
        Reassociate(out, Backslashes(backslashes), [c], QuotedBody(rest, 0));
        Reassociate(Backslashes(backslashes), [c], QuotedBody(rest, 0), "");
        out := out + Backslashes(backslashes) + [c];
        backslashes := 0;
      }
      i := i + 1;
    }
    BodyEnd(backslashes);
    assert argument[|argument|..] == "";
    Reassociate(out, Backslashes(backslashes * 2), "\"", "");
    out := out + Backslashes(backslashes * 2) + "\"";
  }

  method RenderCommandLine(argv: seq<string>) returns (out: string)
    ensures out == Rendered(argv)
  {
    hide ReadArgument;
    hide Quoted;
    out := "";
    var i := 0;
    while i < |argv|
      invariant 0 <= i <= |argv|
      invariant out == Rendered(argv[..i])
    {
      if i != 0 {
        out := out + " ";
      }
      var quoted := QuoteWindowsArgument(argv[i]);
      assert argv[..i + 1][..i] == argv[..i];
      out := out + quoted;
      i := i + 1;
    }
    assert argv[..|argv|] == argv;
  }

  /* ---------- Round trip ---------- */

  predicate EndsArgument(tail: string) {
    tail == "" || tail[0] == ' '
  }

  lemma {:induction false} LeadingRunOf(n: nat, t: string)
    requires t == "" || t[0] != '\\'
    ensures LeadingRun(Backslashes(n) + t) == n
  {
    var s := Backslashes(n) + t;
    if n == 0 {
      assert s == t;
    } else {
      assert s[1..] == Backslashes(n - 1) + t;
      LeadingRunOf(n - 1, t);
    }
  }

  /** The rules of ReadArgument one at a time. */
  lemma ReadRun(n: nat, t: string, quoted: bool)
    requires n > 0 && (t == "" || t[0] != '\\')
    ensures ReadArgument(Backslashes(n) + t, quoted) ==
            if t == "" || t[0] != '"' then
              Scan(Backslashes(n) + ReadArgument(t, quoted).argument, ReadArgument(t, quoted).rest)
            else if n % 2 == 0 then
              Scan(Backslashes(n / 2) + ReadArgument(t, quoted).argument, ReadArgument(t, quoted).rest)
            else
              Scan(Backslashes(n / 2) + "\"" + ReadArgument(t[1..], quoted).argument, ReadArgument(t[1..], quoted).rest)
  {
    hide LeadingRun;
    var s := Backslashes(n) + t;
    LeadingRunOf(n, t);
    assert s[0] == '\\' && s[n..] == t;
  }

  lemma ReadPlain(c: char, t: string, quoted: bool)
    requires c != '\\' && c != '"' && (quoted || !IsBlank(c))
    ensures ReadArgument([c] + t, quoted) == Scan([c] + ReadArgument(t, quoted).argument, ReadArgument(t, quoted).rest)
  {
    assert ([c] + t)[1..] == t;
  }

  lemma ReadOpeningQuote(t: string)
    ensures ReadArgument("\"" + t, false) == ReadArgument(t, true)
  {
    assert ("\"" + t)[1..] == t;
  }

  lemma ReadEnd(tail: string)
    requires EndsArgument(tail)
    ensures ReadArgument(tail, false) == Scan("", tail)
    ensures ReadArgument("\"" + tail, true) == Scan("", tail)
  {
    assert ("\"" + tail)[1..] == tail;
  }

  lemma ReadLiteralRun(n: nat, t: string, quoted: bool)
    requires t == "" || (t[0] != '\\' && t[0] != '"')
    ensures var r := ReadArgument(t, quoted);
            ReadArgument(Backslashes(n) + t, quoted) == Scan(Backslashes(n) + r.argument, r.rest)
  {
    hide ReadArgument;
    if n == 0 {
      assert Backslashes(n) + t == t;
      assert Backslashes(n) + ReadArgument(t, quoted).argument == ReadArgument(t, quoted).argument;
    } else {
      ReadRun(n, t, quoted);
    }
  }

  lemma ReadRunBeforeQuote(n: nat, t: string)
    ensures ReadArgument(Backslashes(2 * n + 1) + ("\"" + t), true)
         == Scan(Backslashes(n) + "\"" + ReadArgument(t, true).argument, ReadArgument(t, true).rest)
  {
    hide ReadArgument;
    ReadRun(2 * n + 1, "\"" + t, true);
    assert ("\"" + t)[1..] == t;
  }

  lemma ReadClosingQuote(n: nat, tail: string)
    requires EndsArgument(tail)
    ensures ReadArgument(Backslashes(2 * n) + ("\"" + tail), true) == Scan(Backslashes(n), tail)
  {
    hide ReadArgument;
    ReadEnd(tail);
    if n == 0 {
      assert Backslashes(2 * n) + ("\"" + tail) == "\"" + tail;
      assert Backslashes(n) == "";
    } else {
      ReadRun(2 * n, "\"" + tail, true);
      assert Backslashes(n) + "" == Backslashes(n);
    }
  }

  lemma {:induction false} BodyRoundTrip(argument: string, n: nat, tail: string)
    requires EndsArgument(tail)
    ensures ReadArgument(QuotedBody(argument, n) + tail, true) == Scan(Backslashes(n) + argument, tail)
    decreases argument
  {
    hide ReadArgument;
    if argument == "" {
      ReadClosingQuote(n, tail);
      assert QuotedBody(argument, n) + tail == Backslashes(2 * n) + ("\"" + tail);
      assert Backslashes(n) + argument == Backslashes(n);
    } else {
      var c, rest := argument[0], argument[1..];
      assert argument == [c] + rest;
      if c == '\\' {
        BodyRoundTrip(rest, n + 1, tail);
        assert Backslashes(n + 1) + rest == Backslashes(n) + argument;
      } else {
        BodyRoundTrip(rest, 0, tail);
        assert Backslashes(0) + rest == rest;
        if c == '"' {
          BodyQuote(rest, n, tail);
        } else {
          BodyPlain(c, rest, n, tail);
        }
      }
    }
  }

  lemma BodyUnfold(c: char, rest: string, n: nat)
    requires c != '\\'
    ensures QuotedBody([c] + rest, n) ==
            Backslashes(if c == '"' then 2 * n + 1 else n) + [c] + QuotedBody(rest, 0)
  {
    assert ([c] + rest)[1..] == rest;
  }

  lemma BodyBackslash(rest: string, n: nat)
    ensures QuotedBody(['\\'] + rest, n) == QuotedBody(rest, n + 1)
  {
    assert (['\\'] + rest)[1..] == rest;
  }

  lemma BodyEnd(n: nat)
    ensures QuotedBody("", n) == Backslashes(n * 2) + "\""
  {
  }

  lemma Reassociate(a: string, b: string, c: string, d: string)
    ensures a + b + c + d == a + (b + (c + d))
    ensures d == "" ==> a + b + c == a + (b + c)
  {
  }

  lemma BodyQuote(rest: string, n: nat, tail: string)
    requires ReadArgument(QuotedBody(rest, 0) + tail, true) == Scan(rest, tail)
    ensures ReadArgument(QuotedBody("\"" + rest, n) + tail, true) == Scan(Backslashes(n) + ("\"" + rest), tail)
  {
    hide ReadArgument;
    hide QuotedBody;
    hide Backslashes;
    BodyUnfold('"', rest, n);
    Reassociate(Backslashes(2 * n + 1), "\"", QuotedBody(rest, 0), tail);
    ReadRunBeforeQuote(n, QuotedBody(rest, 0) + tail);
    Reassociate(Backslashes(n), "\"", rest, "");
  }

  lemma BodyPlain(c: char, rest: string, n: nat, tail: string)
    requires c != '\\' && c != '"'
    requires ReadArgument(QuotedBody(rest, 0) + tail, true) == Scan(rest, tail)
    ensures ReadArgument(QuotedBody([c] + rest, n) + tail, true) == Scan(Backslashes(n) + ([c] + rest), tail)
  {
    hide ReadArgument;
    hide QuotedBody;
    hide Backslashes;
    var body := QuotedBody(rest, 0) + tail;
    BodyUnfold(c, rest, n);
    Reassociate(Backslashes(n), [c], QuotedBody(rest, 0), tail);
    ReadPlain(c, body, true);
    ReadLiteralRun(n, [c] + body, true);
  }

  lemma {:induction false} PlainRoundTrip(argument: string, tail: string)
    requires EndsArgument(tail)
    requires forall c :: c in argument ==> !IsBlank(c) && c != '"'
    ensures ReadArgument(argument + tail, false) == Scan(argument, tail)
    decreases |argument|
  {
    hide ReadArgument;
    if argument == "" {
      assert argument + tail == tail;
      ReadEnd(tail);
    } else if argument[0] == '\\' {
      var n := LeadingRun(argument);
      var rest := argument[n..];
      assert argument == Backslashes(n) + rest;
      assert argument + tail == Backslashes(n) + (rest + tail);
      PlainRoundTrip(rest, tail);
      assert rest == "" || rest[0] in argument;
      ReadLiteralRun(n, rest + tail, false);
    } else {
      var c, rest := argument[0], argument[1..];
      assert c in argument;
      assert argument == [c] + rest;
      assert argument + tail == [c] + (rest + tail);
      PlainRoundTrip(rest, tail);
      ReadPlain(c, rest + tail, false);
    }
  }

  lemma QuotedRoundTrip(argument: string, tail: string)
    requires EndsArgument(tail)
    ensures ReadArgument(Quoted(argument) + tail, false) == Scan(argument, tail)
  {
    hide ReadArgument;
    hide QuotedBody;
    if NeedsQuoting(argument) {
      assert Quoted(argument) + tail == "\"" + (QuotedBody(argument, 0) + tail);
      ReadOpeningQuote(QuotedBody(argument, 0) + tail);
      BodyRoundTrip(argument, 0, tail);
      assert Backslashes(0) + argument == argument;
    } else {
      PlainRoundTrip(argument, tail);
    }
  }

  lemma QuotedStart(argument: string)
    ensures Quoted(argument) != "" && !IsBlank(Quoted(argument)[0])
  {
    if !NeedsQuoting(argument) {
      assert argument[0] in argument;
    }
  }

  function Joined(args: seq<string>): string {
    if args == [] then "" else " " + Quoted(args[0]) + Joined(args[1..])
  }

  lemma {:induction false} JoinedAppend(args: seq<string>, last: string)
    ensures Joined(args + [last]) == Joined(args) + " " + Quoted(last)
  {
    hide Quoted;
    if args == [] {
      assert args + [last] == [last] && [last][1..] == [];
      assert " " + Quoted(last) + "" == "" + " " + Quoted(last);
    } else {
      assert (args + [last])[0] == args[0] && (args + [last])[1..] == args[1..] + [last];
      JoinedAppend(args[1..], last);
      assert " " + Quoted(args[0]) + (Joined(args[1..]) + " " + Quoted(last))
          == " " + Quoted(args[0]) + Joined(args[1..]) + " " + Quoted(last);
    }
  }

  lemma {:induction false} RenderedIsJoined(argv: seq<string>)
    requires argv != []
    ensures Rendered(argv) == Quoted(argv[0]) + Joined(argv[1..])
  {
    hide Quoted;
    var n := |argv| - 1;
    if n == 0 {
      assert Rendered(argv) == "" + Quoted(argv[0]) == Quoted(argv[0]);
      assert Joined(argv[1..]) == "";
    } else {
      RenderedIsJoined(argv[..n]);
      assert argv[..n][0] == argv[0] && argv[..n][1..] == argv[1..n];
      assert argv[1..] == argv[1..n] + [argv[n]];
      JoinedAppend(argv[1..n], argv[n]);
    }
  }

  /** Arguments after the program name survive rendering and splitting, whatever they are. */
  lemma {:induction false} ArgumentsRoundTrip(args: seq<string>)
    ensures SplitArguments(Joined(args)) == args
  {
    hide ReadArgument;
    hide Quoted;
    if args != [] {
      var q, tail := Quoted(args[0]), Joined(args[1..]);
      var s := Joined(args);
      assert s == " " + (q + tail);
      assert s[1..] == q + tail;
      QuotedStart(args[0]);
      assert SkipBlanks(s) == SkipBlanks(s[1..]) == q + tail;
      assert EndsArgument(tail);
      QuotedRoundTrip(args[0], tail);
      ArgumentsRoundTrip(args[1..]);
    }
  }

  /* ---------- The program name ---------- */

  /** Pending backslashes at the end of the argument. */
  function TrailingRun(argument: string, n: nat): nat
    decreases argument
  {
    if argument == "" then n
    else TrailingRun(argument[1..], if argument[0] == '\\' then n + 1 else 0)
  }

  lemma {:induction false} BodyWithoutQuotes(argument: string, n: nat)
    requires '"' !in argument
    ensures QuotedBody(argument, n) == Backslashes(n) + argument + Backslashes(TrailingRun(argument, n)) + "\""
    decreases argument
  {
    if argument == "" {
      assert Backslashes(2 * n) == Backslashes(n) + argument + Backslashes(n);
    } else {
      var c, rest := argument[0], argument[1..];
      assert argument == [c] + rest;
      assert c in argument;
      if c == '\\' {
        BodyWithoutQuotes(rest, n + 1);
        assert Backslashes(n + 1) + rest == Backslashes(n) + argument;
      } else {
        BodyWithoutQuotes(rest, 0);
        assert Backslashes(0) + rest == rest;
        assert Backslashes(n) + [c] + (rest + Backslashes(TrailingRun(rest, 0)) + "\"")
            == Backslashes(n) + argument + Backslashes(TrailingRun(argument, n)) + "\"";
      }
    }
  }

  lemma {:induction false} TrailingRunPositive(argument: string, n: nat)
    requires argument != ""
    ensures TrailingRun(argument, n) > 0 <==> argument[|argument| - 1] == '\\'
    decreases argument
  {
    if |argument| > 1 {
      TrailingRunPositive(argument[1..], if argument[0] == '\\' then n + 1 else 0);
    } else {
      assert argument[1..] == "";
    }
  }

  /** How the program name is read back: exactly, except that a quoted name that ends in
      backslashes has them doubled. */
  function ProgramSeen(program: string): string {
    if NeedsQuoting(program) then program + Backslashes(TrailingRun(program, 0)) else program
  }

  lemma {:induction false} UntilQuoteOf(a: string, b: string)
    requires '"' !in a && b != "" && b[0] == '"'
    ensures UntilQuote(a + b) == |a|
  {
    if a == "" {
      assert a + b == b;
    } else {
      assert a[0] in a;
      assert (a + b)[1..] == a[1..] + b;
      UntilQuoteOf(a[1..], b);
    }
  }

  lemma {:induction false} UntilBlankOf(a: string, tail: string)
    requires EndsArgument(tail)
    requires forall c :: c in a ==> !IsBlank(c)
    ensures UntilBlank(a + tail) == |a|
  {
    if a == "" {
      assert a + tail == tail;
    } else {
      assert a[0] in a;
      assert (a + tail)[1..] == a[1..] + tail;
      UntilBlankOf(a[1..], tail);
    }
  }

  lemma ProgramRoundTrip(program: string, tail: string)
    requires '"' !in program && EndsArgument(tail)
    ensures ReadProgram(Quoted(program) + tail) == Scan(ProgramSeen(program), tail)
  {
    hide ReadProgram;
    hide QuotedBody;
    hide ProgramSeen;
    if NeedsQuoting(program) {
      ProgramBody(program);
      QuotedProgram(ProgramSeen(program), tail);
      Reassociate("\"", ProgramSeen(program), "\"", tail);
    } else {
      ProgramBody(program);
      PlainProgram(program, tail);
    }
  }

  lemma ProgramBody(program: string)
    requires '"' !in program
    ensures NeedsQuoting(program) ==> Quoted(program) == "\"" + ProgramSeen(program) + "\""
    ensures NeedsQuoting(program) ==> '"' !in ProgramSeen(program)
    ensures !NeedsQuoting(program) ==> ProgramSeen(program) == program
  {
    hide QuotedBody;
    BodyWithoutQuotes(program, 0);
    assert Backslashes(0) + program == program;
    Reassociate("\"", program, Backslashes(TrailingRun(program, 0)), "\"");
  }

  lemma PlainProgram(program: string, tail: string)
    requires !NeedsQuoting(program) && EndsArgument(tail)
    ensures ReadProgram(program + tail) == Scan(program, tail)
  {
    var s := program + tail;
    assert s[0] == program[0] && program[0] in program;
    UntilBlankOf(program, tail);
    assert s[..|program|] == program && s[|program|..] == tail;
  }

  lemma QuotedProgram(seen: string, tail: string)
    requires '"' !in seen
    ensures ReadProgram("\"" + (seen + ("\"" + tail))) == Scan(seen, tail)
  {
    var body := seen + ("\"" + tail);
    var s := "\"" + body;
    assert s[1..] == body;
    UntilQuoteOf(seen, "\"" + tail);
    assert body[..|seen|] == seen;
    assert s[|seen| + 2..] == tail;
  }

  lemma {:induction false} CStringWhole(s: string)
    requires '\0' !in s
    ensures CString(s) == s
  {
    if s != "" {
      assert s[0] in s;
      CStringWhole(s[1..]);
    }
  }

  lemma {:induction false} BodyKeepsNul(argument: string, n: nat)
    requires '\0' !in argument
    ensures '\0' !in QuotedBody(argument, n)
    decreases argument
  {
    if argument != "" {
      assert argument[0] in argument;
      BodyKeepsNul(argument[1..], if argument[0] == '\\' then n + 1 else 0);
    }
  }

  lemma {:induction false} JoinedKeepsNul(args: seq<string>)
    requires forall a :: a in args ==> '\0' !in a
    ensures '\0' !in Joined(args)
  {
    if args != [] {
      assert args[0] in args;
      BodyKeepsNul(args[0], 0);
      JoinedKeepsNul(args[1..]);
    }
  }

  predicate NulFree(argv: seq<string>) {
    forall a :: a in argv ==> '\0' !in a
  }

  lemma RenderedSplit(argv: seq<string>)
    requires argv != [] && NulFree(argv)
    ensures SplitCommandLine(Rendered(argv)) ==
            var r := ReadProgram(Quoted(argv[0]) + Joined(argv[1..])); [r.argument] + SplitArguments(r.rest)
  {
    RenderedIsJoined(argv);
    assert argv[0] in argv;
    BodyKeepsNul(argv[0], 0);
    JoinedKeepsNul(argv[1..]);
    CStringWhole(Rendered(argv));
  }

  /** For every argument list whose program name holds no quote, the arguments come back
      exactly, and the program name comes back as ProgramSeen says. */
  lemma CommandLineArguments(argv: seq<string>)
    requires argv != [] && NulFree(argv) && '"' !in argv[0]
    ensures SplitCommandLine(Rendered(argv)) == [ProgramSeen(argv[0])] + argv[1..]
  {
    RenderedSplit(argv);
    assert EndsArgument(Joined(argv[1..]));
    ProgramRoundTrip(argv[0], Joined(argv[1..]));
    ArgumentsRoundTrip(argv[1..]);
  }

  /** Exactly when the whole command line survives: the program name holds no quote, and
      is not both quoted and ended by a backslash. */
  lemma CommandLineRoundTrip(argv: seq<string>)
    requires argv != [] && NulFree(argv)
    ensures SplitCommandLine(Rendered(argv)) == argv <==>
            '"' !in argv[0] && (NeedsQuoting(argv[0]) && argv[0] != "" ==> argv[0][|argv[0]| - 1] != '\\')
  {
    var program := argv[0];
    assert argv == [program] + argv[1..];
    if '"' in program {
      RenderedSplit(argv);
      var s := Quoted(program) + Joined(argv[1..]);
      assert s[0] == '"';
      assert '"' !in ReadProgram(s).argument;
      assert SplitCommandLine(Rendered(argv))[0] != program;
    } else {
      CommandLineArguments(argv);
      assert SplitCommandLine(Rendered(argv))[0] == ProgramSeen(program);
      if program == "" {
        assert ProgramSeen(program) == program;
      } else {
        TrailingRunPositive(program, 0);
        if NeedsQuoting(program) && TrailingRun(program, 0) > 0 {
          assert |ProgramSeen(program)| > |program|;
        } else if NeedsQuoting(program) {
          assert ProgramSeen(program) == program;
        }
      }
    }
  }
}
