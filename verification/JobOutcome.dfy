// Which lines of a background job are run and recorded as meant
// (internal/exec/kubeexec.go, StartJob).
module JobOutcome {
  import opened Wrappers
  import opened Shell
  import opened CommandLists
  import opened JobScript

  // The script reads as the line's own tokens in one subshell, closed by the recording,
  // which follows whole; and the shell takes it: every command is there.
  ghost predicate Recorded(line: string, id: string) {
    && Parse(line).Some?
    && var script := [Op("(")] + Parse(line).value + OutcomeTokens(id);
      Parse(Script(line, id)) == Some(script) && ClosesAt(script, 1 + |Parse(line).value|) && IsList(script)
  }

  // Text these rules cover.
  ghost predicate Covered(line: string) {
    !Scan(Gap, line).end.Beyond? && (Parse(line).Some? ==> !Uncovered(Parse(line).value))
  }

  lemma {:induction false} PlainIsInjective(a: string, b: string)
    requires Plain(a) == Plain(b)
    ensures a == b
  {
    assert |a| == |Plain(a)| == |b|;
    forall i | 0 <= i < |a| ensures a[i] == b[i] { assert Plain(a)[i] == Plain(b)[i]; }
  }

  lemma PlainIsReserved(s: string)
    ensures IsReserved(Plain(s)) <==> s in RESERVED
  {
    if IsReserved(Plain(s)) {
      var w :| w in RESERVED && Plain(s) == Plain(w);
      PlainIsInjective(s, w);
    }
  }

  lemma CommandsAreNotReserved()
    ensures !IsReserved(Plain("echo")) && !IsReserved(Plain("cd")) && !IsReserved(Plain("true"))
  {
    hide IsReserved, Plain;
    PlainIsReserved("echo");
    PlainIsReserved("cd");
    PlainIsReserved("true");
    assert forall w | w in RESERVED && |w| == 4 :: w[1] != 'c' && w[1] != 'r';
    assert forall w | w in RESERVED && |w| == 2 :: w[0] != 'c';
    assert |"echo"| == |"true"| == 4 && |"cd"| == 2;
  }

  // A closed subshell's output and outcome are kept, and the script ends.
  lemma RecordingReads(log: string, rc: string)
    ensures Read(Spot(Closed, 0), Recording(log, rc)) == Spot(Simple, 0)
  {
    hide Read, IsReserved, Plain, Literal;
    CommandsAreNotReserved();
    var first := [Op(">"), Word(Literal(log))];
    var echo := [Op(";"), Bareword("echo"), Bareword("$?")];
    var last := [Op(">"), Word(Literal(rc))];
    ReadTwo(Spot(Closed, 0), Op(">"), Word(Literal(log)));
    ReadThree(Spot(Closed, 0), Io(Plain("2")), Op(">&"), Bareword("1"));
    ReadThree(Spot(Closed, 0), Op(";"), Bareword("echo"), Bareword("$?"));
    ReadTwo(Spot(Simple, 0), Op(">"), Word(Literal(rc)));
    ReadConcat(Spot(Closed, 0), first, ErrToOut());
    ReadConcat(Spot(Closed, 0), first + ErrToOut(), echo);
    ReadConcat(Spot(Closed, 0), first + ErrToOut() + echo, last);
    assert first + ErrToOut() + echo + last == Recording(log, rc);
  }

  lemma ClosedIsTaken(tokens: seq<Token>, id: string)
    requires ClosesAt([Op("(")] + tokens + OutcomeTokens(id), 1 + |tokens|)
    ensures IsList([Op("(")] + tokens + OutcomeTokens(id))
  {
    hide Read, LogFile, RcFile;
    var script := [Op("(")] + tokens + OutcomeTokens(id);
    var recording := Recording(LogFile(id), RcFile(id));
    RecordingReads(LogFile(id), RcFile(id));
    hide Recording;
    assert script == script[..|tokens| + 2] + recording;
    ReadConcat(START, script[..|tokens| + 2], recording);
  }

  // A line of a job is run and recorded as meant if and only if it ends neither in a
  // comment, nor in a quotation, nor in a backslash, and is a complete list of commands.
  lemma RecordedExactly(line: string, id: string)
    requires IsJobId(id) && Covered(line)
    ensures Recorded(line, id) <==> Finishes(Scan(Gap, line).end) && IsList(Parse(line).value)
  {
    hide LogFile, RcFile, ClosesAt, IsList, Recording, Uncovered;
    var end := Scan(Gap, line).end;
    if Finishes(end) {
      FinishedInner(line, id);
      var tokens := Parse(line).value;
      SubshellIsList(tokens, Recording(LogFile(id), RcFile(id)));
      if IsList(tokens) { ClosedIsTaken(tokens, id); }
    } else if end.Comment? {
      InnerParses(line, id);
      assert |[Op("(")] + Parse(line).value + OutcomeTokens(id)| > |[Op("(")] + Scan(Gap, line).tokens|;
    }
  }

  lemma FinishedInner(line: string, id: string)
    requires IsJobId(id) && Finishes(Scan(Gap, line).end)
    ensures Parse(line).Some? && Parse(Script(line, id)) == Some([Op("(")] + Parse(line).value + OutcomeTokens(id))
  {
    hide Parse, Scan, Finishes, LogFile, RcFile, Inner;
    FileNames(id);
    FinishedScript(line, LogFile(id), RcFile(id));
  }

  // Changing directory first makes no difference to that.
  lemma DirectoryKeepsLists(cwd: string, tokens: seq<Token>)
    ensures Read(START, ChangeDir(cwd) + tokens) == Read(START, tokens)
  {
    hide Read, Plain, Literal, IsReserved;
    CommandsAreNotReserved();
    ReadThree(START, Bareword("cd"), Word(Literal(cwd)), Op("&&"));
    ReadConcat(START, ChangeDir(cwd), tokens);
  }

  // A job given as an argument list is recorded, whatever its arguments, in whatever
  // directory.
  lemma ArgumentsAreRecorded(cmd: Command, id: string)
    requires cmd.line == "" && cmd.argv != [] && AllNulFree(cmd.argv) && NulFree(cmd.cwd) && IsJobId(id)
    ensures Recorded(CommandLine(cmd).value, id)
  {
    hide Recorded, Scan, Parse, NulFree, AllNulFree, ChangeDir, IsJobId, Words, InDir, Read, Joined;
    ArgvLine(cmd);
    var line := CommandLine(cmd).value;
    WordsAreAList(cmd.argv);
    if cmd.cwd == "" {
      assert [] + Words(cmd.argv) == Words(cmd.argv);
    } else {
      DirectoryKeepsLists(cmd.cwd, Words(cmd.argv));
    }
    RecordedExactly(line, id);
  }

  lemma {:induction false} WordsAreAList(argv: seq<string>)
    requires argv != []
    ensures Read(START, Words(argv)) == Spot(if |argv| == 1 then Named else Simple, 0)
    decreases |argv|
  {
    var init := argv[..|argv| - 1];
    assert Words(argv)[..|argv| - 1] == Words(init);
    if |argv| == 1 {
      LiteralIsNotReserved(argv[0]);
      assert Words(init) == [];
    } else {
      WordsAreAList(init);
    }
  }

  lemma LiteralIsNotReserved(s: string)
    ensures !IsReserved(Literal(s))
  {
    assert forall w | w in RESERVED :: w != "";
    assert s != "" ==> Literal(s)[0].Lit?;
    assert forall w: string | w != "" :: Plain(w)[0].Bare?;
  }

  // ---- Lines that are not -----------------------------------------------------------------

  // `echo x # y`: the comment swallows the closing parenthesis with the recording.
  lemma CommentIsNotRecorded(id: string)
    requires IsJobId(id)
    ensures var line := "echo x # y";
      && !Recorded(line, id)
      && Parse(Script(line, id)) == Some([Op("("), Bareword("echo"), Bareword("x")])
      && forall j: nat :: !ClosesAt([Op("("), Bareword("echo"), Bareword("x")], j)
  {
    hide Scan, Parse, Script, OutcomeTokens, Plain, IsJobId, ClosesAt, IsReserved, IsList;
    CommentScansAway();
    InnerParses("echo x # y", id);
    CommandsAreNotReserved();
    assert [Op("(")] + [Bareword("echo"), Bareword("x")] == [Op("("), Bareword("echo"), Bareword("x")];
    NeverClosed(Plain("echo"), Plain("x"));
  }

  lemma CommentStarts(s: string)
    ensures Scan(Gap, "#" + s) == Scan(Comment, s)
  {
    assert ("#" + s)[1..] == s;
  }

  lemma CommentScansAway()
    ensures Scan(Gap, "echo x # y") == Scanned([Bareword("echo"), Bareword("x")], Comment)
  {
    hide Scan, Plain, Reads;
    WordThenBlank("echo", "x # y");
    WordThenBlank("x", "# y");
    assert "echo" + " " + "x # y" == "echo x # y" && "x" + " " + "# y" == "x # y";
    ReadsOn("echo x # y", [Bareword("echo")], "x # y", [Bareword("x")], "# y");
    ReadsScan("echo x # y", [Bareword("echo")] + [Bareword("x")], "# y");
    assert "# y" == "#" + " y";
    CommentStarts(" y");
    CommentScans(" y");
    assert [Bareword("echo")] + [Bareword("x")] + [] == [Bareword("echo"), Bareword("x")];
  }

  lemma ReadsScan(s: string, tokens: seq<Token>, rest: string)
    requires Reads(s, tokens, rest)
    ensures Scan(Gap, s) == Then(tokens, Scan(Gap, rest))
  {
  }

  // A parenthesis and two words after it: the subshell stays open.
  lemma NeverClosed(a: seq<Mark>, b: seq<Mark>)
    requires !IsReserved(a)
    ensures forall j: nat :: !ClosesAt([Op("("), Word(a), Word(b)], j)
  {
    hide Read, IsReserved;
    var all := [Op("("), Word(a), Word(b)];
    ReadTwo(START, Op("("), Word(a));
    ReadThree(START, Op("("), Word(a), Word(b));
    assert all[..2] == [Op("("), Word(a)] && all[..3] == all;
  }

  function Unbalanced(): seq<Token> {
    [Bareword("echo"), Bareword("x"), Op(")"), Op(";"), Op("("), Bareword("true")]
  }

  // `echo x ) ; ( true`: the line's own parenthesis closes the script's, so the first
  // command runs outside the recorded subshell.
  lemma UnbalancedIsNotRecorded(id: string)
    requires IsJobId(id)
    ensures var line := "echo x ) ; ( true";
      && !Recorded(line, id)
      && Parse(Script(line, id)) == Some([Op("(")] + Unbalanced() + OutcomeTokens(id))
      && ClosesAt([Op("(")] + Unbalanced() + OutcomeTokens(id), 3)
  {
    hide Scan, Parse, Script, OutcomeTokens, Plain, IsJobId, ClosesAt, Unbalanced, IsList, Finishes;
    UnbalancedParses();
    FinishedInner("echo x ) ; ( true", id);
    UnbalancedClosesEarly(OutcomeTokens(id));
    UnbalancedLength();
    ClosesOnce([Op("(")] + Unbalanced() + OutcomeTokens(id), 3, 1 + |Unbalanced()|);
  }

  lemma UnbalancedLength()
    ensures |Unbalanced()| == 6
  {
  }

  lemma UnbalancedClosesEarly(tail: seq<Token>)
    ensures ClosesAt([Op("(")] + Unbalanced() + tail, 3)
  {
    hide ClosesAt, IsReserved, Plain;
    CommandsAreNotReserved();
    var rest := [Op(";"), Op("("), Bareword("true")] + tail;
    UnbalancedCloses(Plain("echo"), Plain("x"), rest);
    assert [Op("(")] + Unbalanced() + tail == [Op("("), Word(Plain("echo")), Word(Plain("x")), Op(")")] + rest;
  }

  lemma UnbalancedCloses(a: seq<Mark>, b: seq<Mark>, rest: seq<Token>)
    requires !IsReserved(a)
    ensures ClosesAt([Op("("), Word(a), Word(b), Op(")")] + rest, 3)
  {
    hide Read, IsReserved;
    var all := [Op("("), Word(a), Word(b), Op(")")] + rest;
    ReadOne(START, Op("("));
    ReadTwo(START, Op("("), Word(a));
    ReadThree(START, Op("("), Word(a), Word(b));
    ReadOne(Spot(Simple, 1), Op(")"));
    ReadConcat(START, [Op("("), Word(a), Word(b)], [Op(")")]);
    assert all[..1] == [Op("(")] && all[..2] == [Op("("), Word(a)] && all[..3] == [Op("("), Word(a), Word(b)];
    assert all[..4] == [Op("("), Word(a), Word(b)] + [Op(")")];
  }

  lemma ClosesOnce(tokens: seq<Token>, i: nat, j: nat)
    requires i < j && ClosesAt(tokens, i)
    ensures !ClosesAt(tokens, j)
  {
    assert Read(START, tokens[..i + 1]).depth == 0;
  }

  // A blank line, and one that breaks off after `|`: each starts a job, and the shell
  // rejects the whole script, for want of a command before the closing parenthesis.
  lemma MissingCommandIsNotRecorded(line: string, id: string)
    requires IsJobId(id) && (line == " " || line == "true |")
    ensures CommandLine(Command(line, [], "")) == Some(line) && !Recorded(line, id)
    ensures Parse(Script(line, id)).Some? && !IsList(Parse(Script(line, id)).value)
  {
    hide Scan, Parse, Script, OutcomeTokens, Plain, IsJobId, Finishes, IsList, Recorded, Read;
    if line == " " {
      BlankParses();
      NothingRead();
      RejectedScript(line, [], id);
    } else {
      PipeParses();
      PipeReads();
      RejectedScript(line, [Bareword("true"), Op("|")], id);
    }
  }

  lemma NothingRead()
    ensures Read(START, []) == START
  {
  }

  lemma PipeReads()
    ensures Read(START, [Bareword("true"), Op("|")]) == START
  {
    hide Plain, IsReserved, Read;
    CommandsAreNotReserved();
    ReadTwo(START, Bareword("true"), Op("|"));
  }

  lemma BlankParses()
    ensures Finishes(Scan(Gap, " ").end) && Parse(" ") == Some([])
  {
    hide Advance;
    BlankScans("");
    assert " " + "" == " ";
    NothingScans(Gap);
    assert Then([], Scanned([], Gap)) == Scanned([], Gap);
  }

  lemma OpAlone(c: char)
    requires IsOp(c)
    ensures Scan(Gap, [c]) == Scanned([], InOp([c]))
  {
    hide Advance;
    OpStarts(c, "");
    assert [c] + "" == [c];
    NothingScans(InOp([c]));
  }

  lemma PipeParses()
    ensures Finishes(Scan(Gap, "true |").end) && Parse("true |") == Some([Bareword("true"), Op("|")])
  {
    hide Scan, Plain, Reads, Parse;
    WordThenBlank("true", "|");
    assert "true" + " " + "|" == "true |";
    ReadsScan("true |", [Bareword("true")], "|");
    OpAlone('|');
    assert ['|'] == "|" && [Bareword("true")] + [] == [Bareword("true")];
    FinishedParses("true |");
    assert [Bareword("true")] + [Op("|")] == [Bareword("true"), Op("|")];
  }

  // A line after which a command is still wanted.
  lemma RejectedScript(line: string, tokens: seq<Token>, id: string)
    requires IsJobId(id) && Finishes(Scan(Gap, line).end) && Parse(line) == Some(tokens)
    requires Read(START, tokens) == START
    ensures !Recorded(line, id) && Parse(Script(line, id)).Some? && !IsList(Parse(Script(line, id)).value)
  {
    hide Scan, Parse, Script, LogFile, RcFile, IsJobId, Read, Recording, IsList, Finishes;
    FinishedInner(line, id);
    var recording := Recording(LogFile(id), RcFile(id));
    WantingIsRejected(tokens, recording);
    assert [Op("(")] + tokens + ([Op(")")] + recording) == [Op("(")] + tokens + OutcomeTokens(id);
  }

  lemma WantingIsRejected(tokens: seq<Token>, tail: seq<Token>)
    requires Read(START, tokens) == START
    ensures !IsList([Op("(")] + tokens + ([Op(")")] + tail))
  {
    hide Read;
    var script := [Op("(")] + tokens + ([Op(")")] + tail);
    ReadInside(tokens);
    ReadDeeper(tokens);
    ReadOne(Spot(Wanted, 1), Op(")"));
    ReadConcat(START, [Op("(")] + tokens, [Op(")")]);
    ReadConcat(START, [Op("(")] + tokens + [Op(")")], tail);
    WrongStays(Spot(Wrong, 1), tail);
    assert script == [Op("(")] + tokens + [Op(")")] + tail;
  }

  lemma ReadsEnd(s: string, tokens: seq<Token>, rest: string)
    requires Reads(s, tokens, rest)
    ensures Scan(Gap, s).end == Scan(Gap, rest).end
  {
  }

  lemma UnbalancedParses()
    ensures Parse("echo x ) ; ( true") == Some(Unbalanced()) && Finishes(Scan(Gap, "echo x ) ; ( true").end)
  {
    hide Reads, Parse, Plain, Scan;
    SubshellParses();
    WordThenBlank("x", ") ; ( true");
    WordThenBlank("echo", "x ) ; ( true");
    assert "x" + " " + ") ; ( true" == "x ) ; ( true" && "echo" + " " + "x ) ; ( true" == "echo x ) ; ( true";
    ReadsParses("x ) ; ( true", [Bareword("x")], ") ; ( true");
    ReadsEnd("x ) ; ( true", [Bareword("x")], ") ; ( true");
    ReadsParses("echo x ) ; ( true", [Bareword("echo")], "x ) ; ( true");
    ReadsEnd("echo x ) ; ( true", [Bareword("echo")], "x ) ; ( true");
    assert [Bareword("echo")] + ([Bareword("x")] + [Op(")"), Op(";"), Op("("), Bareword("true")])
        == [Bareword("echo"), Bareword("x"), Op(")"), Op(";"), Op("("), Bareword("true")];
  }

  lemma WordEnds(s: string)
    requires s != "" && forall c | c in s :: IsPlain(c)
    ensures Scan(Gap, s).end.InWord?
  {
    WordStarts(s, "");
    assert s + "" == s;
  }

  lemma SubshellParses()
    ensures Parse(") ; ( true") == Some([Op(")"), Op(";"), Op("("), Bareword("true")])
    ensures Scan(Gap, ") ; ( true").end.InWord?
  {
    hide Reads, Parse, Plain, Scan;
    WordAtEnd("true");
    WordEnds("true");
    OpThenBlank('(', "true");
    OpThenBlank(';', "( true");
    OpThenBlank(')', "; ( true");
    assert ['('] + " " + "true" == "( true" && [';'] + " " + "( true" == "; ( true";
    assert [')'] + " " + "; ( true" == ") ; ( true";
    ReadsParses("( true", [Op("(")], "true");
    ReadsEnd("( true", [Op("(")], "true");
    ReadsParses("; ( true", [Op(";")], "( true");
    ReadsEnd("; ( true", [Op(";")], "( true");
    ReadsParses(") ; ( true", [Op(")")], "; ( true");
    ReadsEnd(") ; ( true", [Op(")")], "; ( true");
    assert [Op(")")] + ([Op(";")] + ([Op("(")] + [Bareword("true")])) == [Op(")"), Op(";"), Op("("), Bareword("true")];
  }
}
