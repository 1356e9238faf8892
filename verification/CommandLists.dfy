// Which tokens make a complete list of commands: the grammar of XCU 2.9 and 2.10 of the
// POSIX Shell Command Language for simple commands, redirections, subshells, pipelines
// and lists, read from left to right.
module CommandLists {
  import opened Wrappers
  import opened Shell

  datatype Place =
    | Wanted               // a command has to come: at the start, after `(`, `|`, `&&`, `||`
    | Between              // after `;`, `&` or a newline: a command, or the end
    | Named                // after the first word of a command
    | Simple               // further inside a simple command
    | Closed               // after a subshell
    | Target(closed: bool) // a redirection has begun: its operator's word is to come
    | Numbered(closed: bool)
    | Opened               // after a first word and `(`
    | Outside              // beyond these rules: reserved words, functions, here-documents
    | Wrong

  // How far a reader has come, and in how many subshells.
  datatype Spot = Spot(place: Place, depth: nat)

  const RESERVED := ["if", "then", "else", "elif", "fi", "do", "done", "case", "esac", "while", "until", "for", "in",
      "{", "}", "!"]

  // Only an unquoted word is a reserved one.
  ghost predicate IsReserved(marks: seq<Mark>) { exists w | w in RESERVED :: marks == Plain(w) }

  predicate IsRedirection(op: string) { op in {"<", ">", "<&", ">&", "<>", ">>", ">|"} }

  // A command is complete here.
  predicate Ready(p: Place) { p.Named? || p.Simple? || p.Closed? }

  function Redirected(p: Place, op: string): Place {
    if op == "<<" || op == "<<-" then Outside
    else if p.Wanted? || p.Between? || p.Named? || p.Simple? then Target(false)
    else if p.Closed? then Target(true)
    else if p.Numbered? then Target(p.closed)
    else Wrong
  }

  function Operator(at: Spot, op: string): Spot {
    var p := at.place;
    if p.Opened? then at.(place := if op == ")" then Outside else Wrong)
    else if op == "(" then
      if p.Wanted? || p.Between? then Spot(Wanted, at.depth + 1) else at.(place := if p.Named? then Opened else Wrong)
    else if op == ")" then
      if (Ready(p) || p.Between?) && at.depth > 0 then Spot(Closed, at.depth - 1) else at.(place := Wrong)
    else if op == "\n" then at.(place := if Ready(p) then Between else if p.Wanted? || p.Between? then p else Wrong)
    else if op == ";" || op == "&" then at.(place := if Ready(p) then Between else Wrong)
    else if op == "|" || op == "&&" || op == "||" then at.(place := if Ready(p) then Wanted else Wrong)
    else if IsRedirection(op) || op == "<<" || op == "<<-" then at.(place := Redirected(p, op))
    else at.(place := Wrong)
  }

  ghost function AfterWord(p: Place, marks: seq<Mark>): Place {
    match p
    case Wanted => if IsReserved(marks) then Outside else Named
    case Between => if IsReserved(marks) then Outside else Named
    case Named => Simple
    case Simple => Simple
    case Target(closed) => if closed then Closed else Simple
    case _ => Wrong
  }

  function AfterNumber(p: Place): Place {
    if p.Wanted? || p.Between? || p.Named? || p.Simple? then Numbered(false)
    else if p.Closed? then Numbered(true) else Wrong
  }

  ghost function Step(at: Spot, token: Token): Spot {
    if at.place.Outside? || at.place.Wrong? then at
    else match token
      case Word(marks) => at.(place := AfterWord(at.place, marks))
      case Io(_) => at.(place := AfterNumber(at.place))
      case Op(op) => Operator(at, op)
  }

  ghost function Read(at: Spot, tokens: seq<Token>): Spot {
    if tokens == [] then at else Step(Read(at, tokens[..|tokens| - 1]), tokens[|tokens| - 1])
  }

  const START := Spot(Wanted, 0)

  // A complete list: at least one command, none missing beside an operator, each
  // redirection with its word, and every subshell closed.
  ghost predicate IsList(tokens: seq<Token>) {
    var at := Read(START, tokens); at.depth == 0 && (Ready(at.place) || at.place.Between?)
  }

  // The list goes beyond these rules.
  ghost predicate Uncovered(tokens: seq<Token>) { Read(START, tokens).place.Outside? }

  // ---- Reading on ---------------------------------------------------------------------

  lemma {:induction false} ReadConcat(at: Spot, a: seq<Token>, b: seq<Token>)
    ensures Read(at, a + b) == Read(Read(at, a), b)
    decreases |b|
  {
    if b == [] {
      assert a + b == a;
    } else {
      hide Step;
      assert (a + b)[..|a + b| - 1] == a + b[..|b| - 1];
      ReadConcat(at, a, b[..|b| - 1]);
    }
  }

  lemma ReadOne(at: Spot, token: Token)
    ensures Read(at, [token]) == Step(at, token)
  {
    assert [token][..0] == [];
    assert Read(at, [token][..0]) == at;
  }

  lemma ReadTwo(at: Spot, a: Token, b: Token)
    ensures Read(at, [a, b]) == Step(Step(at, a), b)
  {
    hide Step;
    ReadOne(at, a);
    assert [a, b][..1] == [a];
  }

  lemma ReadThree(at: Spot, a: Token, b: Token, d: Token)
    ensures Read(at, [a, b, d]) == Step(Step(Step(at, a), b), d)
  {
    hide Step;
    ReadTwo(at, a, b);
    assert [a, b, d][..2] == [a, b];
  }

  lemma {:induction false} WrongStays(at: Spot, tokens: seq<Token>)
    requires at.place.Wrong?
    ensures Read(at, tokens) == at
    decreases |tokens|
  {
    if tokens != [] { WrongStays(at, tokens[..|tokens| - 1]); }
  }

  // ---- In a subshell ---------------------------------------------------------------------

  function Deeper(at: Spot): Spot { Spot(at.place, at.depth + 1) }

  // The parenthesis at the front is closed by token `j`, and by none before.
  ghost predicate ClosesAt(tokens: seq<Token>, j: nat) {
    && 0 < j < |tokens| && tokens[0] == Op("(")
    && (forall n | 1 <= n <= j :: Read(START, tokens[..n]).depth > 0)
    && Read(START, tokens[..j + 1]) == Spot(Closed, 0)
  }

  // A token has the same effect one subshell deeper, unless it would close a subshell
  // that is not open.
  lemma StepDeeper(at: Spot, token: Token)
    ensures Step(Deeper(at), token) == Deeper(Step(at, token))
      || (Step(Deeper(at), token) == Spot(Closed, 0) && Step(at, token) == Spot(Wrong, 0))
  {
  }

  lemma {:induction false} ReadDeeper(tokens: seq<Token>)
    requires !Read(START, tokens).place.Wrong?
    ensures Read(Spot(Wanted, 1), tokens) == Deeper(Read(START, tokens))
  {
    if tokens != [] {
      var init := tokens[..|tokens| - 1];
      ReadDeeper(init);
      StepDeeper(Read(START, init), tokens[|tokens| - 1]);
    }
  }

  // Inside a subshell that stays open the tokens read as they do by themselves.
  lemma {:induction false} StaysOpen(tokens: seq<Token>)
    requires forall n | 0 <= n <= |tokens| :: Read(Spot(Wanted, 1), tokens[..n]).depth > 0
    ensures Read(Spot(Wanted, 1), tokens) == Deeper(Read(START, tokens))
  {
    if tokens != [] {
      var init := tokens[..|tokens| - 1];
      assert forall n | 0 <= n <= |init| :: init[..n] == tokens[..n];
      assert tokens[..|tokens|] == tokens;
      StaysOpen(init);
      hide Step;
      StepDeeper(Read(START, init), tokens[|tokens| - 1]);
    }
  }

  lemma {:induction false} ListStaysOpen(tokens: seq<Token>, n: nat)
    requires !Read(START, tokens).place.Wrong? && n <= |tokens|
    ensures Read(Spot(Wanted, 1), tokens[..n]).depth > 0
    decreases |tokens|
  {
    if n == |tokens| {
      assert tokens[..n] == tokens;
      ReadDeeper(tokens);
    } else {
      var init := tokens[..|tokens| - 1];
      assert init[..n] == tokens[..n];
      ListStaysOpen(init, n);
    }
  }

  // What a script reads as that begins with a parenthesis.
  lemma ReadInside(tokens: seq<Token>)
    ensures Read(START, [Op("(")] + tokens) == Read(Spot(Wanted, 1), tokens)
  {
    ReadConcat(START, [Op("(")], tokens);
    ReadOne(START, Op("("));
  }

  // Between parentheses: they close each other exactly when the tokens between make a
  // complete list.
  lemma SubshellIsList(tokens: seq<Token>, tail: seq<Token>)
    ensures ClosesAt([Op("(")] + tokens + ([Op(")")] + tail), 1 + |tokens|) <==> IsList(tokens)
  {
    hide Step, Read;
    var all := [Op("(")] + tokens + ([Op(")")] + tail);
    var inside := Read(Spot(Wanted, 1), tokens);
    forall n | 1 <= n <= 1 + |tokens| ensures Read(START, all[..n]) == Read(Spot(Wanted, 1), tokens[..n - 1]) {
      assert all[..n] == [Op("(")] + tokens[..n - 1];
      ReadInside(tokens[..n - 1]);
    }
    assert tokens[..|tokens|] == tokens;
    assert all[..|tokens| + 2] == all[..|tokens| + 1] + [Op(")")];
    ReadConcat(START, all[..|tokens| + 1], [Op(")")]);
    ReadOne(inside, Op(")"));
    CloseOf(inside);
    if IsList(tokens) {
      ReadDeeper(tokens);
      forall n | 1 <= n <= 1 + |tokens| ensures Read(START, all[..n]).depth > 0 { ListStaysOpen(tokens, n - 1); }
    }
    if ClosesAt(all, 1 + |tokens|) {
      forall n | 0 <= n <= |tokens| ensures Read(Spot(Wanted, 1), tokens[..n]).depth > 0 {
        assert Read(START, all[..n + 1]).depth > 0;
      }
      StaysOpen(tokens);
    }
  }

  lemma CloseOf(at: Spot)
    ensures Step(at, Op(")")) == Spot(Closed, 0) <==> at.depth == 1 && (Ready(at.place) || at.place.Between?)
  {
  }
}
