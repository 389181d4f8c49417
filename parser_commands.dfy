/**
 * Properties of the parser's command, declaration and program routines
 * (src/parser.py): what a declaration line yields, how a conditional
 * collects its two lists, what a whole program consists of, and the command
 * loops' behaviour when `fim` appears inside a body.
 */
module ParserCommandLaws {
  import opened Errors
  import opened Ast
  import opened Lexing
  import opened Parsing
  import ParserLaws

  // ------------------------------------------------------------------
  // Declarations
  // ------------------------------------------------------------------

  /** From position `k` the tokens are `, n1 , n2 ...` for the names `rest`,
      followed by a token that is not a comma. */
  predicate CommaNames(ts: TokenStream, k: nat, rest: seq<string>)
    decreases |rest|
  {
    Ready(ts, k) &&
    if rest == [] then Tok(ts, k).kind != VIRGULA
    else
      Tok(ts, k).kind == VIRGULA && Ready(ts, k + 1)
      && Tok(ts, k + 1).kind == IDENTIFICADOR && Tok(ts, k + 1).lexeme == rest[0]
      && CommaNames(ts, k + 2, rest[1..])
  }

  /** One turn of the loop over further names: a comma and a name. */
  lemma NamesStep(ts: TokenStream, k: nat, acc: seq<string>)
    requires Ready(ts, k + 2) && Tok(ts, k).kind == VIRGULA && Tok(ts, k + 1).kind == IDENTIFICADOR
    ensures Names(ts, k, acc) == Names(ts, k + 2, acc + [Tok(ts, k + 1).lexeme])
  {
    assert Next(ts, k) == Ok(k + 1);
    assert Expect(ts, k + 1, IDENTIFICADOR) == Ok((Tok(ts, k + 1), k + 2));
  }

  lemma Regroup(acc: seq<string>, rest: seq<string>)
    requires rest != []
    ensures acc + [rest[0]] + rest[1..] == acc + rest
  {
  }

  /** The loop over further names collects exactly `rest`, in order, and stops
      at the token after the last of them. */
  lemma {:induction false} NamesReadCommaNames(ts: TokenStream, k: nat, acc: seq<string>, rest: seq<string>, m: nat)
    requires CommaNames(ts, k, rest) && m == k + 2 * |rest|
    ensures Ready(ts, m) && Names(ts, k, acc) == Ok((acc + rest, m))
    decreases |rest|
  {
    if rest == [] {
      assert acc + rest == acc;
    } else {
      NamesReadCommaNames(ts, k + 2, acc + [rest[0]], rest[1..], m);
      NamesStep(ts, k, acc);
      Regroup(acc, rest);
    }
  }

  /** The tokens from `i` are a type word, the name `first`, and the further
      names `rest` each after a comma. */
  predicate DeclaredNames(ts: TokenStream, i: nat, first: string, rest: seq<string>) {
    Ready(ts, i + 2) && IsTypeKind(Tok(ts, i).kind)
    && Tok(ts, i + 1).kind == IDENTIFICADOR && Tok(ts, i + 1).lexeme == first
    && CommaNames(ts, i + 2, rest)
  }

  /** What a declaration line of the type word `typ` and the names `names`
      yields once its names are read, at the token `m` after them. */
  function Closed(ts: TokenStream, m: nat, typ: string, names: seq<string>): Parsed<seq<Decl>>
    requires Ready(ts, m)
  {
    match Expect(ts, m, PONTO_E_VIRGULA)
    case Err(e) => Err(e)
    case Ok((_, n)) => Ok((DeclsOf(typ, names), n))
  }

  /** What a declaration line yields once its type word and first name are
      read, with the further names starting at `k`. */
  function AfterFirstName(ts: TokenStream, k: nat, typ: string, first: string): Parsed<seq<Decl>>
    requires Ready(ts, k)
  {
    match Names(ts, k, [first])
    case Err(e) => Err(e)
    case Ok((names, m)) => Closed(ts, m, typ, names)
  }

  /** A type word followed by the name `first`, at `j`, and the token `k`
      after it. */
  lemma DeclarationLineStart(ts: TokenStream, i: nat, first: string, j: nat, k: nat)
    requires j == i + 1 && k == j + 1 && Ready(ts, k) && IsTypeKind(Tok(ts, i).kind)
    requires Tok(ts, j).kind == IDENTIFICADOR && Tok(ts, j).lexeme == first
    ensures DeclarationLine(ts, i) == AfterFirstName(ts, k, Tok(ts, i).lexeme, first)
  {
    assert Next(ts, i) == Ok(j);
    assert Expect(ts, j, IDENTIFICADOR) == Ok((Tok(ts, j), k));
  }

  /** The further names `rest`, read after the first name, up to `m`. */
  lemma AfterFirstNameReadsRest(ts: TokenStream, k: nat, typ: string, first: string, rest: seq<string>, m: nat)
    requires CommaNames(ts, k, rest) && m == k + 2 * |rest|
    ensures Ready(ts, m) && AfterFirstName(ts, k, typ, first) == Closed(ts, m, typ, [first] + rest)
  {
    NamesReadCommaNames(ts, k, [first], rest, m);
  }

  /** The type word and the names of a declaration line are read up to the
      token after the last name. */
  lemma DeclarationLineNames(ts: TokenStream, i: nat, first: string, rest: seq<string>, m: nat)
    requires DeclaredNames(ts, i, first, rest) && m == i + 2 + 2 * |rest|
    ensures Ready(ts, m) && DeclarationLine(ts, i) == Closed(ts, m, Tok(ts, i).lexeme, [first] + rest)
  {
    DeclarationLineStart(ts, i, first, i + 1, i + 2);
    AfterFirstNameReadsRest(ts, i + 2, Tok(ts, i).lexeme, first, rest, m);
  }

  /** A line `tipo a, b, c;` declares every listed name, in order, with the
      line's type word, and the parser resumes after the semicolon. */
  lemma DeclarationLineDeclaresEveryName(ts: TokenStream, i: nat, first: string, rest: seq<string>, m: nat)
    requires DeclaredNames(ts, i, first, rest) && m == i + 2 + 2 * |rest|
    requires Ready(ts, m + 1) && Tok(ts, m).kind == PONTO_E_VIRGULA
    ensures DeclarationLine(ts, i) == Ok((DeclsOf(Tok(ts, i).lexeme, [first] + rest), m + 1))
  {
    DeclarationLineNames(ts, i, first, rest, m);
  }

  /** A declaration line whose names are not followed by `;` is rejected at
      the token found there. */
  lemma DeclarationLineNeedsSemicolon(ts: TokenStream, i: nat, first: string, rest: seq<string>, m: nat)
    requires DeclaredNames(ts, i, first, rest) && m == i + 2 + 2 * |rest|
    requires Ready(ts, m) && Tok(ts, m).kind != PONTO_E_VIRGULA
    ensures DeclarationLine(ts, i) == Err(SyntaxError(ExpectedMessage(PONTO_E_VIRGULA, Tok(ts, m)), Tok(ts, m)))
  {
    DeclarationLineNames(ts, i, first, rest, m);
  }

  // ------------------------------------------------------------------
  // Conditionals
  // ------------------------------------------------------------------

  /** `se c entao ... fimse` with no `senao` part: the commands of the body
      form the then-list and the else-list is empty. */
  lemma IfWithoutElse(ts: TokenStream, i: nat, cond: Expr, k: nat, thenCmds: seq<Cmd>, n: nat)
    requires Ready(ts, i + 1) && Tok(ts, i).kind == SE && Expression(ts, i + 1) == Ok((cond, k))
    requires Ready(ts, k + 1) && Tok(ts, k).kind == ENTAO
    requires Block(ts, k + 1, {SENAO, FIMSE}, []) == Ok((thenCmds, n))
    requires Ready(ts, n + 1) && Tok(ts, n).kind == FIMSE
    ensures IfCmd(ts, i) == Ok((If(cond, thenCmds, []), n + 1))
  {
  }

  /** `se c entao ... senao ... fimse`: the commands before `senao` form the
      then-list and those after it the else-list. */
  lemma IfWithElse(ts: TokenStream, i: nat, cond: Expr, k: nat, thenCmds: seq<Cmd>, n: nat, elseCmds: seq<Cmd>, p: nat)
    requires Ready(ts, i + 1) && Tok(ts, i).kind == SE && Expression(ts, i + 1) == Ok((cond, k))
    requires Ready(ts, k + 1) && Tok(ts, k).kind == ENTAO
    requires Block(ts, k + 1, {SENAO, FIMSE}, []) == Ok((thenCmds, n))
    requires Ready(ts, n + 1) && Tok(ts, n).kind == SENAO
    requires Block(ts, n + 1, {FIMSE}, []) == Ok((elseCmds, p))
    requires Ready(ts, p + 1) && Tok(ts, p).kind == FIMSE
    ensures IfCmd(ts, i) == Ok((If(cond, thenCmds, elseCmds), p + 1))
  {
  }

  // ------------------------------------------------------------------
  // `fim` inside a body
  // ------------------------------------------------------------------

  /** The command loop as the source writes it, run for at most `fuel` turns:
      the list it ends with, or None while it is still running. */
  function RunAsWritten(ts: TokenStream, i: nat, stops: set<TokenKind>, acc: seq<Cmd>, fuel: nat): (r: Option<Parsed<seq<Cmd>>>)
    requires Ready(ts, i)
    ensures r.Some? && r.value.Ok? ==> Ready(ts, r.value.value.1) && Tok(ts, r.value.value.1).kind in stops
    decreases fuel
  {
    if fuel == 0 then None
    else
      match BlockStepAsWritten(ts, i, stops, acc)
      case None => Some(Ok((acc, i)))
      case Some(Err(e)) => Some(Err(e))
      case Some(Ok((acc', j))) => RunAsWritten(ts, j, stops, acc', fuel - 1)
  }

  /** As written, a body loop whose stop tokens do not include `fim` never
      ends once it meets `fim`: the command parse there yields nothing and
      does not move, so the loop is back where it started, however many
      turns it is given. */
  lemma {:induction false} AsWrittenLoopNeverEndsAtFim(ts: TokenStream, i: nat, stops: set<TokenKind>, acc: seq<Cmd>, fuel: nat)
    requires Ready(ts, i) && Tok(ts, i).kind == FIM && FIM !in stops
    ensures RunAsWritten(ts, i, stops, acc, fuel) == None
    decreases fuel
  {
    if fuel > 0 {
      assert BlockStepAsWritten(ts, i, stops, acc) == Some(Ok((acc, i)));
      AsWrittenLoopNeverEndsAtFim(ts, i, stops, acc, fuel - 1);
    }
  }

  /** The corrected loop stops at `fim` with the commands gathered so far. */
  lemma BlockStopsAtFim(ts: TokenStream, i: nat, stops: set<TokenKind>, acc: seq<Cmd>)
    requires Ready(ts, i) && Tok(ts, i).kind == FIM
    ensures Block(ts, i, stops, acc) == Ok((acc, i))
  {
  }

  /** With the corrected loop, a conditional whose body runs into `fim` is
      rejected with the message that `fimse` was expected there. */
  lemma IfBodyAtFimIsReported(ts: TokenStream, i: nat, cond: Expr, k: nat, thenCmds: seq<Cmd>, n: nat)
    requires Ready(ts, i + 1) && Tok(ts, i).kind == SE && Expression(ts, i + 1) == Ok((cond, k))
    requires Ready(ts, k + 1) && Tok(ts, k).kind == ENTAO
    requires Block(ts, k + 1, {SENAO, FIMSE}, []) == Ok((thenCmds, n))
    requires Tok(ts, n).kind == FIM
    ensures IfCmd(ts, i) == Err(SyntaxError(ExpectedMessage(FIMSE, Tok(ts, n)), Tok(ts, n)))
  {
  }

  /** With the corrected loop, a loop body that runs into `fim` is rejected
      with the message that `fimenquanto` was expected there. */
  lemma WhileBodyAtFimIsReported(ts: TokenStream, i: nat, cond: Expr, k: nat, body: seq<Cmd>, n: nat)
    requires Ready(ts, i + 1) && Tok(ts, i).kind == ENQUANTO && Expression(ts, i + 1) == Ok((cond, k))
    requires Ready(ts, k + 1) && Tok(ts, k).kind == FACA
    requires Block(ts, k + 1, {FIMENQUANTO}, []) == Ok((body, n))
    requires Tok(ts, n).kind == FIM
    ensures WhileCmd(ts, i) == Err(SyntaxError(ExpectedMessage(FIMENQUANTO, Tok(ts, n)), Tok(ts, n)))
  {
  }

  /** The tokens of `inicio se verdadeiro entao fim`. */
  function UnclosedIf(): (ts: TokenStream)
    ensures WellFormedStream(ts) && |ts.tokens| == 5
  {
    TokenStream(
      [Token(INICIO, "inicio", 1, 1), Token(SE, "se", 2, 5), Token(VERDADEIRO, "verdadeiro", 2, 8),
       Token(ENTAO, "entao", 2, 19), Token(FIM, "fim", 3, 1)],
      Ok(Token(EOF, "EOF", 3, 4)))
  }

  /** On `inicio se verdadeiro entao fim` the source's loop over the body of
      the conditional, entered after `entao`, never ends. */
  lemma UnclosedIfHangsAsWritten(fuel: nat)
    ensures RunAsWritten(UnclosedIf(), 4, {SENAO, FIMSE}, [], fuel) == None
  {
    AsWrittenLoopNeverEndsAtFim(UnclosedIf(), 4, {SENAO, FIMSE}, [], fuel);
  }

  /** The condition `verdadeiro` of the example. */
  lemma UnclosedIfCondition()
    ensures Expression(UnclosedIf(), 2) == Ok((Literal("verdadeiro"), 3))
  {
    var ts := UnclosedIf();
    ParserLaws.LeafFactor(ts, 2);
    ParserLaws.FactorIsExpression(ts, 2, Literal("verdadeiro"), 3);
  }

  /** The error the corrected parser reports on the example: `fimse`
      expected at `fim`. */
  function UnclosedIfError(): CompilerError {
    var t := Tok(UnclosedIf(), 4);
    SyntaxError(ExpectedMessage(FIMSE, t), t)
  }

  /** The conditional of the example is rejected at `fim`. */
  lemma UnclosedIfCommand()
    ensures IfCmd(UnclosedIf(), 1) == Err(UnclosedIfError())
  {
    var ts := UnclosedIf();
    UnclosedIfCondition();
    BlockStopsAtFim(ts, 4, {SENAO, FIMSE}, []);
    IfBodyAtFimIsReported(ts, 1, Literal("verdadeiro"), 3, [], 4);
  }

  /** ... and so is the program's body that holds it. */
  lemma UnclosedIfBody()
    ensures Block(UnclosedIf(), 1, {FIM}, []) == Err(UnclosedIfError())
  {
    UnclosedIfCommand();
    assert Command(UnclosedIf(), 1) == Err(UnclosedIfError());
  }

  /** The corrected parser rejects the example at `fim`, expecting `fimse`. */
  lemma UnclosedIfIsRejected()
    ensures var fim := Token(FIM, "fim", 3, 1);
      ParseProgram(UnclosedIf()) == Err(SyntaxError(ExpectedMessage(FIMSE, fim), fim))
  {
    var ts := UnclosedIf();
    UnclosedIfBody();
    assert Declarations(ts, 0, []) == Ok(([], 0));
    assert Expect(ts, 0, INICIO) == Ok((Tok(ts, 0), 1));
  }

  // ------------------------------------------------------------------
  // The whole program
  // ------------------------------------------------------------------

  /** What `analisar` does after `inicio`: the commands up to `fim`, `fim`,
      and EOF. */
  function ProgramBody(ts: TokenStream, k: nat, decls: seq<Decl>): (r: Result<Program>)
    requires Ready(ts, k)
    ensures r.Ok? ==> r.value.decls == decls
    ensures r.Ok? ==> ts.end.Ok? && |ts.tokens| > 0 && ts.tokens[|ts.tokens| - 1].kind == FIM
  {
    match Block(ts, k, {FIM}, [])
    case Err(e) => Err(e)
    case Ok((cmds, m)) =>
      match Expect(ts, m, FIM)
      case Err(e) => Err(e)
      case Ok((_, n)) =>
        match Expect(ts, n, EOF)
        case Err(e) => Err(e)
        case Ok(_) => Ok(Program(decls, cmds))
  }

  /** The declarations come first, and `inicio` must follow them. */
  lemma ProgramStartsWithDeclarations(ts: TokenStream, i: nat, decls: seq<Decl>, j: nat)
    requires Ready(ts, i) && Declarations(ts, i, []) == Ok((decls, j))
    ensures ProgramAt(ts, i).Ok? ==> Tok(ts, j).kind == INICIO && Ready(ts, j + 1)
    ensures Tok(ts, j).kind == INICIO && Ready(ts, j + 1) ==> ProgramAt(ts, i) == ProgramBody(ts, j + 1, decls)
    ensures Tok(ts, j).kind != INICIO ==>
      ProgramAt(ts, i) == Err(SyntaxError(ExpectedMessage(INICIO, Tok(ts, j)), Tok(ts, j)))
  {
  }

  /** After `inicio`, the commands up to `fim` make the program exactly when
      that `fim` is the last token before EOF. */
  lemma ProgramBodyEndsAtLastFim(ts: TokenStream, k: nat, decls: seq<Decl>, cmds: seq<Cmd>, m: nat)
    requires Ready(ts, k) && Block(ts, k, {FIM}, []) == Ok((cmds, m))
    ensures ProgramBody(ts, k, decls).Ok? <==> m + 1 == |ts.tokens| && ts.end.Ok?
    ensures ProgramBody(ts, k, decls).Ok? ==> ProgramBody(ts, k, decls) == Ok(Program(decls, cmds))
  {
    assert Tok(ts, m).kind == FIM;
  }

  /** A program that parses consists of the declarations read first, and
      its last token before EOF is `fim`. */
  lemma ParsedProgramEndsWithFim(ts: TokenStream, i: nat, decls: seq<Decl>, j: nat)
    requires Ready(ts, i) && Declarations(ts, i, []) == Ok((decls, j)) && ProgramAt(ts, i).Ok?
    ensures ProgramAt(ts, i).value.decls == decls
    ensures ts.end.Ok? && |ts.tokens| > 0 && ts.tokens[|ts.tokens| - 1].kind == FIM
  {
    ProgramStartsWithDeclarations(ts, i, decls, j);
  }

  /** Conversely, declarations, `inicio`, commands up to `fim`, and `fim` as
      the last token before EOF make a program of those declarations and
      commands. */
  lemma ProgramOfParts(ts: TokenStream, i: nat, decls: seq<Decl>, j: nat, cmds: seq<Cmd>, m: nat)
    requires Ready(ts, i) && Declarations(ts, i, []) == Ok((decls, j))
    requires Ready(ts, j + 1) && Tok(ts, j).kind == INICIO
    requires Block(ts, j + 1, {FIM}, []) == Ok((cmds, m))
    requires m + 1 == |ts.tokens| && ts.end.Ok?
    ensures ProgramAt(ts, i) == Ok(Program(decls, cmds))
  {
    ProgramStartsWithDeclarations(ts, i, decls, j);
    ProgramBodyEndsAtLastFim(ts, j + 1, decls, cmds, m);
  }
}
