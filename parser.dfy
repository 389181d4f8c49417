/**
 * The recursive-descent parser (src/parser.py).
 *
 * The parser pulls its tokens one at a time from the lexer. Since the lexer
 * is deterministic and keeps returning EOF once the input is used up, the
 * tokens it would hand out are modelled by a `TokenStream`: the tokens before
 * the end, followed by the EOF token or the lexical error the lexer raises
 * when it is asked for the token after the last one. A parser position is an
 * index into that stream.
 *
 * Each parsing routine is specified by a function from a position to the
 * value it builds and the position after it, or the error it raises; the
 * class `Parser` at the end carries out the same routines by updating its
 * current position, and each method is proved to agree with its function.
 */
module Parsing {
  import opened Errors
  import opened Ast
  import opened Lexing

  /** What a parsing routine returns: the value and the position after it. */
  type Parsed<T> = Result<(T, nat)>

  /** Position `i` holds a token: one before the end, or the EOF token. */
  predicate Ready(ts: TokenStream, i: nat) {
    WellFormedStream(ts) && (i < |ts.tokens| || (i == |ts.tokens| && ts.end.Ok?))
  }

  /** The current token (`token_atual`) at position `i`. */
  function Tok(ts: TokenStream, i: nat): (t: Token)
    requires Ready(ts, i)
    ensures t.kind == EOF <==> i == |ts.tokens|
  {
    if i < |ts.tokens| then ts.tokens[i] else ts.end.value
  }

  /** `_avancar`: the position of the next token, or the lexical error the
      lexer raises when asked for it; at EOF the lexer keeps answering EOF. */
  function Next(ts: TokenStream, i: nat): (r: Result<nat>)
    requires Ready(ts, i)
    ensures r.Ok? ==> Ready(ts, r.value)
    ensures r.Ok? ==> r.value == if Tok(ts, i).kind == EOF then i else i + 1
    ensures r.Err? <==> i + 1 == |ts.tokens| && ts.end.Err?
    ensures r.Err? ==> r.error == ts.end.error
  {
    if i == |ts.tokens| then Ok(i)
    else if i + 1 < |ts.tokens| || ts.end.Ok? then Ok(i + 1)
    else Err(ts.end.error)
  }

  /** A syntax error located at the token it complains about. */
  function SyntaxError(message: string, t: Token): (e: CompilerError)
    ensures e.kind == Syntactic && e.message == message
    ensures e.line == t.line && e.column == t.column
  {
    CompilerError(Syntactic, message, t.line, t.column)
  }

  function ExpectedMessage(k: TokenKind, found: Token): string {
    "Esperado '" + KindValue(k) + "', encontrado '" + found.lexeme + "'"
  }

  /** `_esperar_token`: the current token when it has the expected kind, after
      which the parser advances; otherwise a syntax error at that token. */
  function Expect(ts: TokenStream, i: nat, k: TokenKind): (r: Parsed<Token>)
    requires Ready(ts, i)
    ensures Tok(ts, i).kind != k ==> r == Err(SyntaxError(ExpectedMessage(k, Tok(ts, i)), Tok(ts, i)))
    ensures Tok(ts, i).kind == k ==> (r.Ok? <==> Next(ts, i).Ok?)
    ensures Tok(ts, i).kind == k && r.Err? ==> r.error == ts.end.error
    ensures r.Ok? ==> r.value.0 == Tok(ts, i) && r.value.1 == Next(ts, i).value
    ensures r.Ok? ==> Ready(ts, r.value.1) && (k != EOF ==> i < r.value.1)
  {
    var t := Tok(ts, i);
    if t.kind != k then Err(SyntaxError(ExpectedMessage(k, t), t))
    else
      match Next(ts, i)
      case Err(e) => Err(e)
      case Ok(j) => Ok((t, j))
  }

  // ------------------------------------------------------------------
  // Expressions: ou < e < relational < + - < * / < factor
  // ------------------------------------------------------------------

  predicate IsRelational(k: TokenKind) {
    match k
    case IGUAL | DIFERENTE | MENOR | MENOR_IGUAL | MAIOR | MAIOR_IGUAL => true
    case _ => false
  }

  predicate IsAdditive(k: TokenKind) {
    match k
    case MAIS | MENOS => true
    case _ => false
  }

  predicate IsMultiplicative(k: TokenKind) {
    match k
    case MULTIPLICACAO | DIVISAO => true
    case _ => false
  }

  /** The token kinds a factor can be a single token of. */
  predicate IsLeaf(k: TokenKind) {
    match k
    case NUMERO_INTEIRO | NUMERO_REAL | VERDADEIRO | FALSO | TEXTO | IDENTIFICADOR => true
    case _ => false
  }

  /** The expression a single-token factor stands for: a literal keeps its
      text, a string is wrapped in double quotes again, a name is a variable. */
  function Leaf(t: Token): (e: Expr)
    requires IsLeaf(t.kind)
    ensures t.kind == IDENTIFICADOR <==> e.Var?
    ensures t.kind == IDENTIFICADOR ==> e == Var(t.lexeme)
    ensures t.kind == TEXTO ==> e == Literal("\"" + t.lexeme + "\"")
    ensures t.kind != TEXTO && t.kind != IDENTIFICADOR ==> e == Literal(t.lexeme)
  {
    if t.kind == TEXTO then Literal("\"" + t.lexeme + "\"")
    else if t.kind == IDENTIFICADOR then Var(t.lexeme)
    else Literal(t.lexeme)
  }

  function UnexpectedExpressionMessage(t: Token): string {
    "Expressão inesperada '" + t.lexeme + "'"
  }

  /** `_analisar_expressao`: `e`-operands joined by `ou`, to the left. */
  function Expression(ts: TokenStream, i: nat): (r: Parsed<Expr>)
    requires Ready(ts, i)
    ensures r.Ok? ==> i < r.value.1 && Ready(ts, r.value.1)
    decreases |ts.tokens| - i, 5
  {
    match Conjunction(ts, i)
    case Err(e) => Err(e)
    case Ok((left, j)) => DisjunctionLoop(ts, left, j)
  }

  function DisjunctionLoop(ts: TokenStream, left: Expr, i: nat): (r: Parsed<Expr>)
    requires Ready(ts, i)
    ensures r.Ok? ==> i <= r.value.1 && Ready(ts, r.value.1)
    decreases |ts.tokens| - i, 5
  {
    var t := Tok(ts, i);
    if t.kind != OU then Ok((left, i))
    else
      match Next(ts, i)
      case Err(e) => Err(e)
      case Ok(j) =>
        match Conjunction(ts, j)
        case Err(e) => Err(e)
        case Ok((right, k)) => DisjunctionLoop(ts, Binary(left, t.lexeme, right), k)
  }

  /** `_analisar_expressao_e`: relational operands joined by `e`, to the left. */
  function Conjunction(ts: TokenStream, i: nat): (r: Parsed<Expr>)
    requires Ready(ts, i)
    ensures r.Ok? ==> i < r.value.1 && Ready(ts, r.value.1)
    decreases |ts.tokens| - i, 4
  {
    match Relation(ts, i)
    case Err(e) => Err(e)
    case Ok((left, j)) => ConjunctionLoop(ts, left, j)
  }

  function ConjunctionLoop(ts: TokenStream, left: Expr, i: nat): (r: Parsed<Expr>)
    requires Ready(ts, i)
    ensures r.Ok? ==> i <= r.value.1 && Ready(ts, r.value.1)
    decreases |ts.tokens| - i, 4
  {
    var t := Tok(ts, i);
    if t.kind != E then Ok((left, i))
    else
      match Next(ts, i)
      case Err(e) => Err(e)
      case Ok(j) =>
        match Relation(ts, j)
        case Err(e) => Err(e)
        case Ok((right, k)) => ConjunctionLoop(ts, Binary(left, t.lexeme, right), k)
  }

  /** `_analisar_expressao_relacional`: an arithmetic operand, then at most one
      comparison with a second one. */
  function Relation(ts: TokenStream, i: nat): (r: Parsed<Expr>)
    requires Ready(ts, i)
    ensures r.Ok? ==> i < r.value.1 && Ready(ts, r.value.1)
    decreases |ts.tokens| - i, 3
  {
    match Sum(ts, i)
    case Err(e) => Err(e)
    case Ok((left, j)) =>
      var t := Tok(ts, j);
      if !IsRelational(t.kind) then Ok((left, j))
      else
        match Next(ts, j)
        case Err(e) => Err(e)
        case Ok(k) =>
          match Sum(ts, k)
          case Err(e) => Err(e)
          case Ok((right, m)) => Ok((Binary(left, t.lexeme, right), m))
  }

  /** `_analisar_expressao_aritmetica`: terms joined by `+`/`-`, to the left. */
  function Sum(ts: TokenStream, i: nat): (r: Parsed<Expr>)
    requires Ready(ts, i)
    ensures r.Ok? ==> i < r.value.1 && Ready(ts, r.value.1)
    decreases |ts.tokens| - i, 2
  {
    match Product(ts, i)
    case Err(e) => Err(e)
    case Ok((left, j)) => SumLoop(ts, left, j)
  }

  function SumLoop(ts: TokenStream, left: Expr, i: nat): (r: Parsed<Expr>)
    requires Ready(ts, i)
    ensures r.Ok? ==> i <= r.value.1 && Ready(ts, r.value.1)
    decreases |ts.tokens| - i, 2
  {
    var t := Tok(ts, i);
    if !IsAdditive(t.kind) then Ok((left, i))
    else
      match Next(ts, i)
      case Err(e) => Err(e)
      case Ok(j) =>
        match Product(ts, j)
        case Err(e) => Err(e)
        case Ok((right, k)) => SumLoop(ts, Binary(left, t.lexeme, right), k)
  }

  /** `_analisar_termo`: factors joined by `*`/`/`, to the left. */
  function Product(ts: TokenStream, i: nat): (r: Parsed<Expr>)
    requires Ready(ts, i)
    ensures r.Ok? ==> i < r.value.1 && Ready(ts, r.value.1)
    decreases |ts.tokens| - i, 1
  {
    match Factor(ts, i)
    case Err(e) => Err(e)
    case Ok((left, j)) => ProductLoop(ts, left, j)
  }

  function ProductLoop(ts: TokenStream, left: Expr, i: nat): (r: Parsed<Expr>)
    requires Ready(ts, i)
    ensures r.Ok? ==> i <= r.value.1 && Ready(ts, r.value.1)
    decreases |ts.tokens| - i, 1
  {
    var t := Tok(ts, i);
    if !IsMultiplicative(t.kind) then Ok((left, i))
    else
      match Next(ts, i)
      case Err(e) => Err(e)
      case Ok(j) =>
        match Factor(ts, j)
        case Err(e) => Err(e)
        case Ok((right, k)) => ProductLoop(ts, Binary(left, t.lexeme, right), k)
  }

  /** `_analisar_fator`: a literal or a name, a parenthesised expression, or
      a `-` applied to a factor; any other token is a syntax error. */
  function Factor(ts: TokenStream, i: nat): (r: Parsed<Expr>)
    requires Ready(ts, i)
    ensures r.Ok? ==> i < r.value.1 && Ready(ts, r.value.1)
    decreases |ts.tokens| - i, 0
  {
    var t := Tok(ts, i);
    if IsLeaf(t.kind) then
      match Next(ts, i)
      case Err(e) => Err(e)
      case Ok(j) => Ok((Leaf(t), j))
    else if t.kind == ABRE_PARENTESES then
      match Next(ts, i)
      case Err(e) => Err(e)
      case Ok(j) =>
        match Expression(ts, j)
        case Err(e) => Err(e)
        case Ok((inner, k)) =>
          match Expect(ts, k, FECHA_PARENTESES)
          case Err(e) => Err(e)
          case Ok((_, m)) => Ok((inner, m))
    else if t.kind == MENOS then
      match Next(ts, i)
      case Err(e) => Err(e)
      case Ok(j) =>
        match Factor(ts, j)
        case Err(e) => Err(e)
        case Ok((operand, k)) => Ok((Unary(t.lexeme, operand), k))
    else Err(SyntaxError(UnexpectedExpressionMessage(t), t))
  }

  // ------------------------------------------------------------------
  // Commands
  // ------------------------------------------------------------------

  function UnexpectedCommandMessage(t: Token): string {
    "Comando inesperado '" + t.lexeme + "'"
  }

  /** A command parsed by one of the routines below, as present. */
  function Present(p: Parsed<Cmd>): (r: Parsed<Option<Cmd>>)
    ensures p.Ok? <==> r.Ok?
    ensures p.Ok? ==> r.value == (Some(p.value.0), p.value.1)
    ensures p.Err? ==> r.error == p.error
  {
    match p
    case Err(e) => Err(e)
    case Ok((c, j)) => Ok((Some(c), j))
  }

  /** The kinds of token a command starts with. */
  predicate StartsCommand(k: TokenKind) {
    match k
    case IDENTIFICADOR | SE | ENQUANTO | LEIA | ESCREVA => true
    case _ => false
  }

  /** `_analisar_comando`: the command the current token starts; no command
      (and no move) at `fim`; a syntax error at any other token. */
  function Command(ts: TokenStream, i: nat): (r: Parsed<Option<Cmd>>)
    requires Ready(ts, i)
    ensures r.Ok? ==> Ready(ts, r.value.1)
    ensures r.Ok? && r.value.0.Some? ==> i < r.value.1 && StartsCommand(Tok(ts, i).kind)
    ensures r.Ok? && r.value.0.None? <==> Tok(ts, i).kind == FIM
    ensures r.Ok? && r.value.0.None? ==> r.value.1 == i
    ensures !StartsCommand(Tok(ts, i).kind) && Tok(ts, i).kind != FIM ==>
      r == Err(SyntaxError(UnexpectedCommandMessage(Tok(ts, i)), Tok(ts, i)))
    decreases |ts.tokens| - i, 2
  {
    var t := Tok(ts, i);
    if t.kind == IDENTIFICADOR then Present(AssignCmd(ts, i))
    else if t.kind == SE then Present(IfCmd(ts, i))
    else if t.kind == ENQUANTO then Present(WhileCmd(ts, i))
    else if t.kind == LEIA then Present(ReadCmd(ts, i))
    else if t.kind == ESCREVA then Present(WriteCmd(ts, i))
    else if t.kind != FIM then Err(SyntaxError(UnexpectedCommandMessage(t), t))
    else Ok((None, i))
  }

  /** The loop of `_analisar_comandos` and of the bodies of `se` and
      `enquanto`: commands until a token of `stops`. A command parse that
      yields nothing (at `fim`) ends the block, so that the closing token
      expected after it is then reported missing. */
  function Block(ts: TokenStream, i: nat, stops: set<TokenKind>, acc: seq<Cmd>): (r: Parsed<seq<Cmd>>)
    requires Ready(ts, i)
    ensures r.Ok? ==> i <= r.value.1 && Ready(ts, r.value.1)
    ensures r.Ok? ==> Tok(ts, r.value.1).kind in stops || Tok(ts, r.value.1).kind == FIM
    ensures r.Ok? ==> acc <= r.value.0
    decreases |ts.tokens| - i, 3
  {
    var t := Tok(ts, i);
    if t.kind in stops then Ok((acc, i))
    else
      match Command(ts, i)
      case Err(e) => Err(e)
      case Ok((None, j)) => Ok((acc, j))
      case Ok((Some(c), j)) => Block(ts, j, stops, acc + [c])
  }

  /** One turn of the command loops as the source writes them: the guard
      `token_atual not in stops` and one command parse, whose empty answer is
      skipped without leaving the loop. */
  function BlockStepAsWritten(ts: TokenStream, i: nat, stops: set<TokenKind>, acc: seq<Cmd>): (r: Option<Parsed<seq<Cmd>>>)
    requires Ready(ts, i)
    ensures r.None? <==> Tok(ts, i).kind in stops
  {
    if Tok(ts, i).kind in stops then None
    else
      match Command(ts, i)
      case Err(e) => Some(Err(e))
      case Ok((None, j)) => Some(Ok((acc, j)))
      case Ok((Some(c), j)) => Some(Ok((acc + [c], j)))
  }

  /** `_analisar_atribuicao`: a name, `<-` and an expression. */
  function AssignCmd(ts: TokenStream, i: nat): (r: Parsed<Cmd>)
    requires Ready(ts, i)
    ensures r.Ok? ==> i < r.value.1 && Ready(ts, r.value.1)
    ensures r.Ok? ==> r.value.0.Assign? && r.value.0.target == Tok(ts, i).lexeme
  {
    match Expect(ts, i, IDENTIFICADOR)
    case Err(e) => Err(e)
    case Ok((name, j)) =>
      match Expect(ts, j, ATRIBUICAO)
      case Err(e) => Err(e)
      case Ok((_, k)) =>
        match Expression(ts, k)
        case Err(e) => Err(e)
        case Ok((value, m)) => Ok((Assign(name.lexeme, value), m))
  }

  /** `_analisar_condicional`: `se` condition `entao` commands, an optional
      `senao` part, and `fimse`. */
  function IfCmd(ts: TokenStream, i: nat): (r: Parsed<Cmd>)
    requires Ready(ts, i)
    ensures r.Ok? ==> i < r.value.1 && Ready(ts, r.value.1) && r.value.0.If?
    decreases |ts.tokens| - i, 1
  {
    match Expect(ts, i, SE)
    case Err(e) => Err(e)
    case Ok((_, j)) =>
      match Expression(ts, j)
      case Err(e) => Err(e)
      case Ok((cond, k)) =>
        match Expect(ts, k, ENTAO)
        case Err(e) => Err(e)
        case Ok((_, m)) =>
          match Block(ts, m, {SENAO, FIMSE}, [])
          case Err(e) => Err(e)
          case Ok((thenCmds, n)) =>
            match ElsePart(ts, n)
            case Err(e) => Err(e)
            case Ok((elseCmds, p)) =>
              match Expect(ts, p, FIMSE)
              case Err(e) => Err(e)
              case Ok((_, q)) => Ok((If(cond, thenCmds, elseCmds), q))
  }

  /** The `senao` part of a conditional: its commands up to `fimse`, or none
      when the current token is not `senao`. */
  function ElsePart(ts: TokenStream, i: nat): (r: Parsed<seq<Cmd>>)
    requires Ready(ts, i)
    ensures r.Ok? ==> i <= r.value.1 && Ready(ts, r.value.1)
    ensures Tok(ts, i).kind != SENAO ==> r == Ok(([], i))
    decreases |ts.tokens| - i, 1
  {
    if Tok(ts, i).kind != SENAO then Ok(([], i))
    else
      match Next(ts, i)
      case Err(e) => Err(e)
      case Ok(j) => Block(ts, j, {FIMSE}, [])
  }

  /** `_analisar_repeticao`: `enquanto` condition `faca` commands `fimenquanto`. */
  function WhileCmd(ts: TokenStream, i: nat): (r: Parsed<Cmd>)
    requires Ready(ts, i)
    ensures r.Ok? ==> i < r.value.1 && Ready(ts, r.value.1) && r.value.0.While?
    decreases |ts.tokens| - i, 1
  {
    match Expect(ts, i, ENQUANTO)
    case Err(e) => Err(e)
    case Ok((_, j)) =>
      match Expression(ts, j)
      case Err(e) => Err(e)
      case Ok((cond, k)) =>
        match Expect(ts, k, FACA)
        case Err(e) => Err(e)
        case Ok((_, m)) =>
          match Block(ts, m, {FIMENQUANTO}, [])
          case Err(e) => Err(e)
          case Ok((body, n)) =>
            match Expect(ts, n, FIMENQUANTO)
            case Err(e) => Err(e)
            case Ok((_, p)) => Ok((While(cond, body), p))
  }

  /** `_analisar_entrada`: `leia ( name )`. */
  function ReadCmd(ts: TokenStream, i: nat): (r: Parsed<Cmd>)
    requires Ready(ts, i)
    ensures r.Ok? ==> i + 4 == r.value.1 && Ready(ts, r.value.1)
    ensures r.Ok? ==> r.value.0 == Read(Tok(ts, i + 2).lexeme)
  {
    match Expect(ts, i, LEIA)
    case Err(e) => Err(e)
    case Ok((_, j)) =>
      match Expect(ts, j, ABRE_PARENTESES)
      case Err(e) => Err(e)
      case Ok((_, k)) =>
        match Expect(ts, k, IDENTIFICADOR)
        case Err(e) => Err(e)
        case Ok((name, m)) =>
          match Expect(ts, m, FECHA_PARENTESES)
          case Err(e) => Err(e)
          case Ok((_, n)) => Ok((Read(name.lexeme), n))
  }

  /** `_analisar_saida`: `escreva (` expressions separated by commas `)`. */
  function WriteCmd(ts: TokenStream, i: nat): (r: Parsed<Cmd>)
    requires Ready(ts, i)
    ensures r.Ok? ==> i < r.value.1 && Ready(ts, r.value.1)
    ensures r.Ok? ==> r.value.0.Write? && |r.value.0.exprs| >= 1
  {
    match Expect(ts, i, ESCREVA)
    case Err(e) => Err(e)
    case Ok((_, j)) =>
      match Expect(ts, j, ABRE_PARENTESES)
      case Err(e) => Err(e)
      case Ok((_, k)) =>
        match Expression(ts, k)
        case Err(e) => Err(e)
        case Ok((first, m)) =>
          match Arguments(ts, m, [first])
          case Err(e) => Err(e)
          case Ok((exprs, n)) =>
            match Expect(ts, n, FECHA_PARENTESES)
            case Err(e) => Err(e)
            case Ok((_, p)) => Ok((Write(exprs), p))
  }

  /** The further arguments of `escreva`, each after a comma. */
  function Arguments(ts: TokenStream, i: nat, acc: seq<Expr>): (r: Parsed<seq<Expr>>)
    requires Ready(ts, i)
    ensures r.Ok? ==> i <= r.value.1 && Ready(ts, r.value.1)
    ensures r.Ok? ==> acc <= r.value.0 && Tok(ts, r.value.1).kind != VIRGULA
    decreases |ts.tokens| - i
  {
    if Tok(ts, i).kind != VIRGULA then Ok((acc, i))
    else
      match Next(ts, i)
      case Err(e) => Err(e)
      case Ok(j) =>
        match Expression(ts, j)
        case Err(e) => Err(e)
        case Ok((x, k)) => Arguments(ts, k, acc + [x])
  }

  // ------------------------------------------------------------------
  // Declarations and the whole program
  // ------------------------------------------------------------------

  /** One declaration per name, all with the same type word, in order. */
  function DeclsOf(typ: string, names: seq<string>): (ds: seq<Decl>)
    ensures |ds| == |names|
    ensures forall k :: 0 <= k < |ds| ==> ds[k] == Decl(typ, names[k])
  {
    if names == [] then [] else [Decl(typ, names[0])] + DeclsOf(typ, names[1..])
  }

  /** `_analisar_declaracoes`: declaration lines while the current token is
      a type keyword. */
  function Declarations(ts: TokenStream, i: nat, acc: seq<Decl>): (r: Parsed<seq<Decl>>)
    requires Ready(ts, i)
    ensures r.Ok? ==> i <= r.value.1 && Ready(ts, r.value.1)
    ensures r.Ok? ==> acc <= r.value.0 && !IsTypeKind(Tok(ts, r.value.1).kind)
    decreases |ts.tokens| - i
  {
    var t := Tok(ts, i);
    if !IsTypeKind(t.kind) then Ok((acc, i))
    else
      match DeclarationLine(ts, i)
      case Err(e) => Err(e)
      case Ok((ds, j)) => Declarations(ts, j, acc + ds)
  }

  /** One line `tipo a, b, c;` of declarations. */
  function DeclarationLine(ts: TokenStream, i: nat): (r: Parsed<seq<Decl>>)
    requires Ready(ts, i) && IsTypeKind(Tok(ts, i).kind)
    ensures r.Ok? ==> i < r.value.1 && Ready(ts, r.value.1)
  {
    var t := Tok(ts, i);
    match Next(ts, i)
    case Err(e) => Err(e)
    case Ok(j) =>
      match Expect(ts, j, IDENTIFICADOR)
      case Err(e) => Err(e)
      case Ok((first, k)) =>
        match Names(ts, k, [first.lexeme])
        case Err(e) => Err(e)
        case Ok((names, m)) =>
          match Expect(ts, m, PONTO_E_VIRGULA)
          case Err(e) => Err(e)
          case Ok((_, n)) => Ok((DeclsOf(t.lexeme, names), n))
  }

  /** The further names of a declaration line, each after a comma. */
  function Names(ts: TokenStream, i: nat, acc: seq<string>): (r: Parsed<seq<string>>)
    requires Ready(ts, i)
    ensures r.Ok? ==> i <= r.value.1 && Ready(ts, r.value.1)
    ensures r.Ok? ==> Tok(ts, r.value.1).kind != VIRGULA
    decreases |ts.tokens| - i
  {
    if Tok(ts, i).kind != VIRGULA then Ok((acc, i))
    else
      match Next(ts, i)
      case Err(e) => Err(e)
      case Ok(j) =>
        match Expect(ts, j, IDENTIFICADOR)
        case Err(e) => Err(e)
        case Ok((name, k)) => Names(ts, k, acc + [name.lexeme])
  }

  /** `analisar` after the first token: declarations, `inicio`, commands up
      to `fim`, `fim`, and EOF. */
  function ProgramAt(ts: TokenStream, i: nat): (r: Result<Program>)
    requires Ready(ts, i)
  {
    match Declarations(ts, i, [])
    case Err(e) => Err(e)
    case Ok((decls, j)) =>
      match Expect(ts, j, INICIO)
      case Err(e) => Err(e)
      case Ok((_, k)) =>
        match Block(ts, k, {FIM}, [])
        case Err(e) => Err(e)
        case Ok((cmds, m)) =>
          match Expect(ts, m, FIM)
          case Err(e) => Err(e)
          case Ok((_, n)) =>
            match Expect(ts, n, EOF)
            case Err(e) => Err(e)
            case Ok(_) => Ok(Program(decls, cmds))
  }

  /** A parser built on the stream reads its first token, which may already
      be a lexical error, and then parses the program. */
  function ParseProgram(ts: TokenStream): (r: Result<Program>)
    requires WellFormedStream(ts)
    ensures !Ready(ts, 0) ==> r == Err(ts.end.error)
  {
    if !Ready(ts, 0) then Err(ts.end.error) else ProgramAt(ts, 0)
  }

  // ------------------------------------------------------------------
  // The parser object
  // ------------------------------------------------------------------

  /** A method's answer `r`, with the parser left at `index`, is what the
      routine's function computes. */
  predicate Agrees<T(==)>(r: Result<T>, index: nat, s: Parsed<T>) {
    match s
    case Ok((v, j)) => r == Ok(v) && index == j
    case Err(e) => r == Err(e)
  }

  class Parser {
    const stream: TokenStream
    var index: nat

    ghost predicate Valid()
      reads this
    {
      Ready(stream, index)
    }

    /** The current token, `token_atual`. */
    function Current(): Token
      reads this
      requires Valid()
    {
      Tok(stream, index)
    }

    /** A parser whose first token has been read. */
    constructor(ts: TokenStream)
      requires Ready(ts, 0)
      ensures Valid() && stream == ts && index == 0
    {
      stream := ts;
      index := 0;
    }

    method Advance() returns (r: Outcome)
      requires Valid()
      modifies this
      ensures Next(stream, old(index)).Ok? ==> r == Pass && index == Next(stream, old(index)).value
      ensures Next(stream, old(index)).Err? ==> r == Fail(Next(stream, old(index)).error)
      ensures r.Pass? ==> Valid()
    {
      if index == |stream.tokens| {
        return Pass;
      } else if index + 1 < |stream.tokens| || stream.end.Ok? {
        index := index + 1;
        return Pass;
      }
      return Fail(stream.end.error);
    }

    method ExpectToken(k: TokenKind) returns (r: Result<Token>)
      requires Valid()
      modifies this
      ensures Agrees(r, index, Expect(stream, old(index), k))
      ensures r.Ok? ==> Valid()
    {
      var t := Current();
      if t.kind != k {
        return Err(SyntaxError(ExpectedMessage(k, t), t));
      }
      var a := Advance();
      if a.Fail? {
        return Err(a.error);
      }
      return Ok(t);
    }

    method ParseExpression() returns (r: Result<Expr>)
      requires Valid()
      modifies this
      ensures Agrees(r, index, Expression(stream, old(index)))
      ensures r.Ok? ==> Valid()
      decreases |stream.tokens| - index, 5
    {
      var first := ParseConjunction();
      if first.Err? {
        return first;
      }
      var left := first.value;
      while Current().kind == OU
        invariant Valid() && old(index) < index
        invariant DisjunctionLoop(stream, left, index) == Expression(stream, old(index))
        decreases |stream.tokens| - index
      {
        var op := Current().lexeme;
        var a := Advance();
        if a.Fail? {
          return Err(a.error);
        }
        var right := ParseConjunction();
        if right.Err? {
          return right;
        }
        left := Binary(left, op, right.value);
      }
      return Ok(left);
    }

    method ParseConjunction() returns (r: Result<Expr>)
      requires Valid()
      modifies this
      ensures Agrees(r, index, Conjunction(stream, old(index)))
      ensures r.Ok? ==> Valid()
      decreases |stream.tokens| - index, 4
    {
      var first := ParseRelation();
      if first.Err? {
        return first;
      }
      var left := first.value;
      while Current().kind == E
        invariant Valid() && old(index) < index
        invariant ConjunctionLoop(stream, left, index) == Conjunction(stream, old(index))
        decreases |stream.tokens| - index
      {
        var op := Current().lexeme;
        var a := Advance();
        if a.Fail? {
          return Err(a.error);
        }
        var right := ParseRelation();
        if right.Err? {
          return right;
        }
        left := Binary(left, op, right.value);
      }
      return Ok(left);
    }

    method ParseRelation() returns (r: Result<Expr>)
      requires Valid()
      modifies this
      ensures Agrees(r, index, Relation(stream, old(index)))
      ensures r.Ok? ==> Valid()
      decreases |stream.tokens| - index, 3
    {
      var left := ParseSum();
      if left.Err? {
        return left;
      }
      if IsRelational(Current().kind) {
        var op := Current().lexeme;
        var a := Advance();
        if a.Fail? {
          return Err(a.error);
        }
        var right := ParseSum();
        if right.Err? {
          return right;
        }
        return Ok(Binary(left.value, op, right.value));
      }
      return left;
    }

    method ParseSum() returns (r: Result<Expr>)
      requires Valid()
      modifies this
      ensures Agrees(r, index, Sum(stream, old(index)))
      ensures r.Ok? ==> Valid()
      decreases |stream.tokens| - index, 2
    {
      var first := ParseProduct();
      if first.Err? {
        return first;
      }
      var left := first.value;
      while IsAdditive(Current().kind)
        invariant Valid() && old(index) < index
        invariant SumLoop(stream, left, index) == Sum(stream, old(index))
        decreases |stream.tokens| - index
      {
        var op := Current().lexeme;
        var a := Advance();
        if a.Fail? {
          return Err(a.error);
        }
        var right := ParseProduct();
        if right.Err? {
          return right;
        }
        left := Binary(left, op, right.value);
      }
      return Ok(left);
    }

    method ParseProduct() returns (r: Result<Expr>)
      requires Valid()
      modifies this
      ensures Agrees(r, index, Product(stream, old(index)))
      ensures r.Ok? ==> Valid()
      decreases |stream.tokens| - index, 1
    {
      var first := ParseFactor();
      if first.Err? {
        return first;
      }
      var left := first.value;
      while IsMultiplicative(Current().kind)
        invariant Valid() && old(index) < index
        invariant ProductLoop(stream, left, index) == Product(stream, old(index))
        decreases |stream.tokens| - index
      {
        var op := Current().lexeme;
        var a := Advance();
        if a.Fail? {
          return Err(a.error);
        }
        var right := ParseFactor();
        if right.Err? {
          return right;
        }
        left := Binary(left, op, right.value);
      }
      return Ok(left);
    }

    method ParseFactor() returns (r: Result<Expr>)
      requires Valid()
      modifies this
      ensures Agrees(r, index, Factor(stream, old(index)))
      ensures r.Ok? ==> Valid()
      decreases |stream.tokens| - index, 0
    {
      var t := Current();
      if IsLeaf(t.kind) {
        var a := Advance();
        if a.Fail? {
          return Err(a.error);
        }
        return Ok(Leaf(t));
      }
      if t.kind == ABRE_PARENTESES {
        var a := Advance();
        if a.Fail? {
          return Err(a.error);
        }
        var inner := ParseExpression();
        if inner.Err? {
          return inner;
        }
        var close := ExpectToken(FECHA_PARENTESES);
        if close.Err? {
          return Err(close.error);
        }
        return inner;
      }
      if t.kind == MENOS {
        var a := Advance();
        if a.Fail? {
          return Err(a.error);
        }
        var operand := ParseFactor();
        if operand.Err? {
          return operand;
        }
        return Ok(Unary(t.lexeme, operand.value));
      }
      return Err(SyntaxError(UnexpectedExpressionMessage(t), t));
    }
  
    method ParseCommand() returns (r: Result<Option<Cmd>>)
      requires Valid()
      modifies this
      ensures Agrees(r, index, Command(stream, old(index)))
      ensures r.Ok? ==> Valid()
      decreases |stream.tokens| - index, 2
    {
      var t := Current();
      var c: Result<Cmd>;
      if t.kind == IDENTIFICADOR {
        c := ParseAssign();
      } else if t.kind == SE {
        c := ParseIf();
      } else if t.kind == ENQUANTO {
        c := ParseWhile();
      } else if t.kind == LEIA {
        c := ParseRead();
      } else if t.kind == ESCREVA {
        c := ParseWrite();
      } else if t.kind != FIM {
        return Err(SyntaxError(UnexpectedCommandMessage(t), t));
      } else {
        return Ok(None);
      }
      if c.Err? {
        return Err(c.error);
      }
      return Ok(Some(c.value));
    }

    /** The command loops: commands until a token of `stops`, or until a
        command parse yields nothing. */
    method ParseBlock(stops: set<TokenKind>) returns (r: Result<seq<Cmd>>)
      requires Valid()
      modifies this
      ensures Agrees(r, index, Block(stream, old(index), stops, []))
      ensures r.Ok? ==> Valid()
      decreases |stream.tokens| - index, 3
    {
      var cmds: seq<Cmd> := [];
      while Current().kind !in stops
        invariant Valid() && old(index) <= index
        invariant Block(stream, index, stops, cmds) == Block(stream, old(index), stops, [])
        decreases |stream.tokens| - index
      {
        var c := ParseCommand();
        if c.Err? {
          return Err(c.error);
        }
        match c.value
        case None =>
          return Ok(cmds);
        case Some(cmd) =>
          cmds := cmds + [cmd];
      }
      return Ok(cmds);
    }

    method ParseAssign() returns (r: Result<Cmd>)
      requires Valid()
      modifies this
      ensures Agrees(r, index, AssignCmd(stream, old(index)))
      ensures r.Ok? ==> Valid()
    {
      var name := ExpectToken(IDENTIFICADOR);
      if name.Err? {
        return Err(name.error);
      }
      var arrow := ExpectToken(ATRIBUICAO);
      if arrow.Err? {
        return Err(arrow.error);
      }
      var value := ParseExpression();
      if value.Err? {
        return Err(value.error);
      }
      return Ok(Assign(name.value.lexeme, value.value));
    }

    method ParseIf() returns (r: Result<Cmd>)
      requires Valid()
      modifies this
      ensures Agrees(r, index, IfCmd(stream, old(index)))
      ensures r.Ok? ==> Valid()
      decreases |stream.tokens| - index, 1
    {
      var se := ExpectToken(SE);
      if se.Err? {
        return Err(se.error);
      }
      var cond := ParseExpression();
      if cond.Err? {
        return Err(cond.error);
      }
      var entao := ExpectToken(ENTAO);
      if entao.Err? {
        return Err(entao.error);
      }
      var thenCmds := ParseBlock({SENAO, FIMSE});
      if thenCmds.Err? {
        return Err(thenCmds.error);
      }
      var elseCmds: seq<Cmd> := [];
      if Current().kind == SENAO {
        var a := Advance();
        if a.Fail? {
          return Err(a.error);
        }
        var cmds := ParseBlock({FIMSE});
        if cmds.Err? {
          return Err(cmds.error);
        }
        elseCmds := cmds.value;
      }
      var fimse := ExpectToken(FIMSE);
      if fimse.Err? {
        return Err(fimse.error);
      }
      return Ok(If(cond.value, thenCmds.value, elseCmds));
    }

    method ParseWhile() returns (r: Result<Cmd>)
      requires Valid()
      modifies this
      ensures Agrees(r, index, WhileCmd(stream, old(index)))
      ensures r.Ok? ==> Valid()
      decreases |stream.tokens| - index, 1
    {
      var enquanto := ExpectToken(ENQUANTO);
      if enquanto.Err? {
        return Err(enquanto.error);
      }
      var cond := ParseExpression();
      if cond.Err? {
        return Err(cond.error);
      }
      var faca := ExpectToken(FACA);
      if faca.Err? {
        return Err(faca.error);
      }
      var body := ParseBlock({FIMENQUANTO});
      if body.Err? {
        return Err(body.error);
      }
      var fim := ExpectToken(FIMENQUANTO);
      if fim.Err? {
        return Err(fim.error);
      }
      return Ok(While(cond.value, body.value));
    }

    method ParseRead() returns (r: Result<Cmd>)
      requires Valid()
      modifies this
      ensures Agrees(r, index, ReadCmd(stream, old(index)))
      ensures r.Ok? ==> Valid()
    {
      var leia := ExpectToken(LEIA);
      if leia.Err? {
        return Err(leia.error);
      }
      var open := ExpectToken(ABRE_PARENTESES);
      if open.Err? {
        return Err(open.error);
      }
      var name := ExpectToken(IDENTIFICADOR);
      if name.Err? {
        return Err(name.error);
      }
      var close := ExpectToken(FECHA_PARENTESES);
      if close.Err? {
        return Err(close.error);
      }
      return Ok(Read(name.value.lexeme));
    }

    method ParseWrite() returns (r: Result<Cmd>)
      requires Valid()
      modifies this
      ensures Agrees(r, index, WriteCmd(stream, old(index)))
      ensures r.Ok? ==> Valid()
    {
      var escreva := ExpectToken(ESCREVA);
      if escreva.Err? {
        return Err(escreva.error);
      }
      var open := ExpectToken(ABRE_PARENTESES);
      if open.Err? {
        return Err(open.error);
      }
      var first := ParseExpression();
      if first.Err? {
        return Err(first.error);
      }
      var exprs := [first.value];
      ghost var start := index;
      while Current().kind == VIRGULA
        invariant Valid() && start <= index
        invariant Arguments(stream, index, exprs) == Arguments(stream, start, [first.value])
        decreases |stream.tokens| - index
      {
        var a := Advance();
        if a.Fail? {
          return Err(a.error);
        }
        var x := ParseExpression();
        if x.Err? {
          return Err(x.error);
        }
        exprs := exprs + [x.value];
      }
      var close := ExpectToken(FECHA_PARENTESES);
      if close.Err? {
        return Err(close.error);
      }
      return Ok(Write(exprs));
    }

    method ParseDeclarations() returns (r: Result<seq<Decl>>)
      requires Valid()
      modifies this
      ensures Agrees(r, index, Declarations(stream, old(index), []))
      ensures r.Ok? ==> Valid()
    {
      var decls: seq<Decl> := [];
      while IsTypeKind(Current().kind)
        invariant Valid() && old(index) <= index
        invariant Declarations(stream, index, decls) == Declarations(stream, old(index), [])
        decreases |stream.tokens| - index
      {
        var typ := Current().lexeme;
        ghost var lineStart := index;
        var a := Advance();
        if a.Fail? {
          return Err(a.error);
        }
        var first := ExpectToken(IDENTIFICADOR);
        if first.Err? {
          return Err(first.error);
        }
        var names := [first.value.lexeme];
        ghost var namesStart := index;
        while Current().kind == VIRGULA
          invariant Valid() && namesStart <= index
          invariant Names(stream, index, names) == Names(stream, namesStart, [first.value.lexeme])
          decreases |stream.tokens| - index
        {
          var b := Advance();
          if b.Fail? {
            return Err(b.error);
          }
          var name := ExpectToken(IDENTIFICADOR);
          if name.Err? {
            return Err(name.error);
          }
          names := names + [name.value.lexeme];
        }
        var semi := ExpectToken(PONTO_E_VIRGULA);
        if semi.Err? {
          return Err(semi.error);
        }
        decls := decls + DeclsOf(typ, names);
      }
      return Ok(decls);
    }

    /** `analisar`. */
    method Analyze() returns (r: Result<Program>)
      requires Valid()
      modifies this
      ensures r == ProgramAt(stream, old(index))
    {
      var decls := ParseDeclarations();
      if decls.Err? {
        return Err(decls.error);
      }
      var inicio := ExpectToken(INICIO);
      if inicio.Err? {
        return Err(inicio.error);
      }
      var cmds := ParseBlock({FIM});
      if cmds.Err? {
        return Err(cmds.error);
      }
      var fim := ExpectToken(FIM);
      if fim.Err? {
        return Err(fim.error);
      }
      var eof := ExpectToken(EOF);
      if eof.Err? {
        return Err(eof.error);
      }
      return Ok(Program(decls.value, cmds.value));
    }
  }

  /** Builds a parser on the stream, which reads the first token, and parses. */
  method Parse(ts: TokenStream) returns (r: Result<Program>)
    requires WellFormedStream(ts)
    ensures r == ParseProgram(ts)
  {
    if !Ready(ts, 0) {
      return Err(ts.end.error);
    }
    var p := new Parser(ts);
    r := p.Analyze();
  }
}
