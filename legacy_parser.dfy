/**
 * The expression part of programa.py's parser: `parse_fator` and the four
 * left-associative levels above it (`parse_expressao_multiplicativa`,
 * `_aditiva`, `_comparativa` and `_logica`).
 *
 * As for the current parser, the tokens the lazy lexer would hand out are a
 * `Stream`: the tokens before the end, then the EOF token or the lexical
 * error raised when the token after the last one is asked for. Each routine
 * is a function from a position to the node and the position after it, or
 * the error raised; the class `LegacyParser` carries the routines out on its
 * current position and is proved to agree with them.
 */
module LegacyParsing {
  import opened Chars
  import opened Errors
  import opened LegacyAst

  datatype Stream = Stream(tokens: seq<Token>, end: Result<Token>)

  type Parsed<T> = Result<(T, nat)>

  /** What the legacy lexer produces: no EOF before the end, the EOF token at
      the end, integer lexemes of digits and real lexemes with one dot. */
  predicate LexemeFits(t: Token) {
    (t.kind == NUMERO_INTEIRO ==> |t.value| > 0 && AllDigits(t.value))
    && (t.kind == NUMERO_REAL ==> RealLexeme(t.value))
  }

  predicate WellFormed(ts: Stream) {
    (forall k :: 0 <= k < |ts.tokens| ==> ts.tokens[k].kind != EOF && LexemeFits(ts.tokens[k]))
    && (ts.end.Ok? ==> ts.end.value.kind == EOF)
  }

  /** Position `i` holds a token. */
  predicate Ready(ts: Stream, i: nat) {
    WellFormed(ts) && (i < |ts.tokens| || (i == |ts.tokens| && ts.end.Ok?))
  }

  /** `token_atual` at position `i`. */
  function Tok(ts: Stream, i: nat): (t: Token)
    requires Ready(ts, i)
    ensures t.kind == EOF <==> i == |ts.tokens|
    ensures LexemeFits(t)
  {
    if i < |ts.tokens| then ts.tokens[i] else ts.end.value
  }

  /** Asking the lexer for the next token: the next position, or the lexical
      error it raises; at EOF it keeps answering EOF. */
  function Next(ts: Stream, i: nat): (r: Result<nat>)
    requires Ready(ts, i)
    ensures r.Ok? ==> Ready(ts, r.value)
    ensures r.Ok? ==> r.value == if Tok(ts, i).kind == EOF then i else i + 1
    ensures r.Err? <==> i + 1 == |ts.tokens| && ts.end.Err?
  {
    if i == |ts.tokens| then Ok(i)
    else if i + 1 < |ts.tokens| || ts.end.Ok? then Ok(i + 1)
    else Err(ts.end.error)
  }

  function SyntaxError(message: string, t: Token): (e: CompilerError)
    ensures e.kind == Syntactic && e.line == t.line && e.column == t.column
  {
    CompilerError(Syntactic, message, t.line, t.column)
  }

  function ExpectedMessage(k: Kind, t: Token): string {
    "Esperado " + KindName(k) + ", mas encontrou " + KindName(t.kind) + " em '" + t.value + "'"
  }

  /** `_consumir_token`: advance past a token of the expected kind, or raise
      a syntax error at the current token. */
  function Consume(ts: Stream, i: nat, k: Kind): (r: Result<nat>)
    requires Ready(ts, i)
    ensures Tok(ts, i).kind != k ==> r == Err(SyntaxError(ExpectedMessage(k, Tok(ts, i)), Tok(ts, i)))
    ensures Tok(ts, i).kind == k ==> r == Next(ts, i)
  {
    if Tok(ts, i).kind != k then Err(SyntaxError(ExpectedMessage(k, Tok(ts, i)), Tok(ts, i)))
    else Next(ts, i)
  }

  /** `int(valor)` or `float(valor)` of a number token. */
  function LiteralNumber(t: Token): (n: Number)
    requires LexemeFits(t) && (t.kind == NUMERO_INTEIRO || t.kind == NUMERO_REAL)
    ensures t.kind == NUMERO_INTEIRO ==> n.IntVal?
    ensures t.kind == NUMERO_REAL ==> n.FloatVal?
  {
    if t.kind == NUMERO_REAL then FloatVal(RealLexemeValue(t.value)) else IntVal(DecimalValue(t.value))
  }

  /** What `-` makes of the factor after it: a literal is negated in place,
      anything else becomes `0 - factor`, with a `-` token at the place of
      the minus sign. */
  function Negated(f: Node, minus: Token): Node {
    if f.NumeroLiteral? then NumeroLiteral(Negate(f.number))
    else Binario(NumeroLiteral(IntVal(0)), Token(MENOS, "-", minus.line, minus.column), f)
  }

  function UnexpectedFactorMessage(t: Token): string {
    "Fator inesperado em '" + t.value + "'"
  }

  /** The operators each level joins, from `*`/`/` (1) up to `e`/`ou` (4). */
  predicate LevelOperator(level: nat, k: Kind) {
    if level == 1 then k == MULTIPLICACAO || k == DIVISAO
    else if level == 2 then k == MAIS || k == MENOS
    else if level == 3 then k == IGUAL || k == DIFERENTE || k == MAIOR || k == MENOR || k == MAIOR_IGUAL || k == MENOR_IGUAL
    else k == E || k == OU
  }

  /** `parse_expressao_ou_simples`, that is `parse_expressao_logica`. */
  function Expression(ts: Stream, i: nat): (r: Parsed<Node>)
    requires Ready(ts, i)
    ensures r.Ok? ==> i < r.value.1 && Ready(ts, r.value.1)
    decreases |ts.tokens| - i, 5, 0
  {
    Level(ts, i, 4)
  }

  /** A level: operands of the level below joined by this level's
      operators, to the left. */
  function Level(ts: Stream, i: nat, level: nat): (r: Parsed<Node>)
    requires Ready(ts, i) && 1 <= level <= 4
    ensures r.Ok? ==> i < r.value.1 && Ready(ts, r.value.1)
    decreases |ts.tokens| - i, level, 1
  {
    match (if level == 1 then Factor(ts, i) else Level(ts, i, level - 1))
    case Err(e) => Err(e)
    case Ok((left, j)) => LevelLoop(ts, left, j, level)
  }

  function LevelLoop(ts: Stream, left: Node, i: nat, level: nat): (r: Parsed<Node>)
    requires Ready(ts, i) && 1 <= level <= 4
    ensures r.Ok? ==> i <= r.value.1 && Ready(ts, r.value.1)
    decreases |ts.tokens| - i, level, 0
  {
    var t := Tok(ts, i);
    if !LevelOperator(level, t.kind) then Ok((left, i))
    else
      match Next(ts, i)
      case Err(e) => Err(e)
      case Ok(j) =>
        match (if level == 1 then Factor(ts, j) else Level(ts, j, level - 1))
        case Err(e) => Err(e)
        case Ok((right, k)) => LevelLoop(ts, Binario(left, t, right), k, level)
  }

  /** `parse_fator`. */
  function Factor(ts: Stream, i: nat): (r: Parsed<Node>)
    requires Ready(ts, i)
    ensures r.Ok? ==> i < r.value.1 && Ready(ts, r.value.1)
    decreases |ts.tokens| - i, 0, 0
  {
    var t := Tok(ts, i);
    if t.kind == MENOS then
      match Next(ts, i)
      case Err(e) => Err(e)
      case Ok(j) =>
        match Factor(ts, j)
        case Err(e) => Err(e)
        case Ok((f, k)) => Ok((Negated(f, t), k))
    else if t.kind == NUMERO_INTEIRO || t.kind == NUMERO_REAL then
      match Next(ts, i)
      case Err(e) => Err(e)
      case Ok(j) => Ok((NumeroLiteral(LiteralNumber(t)), j))
    else if t.kind == TEXTO then
      match Next(ts, i)
      case Err(e) => Err(e)
      case Ok(j) => Ok((StringLiteral(t.value), j))
    else if t.kind == IDENTIFICADOR then
      match Next(ts, i)
      case Err(e) => Err(e)
      case Ok(j) => Ok((Identificador(t.value), j))
    else if t.kind == ABRE_PARENTESES then
      match Next(ts, i)
      case Err(e) => Err(e)
      case Ok(j) =>
        match Expression(ts, j)
        case Err(e) => Err(e)
        case Ok((inner, k)) =>
          match Consume(ts, k, FECHA_PARENTESES)
          case Err(e) => Err(e)
          case Ok(m) => Ok((inner, m))
    else if t.kind == VERDADEIRO || t.kind == FALSO then
      match Next(ts, i)
      case Err(e) => Err(e)
      case Ok(j) => Ok((NumeroLiteral(BoolVal(t.kind == VERDADEIRO)), j))
    else Err(SyntaxError(UnexpectedFactorMessage(t), t))
  }

  // ---------------------------------------------------------------------------
  // What a factor means

  /** The number an arithmetic tree computes, when it is made of literals,
      `+`, `-`, `*` and `/` by a non-zero divisor. */
  function Eval(n: Node): Option<real> {
    match n
    case NumeroLiteral(v) => Some(Magnitude(v))
    case Binario(l, op, r) =>
      var a := Eval(l);
      var b := Eval(r);
      if a.Some? && b.Some? then Apply(op.kind, a.value, b.value) else None
    case _ => None
  }

  /** One arithmetic operator on two numbers. */
  function Apply(k: Kind, a: real, b: real): Option<real> {
    if k == MAIS then Some(a + b)
    else if k == MENOS then Some(a - b)
    else if k == MULTIPLICACAO then Some(a * b)
    else if k == DIVISAO && b != 0.0 then Some(a / b)
    else None
  }

  /** `-` before a factor: the factor is folded into a literal exactly when
      it is a literal, and either way the node computes `0 - factor`. */
  lemma NegatedMeaning(f: Node, minus: Token)
    ensures Negated(f, minus).NumeroLiteral? <==> f.NumeroLiteral?
    ensures Eval(Negated(f, minus)).Some? <==> Eval(f).Some?
    ensures Eval(f).Some? ==> Eval(Negated(f, minus)).value == 0.0 - Eval(f).value
  {
    if f.NumeroLiteral? {
      NegateIsZeroMinus(f.number);
    } else {
      var zero := NumeroLiteral(IntVal(0));
      var op := Token(MENOS, "-", minus.line, minus.column);
      assert Negated(f, minus) == Binario(zero, op, f);
      assert Eval(zero) == Some(0.0);
    }
  }

  /** A minus sign is parsed as the factor after it, negated. */
  lemma MinusFactor(ts: Stream, i: nat, j: nat)
    requires Ready(ts, i) && Tok(ts, i).kind == MENOS && Next(ts, i) == Ok(j)
    ensures Factor(ts, j).Err? ==> Factor(ts, i) == Factor(ts, j)
    ensures Factor(ts, j).Ok? ==> Factor(ts, i) == Ok((Negated(Factor(ts, j).value.0, Tok(ts, i)), Factor(ts, j).value.1))
  {
  }

  /** `-x` on a name is `0 - x`. */
  lemma MinusName(ts: Stream, i: nat, j: nat, k: nat)
    requires Ready(ts, i) && Tok(ts, i).kind == MENOS && Next(ts, i) == Ok(j)
    requires Tok(ts, j).kind == IDENTIFICADOR && Next(ts, j) == Ok(k)
    ensures Factor(ts, i) == Ok((Binario(NumeroLiteral(IntVal(0)), Token(MENOS, "-", Tok(ts, i).line, Tok(ts, i).column), Identificador(Tok(ts, j).value)), k))
  {
    assert Factor(ts, j) == Ok((Identificador(Tok(ts, j).value), k));
  }

  /** A parenthesised expression is the expression itself: no node records
      the parentheses. */
  lemma ParenthesesAddNothing(ts: Stream, i: nat, j: nat)
    requires Ready(ts, i) && Tok(ts, i).kind == ABRE_PARENTESES && Next(ts, i) == Ok(j)
    requires Expression(ts, j).Ok?
    requires Tok(ts, Expression(ts, j).value.1).kind == FECHA_PARENTESES
    requires Next(ts, Expression(ts, j).value.1).Ok?
    ensures Factor(ts, i).Ok? && Factor(ts, i).value.0 == Expression(ts, j).value.0
  {
  }

  /** A level ends at the first token that is not one of its operators. */
  lemma {:induction false} LevelStopsAtOther(ts: Stream, left: Node, i: nat, level: nat)
    requires Ready(ts, i) && 1 <= level <= 4
    requires LevelLoop(ts, left, i, level).Ok?
    ensures !LevelOperator(level, Tok(ts, LevelLoop(ts, left, i, level).value.1).kind)
    decreases |ts.tokens| - i
  {
    var t := Tok(ts, i);
    if LevelOperator(level, t.kind) {
      var j := Next(ts, i).value;
      var operand := if level == 1 then Factor(ts, j) else Level(ts, j, level - 1);
      var k := operand.value.1;
      LevelStopsAtOther(ts, Binario(left, t, operand.value.0), k, level);
    }
  }

  // ---------------------------------------------------------------------------
  // The parser object

  /** A method's answer `r`, with the parser left at `index`, is what the
      routine's function computes. */
  predicate Agrees<T(==)>(r: Result<T>, index: nat, s: Parsed<T>) {
    match s
    case Ok((v, j)) => r == Ok(v) && index == j
    case Err(e) => r == Err(e)
  }

  /** programa.py's `Parser`, with the lexer's tokens as its stream. */
  class LegacyParser {
    const stream: Stream
    var index: nat

    ghost predicate Valid()
      reads this
    {
      Ready(stream, index)
    }

    function Current(): Token
      reads this
      requires Valid()
    {
      Tok(stream, index)
    }

    constructor(ts: Stream)
      requires Ready(ts, 0)
      ensures Valid() && stream == ts && index == 0
    {
      stream := ts;
      index := 0;
    }

    method Advance() returns (r: Outcome)
      requires Valid()
      modifies this
      ensures Next(stream, old(index)).Ok? ==> r == Pass && index == Next(stream, old(index)).value
      ensures Next(stream, old(index)).Err? ==> r == Fail(Next(stream, old(index)).error)
      ensures r.Pass? ==> Valid()
    {
      if index == |stream.tokens| {
        return Pass;
      } else if index + 1 < |stream.tokens| || stream.end.Ok? {
        index := index + 1;
        return Pass;
      }
      return Fail(stream.end.error);
    }

    /** `_consumir_token`. */
    method ConsumeToken(k: Kind) returns (r: Outcome)
      requires Valid()
      modifies this
      ensures Consume(stream, old(index), k).Ok? ==> r == Pass && index == Consume(stream, old(index), k).value
      ensures Consume(stream, old(index), k).Err? ==> r == Fail(Consume(stream, old(index), k).error)
      ensures r.Pass? ==> Valid()
    {
      var t := Current();
      if t.kind != k {
        return Fail(SyntaxError(ExpectedMessage(k, t), t));
      }
      r := Advance();
    }

    /** `parse_expressao_ou_simples`. */
    method ParseExpression() returns (r: Result<Node>)
      requires Valid()
      modifies this
      ensures Agrees(r, index, Expression(stream, old(index)))
      ensures r.Ok? ==> Valid()
      decreases |stream.tokens| - index, 5, 0
    {
      r := ParseLevel(4);
    }

    /** The operand of a level: a factor at level 1, the level below
        otherwise. */
    method ParseOperand(level: nat) returns (r: Result<Node>)
      requires Valid() && 1 <= level <= 4
      modifies this
      ensures Agrees(r, index, if level == 1 then Factor(stream, old(index)) else Level(stream, old(index), level - 1))
      ensures r.Ok? ==> Valid()
      decreases |stream.tokens| - index, level, 0, 1
    {
      if level == 1 {
        r := ParseFactor();
      } else {
        r := ParseLevel(level - 1);
      }
    }

    /** `parse_expressao_logica` (4), `_comparativa` (3), `_aditiva` (2) and
        `_multiplicativa` (1). */
    method ParseLevel(level: nat) returns (r: Result<Node>)
      requires Valid() && 1 <= level <= 4
      modifies this
      ensures Agrees(r, index, Level(stream, old(index), level))
      ensures r.Ok? ==> Valid()
      decreases |stream.tokens| - index, level, 1
    {
      var first := ParseOperand(level);
      if first.Err? {
        return first;
      }
      var left := first.value;
      while LevelOperator(level, Current().kind)
        invariant Valid() && old(index) < index
        invariant LevelLoop(stream, left, index, level) == Level(stream, old(index), level)
        decreases |stream.tokens| - index
      {
        var op := Current();
        var a := Advance();
        if a.Fail? {
          return Err(a.error);
        }
        var right := ParseOperand(level);
        if right.Err? {
          return right;
        }
        left := Binario(left, op, right.value);
      }
      return Ok(left);
    }

    /** `parse_fator`. */
    method ParseFactor() returns (r: Result<Node>)
      requires Valid()
      modifies this
      ensures Agrees(r, index, Factor(stream, old(index)))
      ensures r.Ok? ==> Valid()
      decreases |stream.tokens| - index, 0, 0
    {
      var t := Current();
      if t.kind == MENOS {
        var a := ConsumeToken(MENOS);
        if a.Fail? {
          return Err(a.error);
        }
        var f := ParseFactor();
        if f.Err? {
          return f;
        }
        return Ok(Negated(f.value, t));
      }
      if t.kind == NUMERO_INTEIRO || t.kind == NUMERO_REAL {
        var a := ConsumeToken(t.kind);
        if a.Fail? {
          return Err(a.error);
        }
        return Ok(NumeroLiteral(LiteralNumber(t)));
      }
      if t.kind == TEXTO {
        var a := ConsumeToken(t.kind);
        if a.Fail? {
          return Err(a.error);
        }
        return Ok(StringLiteral(t.value));
      }
      if t.kind == IDENTIFICADOR {
        var a := ConsumeToken(IDENTIFICADOR);
        if a.Fail? {
          return Err(a.error);
        }
        return Ok(Identificador(t.value));
      }
      if t.kind == ABRE_PARENTESES {
        var a := ConsumeToken(ABRE_PARENTESES);
        if a.Fail? {
          return Err(a.error);
        }
        var inner := ParseExpression();
        if inner.Err? {
          return inner;
        }
        var close := ConsumeToken(FECHA_PARENTESES);
        if close.Fail? {
          return Err(close.error);
        }
        return inner;
      }
      if t.kind == VERDADEIRO || t.kind == FALSO {
        var a := ConsumeToken(t.kind);
        if a.Fail? {
          return Err(a.error);
        }
        return Ok(NumeroLiteral(BoolVal(t.kind == VERDADEIRO)));
      }
      return Err(SyntaxError(UnexpectedFactorMessage(t), t));
    }
  }
}
