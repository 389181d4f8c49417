/**
 * Properties of the parser's expression ladder (src/parser.py): how each
 * precedence level builds its tree, and a round trip through a printer that
 * puts every binary node in parentheses.
 */
module ParserLaws {
  import opened Errors
  import opened Ast
  import opened Lexing
  import opened Parsing

  /** A parse that built `e` and stopped at `j`. */
  function Built(e: Expr, j: nat): Parsed<Expr> {
    Ok((e, j))
  }

  // ------------------------------------------------------------------
  // Properties of the expression ladder
  // ------------------------------------------------------------------

  /** A token no level of the ladder takes as an operator. */
  predicate NotOperator(k: TokenKind) {
    match k
    case IGUAL | DIFERENTE | MENOR | MENOR_IGUAL | MAIOR | MAIOR_IGUAL => false
    case MAIS | MENOS | MULTIPLICACAO | DIVISAO | E | OU => false
    case _ => true
  }

  // One unfolding of each level: how it starts, when its loop stops, and
  // what one turn of its loop takes.

  lemma ProductStarts(ts: TokenStream, i: nat, l: Expr, m: nat)
    requires Ready(ts, i) && Factor(ts, i) == Built(l, m)
    ensures Product(ts, i) == ProductLoop(ts, l, m)
  {
  }

  lemma ProductLoopStops(ts: TokenStream, x: Expr, j: nat)
    requires Ready(ts, j) && !IsMultiplicative(Tok(ts, j).kind)
    ensures ProductLoop(ts, x, j) == Built(x, j)
  {
  }

  lemma ProductLoopTakes(ts: TokenStream, x: Expr, j: nat, r: Expr, k: nat)
    requires Ready(ts, j) && IsMultiplicative(Tok(ts, j).kind)
    requires Ready(ts, j + 1) && Factor(ts, j + 1) == Built(r, k)
    ensures ProductLoop(ts, x, j) == ProductLoop(ts, Binary(x, Tok(ts, j).lexeme, r), k)
  {
  }

  lemma SumStarts(ts: TokenStream, i: nat, l: Expr, m: nat)
    requires Ready(ts, i) && Product(ts, i) == Built(l, m)
    ensures Sum(ts, i) == SumLoop(ts, l, m)
  {
  }

  lemma SumLoopStops(ts: TokenStream, x: Expr, j: nat)
    requires Ready(ts, j) && !IsAdditive(Tok(ts, j).kind)
    ensures SumLoop(ts, x, j) == Built(x, j)
  {
  }

  lemma SumLoopTakes(ts: TokenStream, x: Expr, j: nat, r: Expr, k: nat)
    requires Ready(ts, j) && IsAdditive(Tok(ts, j).kind)
    requires Ready(ts, j + 1) && Product(ts, j + 1) == Built(r, k)
    ensures SumLoop(ts, x, j) == SumLoop(ts, Binary(x, Tok(ts, j).lexeme, r), k)
  {
  }

  lemma RelationStops(ts: TokenStream, i: nat, l: Expr, m: nat)
    requires Ready(ts, i) && Sum(ts, i) == Built(l, m)
    requires Ready(ts, m) && !IsRelational(Tok(ts, m).kind)
    ensures Relation(ts, i) == Built(l, m)
  {
  }

  lemma RelationTakes(ts: TokenStream, i: nat, l: Expr, m: nat, r: Expr, k: nat)
    requires Ready(ts, i) && Sum(ts, i) == Built(l, m)
    requires Ready(ts, m) && IsRelational(Tok(ts, m).kind)
    requires Ready(ts, m + 1) && Sum(ts, m + 1) == Built(r, k)
    ensures Relation(ts, i) == Built(Binary(l, Tok(ts, m).lexeme, r), k)
  {
  }

  lemma ConjunctionStarts(ts: TokenStream, i: nat, l: Expr, m: nat)
    requires Ready(ts, i) && Relation(ts, i) == Built(l, m)
    ensures Conjunction(ts, i) == ConjunctionLoop(ts, l, m)
  {
  }

  lemma ConjunctionLoopStops(ts: TokenStream, x: Expr, j: nat)
    requires Ready(ts, j) && Tok(ts, j).kind != E
    ensures ConjunctionLoop(ts, x, j) == Built(x, j)
  {
  }

  lemma ConjunctionLoopTakes(ts: TokenStream, x: Expr, j: nat, r: Expr, k: nat)
    requires Ready(ts, j) && Tok(ts, j).kind == E
    requires Ready(ts, j + 1) && Relation(ts, j + 1) == Built(r, k)
    ensures ConjunctionLoop(ts, x, j) == ConjunctionLoop(ts, Binary(x, Tok(ts, j).lexeme, r), k)
  {
  }

  lemma ExpressionStarts(ts: TokenStream, i: nat, l: Expr, m: nat)
    requires Ready(ts, i) && Conjunction(ts, i) == Built(l, m)
    ensures Expression(ts, i) == DisjunctionLoop(ts, l, m)
  {
  }

  lemma DisjunctionLoopStops(ts: TokenStream, x: Expr, j: nat)
    requires Ready(ts, j) && Tok(ts, j).kind != OU
    ensures DisjunctionLoop(ts, x, j) == Built(x, j)
  {
  }

  lemma DisjunctionLoopTakes(ts: TokenStream, x: Expr, j: nat, r: Expr, k: nat)
    requires Ready(ts, j) && Tok(ts, j).kind == OU
    requires Ready(ts, j + 1) && Conjunction(ts, j + 1) == Built(r, k)
    ensures DisjunctionLoop(ts, x, j) == DisjunctionLoop(ts, Binary(x, Tok(ts, j).lexeme, r), k)
  {
  }

  /** A factor followed by a token that is no operator of a level is, at
      that level, the whole operand: one lemma per level. */
  lemma FactorIsProduct(ts: TokenStream, i: nat, x: Expr, j: nat)
    requires Ready(ts, i) && Factor(ts, i) == Built(x, j)
    requires Ready(ts, j) && !IsMultiplicative(Tok(ts, j).kind)
    ensures Product(ts, i) == Built(x, j)
  {
    ProductStarts(ts, i, x, j);
    ProductLoopStops(ts, x, j);
  }

  lemma FactorIsSum(ts: TokenStream, i: nat, x: Expr, j: nat)
    requires Ready(ts, i) && Factor(ts, i) == Built(x, j)
    requires Ready(ts, j) && !IsMultiplicative(Tok(ts, j).kind) && !IsAdditive(Tok(ts, j).kind)
    ensures Sum(ts, i) == Built(x, j)
  {
    FactorIsProduct(ts, i, x, j);
    SumStarts(ts, i, x, j);
    SumLoopStops(ts, x, j);
  }

  lemma FactorIsRelation(ts: TokenStream, i: nat, x: Expr, j: nat)
    requires Ready(ts, i) && Factor(ts, i) == Built(x, j)
    requires Ready(ts, j)
    requires var k := Tok(ts, j).kind; !IsMultiplicative(k) && !IsAdditive(k) && !IsRelational(k)
    ensures Relation(ts, i) == Built(x, j)
  {
    FactorIsSum(ts, i, x, j);
    RelationStops(ts, i, x, j);
  }

  lemma FactorIsConjunction(ts: TokenStream, i: nat, x: Expr, j: nat)
    requires Ready(ts, i) && Factor(ts, i) == Built(x, j)
    requires Ready(ts, j)
    requires var k := Tok(ts, j).kind; !IsMultiplicative(k) && !IsAdditive(k) && !IsRelational(k) && k != E
    ensures Conjunction(ts, i) == Built(x, j)
  {
    FactorIsRelation(ts, i, x, j);
    ConjunctionStarts(ts, i, x, j);
    ConjunctionLoopStops(ts, x, j);
  }

  /** A factor followed by a token that is no operator is the whole
      expression. */
  lemma FactorIsExpression(ts: TokenStream, i: nat, x: Expr, j: nat)
    requires Ready(ts, i) && Factor(ts, i) == Built(x, j)
    requires Ready(ts, j) && NotOperator(Tok(ts, j).kind)
    ensures Expression(ts, i) == Built(x, j)
  {
    FactorIsConjunction(ts, i, x, j);
    ExpressionStarts(ts, i, x, j);
    DisjunctionLoopStops(ts, x, j);
  }

  /** The same for an operand of each level above the factor. */
  lemma ProductIsExpression(ts: TokenStream, i: nat, x: Expr, j: nat)
    requires Ready(ts, i) && Product(ts, i) == Built(x, j)
    requires Ready(ts, j) && NotOperator(Tok(ts, j).kind)
    ensures Expression(ts, i) == Built(x, j)
  {
    SumStarts(ts, i, x, j);
    SumLoopStops(ts, x, j);
    SumIsExpression(ts, i, x, j);
  }

  lemma SumIsExpression(ts: TokenStream, i: nat, x: Expr, j: nat)
    requires Ready(ts, i) && Sum(ts, i) == Built(x, j)
    requires Ready(ts, j) && NotOperator(Tok(ts, j).kind)
    ensures Expression(ts, i) == Built(x, j)
  {
    RelationStops(ts, i, x, j);
    RelationIsExpression(ts, i, x, j);
  }

  lemma RelationIsExpression(ts: TokenStream, i: nat, x: Expr, j: nat)
    requires Ready(ts, i) && Relation(ts, i) == Built(x, j)
    requires Ready(ts, j) && NotOperator(Tok(ts, j).kind)
    ensures Expression(ts, i) == Built(x, j)
  {
    ConjunctionStarts(ts, i, x, j);
    ConjunctionLoopStops(ts, x, j);
    ConjunctionIsExpression(ts, i, x, j);
  }

  lemma ConjunctionIsExpression(ts: TokenStream, i: nat, x: Expr, j: nat)
    requires Ready(ts, i) && Conjunction(ts, i) == Built(x, j)
    requires Ready(ts, j) && NotOperator(Tok(ts, j).kind)
    ensures Expression(ts, i) == Built(x, j)
  {
    ExpressionStarts(ts, i, x, j);
    DisjunctionLoopStops(ts, x, j);
  }

  /** A single-token factor: its leaf expression, and the next position. */
  lemma LeafFactor(ts: TokenStream, i: nat)
    requires Ready(ts, i + 1) && IsLeaf(Tok(ts, i).kind)
    ensures Factor(ts, i) == Built(Leaf(Tok(ts, i)), i + 1)
  {
  }

  /** One level's loop taking exactly one operator and operand, and then
      stopping: one lemma per level. */
  lemma ProductOfTwo(ts: TokenStream, i: nat, l: Expr, m: nat, r: Expr, q: nat)
    requires Ready(ts, i) && Factor(ts, i) == Built(l, m)
    requires Ready(ts, m) && IsMultiplicative(Tok(ts, m).kind)
    requires Ready(ts, m + 1) && Factor(ts, m + 1) == Built(r, q)
    requires Ready(ts, q) && !IsMultiplicative(Tok(ts, q).kind)
    ensures Product(ts, i) == Built(Binary(l, Tok(ts, m).lexeme, r), q)
  {
    ProductStarts(ts, i, l, m);
    ProductLoopTakes(ts, l, m, r, q);
    ProductLoopStops(ts, Binary(l, Tok(ts, m).lexeme, r), q);
  }

  lemma SumOfTwo(ts: TokenStream, i: nat, l: Expr, m: nat, r: Expr, q: nat)
    requires Ready(ts, i) && Product(ts, i) == Built(l, m)
    requires Ready(ts, m) && IsAdditive(Tok(ts, m).kind)
    requires Ready(ts, m + 1) && Product(ts, m + 1) == Built(r, q)
    requires Ready(ts, q) && !IsAdditive(Tok(ts, q).kind)
    ensures Sum(ts, i) == Built(Binary(l, Tok(ts, m).lexeme, r), q)
  {
    SumStarts(ts, i, l, m);
    SumLoopTakes(ts, l, m, r, q);
    SumLoopStops(ts, Binary(l, Tok(ts, m).lexeme, r), q);
  }

  lemma ConjunctionOfTwo(ts: TokenStream, i: nat, l: Expr, m: nat, r: Expr, q: nat)
    requires Ready(ts, i) && Relation(ts, i) == Built(l, m)
    requires Ready(ts, m) && Tok(ts, m).kind == E
    requires Ready(ts, m + 1) && Relation(ts, m + 1) == Built(r, q)
    requires Ready(ts, q) && Tok(ts, q).kind != E
    ensures Conjunction(ts, i) == Built(Binary(l, Tok(ts, m).lexeme, r), q)
  {
    ConjunctionStarts(ts, i, l, m);
    ConjunctionLoopTakes(ts, l, m, r, q);
    ConjunctionLoopStops(ts, Binary(l, Tok(ts, m).lexeme, r), q);
  }

  lemma DisjunctionOfTwo(ts: TokenStream, i: nat, l: Expr, m: nat, r: Expr, q: nat)
    requires Ready(ts, i) && Conjunction(ts, i) == Built(l, m)
    requires Ready(ts, m) && Tok(ts, m).kind == OU
    requires Ready(ts, m + 1) && Conjunction(ts, m + 1) == Built(r, q)
    requires Ready(ts, q) && Tok(ts, q).kind != OU
    ensures Expression(ts, i) == Built(Binary(l, Tok(ts, m).lexeme, r), q)
  {
    ExpressionStarts(ts, i, l, m);
    DisjunctionLoopTakes(ts, l, m, r, q);
    DisjunctionLoopStops(ts, Binary(l, Tok(ts, m).lexeme, r), q);
  }

  /** Two factors joined by one operator, followed by a token that is no
      operator, make one binary node whatever the operator's level. */
  lemma OneOperator(ts: TokenStream, i: nat, l: Expr, m: nat, op: string, r: Expr, q: nat)
    requires Ready(ts, i) && Factor(ts, i) == Built(l, m)
    requires Ready(ts, m) && !NotOperator(Tok(ts, m).kind) && Tok(ts, m).lexeme == op
    requires Ready(ts, m + 1) && Factor(ts, m + 1) == Built(r, q)
    requires Ready(ts, q) && NotOperator(Tok(ts, q).kind)
    ensures Expression(ts, i) == Built(Binary(l, op, r), q)
  {
    var k := Tok(ts, m).kind;
    if IsMultiplicative(k) {
      MultiplicativeOperator(ts, i, l, m, op, r, q);
    } else if IsAdditive(k) {
      AdditiveOperator(ts, i, l, m, op, r, q);
    } else if IsRelational(k) {
      RelationalOperator(ts, i, l, m, op, r, q);
    } else if k == E {
      ConjunctiveOperator(ts, i, l, m, op, r, q);
    } else {
      DisjunctiveOperator(ts, i, l, m, op, r, q);
    }
  }

  lemma MultiplicativeOperator(ts: TokenStream, i: nat, l: Expr, m: nat, op: string, r: Expr, q: nat)
    requires Ready(ts, i) && Factor(ts, i) == Built(l, m)
    requires Ready(ts, m) && IsMultiplicative(Tok(ts, m).kind) && Tok(ts, m).lexeme == op
    requires Ready(ts, m + 1) && Factor(ts, m + 1) == Built(r, q)
    requires Ready(ts, q) && NotOperator(Tok(ts, q).kind)
    ensures Expression(ts, i) == Built(Binary(l, op, r), q)
  {
    ProductOfTwo(ts, i, l, m, r, q);
    ProductIsExpression(ts, i, Binary(l, op, r), q);
  }

  lemma AdditiveOperator(ts: TokenStream, i: nat, l: Expr, m: nat, op: string, r: Expr, q: nat)
    requires Ready(ts, i) && Factor(ts, i) == Built(l, m)
    requires Ready(ts, m) && IsAdditive(Tok(ts, m).kind) && Tok(ts, m).lexeme == op
    requires Ready(ts, m + 1) && Factor(ts, m + 1) == Built(r, q)
    requires Ready(ts, q) && NotOperator(Tok(ts, q).kind)
    ensures Expression(ts, i) == Built(Binary(l, op, r), q)
  {
    FactorIsProduct(ts, m + 1, r, q);
    FactorPlusProductEnds(ts, i, l, m, r, q);
  }

  lemma RelationalOperator(ts: TokenStream, i: nat, l: Expr, m: nat, op: string, r: Expr, q: nat)
    requires Ready(ts, i) && Factor(ts, i) == Built(l, m)
    requires Ready(ts, m) && IsRelational(Tok(ts, m).kind) && Tok(ts, m).lexeme == op
    requires Ready(ts, m + 1) && Factor(ts, m + 1) == Built(r, q)
    requires Ready(ts, q) && NotOperator(Tok(ts, q).kind)
    ensures Expression(ts, i) == Built(Binary(l, op, r), q)
  {
    FactorIsSum(ts, m + 1, r, q);
    FactorComparedToSumEnds(ts, i, l, m, r, q);
  }

  lemma ConjunctiveOperator(ts: TokenStream, i: nat, l: Expr, m: nat, op: string, r: Expr, q: nat)
    requires Ready(ts, i) && Factor(ts, i) == Built(l, m)
    requires Ready(ts, m) && Tok(ts, m).kind == E && Tok(ts, m).lexeme == op
    requires Ready(ts, m + 1) && Factor(ts, m + 1) == Built(r, q)
    requires Ready(ts, q) && NotOperator(Tok(ts, q).kind)
    ensures Expression(ts, i) == Built(Binary(l, op, r), q)
  {
    FactorIsRelation(ts, m + 1, r, q);
    FactorAndRelationEnds(ts, i, l, m, r, q);
  }

  lemma DisjunctiveOperator(ts: TokenStream, i: nat, l: Expr, m: nat, op: string, r: Expr, q: nat)
    requires Ready(ts, i) && Factor(ts, i) == Built(l, m)
    requires Ready(ts, m) && Tok(ts, m).kind == OU && Tok(ts, m).lexeme == op
    requires Ready(ts, m + 1) && Factor(ts, m + 1) == Built(r, q)
    requires Ready(ts, q) && NotOperator(Tok(ts, q).kind)
    ensures Expression(ts, i) == Built(Binary(l, op, r), q)
  {
    FactorIsConjunction(ts, m + 1, r, q);
    FactorOrConjunction(ts, i, l, m, r, q);
  }

  /** A factor, then an operator of one level and an operand of the level
      above it, with nothing more for that level to take. */
  lemma FactorPlusProduct(ts: TokenStream, i: nat, l: Expr, m: nat, r: Expr, q: nat)
    requires Ready(ts, i) && Factor(ts, i) == Built(l, m)
    requires Ready(ts, m) && IsAdditive(Tok(ts, m).kind)
    requires Ready(ts, m + 1) && Product(ts, m + 1) == Built(r, q)
    requires Ready(ts, q) && !IsAdditive(Tok(ts, q).kind)
    ensures Sum(ts, i) == Built(Binary(l, Tok(ts, m).lexeme, r), q)
  {
    FactorIsProduct(ts, i, l, m);
    SumOfTwo(ts, i, l, m, r, q);
  }

  lemma FactorComparedToSum(ts: TokenStream, i: nat, l: Expr, m: nat, r: Expr, q: nat)
    requires Ready(ts, i) && Factor(ts, i) == Built(l, m)
    requires Ready(ts, m) && IsRelational(Tok(ts, m).kind)
    requires Ready(ts, m + 1) && Sum(ts, m + 1) == Built(r, q)
    ensures Relation(ts, i) == Built(Binary(l, Tok(ts, m).lexeme, r), q)
  {
    FactorIsSum(ts, i, l, m);
    RelationTakes(ts, i, l, m, r, q);
  }

  lemma FactorAndRelation(ts: TokenStream, i: nat, l: Expr, m: nat, r: Expr, q: nat)
    requires Ready(ts, i) && Factor(ts, i) == Built(l, m)
    requires Ready(ts, m) && Tok(ts, m).kind == E
    requires Ready(ts, m + 1) && Relation(ts, m + 1) == Built(r, q)
    requires Ready(ts, q) && Tok(ts, q).kind != E
    ensures Conjunction(ts, i) == Built(Binary(l, Tok(ts, m).lexeme, r), q)
  {
    FactorIsRelation(ts, i, l, m);
    ConjunctionOfTwo(ts, i, l, m, r, q);
  }

  /** The same three when the token after the operand ends the expression. */
  lemma FactorPlusProductEnds(ts: TokenStream, i: nat, l: Expr, m: nat, r: Expr, q: nat)
    requires Ready(ts, i) && Factor(ts, i) == Built(l, m)
    requires Ready(ts, m) && IsAdditive(Tok(ts, m).kind)
    requires Ready(ts, m + 1) && Product(ts, m + 1) == Built(r, q)
    requires Ready(ts, q) && NotOperator(Tok(ts, q).kind)
    ensures Expression(ts, i) == Built(Binary(l, Tok(ts, m).lexeme, r), q)
  {
    FactorPlusProduct(ts, i, l, m, r, q);
    SumIsExpression(ts, i, Binary(l, Tok(ts, m).lexeme, r), q);
  }

  lemma FactorComparedToSumEnds(ts: TokenStream, i: nat, l: Expr, m: nat, r: Expr, q: nat)
    requires Ready(ts, i) && Factor(ts, i) == Built(l, m)
    requires Ready(ts, m) && IsRelational(Tok(ts, m).kind)
    requires Ready(ts, m + 1) && Sum(ts, m + 1) == Built(r, q)
    requires Ready(ts, q) && NotOperator(Tok(ts, q).kind)
    ensures Expression(ts, i) == Built(Binary(l, Tok(ts, m).lexeme, r), q)
  {
    FactorComparedToSum(ts, i, l, m, r, q);
    RelationIsExpression(ts, i, Binary(l, Tok(ts, m).lexeme, r), q);
  }

  lemma FactorAndRelationEnds(ts: TokenStream, i: nat, l: Expr, m: nat, r: Expr, q: nat)
    requires Ready(ts, i) && Factor(ts, i) == Built(l, m)
    requires Ready(ts, m) && Tok(ts, m).kind == E
    requires Ready(ts, m + 1) && Relation(ts, m + 1) == Built(r, q)
    requires Ready(ts, q) && NotOperator(Tok(ts, q).kind)
    ensures Expression(ts, i) == Built(Binary(l, Tok(ts, m).lexeme, r), q)
  {
    FactorAndRelation(ts, i, l, m, r, q);
    ConjunctionIsExpression(ts, i, Binary(l, Tok(ts, m).lexeme, r), q);
  }

  /** A factor, then `ou` and a conjunction that ends the expression. */
  lemma FactorOrConjunction(ts: TokenStream, i: nat, l: Expr, m: nat, r: Expr, q: nat)
    requires Ready(ts, i) && Factor(ts, i) == Built(l, m)
    requires Ready(ts, m) && Tok(ts, m).kind == OU
    requires Ready(ts, m + 1) && Conjunction(ts, m + 1) == Built(r, q)
    requires Ready(ts, q) && Tok(ts, q).kind != OU
    ensures Expression(ts, i) == Built(Binary(l, Tok(ts, m).lexeme, r), q)
  {
    FactorIsConjunction(ts, i, l, m);
    DisjunctionOfTwo(ts, i, l, m, r, q);
  }

  /** A sum whose loop has reached a token that is no operator is the whole
      expression. */
  lemma SumLoopEndsExpression(ts: TokenStream, i: nat, x: Expr, j: nat)
    requires Ready(ts, i) && Ready(ts, j) && Sum(ts, i) == SumLoop(ts, x, j)
    requires NotOperator(Tok(ts, j).kind)
    ensures Expression(ts, i) == Built(x, j)
  {
    SumLoopStops(ts, x, j);
    SumIsExpression(ts, i, x, j);
  }

  /** A sum whose first operand is a factor alone. */
  lemma SumStartsWithFactor(ts: TokenStream, i: nat, x: Expr, j: nat)
    requires Ready(ts, i) && Factor(ts, i) == Built(x, j)
    requires Ready(ts, j) && !IsMultiplicative(Tok(ts, j).kind)
    ensures Sum(ts, i) == SumLoop(ts, x, j)
  {
    FactorIsProduct(ts, i, x, j);
    SumStarts(ts, i, x, j);
  }

  /** The sum loop taking one more operand that is a factor alone. */
  lemma SumLoopTakesFactor(ts: TokenStream, x: Expr, j: nat, r: Expr, k: nat)
    requires Ready(ts, j) && IsAdditive(Tok(ts, j).kind)
    requires Ready(ts, j + 1) && Factor(ts, j + 1) == Built(r, k)
    requires Ready(ts, k) && !IsMultiplicative(Tok(ts, k).kind)
    ensures SumLoop(ts, x, j) == SumLoop(ts, Binary(x, Tok(ts, j).lexeme, r), k)
  {
    FactorIsProduct(ts, j + 1, r, k);
    SumLoopTakes(ts, x, j, r, k);
  }

  /** `a - b - c` groups to the left: the operators of one level are folded
      into the left operand as they come. */
  lemma SumIsLeftAssociative(ts: TokenStream, i: nat, a: Expr, m: nat, op1: string, b: Expr, n: nat, op2: string, c: Expr, q: nat)
    requires Ready(ts, i) && Factor(ts, i) == Built(a, m)
    requires Ready(ts, m) && IsAdditive(Tok(ts, m).kind) && Tok(ts, m).lexeme == op1
    requires Ready(ts, m + 1) && Factor(ts, m + 1) == Built(b, n)
    requires Ready(ts, n) && IsAdditive(Tok(ts, n).kind) && Tok(ts, n).lexeme == op2
    requires Ready(ts, n + 1) && Factor(ts, n + 1) == Built(c, q)
    requires Ready(ts, q) && NotOperator(Tok(ts, q).kind)
    ensures Expression(ts, i) == Built(Binary(Binary(a, op1, b), op2, c), q)
  {
    SumStartsWithFactor(ts, i, a, m);
    SumLoopTakesFactor(ts, a, m, b, n);
    SumLoopTakesFactor(ts, Binary(a, op1, b), n, c, q);
    SumLoopEndsExpression(ts, i, Binary(Binary(a, op1, b), op2, c), q);
  }

  /** `a + b * c`: the product is the right operand of the sum. */
  lemma ProductBindsTighterThanSum(ts: TokenStream, i: nat, a: Expr, m: nat, op1: string, b: Expr, n: nat, op2: string, c: Expr, q: nat)
    requires Ready(ts, i) && Factor(ts, i) == Built(a, m)
    requires Ready(ts, m) && IsAdditive(Tok(ts, m).kind) && Tok(ts, m).lexeme == op1
    requires Ready(ts, m + 1) && Factor(ts, m + 1) == Built(b, n)
    requires Ready(ts, n) && IsMultiplicative(Tok(ts, n).kind) && Tok(ts, n).lexeme == op2
    requires Ready(ts, n + 1) && Factor(ts, n + 1) == Built(c, q)
    requires Ready(ts, q) && NotOperator(Tok(ts, q).kind)
    ensures Expression(ts, i) == Built(Binary(a, op1, Binary(b, op2, c)), q)
  {
    ProductOfTwo(ts, m + 1, b, n, c, q);
    FactorPlusProductEnds(ts, i, a, m, Binary(b, op2, c), q);
  }

  /** `a < b + c`: the sum is the right operand of the comparison. */
  lemma SumBindsTighterThanComparison(ts: TokenStream, i: nat, a: Expr, m: nat, op1: string, b: Expr, n: nat, op2: string, c: Expr, q: nat)
    requires Ready(ts, i) && Factor(ts, i) == Built(a, m)
    requires Ready(ts, m) && IsRelational(Tok(ts, m).kind) && Tok(ts, m).lexeme == op1
    requires Ready(ts, m + 1) && Factor(ts, m + 1) == Built(b, n)
    requires Ready(ts, n) && IsAdditive(Tok(ts, n).kind) && Tok(ts, n).lexeme == op2
    requires Ready(ts, n + 1) && Factor(ts, n + 1) == Built(c, q)
    requires Ready(ts, q) && NotOperator(Tok(ts, q).kind)
    ensures Expression(ts, i) == Built(Binary(a, op1, Binary(b, op2, c)), q)
  {
    SumOfTwoFactors(ts, m + 1, b, n, c, q);
    FactorComparedToSumEnds(ts, i, a, m, Binary(b, op2, c), q);
  }

  /** `a e b < c`: the comparison is the right operand of the conjunction. */
  lemma ComparisonBindsTighterThanConjunction(ts: TokenStream, i: nat, a: Expr, m: nat, op1: string, b: Expr, n: nat, op2: string, c: Expr, q: nat)
    requires Ready(ts, i) && Factor(ts, i) == Built(a, m)
    requires Ready(ts, m) && Tok(ts, m).kind == E && Tok(ts, m).lexeme == op1
    requires Ready(ts, m + 1) && Factor(ts, m + 1) == Built(b, n)
    requires Ready(ts, n) && IsRelational(Tok(ts, n).kind) && Tok(ts, n).lexeme == op2
    requires Ready(ts, n + 1) && Factor(ts, n + 1) == Built(c, q)
    requires Ready(ts, q) && NotOperator(Tok(ts, q).kind)
    ensures Expression(ts, i) == Built(Binary(a, op1, Binary(b, op2, c)), q)
  {
    RelationOfTwoFactors(ts, m + 1, b, n, c, q);
    FactorAndRelationEnds(ts, i, a, m, Binary(b, op2, c), q);
  }

  /** `a ou b e c`: the conjunction is the right operand of the disjunction. */
  lemma ConjunctionBindsTighterThanDisjunction(ts: TokenStream, i: nat, a: Expr, m: nat, op1: string, b: Expr, n: nat, op2: string, c: Expr, q: nat)
    requires Ready(ts, i) && Factor(ts, i) == Built(a, m)
    requires Ready(ts, m) && Tok(ts, m).kind == OU && Tok(ts, m).lexeme == op1
    requires Ready(ts, m + 1) && Factor(ts, m + 1) == Built(b, n)
    requires Ready(ts, n) && Tok(ts, n).kind == E && Tok(ts, n).lexeme == op2
    requires Ready(ts, n + 1) && Factor(ts, n + 1) == Built(c, q)
    requires Ready(ts, q) && NotOperator(Tok(ts, q).kind)
    ensures Expression(ts, i) == Built(Binary(a, op1, Binary(b, op2, c)), q)
  {
    ConjunctionOfTwoFactors(ts, m + 1, b, n, c, q);
    FactorOrConjunction(ts, i, a, m, Binary(b, op2, c), q);
  }

  /** Two factors joined by an operator of one level, at that level. */
  lemma SumOfTwoFactors(ts: TokenStream, i: nat, l: Expr, m: nat, r: Expr, q: nat)
    requires Ready(ts, i) && Factor(ts, i) == Built(l, m)
    requires Ready(ts, m) && IsAdditive(Tok(ts, m).kind)
    requires Ready(ts, m + 1) && Factor(ts, m + 1) == Built(r, q)
    requires Ready(ts, q) && NotOperator(Tok(ts, q).kind)
    ensures Sum(ts, i) == Built(Binary(l, Tok(ts, m).lexeme, r), q)
  {
    FactorIsProduct(ts, m + 1, r, q);
    FactorPlusProduct(ts, i, l, m, r, q);
  }

  lemma RelationOfTwoFactors(ts: TokenStream, i: nat, l: Expr, m: nat, r: Expr, q: nat)
    requires Ready(ts, i) && Factor(ts, i) == Built(l, m)
    requires Ready(ts, m) && IsRelational(Tok(ts, m).kind)
    requires Ready(ts, m + 1) && Factor(ts, m + 1) == Built(r, q)
    requires Ready(ts, q) && NotOperator(Tok(ts, q).kind)
    ensures Relation(ts, i) == Built(Binary(l, Tok(ts, m).lexeme, r), q)
  {
    FactorIsSum(ts, m + 1, r, q);
    FactorComparedToSum(ts, i, l, m, r, q);
  }

  lemma ConjunctionOfTwoFactors(ts: TokenStream, i: nat, l: Expr, m: nat, r: Expr, q: nat)
    requires Ready(ts, i) && Factor(ts, i) == Built(l, m)
    requires Ready(ts, m) && Tok(ts, m).kind == E
    requires Ready(ts, m + 1) && Factor(ts, m + 1) == Built(r, q)
    requires Ready(ts, q) && NotOperator(Tok(ts, q).kind)
    ensures Conjunction(ts, i) == Built(Binary(l, Tok(ts, m).lexeme, r), q)
  {
    FactorIsRelation(ts, m + 1, r, q);
    FactorAndRelation(ts, i, l, m, r, q);
  }

  /** A relation followed by a token that is neither `e` nor `ou` is the
      whole expression, even when that token is a comparison operator. */
  lemma RelationEndsExpression(ts: TokenStream, i: nat, x: Expr, j: nat)
    requires Ready(ts, i) && Relation(ts, i) == Built(x, j)
    requires Ready(ts, j) && Tok(ts, j).kind != E && Tok(ts, j).kind != OU
    ensures Expression(ts, i) == Built(x, j)
  {
    ConjunctionStarts(ts, i, x, j);
    ConjunctionLoopStops(ts, x, j);
    ExpressionStarts(ts, i, x, j);
    DisjunctionLoopStops(ts, x, j);
  }

  /** `a < b < c`: one comparison is taken, and the expression ends before
      the second comparison operator, which is left for the caller. */
  lemma ComparisonsDoNotChain(ts: TokenStream, i: nat, a: Expr, m: nat, op: string, b: Expr, n: nat)
    requires Ready(ts, i) && Factor(ts, i) == Built(a, m)
    requires Ready(ts, m) && IsRelational(Tok(ts, m).kind) && Tok(ts, m).lexeme == op
    requires Ready(ts, m + 1) && Factor(ts, m + 1) == Built(b, n)
    requires Ready(ts, n) && IsRelational(Tok(ts, n).kind)
    ensures Expression(ts, i) == Built(Binary(a, op, b), n)
  {
    FactorIsSum(ts, m + 1, b, n);
    FactorComparedToSum(ts, i, a, m, b, n);
    RelationEndsExpression(ts, i, Binary(a, op, b), n);
  }

  // ------------------------------------------------------------------
  // Round trip through a fully parenthesised printer
  // ------------------------------------------------------------------

  /** The token kind of each binary operator the ladder builds. */
  function OperatorKind(op: string): Option<TokenKind> {
    if op == "ou" then Some(OU)
    else if op == "e" then Some(E)
    else if op == "==" then Some(IGUAL)
    else if op == "!=" then Some(DIFERENTE)
    else if op == "<" then Some(MENOR)
    else if op == "<=" then Some(MENOR_IGUAL)
    else if op == ">" then Some(MAIOR)
    else if op == ">=" then Some(MAIOR_IGUAL)
    else if op == "+" then Some(MAIS)
    else if op == "-" then Some(MENOS)
    else if op == "*" then Some(MULTIPLICACAO)
    else if op == "/" then Some(DIVISAO)
    else None
  }

  /** Expressions whose operators are written as the lexer writes them. */
  predicate Printable(e: Expr) {
    match e
    case Binary(l, op, r) => OperatorKind(op).Some? && Printable(l) && Printable(r)
    case Unary(op, x) => op == "-" && Printable(x)
    case Literal(_) => true
    case Var(_) => true
  }

  predicate NoEof(u: seq<Token>) {
    forall k :: 0 <= k < |u| ==> u[k].kind != EOF
  }

  predicate IsQuoted(v: string) {
    |v| >= 2 && v[0] == '"' && v[|v| - 1] == '"'
  }

  /** The token a literal is read from. */
  function LiteralToken(v: string): (t: Token)
    ensures IsLeaf(t.kind) && Leaf(t) == Literal(v)
  {
    if IsQuoted(v) then Token(TEXTO, v[1..|v| - 1], 0, 0)
    else if v == "verdadeiro" then Token(VERDADEIRO, v, 0, 0)
    else if v == "falso" then Token(FALSO, v, 0, 0)
    else if '.' in v then Token(NUMERO_REAL, v, 0, 0)
    else Token(NUMERO_INTEIRO, v, 0, 0)
  }

  /** The tokens of an expression with every binary node in parentheses. */
  function Unparse(e: Expr): (u: seq<Token>)
    requires Printable(e)
    ensures |u| >= 1
  {
    match e
    case Binary(l, op, r) =>
      [Token(ABRE_PARENTESES, "(", 0, 0)] + Unparse(l) + [Token(OperatorKind(op).value, op, 0, 0)]
      + Unparse(r) + [Token(FECHA_PARENTESES, ")", 0, 0)]
    case Unary(op, x) => [Token(MENOS, op, 0, 0)] + Unparse(x)
    case Literal(v) => [LiteralToken(v)]
    case Var(n) => [Token(IDENTIFICADOR, n, 0, 0)]
  }

  /** The tokens `u` sit in the stream from position `i`. */
  predicate Placed(ts: TokenStream, i: nat, u: seq<Token>)
    decreases |u|
  {
    if u == [] then i <= |ts.tokens|
    else i < |ts.tokens| && ts.tokens[i] == u[0] && Placed(ts, i + 1, u[1..])
  }

  lemma {:induction false} PlacedFits(ts: TokenStream, i: nat, u: seq<Token>)
    requires Placed(ts, i, u)
    ensures i + |u| <= |ts.tokens|
    decreases |u|
  {
    if u != [] {
      PlacedFits(ts, i + 1, u[1..]);
    }
  }

  lemma {:induction false} PlacedSplit(ts: TokenStream, i: nat, a: seq<Token>, b: seq<Token>)
    requires Placed(ts, i, a + b)
    ensures Placed(ts, i, a) && Placed(ts, i + |a|, b)
    decreases |a|
  {
    if a == [] {
      assert a + b == b;
      PlacedFits(ts, i, b);
    } else {
      assert (a + b)[0] == a[0] && (a + b)[1..] == a[1..] + b;
      PlacedSplit(ts, i + 1, a[1..], b);
    }
  }

  lemma PlacedToken(ts: TokenStream, i: nat, t: Token)
    requires Placed(ts, i, [t])
    ensures i < |ts.tokens| && ts.tokens[i] == t
  {
  }

  /** Every stream holds its own tokens from any position on. */
  lemma {:induction false} PlacedSuffix(ts: TokenStream, i: nat)
    requires i <= |ts.tokens|
    ensures Placed(ts, i, ts.tokens[i..])
    decreases |ts.tokens| - i
  {
    if i < |ts.tokens| {
      assert ts.tokens[i..][1..] == ts.tokens[i + 1..];
      PlacedSuffix(ts, i + 1);
    }
  }

  /** Printed tokens, wherever they sit in a stream, parse back as a factor
      to the expression they were printed from, ending at `j`. */
  lemma {:induction false} FactorReadsUnparse(ts: TokenStream, i: nat, e: Expr, j: nat)
    requires Printable(e) && Placed(ts, i, Unparse(e)) && j == i + |Unparse(e)| && Ready(ts, j)
    ensures Factor(ts, i) == Built(e, j)
    decreases e, 2
  {
    match e
    case Literal(_) => LeafReadsUnparse(ts, i, e, j);
    case Var(_) => LeafReadsUnparse(ts, i, e, j);
    case Unary(_, _) => NegationReadsUnparse(ts, i, e, j);
    case Binary(_, _, _) => ParenthesesReadUnparse(ts, i, e, j - 1, j);
  }

  lemma LeafReadsUnparse(ts: TokenStream, i: nat, e: Expr, j: nat)
    requires (e.Literal? || e.Var?) && Placed(ts, i, Unparse(e)) && j == i + |Unparse(e)| && Ready(ts, j)
    ensures Factor(ts, i) == Built(e, j)
  {
    var t := if e.Literal? then LiteralToken(e.value) else Token(IDENTIFICADOR, e.name, 0, 0);
    assert Unparse(e) == [t];
    PlacedToken(ts, i, t);
    assert Tok(ts, i) == t;
    LeafFactor(ts, i);
  }

  lemma {:induction false} ParenthesesReadUnparse(ts: TokenStream, i: nat, e: Expr, q: nat, j: nat)
    requires e.Binary? && Printable(e) && Placed(ts, i, Unparse(e))
    requires q + 1 == j && j == i + |Unparse(e)| && Ready(ts, j)
    ensures Factor(ts, i) == Built(e, j)
    decreases e, 1
  {
    BinaryReadsUnparse(ts, i, e, q);
    ParenthesizedFactor(ts, i, e, q, j);
  }

  lemma {:induction false} NegationReadsUnparse(ts: TokenStream, i: nat, e: Expr, j: nat)
    requires e.Unary? && Printable(e) && Placed(ts, i, Unparse(e)) && j == i + |Unparse(e)| && Ready(ts, j)
    ensures Factor(ts, i) == Built(e, j)
    decreases e, 1
  {
    var minus := Token(MENOS, e.op, 0, 0);
    assert Unparse(e) == [minus] + Unparse(e.operand);
    Prefixed(ts, i, minus, Unparse(e.operand));
    FactorReadsUnparse(ts, i + 1, e.operand, j);
    NegatedFactor(ts, i, e, j);
  }

  /** Where the two parts of `[t] + u` sit. */
  lemma Prefixed(ts: TokenStream, i: nat, t: Token, u: seq<Token>)
    requires Placed(ts, i, [t] + u) && Ready(ts, i + 1 + |u|)
    ensures Ready(ts, i) && Tok(ts, i) == t && Ready(ts, i + 1) && Placed(ts, i + 1, u)
  {
    PlacedSplit(ts, i, [t], u);
    PlacedToken(ts, i, t);
  }

  /** `- x` is a factor. */
  lemma NegatedFactor(ts: TokenStream, i: nat, e: Expr, q: nat)
    requires e.Unary? && Ready(ts, i) && Tok(ts, i) == Token(MENOS, e.op, 0, 0)
    requires Ready(ts, i + 1) && Factor(ts, i + 1) == Built(e.operand, q)
    ensures Factor(ts, i) == Built(e, q)
  {
  }

  /** Inside its parentheses, a printed binary node is one expression that
      ends at the closing parenthesis `q`. */
  lemma {:induction false} BinaryReadsUnparse(ts: TokenStream, i: nat, e: Expr, q: nat)
    requires e.Binary? && Printable(e) && Placed(ts, i, Unparse(e)) && q + 1 == i + |Unparse(e)| && Ready(ts, q + 1)
    ensures Ready(ts, i) && Tok(ts, i).kind == ABRE_PARENTESES
    ensures Ready(ts, i + 1) && Expression(ts, i + 1) == Built(e, q)
    ensures Ready(ts, q) && Tok(ts, q).kind == FECHA_PARENTESES
    decreases e, 0
  {
    var m := i + 1 + |Unparse(e.left)|;
    BinaryLayout(ts, i, e, m, q);
    FactorReadsUnparse(ts, i + 1, e.left, m);
    FactorReadsUnparse(ts, m + 1, e.right, q);
    OneOperator(ts, i + 1, e.left, m, e.op, e.right, q);
  }

  /** Where the parts of a printed binary node sit: `(` at `i`, the left
      operand from `i + 1`, the operator at `m`, the right operand from
      `m + 1` and `)` at `q`. */
  lemma BinaryLayout(ts: TokenStream, i: nat, e: Expr, m: nat, q: nat)
    requires e.Binary? && Printable(e) && Placed(ts, i, Unparse(e)) && q + 1 == i + |Unparse(e)| && Ready(ts, q + 1)
    requires m == i + 1 + |Unparse(e.left)|
    ensures Ready(ts, i) && Tok(ts, i).kind == ABRE_PARENTESES
    ensures Ready(ts, i + 1) && Placed(ts, i + 1, Unparse(e.left))
    ensures Ready(ts, m) && Tok(ts, m).lexeme == e.op && !NotOperator(Tok(ts, m).kind)
    ensures Ready(ts, m + 1) && Placed(ts, m + 1, Unparse(e.right)) && q == m + 1 + |Unparse(e.right)|
    ensures Ready(ts, q) && Tok(ts, q).kind == FECHA_PARENTESES
  {
    var open, close := Token(ABRE_PARENTESES, "(", 0, 0), Token(FECHA_PARENTESES, ")", 0, 0);
    var opToken := Token(OperatorKind(e.op).value, e.op, 0, 0);
    var ul, ur := Unparse(e.left), Unparse(e.right);
    assert Unparse(e) == [open] + ul + [opToken] + ur + [close];
    Bracketed(ts, i, open, ul, opToken, ur, close, m, q);
    OperatorKindIsOperator(e.op);
  }

  lemma OperatorKindIsOperator(op: string)
    requires OperatorKind(op).Some?
    ensures !NotOperator(OperatorKind(op).value)
  {
  }

  /** Where the five parts of `[open] + l + [op] + r + [close]` sit, with
      `op` at `m` and `close` at `q`. */
  lemma Bracketed(ts: TokenStream, i: nat, open: Token, l: seq<Token>, op: Token, r: seq<Token>, close: Token, m: nat, q: nat)
    requires Placed(ts, i, [open] + l + [op] + r + [close])
    requires m == i + 1 + |l| && q == m + 1 + |r| && Ready(ts, q + 1)
    ensures Ready(ts, i) && Tok(ts, i) == open && Ready(ts, i + 1) && Placed(ts, i + 1, l)
    ensures Ready(ts, m) && Tok(ts, m) == op && Ready(ts, m + 1) && Placed(ts, m + 1, r)
    ensures Ready(ts, q) && Tok(ts, q) == close
  {
    PlacedSplit(ts, i, [open] + l + [op] + r, [close]);
    PlacedSplit(ts, i, [open] + l + [op], r);
    PlacedSplit(ts, i, [open] + l, [op]);
    PlacedSplit(ts, i, [open], l);
    PlacedToken(ts, i, open);
    PlacedToken(ts, m, op);
    PlacedToken(ts, q, close);
  }

  /** `( x )` is a factor. */
  lemma ParenthesizedFactor(ts: TokenStream, i: nat, x: Expr, q: nat, j: nat)
    requires Ready(ts, i) && Tok(ts, i).kind == ABRE_PARENTESES
    requires Ready(ts, i + 1) && Expression(ts, i + 1) == Built(x, q)
    requires Ready(ts, q) && Tok(ts, q).kind == FECHA_PARENTESES && j == q + 1 && Ready(ts, j)
    ensures Factor(ts, i) == Built(x, j)
  {
  }

  /** The end-of-input token that closes a printed stream. */
  const EndToken := Token(EOF, "EOF", 0, 0)

  /** Printed tokens contain no end-of-input token. */
  lemma {:induction false} UnparseHasNoEof(e: Expr)
    requires Printable(e)
    ensures NoEof(Unparse(e))
  {
    match e
    case Binary(l, op, r) =>
      UnparseHasNoEof(l);
      UnparseHasNoEof(r);
      var u := Unparse(e);
      var ul, ur := Unparse(l), Unparse(r);
      assert u == [Token(ABRE_PARENTESES, "(", 0, 0)] + ul + [Token(OperatorKind(op).value, op, 0, 0)]
                  + ur + [Token(FECHA_PARENTESES, ")", 0, 0)];
      forall k | 0 <= k < |u|
        ensures u[k].kind != EOF
      {
        if 1 <= k < 1 + |ul| {
          assert u[k] == ul[k - 1];
        } else if 2 + |ul| <= k < 2 + |ul| + |ur| {
          assert u[k] == ur[k - 2 - |ul|];
        }
      }
    case Unary(op, x) =>
      UnparseHasNoEof(x);
      var u := Unparse(e);
      forall k | 1 <= k < |u|
        ensures u[k].kind != EOF
      {
        assert u[k] == Unparse(x)[k - 1];
      }
    case Literal(_) =>
    case Var(_) =>
  }

  /** The stream of exactly the printed tokens of an expression. */
  function PrintedStream(e: Expr): (ts: TokenStream)
    requires Printable(e)
    ensures WellFormedStream(ts) && ts.tokens == Unparse(e) && ts.end == Ok(EndToken)
  {
    UnparseHasNoEof(e);
    TokenStream(Unparse(e), Ok(EndToken))
  }

  /** Printed tokens followed by any token that is no operator parse back,
      as a whole expression, to the expression they were printed from. */
  lemma ExpressionReadsUnparse(ts: TokenStream, e: Expr, i: nat, j: nat)
    requires Printable(e) && Placed(ts, i, Unparse(e)) && j == i + |Unparse(e)|
    requires Ready(ts, j) && NotOperator(Tok(ts, j).kind)
    ensures Expression(ts, i) == Built(e, j)
  {
    FactorReadsUnparse(ts, i, e, j);
    FactorIsExpression(ts, i, e, j);
  }

  /** Parsing the printed tokens of an expression gives the expression back
      and uses up all of them. */
  lemma ExpressionRoundTrip(e: Expr)
    requires Printable(e)
    ensures Expression(PrintedStream(e), 0) == Built(e, |Unparse(e)|)
  {
    var ts := PrintedStream(e);
    PlacedSuffix(ts, 0);
    assert ts.tokens[0..] == Unparse(e);
    ExpressionReadsUnparse(ts, e, 0, |Unparse(e)|);
  }
}
