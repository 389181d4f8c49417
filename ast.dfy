/**
 * Tokens and the abstract syntax tree (src/ast_nodes.py).
 */
module Ast {

  /** The token kinds of `TipoToken`. */
  datatype TokenKind =
    | SE | ENTAO | SENAO | FIMSE | ENQUANTO | FACA | FIMENQUANTO | PARA | FIMPARA
    | LEIA | ESCREVA | INICIO | FIM
    | INTEIRO | REAL | CARACTER | LOGICO
    | VERDADEIRO | FALSO
    | E | OU
    | MAIS | MENOS | MULTIPLICACAO | DIVISAO | ATRIBUICAO
    | IGUAL | DIFERENTE | MENOR | MENOR_IGUAL | MAIOR | MAIOR_IGUAL
    | ABRE_PARENTESES | FECHA_PARENTESES | ABRE_CHAVES | FECHA_CHAVES
    | PONTO_E_VIRGULA | VIRGULA
    | NUMERO_INTEIRO | NUMERO_REAL | TEXTO
    | IDENTIFICADOR
    | EOF

  /** The `.value` string of each kind: the keyword or symbol it stands for,
      or a descriptive name for the literal kinds. */
  function KindValue(k: TokenKind): string {
    match k
    case SE => "se"
    case ENTAO => "entao"
    case SENAO => "senao"
    case FIMSE => "fimse"
    case ENQUANTO => "enquanto"
    case FACA => "faca"
    case FIMENQUANTO => "fimenquanto"
    case PARA => "para"
    case FIMPARA => "fimpara"
    case LEIA => "leia"
    case ESCREVA => "escreva"
    case INICIO => "inicio"
    case FIM => "fim"
    case INTEIRO => "inteiro"
    case REAL => "real"
    case CARACTER => "caracter"
    case LOGICO => "logico"
    case VERDADEIRO => "verdadeiro"
    case FALSO => "falso"
    case E => "e"
    case OU => "ou"
    case MAIS => "+"
    case MENOS => "-"
    case MULTIPLICACAO => "*"
    case DIVISAO => "/"
    case ATRIBUICAO => "<-"
    case IGUAL => "=="
    case DIFERENTE => "!="
    case MENOR => "<"
    case MENOR_IGUAL => "<="
    case MAIOR => ">"
    case MAIOR_IGUAL => ">="
    case ABRE_PARENTESES => "("
    case FECHA_PARENTESES => ")"
    case ABRE_CHAVES => "{"
    case FECHA_CHAVES => "}"
    case PONTO_E_VIRGULA => ";"
    case VIRGULA => ","
    case NUMERO_INTEIRO => "numero_inteiro"
    case NUMERO_REAL => "numero_real"
    case TEXTO => "texto"
    case IDENTIFICADOR => "identificador"
    case EOF => "eof"
  }

  /** The four type keywords a declaration starts with. */
  predicate IsTypeKind(k: TokenKind) {
    k == INTEIRO || k == REAL || k == CARACTER || k == LOGICO
  }

  /** A token with the line and column where its text starts. */
  datatype Token = Token(kind: TokenKind, lexeme: string, line: int, column: int)

  /** Expressions; operators are kept as the text of their token. */
  datatype Expr =
    | Binary(left: Expr, op: string, right: Expr)
    | Unary(op: string, operand: Expr)
    | Literal(value: string)
    | Var(name: string)

  /** A declaration of one variable with the type word it was declared with. */
  datatype Decl = Decl(typ: string, name: string)

  datatype Cmd =
    | Assign(target: string, value: Expr)
    | If(cond: Expr, thenCmds: seq<Cmd>, elseCmds: seq<Cmd>)
    | While(cond: Expr, body: seq<Cmd>)
    | Read(target: string)
    | Write(exprs: seq<Expr>)

  datatype Program = Program(decls: seq<Decl>, cmds: seq<Cmd>)

  /** The names of the variables an expression reads. */
  function ExprVars(e: Expr): set<string> {
    match e
    case Binary(l, _, r) => ExprVars(l) + ExprVars(r)
    case Unary(_, x) => ExprVars(x)
    case Literal(_) => {}
    case Var(n) => {n}
  }

  /** The names of the variables a list of expressions reads. */
  function ExprsVars(es: seq<Expr>): set<string>
    decreases |es|
  {
    if es == [] then {} else ExprVars(es[0]) + ExprsVars(es[1..])
  }

  /** The names of the variables a command reads or assigns. */
  function CmdVars(c: Cmd): set<string>
    decreases c
  {
    match c
    case Assign(x, e) => {x} + ExprVars(e)
    case If(cond, thenCmds, elseCmds) => ExprVars(cond) + BlockVars(thenCmds) + BlockVars(elseCmds)
    case While(cond, body) => ExprVars(cond) + BlockVars(body)
    case Read(x) => {x}
    case Write(es) => ExprsVars(es)
  }

  function BlockVars(cs: seq<Cmd>): set<string>
    decreases cs
  {
    if cs == [] then {} else CmdVars(cs[0]) + BlockVars(cs[1..])
  }

  /** The number of operator nodes in an expression. */
  function OpCount(e: Expr): nat {
    match e
    case Binary(l, _, r) => OpCount(l) + OpCount(r) + 1
    case Unary(_, x) => OpCount(x) + 1
    case Literal(_) => 0
    case Var(_) => 0
  }
}
