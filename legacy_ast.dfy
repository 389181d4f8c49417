/**
 * The tokens and the syntax tree of the older, single-file compiler
 * (programa.py): its own `TipoToken` enumeration, tokens with their text and
 * place, and the tree nodes its parser builds and its analyser visits.
 */
module LegacyAst {
  import opened Chars

  /** `TipoToken`, in the order of its declaration. */
  datatype Kind =
    | SE | ENTAO | SENAO | FIMSE | ENQUANTO | FIMENQUANTO | PARA | FIMPARA
    | LEIA | ESCREVA | INICIO | FIM | INTEIRO | REAL | CARACTER | LOGICO
    | E | OU | ABRE_PARENTESES | FECHA_PARENTESES | ABRE_CHAVES | FECHA_CHAVES
    | VIRGULA | PONTO_E_VIRGULA | ATRIBUICAO | MAIOR | MENOR | MAIOR_IGUAL
    | MENOR_IGUAL | IGUAL | DIFERENTE | MAIS | MENOS | MULTIPLICACAO | DIVISAO
    | IDENTIFICADOR | NUMERO_INTEIRO | NUMERO_REAL | TEXTO | EOF | FACA
    | VERDADEIRO | FALSO

  /** The member's `.name`, as error messages print it. */
  function KindName(k: Kind): string {
    match k
    case SE => "SE" case ENTAO => "ENTAO" case SENAO => "SENAO" case FIMSE => "FIMSE"
    case ENQUANTO => "ENQUANTO" case FIMENQUANTO => "FIMENQUANTO" case PARA => "PARA"
    case FIMPARA => "FIMPARA" case LEIA => "LEIA" case ESCREVA => "ESCREVA"
    case INICIO => "INICIO" case FIM => "FIM" case INTEIRO => "INTEIRO" case REAL => "REAL"
    case CARACTER => "CARACTER" case LOGICO => "LOGICO" case E => "E" case OU => "OU"
    case ABRE_PARENTESES => "ABRE_PARENTESES" case FECHA_PARENTESES => "FECHA_PARENTESES"
    case ABRE_CHAVES => "ABRE_CHAVES" case FECHA_CHAVES => "FECHA_CHAVES"
    case VIRGULA => "VIRGULA" case PONTO_E_VIRGULA => "PONTO_E_VIRGULA"
    case ATRIBUICAO => "ATRIBUICAO" case MAIOR => "MAIOR" case MENOR => "MENOR"
    case MAIOR_IGUAL => "MAIOR_IGUAL" case MENOR_IGUAL => "MENOR_IGUAL" case IGUAL => "IGUAL"
    case DIFERENTE => "DIFERENTE" case MAIS => "MAIS" case MENOS => "MENOS"
    case MULTIPLICACAO => "MULTIPLICACAO" case DIVISAO => "DIVISAO"
    case IDENTIFICADOR => "IDENTIFICADOR" case NUMERO_INTEIRO => "NUMERO_INTEIRO"
    case NUMERO_REAL => "NUMERO_REAL" case TEXTO => "TEXTO" case EOF => "EOF" case FACA => "FACA"
    case VERDADEIRO => "VERDADEIRO" case FALSO => "FALSO"
  }

  /** `Token`: its kind, its text (`valor`) and where it starts. */
  datatype Token = Token(kind: Kind, value: string, line: int, column: int)

  /** The value of a `NumeroLiteral`: a Python int, float or bool (the
      parser stores `verdadeiro` and `falso` as numeric literals too). */
  datatype Number = IntVal(i: int) | FloatVal(x: real) | BoolVal(b: bool)

  /** The nodes of programa.py's tree. `Programa` and `Bloco` hold lists of
      nodes (declarations, commands or bare expressions); `Se` has an
      optional `else` node. */
  datatype Node =
    | Programa(items: seq<Node>)
    | DeclaracaoVariavel(typ: Kind, names: seq<string>)
    | Atribuicao(name: string, value: Node)
    | ChamadaFuncao(callee: string, args: seq<Node>)
    | Se(cond: Node, thenBlock: Node, elseBlock: ElseBlock)
    | Enquanto(cond: Node, body: Node)
    | Identificador(id: string)
    | NumeroLiteral(number: Number)
    | StringLiteral(text: string)
    | Binario(left: Node, op: Token, right: Node)
    | Bloco(statements: seq<Node>)

  /** `bloco_senao`: `None` or a node. */
  datatype ElseBlock = NoElse | Else(block: Node)

  /** Python's `-valor` on the value of a numeric literal: a bool counts as
      the int 0 or 1, so its negation is an int. */
  function Negate(n: Number): (m: Number)
    ensures n.IntVal? ==> m == IntVal(-n.i)
    ensures n.FloatVal? ==> m == FloatVal(-n.x)
    ensures n.BoolVal? ==> m == IntVal(if n.b then -1 else 0)
  {
    match n
    case IntVal(i) => IntVal(-i)
    case FloatVal(x) => FloatVal(-x)
    case BoolVal(b) => IntVal(if b then -1 else 0)
  }

  /** The number a literal stands for in Python arithmetic. */
  function Magnitude(n: Number): real {
    match n
    case IntVal(i) => i as real
    case FloatVal(x) => x
    case BoolVal(b) => if b then 1.0 else 0.0
  }

  /** Folding `-` into a literal gives the number `0 - x` would compute. */
  lemma NegateIsZeroMinus(n: Number)
    ensures Magnitude(Negate(n)) == 0.0 - Magnitude(n)
  {
  }

  /** Negating twice gives back an int or a float, but turns a bool into an
      int: `--verdadeiro` is the int 1. */
  lemma NegateTwice(n: Number)
    ensures !n.BoolVal? ==> Negate(Negate(n)) == n
    ensures n.BoolVal? ==> Negate(Negate(n)) == IntVal(if n.b then 1 else 0)
  {
  }

  /** A lexeme of the legacy lexer's real numbers: digits, one dot and
      digits, starting with a digit. */
  predicate RealLexeme(v: string) {
    exists p :: 0 < p < |v| && v[p] == '.' && AllDigits(v[..p]) && AllDigits(v[p + 1..])
  }

  function Power10(n: nat): (r: nat)
    ensures r >= 1
  {
    if n == 0 then 1 else 10 * Power10(n - 1)
  }

  /** The position of the first `.`, or the length when there is none. */
  function DotIndex(v: string): (p: nat)
    ensures p <= |v|
    ensures forall k :: 0 <= k < p ==> v[k] != '.'
    ensures p < |v| ==> v[p] == '.'
  {
    if v == [] || v[0] == '.' then 0 else 1 + DotIndex(v[1..])
  }

  /** `float(valor)` read exactly: the whole part plus the fraction. */
  function RealLexemeValue(v: string): real
    requires RealLexeme(v)
  {
    var p := DotIndex(v);
    assert p < |v| && AllDigits(v[..p]) && AllDigits(v[p + 1..]) by {
      var q :| 0 < q < |v| && v[q] == '.' && AllDigits(v[..q]) && AllDigits(v[q + 1..]);
      forall k | 0 <= k < q
        ensures v[k] != '.'
      {
        assert v[k] == v[..q][k];
      }
    }
    DecimalValue(v[..p]) as real + DecimalValue(v[p + 1..]) as real / Power10(|v| - p - 1) as real
  }
}
