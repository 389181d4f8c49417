/**
 * The lexical analyser (src/lexer.py): a cursor over the source text that
 * skips blanks and comments and cuts out one token per call, tracking the
 * line and column it is at.
 *
 * The functions below say what one call computes from the cursor state
 * (position, line, column); the class `Lexer` is the cursor itself, and each
 * of its methods is proved to move the cursor exactly as its function says.
 */
module Lexing {
  import opened Chars
  import opened Errors
  import opened Ast

  /** Where the cursor is: index into the source, line and column. */
  datatype LexState = LexState(pos: nat, line: int, column: int)

  /** A fresh lexer stands on the first character, line 1, column 1. */
  const Start: LexState := LexState(0, 1, 1)

  const MultipleDotsMessage: string := "Número real inválido - múltiplos pontos decimais"
  const UnclosedStringMessage: string := "String não fechada"
  const LoneBangMessage: string := "Operador '!' deve ser seguido de '='"

  function UnexpectedCharMessage(c: char): string {
    "Caractere inesperado '" + [c] + "'"
  }

  // ------------------------------------------------------------------
  // Keywords and symbols
  // ------------------------------------------------------------------

  /** The keyword table: the 21 reserved words and their kinds. */
  function KeywordKind(word: string): Option<TokenKind> {
    if word == "se" then Some(SE)
    else if word == "entao" then Some(ENTAO)
    else if word == "senao" then Some(SENAO)
    else if word == "fimse" then Some(FIMSE)
    else if word == "enquanto" then Some(ENQUANTO)
    else if word == "fimenquanto" then Some(FIMENQUANTO)
    else if word == "para" then Some(PARA)
    else if word == "fimpara" then Some(FIMPARA)
    else if word == "leia" then Some(LEIA)
    else if word == "escreva" then Some(ESCREVA)
    else if word == "inicio" then Some(INICIO)
    else if word == "fim" then Some(FIM)
    else if word == "inteiro" then Some(INTEIRO)
    else if word == "real" then Some(REAL)
    else if word == "caracter" then Some(CARACTER)
    else if word == "logico" then Some(LOGICO)
    else if word == "e" then Some(E)
    else if word == "ou" then Some(OU)
    else if word == "faca" then Some(FACA)
    else if word == "verdadeiro" then Some(VERDADEIRO)
    else if word == "falso" then Some(FALSO)
    else None
  }

  /** The kinds that the keyword table produces. */
  predicate IsKeywordKind(k: TokenKind) {
    match k
    case SE | ENTAO | SENAO | FIMSE | ENQUANTO | FIMENQUANTO | PARA | FIMPARA | LEIA | ESCREVA => true
    case INICIO | FIM | INTEIRO | REAL | CARACTER | LOGICO | E | OU | FACA | VERDADEIRO | FALSO => true
    case _ => false
  }

  /** The kind of a word: its keyword kind, looked up in lower case, or
      identifier. */
  function WordKind(lexeme: string): TokenKind {
    match KeywordKind(Lower(lexeme))
    case Some(k) => k
    case None => IDENTIFICADOR
  }

  /** The one-character symbols. */
  function SimpleSymbolKind(c: char): Option<TokenKind> {
    if c == '(' then Some(ABRE_PARENTESES)
    else if c == ')' then Some(FECHA_PARENTESES)
    else if c == '{' then Some(ABRE_CHAVES)
    else if c == '}' then Some(FECHA_CHAVES)
    else if c == ';' then Some(PONTO_E_VIRGULA)
    else if c == ',' then Some(VIRGULA)
    else if c == '+' then Some(MAIS)
    else if c == '-' then Some(MENOS)
    else if c == '*' then Some(MULTIPLICACAO)
    else if c == '/' then Some(DIVISAO)
    else None
  }

  // ------------------------------------------------------------------
  // Blanks and comments
  // ------------------------------------------------------------------

  /** The number of newline characters in a text. */
  function Newlines(s: string): nat {
    if s == [] then 0 else Newlines(s[..|s| - 1]) + (if s[|s| - 1] == '\n' then 1 else 0)
  }

  /** Moving over one blank or block-comment character: a newline starts the
      next line at column 1, anything else moves one column right. */
  function Step(c: char, st: LexState): LexState {
    if c == '\n' then LexState(st.pos + 1, st.line + 1, 1)
    else LexState(st.pos + 1, st.line, st.column + 1)
  }

  /** The rest of a `//` comment: up to (not over) the next newline. The
      column is not advanced. */
  function LineCommentEnd(src: string, st: LexState): (r: LexState)
    requires st.pos <= |src|
    ensures st.pos <= r.pos <= |src| && r.line == st.line && r.column == st.column
    ensures r.pos == |src| || src[r.pos] == '\n'
    ensures forall k :: st.pos <= k < r.pos ==> src[k] != '\n'
    decreases |src| - st.pos
  {
    if st.pos < |src| && src[st.pos] != '\n' then LineCommentEnd(src, st.(pos := st.pos + 1))
    else st
  }

  /** The body of a block comment, from just after its opening: stops after
      the first closing pair, or at the last character when the comment is
      never closed. */
  function BlockCommentEnd(src: string, st: LexState): (r: LexState)
    requires st.pos <= |src|
    ensures st.pos <= r.pos <= |src|
    decreases |src| - st.pos
  {
    if st.pos + 1 < |src| then
      if src[st.pos] == '*' && src[st.pos + 1] == '/' then st.(pos := st.pos + 2)
      else BlockCommentEnd(src, Step(src[st.pos], st))
    else st
  }

  /** Where the cursor stops after skipping blanks and comments. */
  function TriviaEnd(src: string, st: LexState): (r: LexState)
    requires st.pos <= |src|
    ensures st.pos <= r.pos <= |src|
    ensures r.pos < |src| ==> !IsSpace(src[r.pos])
    decreases |src| - st.pos
  {
    if st.pos < |src| then
      var c := src[st.pos];
      if IsSpace(c) then TriviaEnd(src, Step(c, st))
      else if c == '/' && st.pos + 1 < |src| && src[st.pos + 1] == '/' then
        TriviaEnd(src, LineCommentEnd(src, st))
      else if c == '/' && st.pos + 1 < |src| && src[st.pos + 1] == '*' then
        TriviaEnd(src, BlockCommentEnd(src, st.(pos := st.pos + 2)))
      else st
    else st
  }

  // ------------------------------------------------------------------
  // One token
  // ------------------------------------------------------------------

  /** The end of the run of identifier characters starting at p. */
  function IdentifierEnd(src: string, p: nat): (q: nat)
    requires p <= |src|
    ensures p <= q <= |src|
    ensures forall k :: p <= k < q ==> IsIdentChar(src[k])
    ensures q == |src| || !IsIdentChar(src[q])
    decreases |src| - p
  {
    if p < |src| && IsIdentChar(src[p]) then IdentifierEnd(src, p + 1) else p
  }

  /** An identifier or keyword: the whole run of identifier characters; the
      kind is looked up in lower case and the text is kept as written. */
  function ScanIdentifier(src: string, st: LexState): (Token, LexState)
    requires st.pos <= |src|
  {
    var q := IdentifierEnd(src, st.pos);
    var lexeme := src[st.pos..q];
    (Token(WordKind(lexeme), lexeme, st.line, st.column), LexState(q, st.line, st.column + (q - st.pos)))
  }

  /** How a run of digits and dots ends: after its last character, with or
      without one dot, or at a second dot. */
  datatype NumberRun = NumberEnd(end: nat, isReal: bool) | SecondDot(at: nat)

  function DotCount(s: string): nat {
    if s == [] then 0 else DotCount(s[..|s| - 1]) + (if s[|s| - 1] == '.' then 1 else 0)
  }

  predicate IsNumberChar(c: char) {
    IsDigit(c) || c == '.'
  }

  /** Reads digits and dots from p on, `seenDot` telling whether a dot has
      already been read. */
  function NumberRunFrom(src: string, p: nat, seenDot: bool): (r: NumberRun)
    requires p <= |src|
    ensures r.NumberEnd? ==> p <= r.end <= |src|
    ensures r.SecondDot? ==> p <= r.at < |src|
    decreases |src| - p
  {
    if p < |src| && IsNumberChar(src[p]) then
      if src[p] == '.' && seenDot then SecondDot(p)
      else NumberRunFrom(src, p + 1, seenDot || src[p] == '.')
    else NumberEnd(p, seenDot)
  }

  /** A number run is the longest run of digits and dots holding at most one
      dot; it stops at a second dot instead. */
  lemma {:induction false} NumberRunShape(src: string, p: nat, seenDot: bool)
    requires p <= |src|
    ensures var r := NumberRunFrom(src, p, seenDot);
            r.NumberEnd? ==>
              && (forall k :: p <= k < r.end ==> IsNumberChar(src[k]))
              && (r.end == |src| || !IsNumberChar(src[r.end]))
              && (if seenDot then 1 else 0) + DotCount(src[p..r.end]) <= 1
              && r.isReal == (seenDot || DotCount(src[p..r.end]) == 1)
    ensures var r := NumberRunFrom(src, p, seenDot);
            r.SecondDot? ==>
              && src[r.at] == '.'
              && (forall k :: p <= k < r.at ==> IsNumberChar(src[k]))
              && (if seenDot then 1 else 0) + DotCount(src[p..r.at]) == 1
    decreases |src| - p
  {
    var r := NumberRunFrom(src, p, seenDot);
    if p < |src| && IsNumberChar(src[p]) {
      if !(src[p] == '.' && seenDot) {
        NumberRunShape(src, p + 1, seenDot || src[p] == '.');
        DotCountCons(src, p, if r.NumberEnd? then r.end else r.at);
      } else {
        assert src[p..p] == [];
      }
    } else {
      assert src[p..p] == [];
    }
  }

  /** Counting dots from p is counting the one at p and then the rest. */
  lemma DotCountCons(src: string, p: nat, q: nat)
    requires p < q <= |src|
    ensures DotCount(src[p..q]) == (if src[p] == '.' then 1 else 0) + DotCount(src[p + 1..q])
    decreases q - p
  {
    if q > p + 1 {
      DotCountCons(src, p, q - 1);
      assert src[p..q][..q - p - 1] == src[p..q - 1];
      assert src[p + 1..q][..q - p - 2] == src[p + 1..q - 1];
    } else {
      assert src[p..q][..0] == [];
    }
  }

  /** A number: digits with at most one dot; a second dot is an error at the
      column of that dot. */
  function ScanNumber(src: string, st: LexState): (Result<Token>, LexState)
    requires st.pos <= |src|
  {
    match NumberRunFrom(src, st.pos, false)
    case NumberEnd(q, isReal) =>
      var kind := if isReal then NUMERO_REAL else NUMERO_INTEIRO;
      (Ok(Token(kind, src[st.pos..q], st.line, st.column)), LexState(q, st.line, st.column + (q - st.pos)))
    case SecondDot(at) =>
      var column := st.column + (at - st.pos);
      (Err(CompilerError(Lexical, MultipleDotsMessage, st.line, column)), LexState(at, st.line, column))
  }

  /** Moving over one character inside a string literal: a newline moves to
      the next line, where the column is reset to 1 and then advanced. */
  function StringStep(c: char, st: LexState): LexState {
    if c == '\n' then LexState(st.pos + 1, st.line + 1, 2)
    else LexState(st.pos + 1, st.line, st.column + 1)
  }

  /** The cursor after the characters of a string body: at the closing quote,
      or at the end of the source. */
  function StringEnd(src: string, st: LexState): (r: LexState)
    requires st.pos <= |src|
    ensures st.pos <= r.pos <= |src|
    ensures r.pos < |src| ==> src[r.pos] == '"'
    ensures forall k :: st.pos <= k < r.pos ==> src[k] != '"'
    decreases |src| - st.pos
  {
    if st.pos < |src| && src[st.pos] != '"' then StringEnd(src, StringStep(src[st.pos], st))
    else st
  }

  /** A string literal: the text between the quotes, which may span lines;
      without a closing quote it is an error at the opening column. */
  function ScanString(src: string, st: LexState): (Result<Token>, LexState)
    requires st.pos < |src|
  {
    var e := StringEnd(src, LexState(st.pos + 1, st.line, st.column + 1));
    if e.pos >= |src| then
      (Err(CompilerError(Lexical, UnclosedStringMessage, e.line, st.column)), e)
    else
      (Ok(Token(TEXTO, src[st.pos + 1..e.pos], e.line, st.column)), LexState(e.pos + 1, e.line, e.column + 1))
  }

  /** The two-character operators `<=`, `>=`, `==`, `!=` and `<-`; nothing
      (and no movement) otherwise. */
  function ScanCompound(src: string, st: LexState): (Option<Token>, LexState)
    requires st.pos < |src|
  {
    var c := src[st.pos];
    var next := if st.pos + 1 < |src| then Some(src[st.pos + 1]) else None;
    var moved := LexState(st.pos + 2, st.line, st.column + 2);
    if next == Some('=') then
      if c == '<' then (Some(Token(MENOR_IGUAL, "<=", st.line, st.column)), moved)
      else if c == '>' then (Some(Token(MAIOR_IGUAL, ">=", st.line, st.column)), moved)
      else if c == '=' then (Some(Token(IGUAL, "==", st.line, st.column)), moved)
      else if c == '!' then (Some(Token(DIFERENTE, "!=", st.line, st.column)), moved)
      else (None, moved)
    else if c == '<' && next == Some('-') then (Some(Token(ATRIBUICAO, "<-", st.line, st.column)), moved)
    else (None, st)
  }

  /** A token starting with `<`, `>`, `=` or `!`: a two-character operator,
      else the one-character reading, where a lone `=` is an assignment and a
      lone `!` an error. */
  function ScanOperator(src: string, st: LexState): (Result<Token>, LexState)
    requires st.pos < |src| && src[st.pos] in {'<', '>', '=', '!'}
  {
    var c := src[st.pos];
    match ScanCompound(src, st)
    case (Some(t), after) => (Ok(t), after)
    case (None, after) =>
      var moved := LexState(after.pos + 1, after.line, after.column + 1);
      if c == '=' then (Ok(Token(ATRIBUICAO, "=", moved.line, st.column)), moved)
      else if c == '<' then (Ok(Token(MENOR, "<", moved.line, st.column)), moved)
      else if c == '>' then (Ok(Token(MAIOR, ">", moved.line, st.column)), moved)
      else (Err(CompilerError(Lexical, LoneBangMessage, moved.line, st.column)), moved)
  }

  /** The token that starts at a character that is not blank: the branch is
      chosen by that character, and a character that starts no token is an
      error where it stands. */
  function ReadToken(src: string, st: LexState): (r: (Result<Token>, LexState))
    requires st.pos < |src|
    ensures st.pos <= r.1.pos <= |src|
    ensures r.0.Ok? ==> r.0.value.kind != EOF && st.pos < r.1.pos
  {
    var c := src[st.pos];
    if IsAlpha(c) || c == '_' then
      var (t, after) := ScanIdentifier(src, st);
      (Ok(t), after)
    else if IsDigit(c) then ScanNumber(src, st)
    else if c == '"' then ScanString(src, st)
    else if c in {'<', '>', '=', '!'} then ScanOperator(src, st)
    else
      match SimpleSymbolKind(c)
      case Some(k) => (Ok(Token(k, [c], st.line, st.column)), LexState(st.pos + 1, st.line, st.column + 1))
      case None => (Err(CompilerError(Lexical, UnexpectedCharMessage(c), st.line, st.column)), st)
  }

  /** One call of the lexer: skip blanks and comments, then read one token
      (EOF at the end of the source, repeatedly), or raise. */
  function Scan(src: string, st0: LexState): (r: (Result<Token>, LexState))
    requires st0.pos <= |src|
    ensures st0.pos <= r.1.pos <= |src|
    ensures r.0.Ok? && r.0.value.kind != EOF ==> st0.pos < r.1.pos
    ensures r.0.Ok? && r.0.value.kind == EOF ==> r.1.pos == |src|
  {
    var st := TriviaEnd(src, st0);
    if st.pos >= |src| then (Ok(Token(EOF, "EOF", st.line, st.column)), st)
    else ReadToken(src, st)
  }

  // ------------------------------------------------------------------
  // The token stream the parser reads
  // ------------------------------------------------------------------

  /** Every token successive calls return, in order, followed by the call
      that ends the stream: the EOF token, or the error raised. */
  datatype TokenStream = TokenStream(tokens: seq<Token>, end: Result<Token>)

  /** The stream is made of the tokens before the end, none of them EOF, and
      ends with an EOF token or an error. */
  predicate WellFormedStream(s: TokenStream) {
    (forall i :: 0 <= i < |s.tokens| ==> s.tokens[i].kind != EOF)
    && (s.end.Ok? ==> s.end.value.kind == EOF)
  }

  function TokenizeFrom(src: string, st: LexState): (s: TokenStream)
    requires st.pos <= |src|
    ensures WellFormedStream(s)
    decreases |src| - st.pos
  {
    var (r, after) := Scan(src, st);
    match r
    case Err(e) => TokenStream([], Err(e))
    case Ok(t) =>
      if t.kind == EOF then TokenStream([], Ok(t))
      else
        var rest := TokenizeFrom(src, after);
        TokenStream([t] + rest.tokens, rest.end)
  }

  /** The tokens a fresh lexer returns on the whole source. */
  function Tokenize(src: string): (s: TokenStream)
    ensures WellFormedStream(s)
  {
    TokenizeFrom(src, Start)
  }

  // ------------------------------------------------------------------
  // Properties of one call
  // ------------------------------------------------------------------

  /** The keyword table maps each reserved word to the kind whose value is
      that word ... */
  lemma KeywordTableAgreesWithKinds(word: string)
    ensures KeywordKind(word).Some? ==> KindValue(KeywordKind(word).value) == word
  {
  }

  /** ... and only keyword kinds appear in it. */
  lemma KeywordTableGivesKeywordKinds(word: string)
    ensures KeywordKind(word).Some? ==> IsKeywordKind(KeywordKind(word).value)
  {
    if |word| <= 3 {
    } else if |word| <= 5 {
    } else if |word| <= 7 {
    } else {
    }
  }

  /** Every keyword kind is found under its own value. */
  lemma KeywordTableComplete(k: TokenKind)
    requires IsKeywordKind(k)
    ensures KeywordKind(KindValue(k)) == Some(k)
  {
  }

  lemma NewlinesSplit(s: string, p: nat, q: nat, r: nat)
    requires p <= q <= r <= |s|
    ensures Newlines(s[p..r]) == Newlines(s[p..q]) + Newlines(s[q..r])
    decreases r - q
  {
    if r > q {
      NewlinesSplit(s, p, q, r - 1);
      assert s[p..r][..r - p - 1] == s[p..r - 1];
      assert s[q..r][..r - q - 1] == s[q..r - 1];
    } else {
      assert s[q..r] == [];
    }
  }

  lemma {:induction false} NoNewlines(s: string, p: nat, q: nat)
    requires p <= q <= |s|
    requires forall k :: p <= k < q ==> s[k] != '\n'
    ensures Newlines(s[p..q]) == 0
    decreases q - p
  {
    if q > p {
      NoNewlines(s, p, q - 1);
      assert s[p..q][..q - p - 1] == s[p..q - 1];
    } else {
      assert s[p..q] == [];
    }
  }

  /** Stepping over one character counts it as a line break exactly when it
      is a newline. */
  lemma StepLines(src: string, st: LexState, next: LexState, r: LexState)
    requires st.pos < |src| && next.pos == st.pos + 1 && next.pos <= r.pos <= |src|
    requires next.line == st.line + (if src[st.pos] == '\n' then 1 else 0)
    requires r.line == next.line + Newlines(src[next.pos..r.pos])
    ensures r.line == st.line + Newlines(src[st.pos..r.pos])
  {
    NewlinesSplit(src, st.pos, next.pos, r.pos);
    assert src[st.pos..next.pos] == [src[st.pos]];
  }

  lemma {:induction false} BlockCommentLines(src: string, st: LexState)
    requires st.pos <= |src|
    ensures BlockCommentEnd(src, st).line == st.line + Newlines(src[st.pos..BlockCommentEnd(src, st).pos])
    decreases |src| - st.pos
  {
    var r := BlockCommentEnd(src, st);
    if st.pos + 1 < |src| {
      if src[st.pos] == '*' && src[st.pos + 1] == '/' {
        NoNewlines(src, st.pos, st.pos + 2);
      } else {
        BlockCommentLines(src, Step(src[st.pos], st));
        StepLines(src, st, Step(src[st.pos], st), r);
      }
    } else {
      assert src[st.pos..st.pos] == [];
    }
  }

  /** Skipping blanks and comments moves down one line per newline passed
      over, and by nothing else. */
  lemma {:induction false} TriviaLines(src: string, st: LexState)
    requires st.pos <= |src|
    ensures TriviaEnd(src, st).line == st.line + Newlines(src[st.pos..TriviaEnd(src, st).pos])
    decreases |src| - st.pos
  {
    var r := TriviaEnd(src, st);
    if st.pos < |src| {
      var c := src[st.pos];
      if IsSpace(c) {
        TriviaSpaceLines(src, st);
      } else if c == '/' && st.pos + 1 < |src| && src[st.pos + 1] == '/' {
        TriviaLineCommentLines(src, st);
      } else if c == '/' && st.pos + 1 < |src| && src[st.pos + 1] == '*' {
        TriviaBlockCommentLines(src, st);
      } else {
        assert r == st;
        assert src[st.pos..st.pos] == [];
      }
    } else {
      assert src[st.pos..st.pos] == [];
    }
  }

  lemma {:induction false} TriviaSpaceLines(src: string, st: LexState)
    requires st.pos < |src| && IsSpace(src[st.pos])
    ensures TriviaEnd(src, st).line == st.line + Newlines(src[st.pos..TriviaEnd(src, st).pos])
    decreases |src| - st.pos, 0
  {
    var next := Step(src[st.pos], st);
    var r := TriviaEnd(src, st);
    assert r == TriviaEnd(src, next);
    TriviaLines(src, next);
    StepLines(src, st, next, r);
  }

  lemma {:induction false} TriviaLineCommentLines(src: string, st: LexState)
    requires st.pos + 1 < |src| && src[st.pos] == '/' && src[st.pos + 1] == '/'
    ensures TriviaEnd(src, st).line == st.line + Newlines(src[st.pos..TriviaEnd(src, st).pos])
    decreases |src| - st.pos, 0
  {
    var m := LineCommentEnd(src, st);
    var r := TriviaEnd(src, st);
    assert r == TriviaEnd(src, m);
    TriviaLines(src, m);
    NoNewlines(src, st.pos, m.pos);
    NewlinesSplit(src, st.pos, m.pos, r.pos);
  }

  lemma {:induction false} TriviaBlockCommentLines(src: string, st: LexState)
    requires st.pos + 1 < |src| && src[st.pos] == '/' && src[st.pos + 1] == '*'
    ensures TriviaEnd(src, st).line == st.line + Newlines(src[st.pos..TriviaEnd(src, st).pos])
    decreases |src| - st.pos, 0
  {
    var open := st.(pos := st.pos + 2);
    var m := BlockCommentEnd(src, open);
    var r := TriviaEnd(src, st);
    assert r == TriviaEnd(src, m);
    TriviaLines(src, m);
    BlockCommentLines(src, open);
    NoNewlines(src, st.pos, open.pos);
    NewlinesSplit(src, st.pos, open.pos, m.pos);
    NewlinesSplit(src, st.pos, m.pos, r.pos);
  }

  lemma {:induction false} StringLines(src: string, st: LexState)
    requires st.pos <= |src|
    ensures StringEnd(src, st).line == st.line + Newlines(src[st.pos..StringEnd(src, st).pos])
    decreases |src| - st.pos
  {
    var r := StringEnd(src, st);
    if st.pos < |src| && src[st.pos] != '"' {
      StringLines(src, StringStep(src[st.pos], st));
      StepLines(src, st, StringStep(src[st.pos], st), r);
    } else {
      assert src[st.pos..st.pos] == [];
    }
  }

  lemma ReadTokenLines(src: string, st: LexState)
    requires st.pos < |src|
    ensures ReadToken(src, st).1.line == st.line + Newlines(src[st.pos..ReadToken(src, st).1.pos])
  {
    var c := src[st.pos];
    if IsAlpha(c) || c == '_' {
      assert ReadToken(src, st).1 == ScanIdentifier(src, st).1;
      NoNewlines(src, st.pos, ScanIdentifier(src, st).1.pos);
    } else if IsDigit(c) {
      assert ReadToken(src, st) == ScanNumber(src, st);
      NumberTokenLines(src, st);
    } else if c == '"' {
      assert ReadToken(src, st) == ScanString(src, st);
      StringTokenLines(src, st);
    } else if c in {'<', '>', '=', '!'} {
      assert ReadToken(src, st) == ScanOperator(src, st);
      OperatorTokenLines(src, st);
    } else {
      SymbolTokenLines(src, st);
    }
  }

  lemma NumberTokenLines(src: string, st: LexState)
    requires st.pos < |src|
    ensures ScanNumber(src, st).1.line == st.line + Newlines(src[st.pos..ScanNumber(src, st).1.pos])
  {
    NumberRunShape(src, st.pos, false);
    NoNewlines(src, st.pos, ScanNumber(src, st).1.pos);
  }

  lemma OperatorTokenLines(src: string, st: LexState)
    requires st.pos < |src| && src[st.pos] in {'<', '>', '=', '!'}
    ensures ScanOperator(src, st).1.line == st.line + Newlines(src[st.pos..ScanOperator(src, st).1.pos])
  {
    var after := ScanOperator(src, st).1;
    assert after.line == st.line && st.pos < after.pos <= st.pos + 2;
    assert after.pos == st.pos + 2 ==> src[st.pos + 1] in {'=', '-'};
    NoNewlines(src, st.pos, after.pos);
  }

  lemma SymbolTokenLines(src: string, st: LexState)
    requires st.pos < |src|
    requires var c := src[st.pos]; !(IsAlpha(c) || c == '_' || IsDigit(c) || c == '"' || c in {'<', '>', '=', '!'})
    ensures ReadToken(src, st).1.line == st.line + Newlines(src[st.pos..ReadToken(src, st).1.pos])
  {
    var after := ReadToken(src, st).1;
    assert after.line == st.line && st.pos <= after.pos <= st.pos + 1;
    NoNewlines(src, st.pos, after.pos);
  }

  lemma StringTokenLines(src: string, st: LexState)
    requires st.pos < |src| && src[st.pos] == '"'
    ensures ScanString(src, st).1.line == st.line + Newlines(src[st.pos..ScanString(src, st).1.pos])
  {
    var after := ScanString(src, st).1;
    var open := LexState(st.pos + 1, st.line, st.column + 1);
    var e := StringEnd(src, open);
    StringLines(src, open);
    NoNewlines(src, st.pos, open.pos);
    NewlinesSplit(src, st.pos, open.pos, e.pos);
    if e.pos < |src| {
      NoNewlines(src, e.pos, after.pos);
      NewlinesSplit(src, st.pos, e.pos, after.pos);
    }
  }

  /** The lexer's line counter: after any call, the line has grown by the
      number of newlines in the text the call consumed, whether it returned a
      token or raised. */
  lemma ScanCountsLines(src: string, st0: LexState)
    requires st0.pos <= |src|
    ensures Scan(src, st0).1.line == st0.line + Newlines(src[st0.pos..Scan(src, st0).1.pos])
  {
    var st := TriviaEnd(src, st0);
    var after := Scan(src, st0).1;
    TriviaLines(src, st0);
    if st.pos < |src| {
      ReadTokenLines(src, st);
      NewlinesSplit(src, st0.pos, st.pos, after.pos);
    }
  }

  /** What a token's text says about its kind: a keyword is its kind's value
      in any letter case, an identifier is a non-keyword word, numbers are
      digits with no dot (integer) or exactly one (real), and each symbol is
      its kind's value, a lone `=` being read as assignment. */
  predicate TokenMatchesKind(t: Token) {
    match t.kind
    case IDENTIFICADOR =>
      |t.lexeme| > 0 && (IsAlpha(t.lexeme[0]) || t.lexeme[0] == '_')
      && (forall i :: 0 <= i < |t.lexeme| ==> IsIdentChar(t.lexeme[i]))
      && KeywordKind(Lower(t.lexeme)).None?
    case NUMERO_INTEIRO =>
      |t.lexeme| > 0 && AllDigits(t.lexeme)
    case NUMERO_REAL =>
      |t.lexeme| > 0 && IsDigit(t.lexeme[0])
      && (forall i :: 0 <= i < |t.lexeme| ==> IsNumberChar(t.lexeme[i]))
      && DotCount(t.lexeme) == 1
    case TEXTO => '"' !in t.lexeme
    case EOF => t.lexeme == "EOF"
    case _ =>
      if IsKeywordKind(t.kind) then KindValue(t.kind) == Lower(t.lexeme)
      else KindValue(t.kind) == t.lexeme || (t.kind == ATRIBUICAO && t.lexeme == "=")
  }

  lemma DotCountZero(s: string)
    requires AllDigits(s)
    ensures DotCount(s) == 0
  {
    if s != [] {
      DotCountZero(s[..|s| - 1]);
    }
  }

  lemma DigitsWithoutDot(s: string)
    requires forall i :: 0 <= i < |s| ==> IsNumberChar(s[i])
    requires DotCount(s) == 0
    ensures AllDigits(s)
  {
    if s != [] {
      DigitsWithoutDot(s[..|s| - 1]);
    }
  }

  /** Every token read agrees with its text, and its text is the source text
      the call consumed (a string's text being what lies between its
      quotes); the token is placed at the column where it starts. */
  /** What a successful read yields: a token whose kind fits its text, placed
      at the column where the read began, whose lexeme is the text consumed
      (for a string, the text between its quotes). */
  predicate TextFacts(src: string, st: LexState, r: Result<Token>, after: LexState)
    requires st.pos <= after.pos <= |src|
  {
    r.Ok? ==>
      && TokenMatchesKind(r.value) && r.value.column == st.column
      && (r.value.kind != TEXTO ==> r.value.lexeme == src[st.pos..after.pos])
      && (r.value.kind == TEXTO ==>
            && st.pos + 2 <= after.pos && src[st.pos] == '"' && src[after.pos - 1] == '"'
            && r.value.lexeme == src[st.pos + 1..after.pos - 1])
  }

  lemma ReadTokenText(src: string, st: LexState)
    requires st.pos < |src|
    ensures var (r, after) := ReadToken(src, st);
            r.Ok? ==> TokenMatchesKind(r.value) && r.value.column == st.column
    ensures var (r, after) := ReadToken(src, st);
            r.Ok? && r.value.kind != TEXTO ==> r.value.lexeme == src[st.pos..after.pos]
    ensures var (r, after) := ReadToken(src, st);
            r.Ok? && r.value.kind == TEXTO ==>
              && st.pos + 2 <= after.pos && src[st.pos] == '"' && src[after.pos - 1] == '"'
              && r.value.lexeme == src[st.pos + 1..after.pos - 1]
  {
    var c := src[st.pos];
    if IsAlpha(c) || c == '_' {
      assert ReadToken(src, st) == (Ok(ScanIdentifier(src, st).0), ScanIdentifier(src, st).1);
      IdentifierText(src, st);
    } else if IsDigit(c) {
      assert ReadToken(src, st) == ScanNumber(src, st);
      NumberText(src, st);
    } else if c == '"' {
      assert ReadToken(src, st) == ScanString(src, st);
      StringText(src, st);
    } else if c in {'<', '>', '=', '!'} {
      assert ReadToken(src, st) == ScanOperator(src, st);
      OperatorText(src, st);
    } else {
      SymbolText(src, st);
    }
    var (r, after) := ReadToken(src, st);
    assert TextFacts(src, st, r, after);
  }

  lemma IdentifierText(src: string, st: LexState)
    requires st.pos < |src| && (IsAlpha(src[st.pos]) || src[st.pos] == '_')
    ensures TextFacts(src, st, Ok(ScanIdentifier(src, st).0), ScanIdentifier(src, st).1)
  {
    var t := ScanIdentifier(src, st).0;
    KeywordTableAgreesWithKinds(Lower(t.lexeme));
    KeywordTableGivesKeywordKinds(Lower(t.lexeme));
  }

  lemma NumberText(src: string, st: LexState)
    requires st.pos < |src| && IsDigit(src[st.pos])
    ensures TextFacts(src, st, ScanNumber(src, st).0, ScanNumber(src, st).1)
  {
    var (r, after) := ScanNumber(src, st);
    NumberRunShape(src, st.pos, false);
    if r.Ok? {
      var lx := r.value.lexeme;
      if r.value.kind == NUMERO_INTEIRO {
        DigitsWithoutDot(lx);
      }
    }
  }

  lemma StringText(src: string, st: LexState)
    requires st.pos < |src| && src[st.pos] == '"'
    ensures TextFacts(src, st, ScanString(src, st).0, ScanString(src, st).1)
  {
  }

  lemma OperatorText(src: string, st: LexState)
    requires st.pos < |src| && src[st.pos] in {'<', '>', '=', '!'}
    ensures TextFacts(src, st, ScanOperator(src, st).0, ScanOperator(src, st).1)
  {
    var (r, after) := ScanOperator(src, st);
    if r.Ok? {
      var t := r.value;
      assert !IsKeywordKind(t.kind);
      if after.pos == st.pos + 2 {
        assert src[st.pos..after.pos] == [src[st.pos], src[st.pos + 1]];
      } else {
        assert src[st.pos..after.pos] == [src[st.pos]];
      }
    }
  }

  lemma SymbolText(src: string, st: LexState)
    requires st.pos < |src|
    requires var c := src[st.pos]; !(IsAlpha(c) || c == '_' || IsDigit(c) || c == '"' || c in {'<', '>', '=', '!'})
    ensures TextFacts(src, st, ReadToken(src, st).0, ReadToken(src, st).1)
  {
  }

  /** The characters that can start a token. */
  predicate StartsToken(c: char) {
    IsAlpha(c) || c == '_' || IsDigit(c) || c == '"' || c in {'<', '>', '=', '!'} || SimpleSymbolKind(c).Some?
  }

  /** The errors a read can raise: a second dot in a number, a string left
      open, a lone `!`, or a character that starts no token, which is rejected
      where it stands and is the only cause of that error. */
  lemma ReadTokenErrors(src: string, st: LexState)
    requires st.pos < |src|
    ensures var (r, after) := ReadToken(src, st);
            r.Err? ==>
              && r.error.kind == Lexical
              && (r.error.message in {MultipleDotsMessage, UnclosedStringMessage, LoneBangMessage}
                  || r.error.message == UnexpectedCharMessage(src[st.pos]))
    ensures var (r, after) := ReadToken(src, st);
            !StartsToken(src[st.pos]) <==>
              r == Err(CompilerError(Lexical, UnexpectedCharMessage(src[st.pos]), st.line, st.column))
  {
    var (r, after) := ReadToken(src, st);
    if StartsToken(src[st.pos]) && r.Err? {
      assert r.error.message in {MultipleDotsMessage, UnclosedStringMessage, LoneBangMessage};
      assert UnexpectedCharMessage(src[st.pos])[0] == 'C';
    }
  }

  /** At the end of the source the lexer returns EOF and stays where it is,
      so asking again returns the same EOF token. */
  lemma ScanEofRepeats(src: string, st0: LexState)
    requires st0.pos <= |src|
    requires Scan(src, st0).0.Ok? && Scan(src, st0).0.value.kind == EOF
    ensures Scan(src, Scan(src, st0).1) == Scan(src, st0)
  {
    var st := TriviaEnd(src, st0);
    assert st.pos == |src|;
    assert TriviaEnd(src, st) == st;
  }

  // ------------------------------------------------------------------
  // The lexer object
  // ------------------------------------------------------------------

  class Lexer {
    const source: string
    var pos: nat
    var line: int
    var column: int

    function State(): LexState
      reads this
    {
      LexState(pos, line, column)
    }

    predicate Valid()
      reads this
    {
      pos <= |source|
    }

    constructor (src: string)
      ensures source == src && State() == Start && Valid()
    {
      source := src;
      pos := 0;
      line := 1;
      column := 1;
    }

    /** Moves n characters right on the same line. */
    method Advance(n: nat)
      modifies this
      ensures pos == old(pos) + n && column == old(column) + n && line == old(line)
    {
      pos := pos + n;
      column := column + n;
    }

    /** The character under the cursor, if any. */
    function CurrentChar(): (c: Option<char>)
      reads this
      ensures c.Some? <==> pos < |source|
      ensures c.Some? ==> c.value == source[pos]
    {
      if pos < |source| then Some(source[pos]) else None
    }

    /** The character after the cursor, if any. */
    function NextChar(): (c: Option<char>)
      reads this
      ensures c.Some? <==> pos + 1 < |source|
      ensures c.Some? ==> c.value == source[pos + 1]
    {
      if pos + 1 < |source| then Some(source[pos + 1]) else None
    }

    /** Moves over the rest of a `//` comment, up to the newline. */
    method SkipLineComment()
      requires Valid()
      modifies this
      ensures Valid() && State() == LineCommentEnd(source, old(State()))
    {
      while pos < |source| && source[pos] != '\n'
        invariant old(pos) <= pos <= |source| && line == old(line) && column == old(column)
        invariant LineCommentEnd(source, State()) == LineCommentEnd(source, old(State()))
        decreases |source| - pos
      {
        pos := pos + 1;
      }
    }

    /** Moves over a block comment whose opening pair is under the cursor. */
    method SkipBlockComment()
      requires Valid() && pos + 1 < |source|
      modifies this
      ensures Valid() && State() == BlockCommentEnd(source, old(State()).(pos := old(pos) + 2))
    {
      pos := pos + 2;
      ghost var s0 := State();
      while pos + 1 < |source|
        invariant s0.pos <= pos <= |source|
        invariant BlockCommentEnd(source, State()) == BlockCommentEnd(source, s0)
        decreases |source| - pos
      {
        if source[pos] == '*' && source[pos + 1] == '/' {
          pos := pos + 2;
          break;
        }
        if source[pos] == '\n' {
          line := line + 1;
          column := 1;
        } else {
          column := column + 1;
        }
        pos := pos + 1;
      }
    }

    method SkipWhitespaceAndComments()
      requires Valid()
      modifies this
      ensures Valid() && State() == TriviaEnd(source, old(State()))
    {
      while pos < |source|
        invariant Valid()
        invariant TriviaEnd(source, State()) == TriviaEnd(source, old(State()))
        decreases |source| - pos
      {
        var c := source[pos];
        if IsSpace(c) {
          if c == '\n' {
            line := line + 1;
            column := 1;
          } else {
            column := column + 1;
          }
          pos := pos + 1;
        } else if c == '/' && NextChar() == Some('/') {
          SkipLineComment();
        } else if c == '/' && NextChar() == Some('*') {
          SkipBlockComment();
        } else {
          break;
        }
      }
    }

    method ReadIdentifierOrKeyword() returns (t: Token)
      requires Valid()
      modifies this
      ensures Valid() && (t, State()) == ScanIdentifier(source, old(State()))
    {
      var startColumn := column;
      var lexeme := "";
      var c := CurrentChar();
      while c.Some? && IsIdentChar(c.value)
        invariant old(pos) <= pos <= |source| && line == old(line)
        invariant column == startColumn + (pos - old(pos))
        invariant lexeme == source[old(pos)..pos]
        invariant IdentifierEnd(source, pos) == IdentifierEnd(source, old(pos))
        invariant c == CurrentChar()
        decreases |source| - pos
      {
        lexeme := lexeme + [c.value];
        Advance(1);
        c := CurrentChar();
      }
      t := Token(WordKind(lexeme), lexeme, line, startColumn);
    }

    method ReadNumber() returns (r: Result<Token>)
      requires Valid()
      modifies this
      ensures Valid() && (r, State()) == ScanNumber(source, old(State()))
    {
      var startColumn := column;
      var lexeme := "";
      var isReal := false;
      var c := CurrentChar();
      while c.Some? && (IsDigit(c.value) || c.value == '.')
        invariant old(pos) <= pos <= |source| && line == old(line)
        invariant column == startColumn + (pos - old(pos))
        invariant lexeme == source[old(pos)..pos]
        invariant NumberRunFrom(source, pos, isReal) == NumberRunFrom(source, old(pos), false)
        invariant c == CurrentChar()
        decreases |source| - pos
      {
        if c.value == '.' {
          if isReal {
            return Err(CompilerError(Lexical, MultipleDotsMessage, line, column));
          }
          isReal := true;
        }
        lexeme := lexeme + [c.value];
        Advance(1);
        c := CurrentChar();
      }
      var kind := if isReal then NUMERO_REAL else NUMERO_INTEIRO;
      r := Ok(Token(kind, lexeme, line, startColumn));
    }

    method ReadString() returns (r: Result<Token>)
      requires Valid() && pos < |source|
      modifies this
      ensures Valid() && (r, State()) == ScanString(source, old(State()))
    {
      var startColumn := column;
      Advance(1);
      ghost var s0 := State();
      var lexeme := "";
      while CurrentChar().Some? && CurrentChar().value != '"'
        invariant s0.pos <= pos <= |source|
        invariant lexeme == source[s0.pos..pos]
        invariant StringEnd(source, State()) == StringEnd(source, s0)
        decreases |source| - pos
      {
        var c := CurrentChar().value;
        if c == '\n' {
          line := line + 1;
          column := 1;
        }
        lexeme := lexeme + [c];
        Advance(1);
      }
      if CurrentChar() != Some('"') {
        return Err(CompilerError(Lexical, UnclosedStringMessage, line, startColumn));
      }
      Advance(1);
      r := Ok(Token(TEXTO, lexeme, line, startColumn));
    }

    method ReadCompoundOperator() returns (r: Option<Token>)
      requires Valid() && pos < |source|
      modifies this
      ensures Valid() && (r, State()) == ScanCompound(source, old(State()))
    {
      var startColumn := column;
      var c := source[pos];
      var next := NextChar();
      if next == Some('=') {
        Advance(2);
        if c == '<' {
          return Some(Token(MENOR_IGUAL, "<=", line, startColumn));
        } else if c == '>' {
          return Some(Token(MAIOR_IGUAL, ">=", line, startColumn));
        } else if c == '=' {
          return Some(Token(IGUAL, "==", line, startColumn));
        } else if c == '!' {
          return Some(Token(DIFERENTE, "!=", line, startColumn));
        }
      } else if c == '<' && next == Some('-') {
        Advance(2);
        return Some(Token(ATRIBUICAO, "<-", line, startColumn));
      }
      return None;
    }

    /** A token starting with `<`, `>`, `=` or `!`: a two-character
        operator, else the one-character reading of that character. */
    method ReadOperator() returns (r: Result<Token>)
      requires Valid() && pos < |source| && source[pos] in {'<', '>', '=', '!'}
      modifies this
      ensures Valid() && (r, State()) == ScanOperator(source, old(State()))
    {
      var c := source[pos];
      var startColumn := column;
      var compound := ReadCompoundOperator();
      if compound.Some? {
        return Ok(compound.value);
      }
      Advance(1);
      if c == '=' {
        r := Ok(Token(ATRIBUICAO, "=", line, startColumn));
      } else if c == '<' {
        r := Ok(Token(MENOR, "<", line, startColumn));
      } else if c == '>' {
        r := Ok(Token(MAIOR, ">", line, startColumn));
      } else {
        r := Err(CompilerError(Lexical, LoneBangMessage, line, startColumn));
      }
    }

    /** Returns the next token, or the lexical error met. */
    method NextToken() returns (r: Result<Token>)
      requires Valid()
      modifies this
      ensures Valid() && (r, State()) == Scan(source, old(State()))
    {
      SkipWhitespaceAndComments();
      if pos >= |source| {
        return Ok(Token(EOF, "EOF", line, column));
      }
      var c := source[pos];
      var startColumn := column;
      if IsAlpha(c) || c == '_' {
        var t := ReadIdentifierOrKeyword();
        return Ok(t);
      }
      if IsDigit(c) {
        r := ReadNumber();
        return;
      }
      if c == '"' {
        r := ReadString();
        return;
      }
      if c in {'<', '>', '=', '!'} {
        r := ReadOperator();
        return;
      }
      match SimpleSymbolKind(c)
      case Some(k) =>
        Advance(1);
        r := Ok(Token(k, [c], line, startColumn));
      case None =>
        r := Err(CompilerError(Lexical, UnexpectedCharMessage(c), line, startColumn));
    }
  }
}
