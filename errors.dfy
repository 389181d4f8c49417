/**
 * The compiler's exception hierarchy (src/exceptions.py) as values, and the
 * Option/Result wrappers that carry a raised error out of a phase.
 */
module Errors {
  import opened Chars

  /** The four subclasses of the base error, one per compiler phase. */
  datatype ErrorKind = Lexical | Syntactic | Semantic | CodeGeneration

  /** An error with its message and the position it was raised at; a line of
      0 means "no position". */
  datatype CompilerError = CompilerError(kind: ErrorKind, message: string, line: int, column: int)

  datatype Option<T> = None | Some(value: T)

  /** A phase's answer: its value, or the error it raised. */
  datatype Result<T> = Ok(value: T) | Err(error: CompilerError)

  /** A phase that produces no value: it passes or raises. */
  datatype Outcome = Pass | Fail(error: CompilerError)

  /** An error raised without a position (`linha` and `coluna` default to 0). */
  function Unlocated(kind: ErrorKind, message: string): (e: CompilerError)
    ensures e.kind == kind && e.message == message && e.line == 0 && e.column == 0
  {
    CompilerError(kind, message, 0, 0)
  }

  /** The suffix `_formatar_mensagem` appends to a located message. */
  function LocationSuffix(line: int, column: int): string {
    " (linha " + IntToDecimal(line) + ", coluna " + IntToDecimal(column) + ")"
  }

  /** The text the exception carries: the message alone when the line is not
      positive, otherwise the message followed by its location. */
  function FormattedMessage(e: CompilerError): (r: string)
    ensures e.message <= r
    ensures r == e.message <==> e.line <= 0
    ensures e.line > 0 ==> r[|e.message|..] == LocationSuffix(e.line, e.column)
  {
    if e.line > 0 then e.message + LocationSuffix(e.line, e.column) else e.message
  }

  /** The location suffix names its line and column unambiguously: two
      located errors with the same message format to the same text only when
      they agree on line and column. */
  lemma LocationDetermined(e1: CompilerError, e2: CompilerError)
    requires e1.message == e2.message && e1.line > 0 && e2.line > 0
    requires FormattedMessage(e1) == FormattedMessage(e2)
    ensures e1.line == e2.line && e1.column == e2.column
  {
    var s1, s2 := LocationSuffix(e1.line, e1.column), LocationSuffix(e2.line, e2.column);
    assert s1 == s2;
    var l1, l2 := IntToDecimal(e1.line), IntToDecimal(e2.line);
    var c1, c2 := IntToDecimal(e1.column), IntToDecimal(e2.column);
    var pre := " (linha ";
    assert s1 == pre + l1 + ", coluna " + c1 + ")";
    assert s2 == pre + l2 + ", coluna " + c2 + ")";
    SplitAtComma(l1, c1, l2, c2, s1[|pre|..]);
    DecimalInjective(e1.line, e2.line);
    IntDecimalInjective(e1.column, e2.column);
  }

  /** Two "digits, comma, rest" strings agree only when the digit runs agree
      (the digit run cannot contain the comma). */
  lemma SplitAtComma(l1: string, c1: string, l2: string, c2: string, s: string)
    requires AllDigits(l1) && AllDigits(l2)
    requires s == l1 + ", coluna " + c1 + ")" && s == l2 + ", coluna " + c2 + ")"
    ensures l1 == l2 && c1 == c2
  {
    assert forall i :: 0 <= i < |l1| ==> s[i] == l1[i];
    assert forall i :: 0 <= i < |l2| ==> s[i] == l2[i];
    assert s[|l1|] == ',' && s[|l2|] == ',';
    assert |l1| == |l2|;
    assert l1 == s[..|l1|] == l2;
    assert c1 + ")" == s[|l1| + 9..] == c2 + ")";
    assert c1 == (c1 + ")")[..|c1|];
  }

  lemma IntDecimalInjective(a: int, b: int)
    requires IntToDecimal(a) == IntToDecimal(b)
    ensures a == b
  {
    assert (a < 0) == (IntToDecimal(a)[0] == '-');
    assert (b < 0) == (IntToDecimal(b)[0] == '-');
    if a < 0 {
      assert NatToDecimal(-a) == IntToDecimal(a)[1..] == NatToDecimal(-b);
      DecimalInjective(-a, -b);
    } else {
      DecimalInjective(a, b);
    }
  }
}
