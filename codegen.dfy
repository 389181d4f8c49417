/**
 * The Python code generator (src/codegen.py): the text of each expression,
 * the indented lines of each command, and the whole program wrapped in a
 * `main` function.
 *
 * The lines are specified by functions of the indentation level and of the
 * table of declared types; the class `CodeGenerator` produces them the way
 * `GeradorDeCodigo` does, by appending to its list of lines while raising
 * and lowering its indentation level.
 */
module CodeGen {
  import opened Ast

  // ---------------------------------------------------------------------------
  // Expressions (`_gerar_expressao` and its helpers)

  /** `_gerar_literal`: the logical literals become Python's; any other
      literal, quoted text included, is copied. */
  function LiteralText(v: string): (s: string)
    ensures v == "verdadeiro" ==> s == "True"
    ensures v == "falso" ==> s == "False"
    ensures v != "verdadeiro" && v != "falso" ==> s == v
  {
    if v == "verdadeiro" then "True"
    else if v == "falso" then "False"
    else v
  }

  /** The operator table of `_gerar_expressao_binaria`: `e` and `ou` become
      `and` and `or`; every other operator is kept. */
  function OperatorText(op: string): (s: string)
    ensures op == "e" ==> s == "and"
    ensures op == "ou" ==> s == "or"
    ensures op != "e" && op != "ou" ==> s == op
  {
    if op == "e" then "and" else if op == "ou" then "or" else op
  }

  /** The text of an expression: every operation in its own parentheses. */
  function ExprText(e: Expr): string {
    match e
    case Literal(v) => LiteralText(v)
    case Var(n) => n
    case Binary(l, op, r) => "(" + ExprText(l) + " " + OperatorText(op) + " " + ExprText(r) + ")"
    case Unary(op, x) => if op == "-" then "(-" + ExprText(x) + ")" else "(" + op + ExprText(x) + ")"
  }

  /** The number of opening minus closing parentheses. */
  function Balance(s: string): int {
    if s == [] then 0
    else Balance(s[..|s| - 1]) + (if s[|s| - 1] == '(' then 1 else if s[|s| - 1] == ')' then -1 else 0)
  }

  lemma {:induction false} BalanceAppend(a: string, b: string)
    ensures Balance(a + b) == Balance(a) + Balance(b)
    decreases |b|
  {
    if b == [] {
      assert a + b == a;
    } else {
      var b' := b[..|b| - 1];
      assert (a + b)[..|a + b| - 1] == a + b';
      assert (a + b)[|a + b| - 1] == b[|b| - 1];
      BalanceAppend(a, b');
    }
  }

  /** Texts of operators, names and literals without parentheses. */
  predicate ParenFree(s: string) {
    forall k :: 0 <= k < |s| ==> s[k] != '(' && s[k] != ')'
  }

  lemma {:induction false} ParenFreeBalance(s: string)
    requires ParenFree(s)
    ensures Balance(s) == 0
  {
    if s != [] {
      ParenFreeBalance(s[..|s| - 1]);
    }
  }

  /** No parenthesis in the operators, names and literals of e. */
  predicate LeavesParenFree(e: Expr) {
    match e
    case Literal(v) => ParenFree(v)
    case Var(n) => ParenFree(n)
    case Binary(l, op, r) => LeavesParenFree(l) && ParenFree(op) && LeavesParenFree(r)
    case Unary(op, x) => ParenFree(op) && LeavesParenFree(x)
  }

  lemma CharBalance(c: char)
    ensures Balance([c]) == if c == '(' then 1 else if c == ')' then -1 else 0
  {
    assert [c][..0] == [];
  }

  lemma ParenthesisedBalance(m: string)
    ensures Balance("(" + m + ")") == Balance(m)
  {
    CharBalance('(');
    CharBalance(')');
    BalanceAppend("(", m);
    BalanceAppend("(" + m, ")");
  }

  lemma OperatorParenFree(op: string)
    requires ParenFree(op)
    ensures ParenFree(OperatorText(op))
  {
  }

  lemma BinaryBalanced(l: Expr, op: string, r: Expr)
    requires Balance(ExprText(l)) == 0 && Balance(ExprText(r)) == 0 && ParenFree(op)
    ensures Balance(ExprText(Binary(l, op, r))) == 0
  {
    var a, o, b := ExprText(l), OperatorText(op), ExprText(r);
    OperatorParenFree(op);
    ParenFreeBalance(o);
    CharBalance('(');
    CharBalance(' ');
    CharBalance(')');
    BalanceAppend("(", a);
    BalanceAppend("(" + a, " ");
    BalanceAppend("(" + a + " ", o);
    BalanceAppend("(" + a + " " + o, " ");
    BalanceAppend("(" + a + " " + o + " ", b);
    BalanceAppend("(" + a + " " + o + " " + b, ")");
  }

  /** Unary minus is written like any other unary operator. */
  lemma UnaryText(op: string, x: Expr)
    ensures ExprText(Unary(op, x)) == "(" + op + ExprText(x) + ")"
  {
    if op == "-" {
      assert "(-" == "(" + op;
    }
  }

  lemma UnaryBalanced(op: string, x: Expr)
    requires Balance(ExprText(x)) == 0 && ParenFree(op)
    ensures Balance(ExprText(Unary(op, x))) == 0
  {
    var a := ExprText(x);
    UnaryText(op, x);
    ParenFreeBalance(op);
    CharBalance('(');
    CharBalance(')');
    BalanceAppend("(", op);
    BalanceAppend("(" + op, a);
    BalanceAppend("(" + op + a, ")");
  }

  /** The generated parentheses balance: each operation opens exactly one and
      closes it. */
  lemma {:induction false} ExprTextBalanced(e: Expr)
    requires LeavesParenFree(e)
    ensures Balance(ExprText(e)) == 0
  {
    match e
    case Literal(v) =>
      ParenFreeBalance(v);
      ParenFreeBalance(LiteralText(v));
    case Var(n) =>
      ParenFreeBalance(n);
    case Binary(l, op, r) =>
      ExprTextBalanced(l);
      ExprTextBalanced(r);
      BinaryBalanced(l, op, r);
    case Unary(op, x) =>
      ExprTextBalanced(x);
      UnaryBalanced(op, x);
  }

  /** An operation's text is wrapped in parentheses. */
  lemma OperationParenthesised(e: Expr)
    requires e.Binary? || e.Unary?
    ensures |ExprText(e)| >= 2 && ExprText(e)[0] == '(' && ExprText(e)[|ExprText(e)| - 1] == ')'
  {
  }

  /** `", ".join` of the texts of the expressions of `escreva`. */
  function ArgumentsText(es: seq<Expr>): string {
    if es == [] then ""
    else if |es| == 1 then ExprText(es[0])
    else ArgumentsText(es[..|es| - 1]) + ", " + ExprText(es[|es| - 1])
  }

  // ---------------------------------------------------------------------------
  // Lines

  /** Four spaces per level. */
  function Indent(level: nat): (s: string)
    ensures |s| == 4 * level
    ensures forall k :: 0 <= k < |s| ==> s[k] == ' '
  {
    if level == 0 then "" else Indent(level - 1) + "    "
  }

  /** `_adicionar_linha`: the text after the indentation of its level. */
  function Line(level: nat, text: string): string {
    Indent(level) + text
  }

  /** The value a declaration starts with (`valores_padrao`); `None` for an
      unknown type. */
  function DefaultValue(typ: string): (v: string)
    ensures typ == "inteiro" ==> v == "0"
    ensures typ == "real" ==> v == "0.0"
    ensures typ == "caracter" ==> v == "\"\""
    ensures typ == "logico" ==> v == "False"
    ensures typ != "inteiro" && typ != "real" && typ != "caracter" && typ != "logico" ==> v == "None"
  {
    if typ == "inteiro" then "0"
    else if typ == "real" then "0.0"
    else if typ == "caracter" then "\"\""
    else if typ == "logico" then "False"
    else "None"
  }

  /** One `name = default` line per declaration, in order. */
  function DeclarationLines(decls: seq<Decl>, level: nat): seq<string> {
    if decls == [] then []
    else
      var d := decls[|decls| - 1];
      DeclarationLines(decls[..|decls| - 1], level) + [Line(level, d.name + " = " + DefaultValue(d.typ))]
  }

  /** `_gerar_declaracoes`: a comment, the declarations and a blank line;
      nothing at all without declarations. */
  function DeclarationsBlock(decls: seq<Decl>, level: nat): seq<string> {
    if decls == [] then []
    else [Line(level, "# Declarações de variáveis")] + DeclarationLines(decls, level) + [Line(level, "")]
  }

  /** `tabela_tipos` after the declarations: a later declaration of a name
      replaces an earlier one. */
  function DeclaredTypes(types: map<string, string>, decls: seq<Decl>): map<string, string> {
    if decls == [] then types
    else DeclaredTypes(types, decls[..|decls| - 1])[decls[|decls| - 1].name := decls[|decls| - 1].typ]
  }

  /** The type `_gerar_entrada` reads for a name: `caracter` when the name
      was never declared. */
  function TypeOf(types: map<string, string>, name: string): string {
    if name in types then types[name] else "caracter"
  }

  const Prompt := "input(\"Digite um valor: \")"

  /** `leia` of a number: read a line, convert it, and fall back on a
      default when the conversion fails or the input has ended. */
  function NumberReadLines(name: string, conversion: string, fallback: string, level: nat): seq<string> {
    [Line(level, "_input_temp = " + Prompt), Line(level, "try:"),
     Line(level + 1, name + " = " + conversion + "(_input_temp)"),
     Line(level, "except (ValueError, EOFError):"),
     Line(level + 1, name + " = " + fallback + "  # Valor padrão para entrada inválida")]
  }

  /** `leia` of a logical value: true for a handful of affirmative words. */
  function LogicalReadLines(name: string, level: nat): seq<string> {
    [Line(level, "try:"),
     Line(level + 1, "_input_temp = " + Prompt),
     Line(level + 1, name + " = _input_temp.lower() in ['true', 'verdadeiro', '1', 'sim', 's']"),
     Line(level, "except EOFError:"),
     Line(level + 1, name + " = False  # Valor padrão para entrada inválida")]
  }

  /** `leia` of text: the line as read, or empty text once the input has
      ended. */
  function TextReadLines(name: string, level: nat): seq<string> {
    [Line(level, "try:"),
     Line(level + 1, name + " = " + Prompt),
     Line(level, "except EOFError:"),
     Line(level + 1, name + " = \"\"  # Valor padrão para entrada inválida")]
  }

  /** The lines `leia` becomes for a variable of the given type. */
  function ReadLines(name: string, typ: string, level: nat): seq<string> {
    if typ == "inteiro" then NumberReadLines(name, "int", "0", level)
    else if typ == "real" then NumberReadLines(name, "float", "0.0", level)
    else if typ == "logico" then LogicalReadLines(name, level)
    else TextReadLines(name, level)
  }

  /** The lines of one command at the given level. */
  function CmdLines(c: Cmd, level: nat, types: map<string, string>): seq<string>
    decreases c, 1
  {
    match c
    case Assign(x, e) => [Line(level, x + " = " + ExprText(e))]
    case If(_, _, _) => IfLines(c, level, types)
    case While(cond, body) => [Line(level, "while " + ExprText(cond) + ":")] + BodyLines(body, level + 1, types)
    case Read(x) => ReadLines(x, TypeOf(types, x), level)
    case Write(es) => [Line(level, "print(" + ArgumentsText(es) + ")")]
  }

  /** A conditional: `if`, the `then` body one level in and, only when there
      are `else` commands, `else:` and those commands one level in. */
  function IfLines(c: Cmd, level: nat, types: map<string, string>): seq<string>
    requires c.If?
    decreases c, 0
  {
    [Line(level, "if " + ExprText(c.cond) + ":")] + BodyLines(c.thenCmds, level + 1, types)
    + (if c.elseCmds == [] then [] else [Line(level, "else:")] + BlockLines(c.elseCmds, level + 1, types))
  }

  /** The lines of the commands, one after the other. */
  function BlockLines(cmds: seq<Cmd>, level: nat, types: map<string, string>): seq<string>
    decreases cmds, 0
  {
    if cmds == [] then [] else BlockLines(cmds[..|cmds| - 1], level, types) + CmdLines(cmds[|cmds| - 1], level, types)
  }

  /** A body: its commands, or `pass` when it has none. */
  function BodyLines(cmds: seq<Cmd>, level: nat, types: map<string, string>): seq<string>
    decreases cmds, 2
  {
    if cmds == [] then [Line(level, "pass")] else BlockLines(cmds, level, types)
  }

  const Header := ["# Código gerado automaticamente do Portugol", "", "def main():"]
  const Footer := ["", "if __name__ == '__main__':", "    main()"]

  /** `gerar`'s lines: the header, the body of `main` one level in, and the
      call of `main`. */
  function ProgramLines(p: Program, types: map<string, string>): seq<string> {
    Header + DeclarationsBlock(p.decls, 1) + BodyLines(p.cmds, 1, DeclaredTypes(types, p.decls)) + Footer
  }

  /** `'\n'.join(lines)`. */
  function Join(lines: seq<string>): string {
    if lines == [] then ""
    else if |lines| == 1 then lines[0]
    else Join(lines[..|lines| - 1]) + "\n" + lines[|lines| - 1]
  }

  // ---------------------------------------------------------------------------
  // Properties of the lines

  /** Every line starts with the indentation of at least its level. */
  predicate IndentedBy(lines: seq<string>, level: nat) {
    forall k :: 0 <= k < |lines| ==> Indent(level) <= lines[k]
  }

  lemma IndentGrows(level: nat)
    ensures Indent(level) <= Indent(level + 1)
  {
  }

  lemma LineIndented(level: nat, deeper: nat, text: string)
    requires level <= deeper
    ensures Indent(level) <= Line(deeper, text)
    decreases deeper
  {
    if level < deeper {
      LineIndented(level, deeper - 1, text);
      IndentGrows(deeper - 1);
      assert Indent(deeper) + text == Indent(deeper - 1) + ("    " + text);
    }
  }

  lemma IndentedAppend(a: seq<string>, b: seq<string>, level: nat)
    requires IndentedBy(a, level) && IndentedBy(b, level)
    ensures IndentedBy(a + b, level)
  {
  }

  lemma NumberReadIndented(name: string, conversion: string, fallback: string, level: nat)
    ensures IndentedBy(NumberReadLines(name, conversion, fallback, level), level)
  {
    LineIndented(level, level + 1, name + " = " + conversion + "(_input_temp)");
    LineIndented(level, level + 1, name + " = " + fallback + "  # Valor padrão para entrada inválida");
  }

  lemma LogicalReadIndented(name: string, level: nat)
    ensures IndentedBy(LogicalReadLines(name, level), level)
  {
    LineIndented(level, level + 1, "_input_temp = " + Prompt);
    LineIndented(level, level + 1, name + " = _input_temp.lower() in ['true', 'verdadeiro', '1', 'sim', 's']");
    LineIndented(level, level + 1, name + " = False  # Valor padrão para entrada inválida");
  }

  lemma TextReadIndented(name: string, level: nat)
    ensures IndentedBy(TextReadLines(name, level), level)
  {
    LineIndented(level, level + 1, name + " = " + Prompt);
    LineIndented(level, level + 1, name + " = \"\"  # Valor padrão para entrada inválida");
  }

  lemma ReadIndented(name: string, typ: string, level: nat)
    ensures IndentedBy(ReadLines(name, typ, level), level)
  {
    if typ == "inteiro" {
      NumberReadIndented(name, "int", "0", level);
    } else if typ == "real" {
      NumberReadIndented(name, "float", "0.0", level);
    } else if typ == "logico" {
      LogicalReadIndented(name, level);
    } else {
      TextReadIndented(name, level);
    }
  }

  /** Deeper lines are also indented by a lower level. */
  lemma IndentedDeeper(lines: seq<string>, level: nat)
    requires IndentedBy(lines, level + 1)
    ensures IndentedBy(lines, level)
  {
    IndentGrows(level);
  }

  /** Every line of a command is indented by at least the command's level. */
  lemma {:induction false} CmdIndented(c: Cmd, level: nat, types: map<string, string>)
    ensures IndentedBy(CmdLines(c, level, types), level)
    decreases c, 1
  {
    match c
    case Assign(x, e) =>
    case If(_, _, _) =>
      IfIndented(c, level, types);
    case While(cond, body) =>
      BodyIndented(body, level + 1, types);
      IndentedDeeper(BodyLines(body, level + 1, types), level);
    case Read(x) =>
      ReadIndented(x, TypeOf(types, x), level);
    case Write(es) =>
  }

  lemma {:induction false} IfIndented(c: Cmd, level: nat, types: map<string, string>)
    requires c.If?
    ensures IndentedBy(IfLines(c, level, types), level)
    decreases c, 0
  {
    BodyIndented(c.thenCmds, level + 1, types);
    IndentedDeeper(BodyLines(c.thenCmds, level + 1, types), level);
    if c.elseCmds != [] {
      BlockIndented(c.elseCmds, level + 1, types);
      IndentedDeeper(BlockLines(c.elseCmds, level + 1, types), level);
    }
  }

  lemma {:induction false} BlockIndented(cmds: seq<Cmd>, level: nat, types: map<string, string>)
    ensures IndentedBy(BlockLines(cmds, level, types), level)
    decreases cmds, 0
  {
    if cmds != [] {
      BlockIndented(cmds[..|cmds| - 1], level, types);
      CmdIndented(cmds[|cmds| - 1], level, types);
      IndentedAppend(BlockLines(cmds[..|cmds| - 1], level, types), CmdLines(cmds[|cmds| - 1], level, types), level);
    }
  }

  /** A body is never empty, and all of it is indented by its level: what
      Python needs after a line ending in `:`. */
  lemma {:induction false} BodyIndented(cmds: seq<Cmd>, level: nat, types: map<string, string>)
    ensures IndentedBy(BodyLines(cmds, level, types), level)
    ensures |BodyLines(cmds, level, types)| >= 1
    decreases cmds, 2
  {
    if cmds != [] {
      BlockIndented(cmds, level, types);
      CmdNotEmpty(cmds[|cmds| - 1], level, types);
    }
  }

  /** Every command gives at least one line. */
  lemma CmdNotEmpty(c: Cmd, level: nat, types: map<string, string>)
    ensures |CmdLines(c, level, types)| >= 1
  {
  }

  lemma {:induction false} DeclarationsIndented(decls: seq<Decl>, level: nat)
    ensures IndentedBy(DeclarationLines(decls, level), level)
  {
    if decls != [] {
      DeclarationsIndented(decls[..|decls| - 1], level);
    }
  }

  /** The program starts with the header and `def main():`, ends with the call
      of `main`, and everything in between is inside `main`: non-empty and
      indented by four spaces. */
  lemma ProgramShape(p: Program, types: map<string, string>)
    ensures ProgramLines(p, types)[..3] == Header
    ensures ProgramLines(p, types)[|ProgramLines(p, types)| - 3..] == Footer
    ensures |ProgramLines(p, types)| >= 7
    ensures IndentedBy(ProgramLines(p, types)[3..|ProgramLines(p, types)| - 3], 1)
  {
    var decls := DeclarationsBlock(p.decls, 1);
    var body := BodyLines(p.cmds, 1, DeclaredTypes(types, p.decls));
    DeclarationsIndented(p.decls, 1);
    BodyIndented(p.cmds, 1, DeclaredTypes(types, p.decls));
    var lines := ProgramLines(p, types);
    assert lines == Header + (decls + body) + Footer;
    assert lines[3..|lines| - 3] == decls + body;
  }

  /** A name never declared is read as text. */
  lemma UndeclaredIsReadAsText(types: map<string, string>, x: string, level: nat)
    requires x !in types
    ensures CmdLines(Read(x), level, types) == ReadLines(x, "caracter", level)
  {
  }

  /** The last declaration of a name decides the type its `leia` uses. */
  lemma {:induction false} LastDeclarationWins(types: map<string, string>, decls: seq<Decl>, k: nat)
    requires k < |decls|
    requires forall j :: k < j < |decls| ==> decls[j].name != decls[k].name
    ensures TypeOf(DeclaredTypes(types, decls), decls[k].name) == decls[k].typ
  {
    if k < |decls| - 1 {
      var init := decls[..|decls| - 1];
      LastDeclarationWins(types, init, k);
    }
  }

  lemma DeclarationStep(decls: seq<Decl>, k: nat, level: nat)
    requires k < |decls|
    ensures DeclarationLines(decls[..k + 1], level)
      == DeclarationLines(decls[..k], level) + [Line(level, decls[k].name + " = " + DefaultValue(decls[k].typ))]
  {
    assert decls[..k + 1][..k] == decls[..k];
  }

  lemma DeclaredTypesStep(types: map<string, string>, decls: seq<Decl>, k: nat)
    requires k < |decls|
    ensures DeclaredTypes(types, decls[..k + 1]) == DeclaredTypes(types, decls[..k])[decls[k].name := decls[k].typ]
  {
    assert decls[..k + 1][..k] == decls[..k];
  }

  lemma BlockStep(cmds: seq<Cmd>, k: nat, level: nat, types: map<string, string>)
    requires k < |cmds|
    ensures BlockLines(cmds[..k + 1], level, types) == BlockLines(cmds[..k], level, types) + CmdLines(cmds[k], level, types)
  {
    assert cmds[..k + 1][..k] == cmds[..k];
  }

  lemma ArgumentsStep(es: seq<Expr>, k: nat)
    requires k < |es|
    ensures ArgumentsText(es[..k + 1]) == if k == 0 then ExprText(es[0]) else ArgumentsText(es[..k]) + ", " + ExprText(es[k])
  {
    assert es[..k + 1][..k] == es[..k];
  }

  /** At level zero a line is its text. */
  lemma TopLevel(texts: seq<string>)
    ensures forall k :: 0 <= k < |texts| ==> Line(0, texts[k]) == texts[k]
  {
  }

  // ---------------------------------------------------------------------------
  // The generator object

  /** `GeradorDeCodigo`: the lines so far, the indentation level and the table
      of declared types. The table is only filled, never cleared, by
      `gerar`. */
  class CodeGenerator {
    var lines: seq<string>
    var level: nat
    var types: map<string, string>

    constructor()
      ensures lines == [] && level == 0 && types == map[]
    {
      lines := [];
      level := 0;
      types := map[];
    }

    /** `_adicionar_linha`. */
    method AddLine(text: string)
      modifies this
      ensures lines == old(lines) + [Line(level, text)]
      ensures level == old(level) && types == old(types)
    {
      lines := lines + [Indent(level) + text];
    }

    /** `_aumentar_indentacao`. */
    method IndentMore()
      modifies this
      ensures level == old(level) + 1 && lines == old(lines) && types == old(types)
    {
      level := level + 1;
    }

    /** `_diminuir_indentacao`: never below zero. */
    method IndentLess()
      modifies this
      ensures level == if old(level) > 0 then old(level) - 1 else 0
      ensures lines == old(lines) && types == old(types)
    {
      if level > 0 {
        level := level - 1;
      }
    }

    /** The `name = default` lines of the declarations, recording each
        declared type. */
    method DeclareAll(decls: seq<Decl>)
      modifies this
      ensures lines == old(lines) + DeclarationLines(decls, old(level))
      ensures types == DeclaredTypes(old(types), decls) && level == old(level)
    {
      var k := 0;
      while k < |decls|
        invariant 0 <= k <= |decls| && level == old(level)
        invariant lines == old(lines) + DeclarationLines(decls[..k], level)
        invariant types == DeclaredTypes(old(types), decls[..k])
      {
        DeclarationStep(decls, k, level);
        DeclaredTypesStep(old(types), decls, k);
        var d := decls[k];
        types := types[d.name := d.typ];
        AddLine(d.name + " = " + DefaultValue(d.typ));
        k := k + 1;
      }
      assert decls[..k] == decls;
    }

    /** `_gerar_declaracoes`. */
    method GenerateDeclarations(decls: seq<Decl>)
      modifies this
      ensures lines == old(lines) + DeclarationsBlock(decls, old(level))
      ensures types == DeclaredTypes(old(types), decls) && level == old(level)
    {
      if decls != [] {
        AddLine("# Declarações de variáveis");
        DeclareAll(decls);
        AddLine("");
      }
    }

    /** A line one level deeper, as the source writes it: raise the level,
        add the line, lower the level. */
    method AddNested(text: string)
      modifies this
      ensures lines == old(lines) + [Line(old(level) + 1, text)]
      ensures level == old(level) && types == old(types)
    {
      IndentMore();
      AddLine(text);
      IndentLess();
    }

    /** The `inteiro` and `real` branches of `_gerar_entrada`, which differ
        only in the conversion and the default. */
    method ReadNumber(x: string, conversion: string, fallback: string)
      modifies this
      ensures lines == old(lines) + NumberReadLines(x, conversion, fallback, old(level))
      ensures level == old(level) && types == old(types)
    {
      AddLine("_input_temp = " + Prompt);
      AddLine("try:");
      AddNested(x + " = " + conversion + "(_input_temp)");
      AddLine("except (ValueError, EOFError):");
      AddNested(x + " = " + fallback + "  # Valor padrão para entrada inválida");
    }

    /** The `logico` branch of `_gerar_entrada`. */
    method ReadLogical(x: string)
      modifies this
      ensures lines == old(lines) + LogicalReadLines(x, old(level))
      ensures level == old(level) && types == old(types)
    {
      AddLine("try:");
      IndentMore();
      AddLine("_input_temp = " + Prompt);
      AddLine(x + " = _input_temp.lower() in ['true', 'verdadeiro', '1', 'sim', 's']");
      IndentLess();
      AddLine("except EOFError:");
      AddNested(x + " = False  # Valor padrão para entrada inválida");
    }

    /** The text branch of `_gerar_entrada`. */
    method ReadText(x: string)
      modifies this
      ensures lines == old(lines) + TextReadLines(x, old(level))
      ensures level == old(level) && types == old(types)
    {
      AddLine("try:");
      AddNested(x + " = " + Prompt);
      AddLine("except EOFError:");
      AddNested(x + " = \"\"  # Valor padrão para entrada inválida");
    }

    /** `_gerar_entrada`: the declared type chooses the conversion. */
    method GenerateRead(x: string)
      modifies this
      ensures lines == old(lines) + ReadLines(x, TypeOf(old(types), x), old(level))
      ensures level == old(level) && types == old(types)
    {
      var typ := if x in types then types[x] else "caracter";
      if typ == "inteiro" {
        ReadNumber(x, "int", "0");
      } else if typ == "real" {
        ReadNumber(x, "float", "0.0");
      } else if typ == "logico" {
        ReadLogical(x);
      } else {
        ReadText(x);
      }
    }

    /** `_gerar_saida`: the expressions' texts joined by commas. */
    method GenerateWrite(es: seq<Expr>)
      modifies this
      ensures lines == old(lines) + [Line(old(level), "print(" + ArgumentsText(es) + ")")]
      ensures level == old(level) && types == old(types)
    {
      var text := "";
      var k := 0;
      while k < |es|
        invariant 0 <= k <= |es|
        invariant text == ArgumentsText(es[..k])
        invariant lines == old(lines) && level == old(level) && types == old(types)
      {
        ArgumentsStep(es, k);
        if k == 0 {
          text := ExprText(es[k]);
        } else {
          text := text + ", " + ExprText(es[k]);
        }
        k := k + 1;
      }
      assert es[..k] == es;
      AddLine("print(" + text + ")");
    }

    /** `_gerar_comando`: one generator per kind of command. */
    method GenerateCmd(c: Cmd)
      modifies this
      ensures lines == old(lines) + CmdLines(c, old(level), old(types))
      ensures level == old(level) && types == old(types)
      decreases c, 1
    {
      match c
      case Assign(x, e) =>
        AddLine(x + " = " + ExprText(e));
      case If(_, _, _) =>
        GenerateIf(c);
      case While(_, _) =>
        GenerateWhile(c);
      case Read(x) =>
        GenerateRead(x);
      case Write(es) =>
        GenerateWrite(es);
    }

    /** `_gerar_condicional`: the `then` commands (or `pass`) and, when there
        are any, the `else` commands, each one level in. */
    method GenerateIf(c: Cmd)
      requires c.If?
      modifies this
      ensures lines == old(lines) + IfLines(c, old(level), old(types))
      ensures level == old(level) && types == old(types)
      decreases c, 0
    {
      ghost var lv, ty := level, types;
      AddLine("if " + ExprText(c.cond) + ":");
      IndentMore();
      GenerateBody(c.thenCmds);
      IndentLess();
      ghost var afterThen := lines;
      assert afterThen == old(lines) + [Line(lv, "if " + ExprText(c.cond) + ":")] + BodyLines(c.thenCmds, lv + 1, ty);
      if c.elseCmds != [] {
        AddLine("else:");
        IndentMore();
        GenerateBlock(c.elseCmds);
        IndentLess();
        assert lines == afterThen + ([Line(lv, "else:")] + BlockLines(c.elseCmds, lv + 1, ty));
      }
    }

    /** `_gerar_repeticao`: the body (or `pass`) one level in. */
    method GenerateWhile(c: Cmd)
      requires c.While?
      modifies this
      ensures lines == old(lines) + CmdLines(c, old(level), old(types))
      ensures level == old(level) && types == old(types)
      decreases c, 0
    {
      AddLine("while " + ExprText(c.cond) + ":");
      IndentMore();
      GenerateBody(c.body);
      IndentLess();
    }

    /** The commands of a block, in order. */
    method GenerateBlock(cmds: seq<Cmd>)
      modifies this
      ensures lines == old(lines) + BlockLines(cmds, old(level), old(types))
      ensures level == old(level) && types == old(types)
      decreases cmds, 0
    {
      ghost var start, lv, ty := lines, level, types;
      var k := 0;
      while k < |cmds|
        invariant 0 <= k <= |cmds| && level == lv && types == ty
        invariant lines == start + BlockLines(cmds[..k], lv, ty)
      {
        BlockStep(cmds, k, lv, ty);
        GenerateCmd(cmds[k]);
        k := k + 1;
      }
      assert cmds[..k] == cmds;
    }

    /** A body, or `pass` when it is empty. */
    method GenerateBody(cmds: seq<Cmd>)
      modifies this
      ensures lines == old(lines) + BodyLines(cmds, old(level), old(types))
      ensures level == old(level) && types == old(types)
      decreases cmds, 2
    {
      if cmds == [] {
        AddLine("pass");
      } else {
        GenerateBlock(cmds);
      }
    }

    /** The header or the footer of `gerar`: three lines at level zero,
        kept as they are. */
    method AddTopLines(texts: seq<string>)
      requires level == 0 && |texts| == 3
      modifies this
      ensures lines == old(lines) + texts
      ensures level == 0 && types == old(types)
    {
      TopLevel(texts);
      AddLine(texts[0]);
      AddLine(texts[1]);
      AddLine(texts[2]);
      assert texts == [texts[0], texts[1], texts[2]];
    }

    /** `gerar`: the program's text. The lines and the level start afresh;
        the table of types keeps what earlier programs declared. */
    method Generate(p: Program) returns (text: string)
      modifies this
      ensures lines == ProgramLines(p, old(types)) && text == Join(lines)
      ensures types == DeclaredTypes(old(types), p.decls) && level == 0
    {
      lines := [];
      level := 0;
      AddTopLines(Header);
      IndentMore();
      GenerateDeclarations(p.decls);
      GenerateBody(p.cmds);
      IndentLess();
      AddTopLines(Footer);
      text := Join(lines);
    }
  }
}
