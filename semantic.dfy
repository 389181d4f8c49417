/**
 * The semantic analyser (src/semantic.py): a flat symbol table of declared
 * variables with an initialisation flag, and a walk over the program that
 * types every expression bottom-up.
 *
 * The analysis of a command is specified by a function from a table to the
 * outcome and the table it leaves behind; the classes `SymbolTable` and
 * `Analyzer` at the end do the same work by updating the table in place.
 */
module Semantic {
  import opened Chars
  import opened Errors
  import opened Ast

  /** What the table records about a declared variable. */
  datatype Symbol = Symbol(typ: string, initialized: bool, line: int, column: int)

  type Table = map<string, Symbol>

  /** An outcome together with the table as the analysis left it, also when
      it raised. */
  datatype Analysis = Analysis(outcome: Outcome, table: Table)

  function DeclaredTwiceMessage(name: string): string {
    "Variável '" + name + "' já foi declarada"
  }

  function UndeclaredMessage(name: string): string {
    "Variável '" + name + "' não foi declarada"
  }

  /** The semantic error raised for an undeclared name: the analyser passes
      line and column 0 everywhere. */
  function Undeclared(name: string): (e: CompilerError)
    ensures e.kind == Semantic && e.line == 0 && e.column == 0
  {
    CompilerError(Semantic, UndeclaredMessage(name), 0, 0)
  }

  // ------------------------------------------------------------------
  // The symbol table as a value
  // ------------------------------------------------------------------

  /** `declarar_variavel`: a new entry, not yet initialised, unless the name
      is already there. */
  function Declare(m: Table, name: string, typ: string, line: int, column: int): (r: Result<Table>)
    ensures r.Err? <==> name in m
    ensures r.Err? ==> r.error == CompilerError(Semantic, DeclaredTwiceMessage(name), line, column)
    ensures r.Ok? ==> r.value.Keys == m.Keys + {name} && !r.value[name].initialized
    ensures r.Ok? ==> r.value[name].typ == typ && forall x :: x in m ==> r.value[x] == m[x]
  {
    if name in m then Err(CompilerError(Semantic, DeclaredTwiceMessage(name), line, column))
    else Ok(m[name := Symbol(typ, false, line, column)])
  }

  /** `verificar_variavel_declarada`: the declared type, or an error at the
      given position. */
  function Lookup(m: Table, name: string, line: int, column: int): (r: Result<string>)
    ensures r.Ok? <==> name in m
    ensures r.Ok? ==> r.value == m[name].typ
    ensures r.Err? ==> r.error == CompilerError(Semantic, UndeclaredMessage(name), line, column)
  {
    if name in m then Ok(m[name].typ)
    else Err(CompilerError(Semantic, UndeclaredMessage(name), line, column))
  }

  /** `marcar_como_inicializada`: sets the flag of a declared name and leaves
      everything else as it was; an unknown name changes nothing. */
  function Initialized(m: Table, name: string): (r: Table)
    ensures r.Keys == m.Keys
    ensures name in m ==> r[name] == m[name].(initialized := true)
    ensures forall x :: x in m && x != name ==> r[x] == m[x]
  {
    if name in m then m[name := m[name].(initialized := true)] else m
  }

  /** `obter_tipo`: the declared type, or "desconhecido". */
  function TypeOf(m: Table, name: string): (r: string)
    ensures name in m ==> r == m[name].typ
    ensures name !in m ==> r == "desconhecido"
  {
    if name in m then m[name].typ else "desconhecido"
  }

  // ------------------------------------------------------------------
  // Types of expressions
  // ------------------------------------------------------------------

  /** The four type words of the language. */
  predicate IsBasicType(t: string) {
    t == "inteiro" || t == "real" || t == "caracter" || t == "logico"
  }

  /** The types arithmetic accepts (`tipos_compativel_int_real`). */
  predicate IsNumericType(t: string) {
    t == "inteiro" || t == "real"
  }

  /** `s` with the whitespace `int()` ignores removed from both ends. */
  function StripSpaces(s: string): (r: string)
    ensures |r| <= |s|
    ensures |r| > 0 ==> !IsSpace(r[0]) && !IsSpace(r[|r| - 1])
    decreases |s|
  {
    if s == [] then []
    else if IsSpace(s[0]) then StripSpaces(s[1..])
    else if IsSpace(s[|s| - 1]) then StripSpaces(s[..|s| - 1])
    else s
  }

  /** Digits, with single underscores allowed between two digits. */
  predicate DigitGroups(s: string) {
    |s| > 0 && IsDigit(s[0]) && IsDigit(s[|s| - 1])
    && forall i :: 0 <= i < |s| ==> IsDigit(s[i]) || (s[i] == '_' && i + 1 < |s| && IsDigit(s[i + 1]))
  }

  /** The text `int(s)` accepts in base 10, on ASCII: optional surrounding
      whitespace, an optional sign, and digit groups. */
  predicate IsIntText(s: string) {
    var t := StripSpaces(s);
    |t| > 0 && (if t[0] == '+' || t[0] == '-' then DigitGroups(t[1..]) else DigitGroups(t))
  }

  /** `_inferir_tipo_literal`: quoted text, then the truth values, then a
      dot, then an integer, and text by default. */
  function LiteralType(v: string): (t: string)
    ensures IsBasicType(t)
  {
    if |v| > 0 && v[0] == '"' && v[|v| - 1] == '"' then "caracter"
    else if v == "verdadeiro" || v == "falso" then "logico"
    else if '.' in v then "real"
    else if IsIntText(v) then "inteiro"
    else "caracter"
  }

  predicate IsArithmetic(op: string) {
    op == "+" || op == "-" || op == "*" || op == "/"
  }

  predicate IsComparison(op: string) {
    op == "==" || op == "!=" || op == "<" || op == "<=" || op == ">" || op == ">="
  }

  predicate IsLogical(op: string) {
    op == "e" || op == "ou"
  }

  function ArithmeticMessage(op: string, l: string, r: string): string {
    "Operação aritmética '" + op + "' incompatível entre '" + l + "' e '" + r + "'"
  }

  /** `_analisar_expressao_binaria` once both operands are typed. */
  function BinaryType(op: string, l: string, r: string): (t: Result<string>)
    ensures t.Ok? ==> IsBasicType(t.value)
    ensures IsArithmetic(op) ==> (t.Ok? <==> IsNumericType(l) && IsNumericType(r))
    ensures IsArithmetic(op) && t.Ok? ==> (t.value == "real" <==> l == "real" || r == "real")
    ensures IsArithmetic(op) && t.Ok? ==> IsNumericType(t.value)
    ensures (IsComparison(op) || IsLogical(op)) ==> t == Ok("logico")
    ensures t.Err? ==> t.error.kind == Semantic
  {
    if IsArithmetic(op) then
      if IsNumericType(l) && IsNumericType(r) then
        if l == "real" || r == "real" then Ok("real") else Ok("inteiro")
      else Err(Unlocated(Semantic, ArithmeticMessage(op, l, r)))
    else if IsComparison(op) then Ok("logico")
    else if IsLogical(op) then Ok("logico")
    else Err(Unlocated(Semantic, "Operador '" + op + "' não reconhecido"))
  }

  /** `_analisar_expressao_unaria` once the operand is typed. */
  function UnaryType(op: string, t: string): (r: Result<string>)
    ensures r.Ok? <==> op == "-" && IsNumericType(t)
    ensures r.Ok? ==> r.value == t
    ensures r.Err? ==> r.error.kind == Semantic
  {
    if op == "-" then
      if IsNumericType(t) then Ok(t)
      else Err(Unlocated(Semantic, "Operador unário '-' não aplicável a '" + t + "'"))
    else Err(Unlocated(Semantic, "Operador unário '" + op + "' não reconhecido"))
  }

  /** `_analisar_expressao`: the type of an expression, the left operand
      before the right one. A variable has its declared type; every other
      expression has one of the four type words. */
  function ExprType(m: Table, e: Expr): (r: Result<string>)
    ensures r.Ok? && e.Var? ==> e.name in m && r.value == m[e.name].typ
    ensures r.Ok? && !e.Var? ==> IsBasicType(r.value)
    ensures r.Err? ==> r.error.kind == Semantic
  {
    match e
    case Literal(v) => Ok(LiteralType(v))
    case Var(n) => Lookup(m, n, 0, 0)
    case Binary(l, op, r) =>
      (match ExprType(m, l)
       case Err(err) => Err(err)
       case Ok(tl) =>
        (match ExprType(m, r)
         case Err(err) => Err(err)
         case Ok(tr) => BinaryType(op, tl, tr)))
    case Unary(op, x) =>
      match ExprType(m, x)
      case Err(err) => Err(err)
      case Ok(t) => UnaryType(op, t)
  }

  // ------------------------------------------------------------------
  // The analysis of declarations and commands
  // ------------------------------------------------------------------

  /** `_analisar_declaracao` for each declaration in turn, at position 0. */
  function DeclareAll(m: Table, ds: seq<Decl>): (a: Analysis)
    decreases |ds|
  {
    if ds == [] then Analysis(Pass, m)
    else
      match Declare(m, ds[0].name, ds[0].typ, 0, 0)
      case Err(e) => Analysis(Fail(e), m)
      case Ok(m') => DeclareAll(m', ds[1..])
  }

  /** Every expression of a list typed in order; the first error raised. */
  function CheckExprs(m: Table, es: seq<Expr>): (r: Outcome)
    decreases |es|
  {
    if es == [] then Pass
    else
      match ExprType(m, es[0])
      case Err(e) => Fail(e)
      case Ok(_) => CheckExprs(m, es[1..])
  }

  /** `_analisar_comando`. An assignment types its right-hand side and never
      rejects a type mismatch; a condition may have any type. */
  function CheckCmd(m: Table, c: Cmd): (a: Analysis)
    decreases c
  {
    match c
    case Assign(x, e) =>
      (match Lookup(m, x, 0, 0)
       case Err(err) => Analysis(Fail(err), m)
       case Ok(_) =>
         (match ExprType(m, e)
          case Err(err) => Analysis(Fail(err), m)
          case Ok(_) => Analysis(Pass, Initialized(m, x))))
    case If(cond, thenCmds, elseCmds) =>
      (match ExprType(m, cond)
       case Err(err) => Analysis(Fail(err), m)
       case Ok(_) =>
         var a := CheckBlock(m, thenCmds);
         if a.outcome.Fail? then a else CheckBlock(a.table, elseCmds))
    case While(cond, body) =>
      (match ExprType(m, cond)
       case Err(err) => Analysis(Fail(err), m)
       case Ok(_) => CheckBlock(m, body))
    case Read(x) =>
      (match Lookup(m, x, 0, 0)
       case Err(err) => Analysis(Fail(err), m)
       case Ok(_) => Analysis(Pass, Initialized(m, x)))
    case Write(es) => Analysis(CheckExprs(m, es), m)
  }

  /** The commands of a list analysed in order, stopping at the first error. */
  function CheckBlock(m: Table, cs: seq<Cmd>): (a: Analysis)
    decreases cs
  {
    if cs == [] then Analysis(Pass, m)
    else
      var a := CheckCmd(m, cs[0]);
      if a.outcome.Fail? then a else CheckBlock(a.table, cs[1..])
  }

  /** `analisar`: the declarations first, then the commands. */
  function CheckProgram(m: Table, p: Program): (a: Analysis) {
    var d := DeclareAll(m, p.decls);
    if d.outcome.Fail? then d else CheckBlock(d.table, p.cmds)
  }

  // ------------------------------------------------------------------
  // Properties
  // ------------------------------------------------------------------

  /** `m'` has the same entries as `m` except that flags may have been set. */
  predicate OnlyFlagsSet(m: Table, m': Table) {
    m'.Keys == m.Keys
    && forall x :: x in m ==>
         m'[x] == m[x].(initialized := m'[x].initialized) && (m[x].initialized ==> m'[x].initialized)
  }

  lemma OnlyFlagsSetTransitive(m1: Table, m2: Table, m3: Table)
    requires OnlyFlagsSet(m1, m2) && OnlyFlagsSet(m2, m3)
    ensures OnlyFlagsSet(m1, m3)
  {
  }

  /** Analysing commands never declares, forgets or retypes a variable, and
      never clears an initialisation flag. */
  lemma {:induction false} CheckCmdOnlySetsFlags(m: Table, c: Cmd)
    ensures OnlyFlagsSet(m, CheckCmd(m, c).table)
    decreases c
  {
    match c
    case If(cond, thenCmds, elseCmds) =>
      if ExprType(m, cond).Ok? {
        var a := CheckBlock(m, thenCmds);
        CheckBlockOnlySetsFlags(m, thenCmds);
        if a.outcome.Pass? {
          CheckBlockOnlySetsFlags(a.table, elseCmds);
          OnlyFlagsSetTransitive(m, a.table, CheckBlock(a.table, elseCmds).table);
        }
      }
    case While(cond, body) =>
      if ExprType(m, cond).Ok? {
        CheckBlockOnlySetsFlags(m, body);
      }
    case _ =>
  }

  lemma {:induction false} CheckBlockOnlySetsFlags(m: Table, cs: seq<Cmd>)
    ensures OnlyFlagsSet(m, CheckBlock(m, cs).table)
    decreases cs
  {
    if cs != [] {
      var a := CheckCmd(m, cs[0]);
      CheckCmdOnlySetsFlags(m, cs[0]);
      if a.outcome.Pass? {
        CheckBlockOnlySetsFlags(a.table, cs[1..]);
        OnlyFlagsSetTransitive(m, a.table, CheckBlock(a.table, cs[1..]).table);
      }
    }
  }

  /** An expression types only when every variable it reads is declared;
      so reading an undeclared name always makes typing fail. */
  lemma {:induction false} TypedExpressionsUseDeclaredNames(m: Table, e: Expr)
    ensures ExprType(m, e).Ok? ==> ExprVars(e) <= m.Keys
  {
    match e
    case Binary(l, _, r) =>
      TypedExpressionsUseDeclaredNames(m, l);
      TypedExpressionsUseDeclaredNames(m, r);
    case Unary(_, x) =>
      TypedExpressionsUseDeclaredNames(m, x);
    case _ =>
  }

  /** A list of expressions passes only when each reads declared names. */
  lemma {:induction false} PassingExpressionsUseDeclaredNames(m: Table, es: seq<Expr>)
    ensures CheckExprs(m, es).Pass? ==> ExprsVars(es) <= m.Keys
    decreases |es|
  {
    if es != [] {
      TypedExpressionsUseDeclaredNames(m, es[0]);
      PassingExpressionsUseDeclaredNames(m, es[1..]);
    }
  }

  /** A command that passes analysis reads and assigns declared names only. */
  lemma {:induction false} PassingCommandsUseDeclaredNames(m: Table, c: Cmd)
    ensures CheckCmd(m, c).outcome.Pass? ==> CmdVars(c) <= m.Keys
    decreases c
  {
    match c
    case Assign(_, e) =>
      TypedExpressionsUseDeclaredNames(m, e);
    case If(cond, thenCmds, elseCmds) =>
      TypedExpressionsUseDeclaredNames(m, cond);
      var a := CheckBlock(m, thenCmds);
      PassingBlocksUseDeclaredNames(m, thenCmds);
      CheckBlockOnlySetsFlags(m, thenCmds);
      PassingBlocksUseDeclaredNames(a.table, elseCmds);
    case While(cond, body) =>
      TypedExpressionsUseDeclaredNames(m, cond);
      PassingBlocksUseDeclaredNames(m, body);
    case Read(_) =>
    case Write(es) =>
      PassingExpressionsUseDeclaredNames(m, es);
  }

  lemma {:induction false} PassingBlocksUseDeclaredNames(m: Table, cs: seq<Cmd>)
    ensures CheckBlock(m, cs).outcome.Pass? ==> BlockVars(cs) <= m.Keys
    decreases cs
  {
    if cs != [] {
      var a := CheckCmd(m, cs[0]);
      PassingCommandsUseDeclaredNames(m, cs[0]);
      CheckCmdOnlySetsFlags(m, cs[0]);
      PassingBlocksUseDeclaredNames(a.table, cs[1..]);
    }
  }

  /** The names a list of declarations declares. */
  function DeclaredNames(ds: seq<Decl>): set<string>
    decreases |ds|
  {
    if ds == [] then {} else {ds[0].name} + DeclaredNames(ds[1..])
  }

  /** A program that passes analysis from an empty table reads and assigns
      only the variables it declares. */
  lemma ProgramUsesOnlyItsDeclarations(p: Program)
    ensures CheckProgram(map[], p).outcome.Pass? ==> BlockVars(p.cmds) <= DeclaredNames(p.decls)
  {
    var d := DeclareAll(map[], p.decls);
    DeclareAllKeys(map[], p.decls);
    PassingBlocksUseDeclaredNames(d.table, p.cmds);
  }

  /** Declaring every name of the list adds exactly those names. */
  lemma {:induction false} DeclareAllKeys(m: Table, ds: seq<Decl>)
    ensures DeclareAll(m, ds).outcome.Pass? ==> DeclareAll(m, ds).table.Keys == m.Keys + DeclaredNames(ds)
    decreases |ds|
  {
    if ds != [] && ds[0].name !in m {
      DeclareAllKeys(m[ds[0].name := Symbol(ds[0].typ, false, 0, 0)], ds[1..]);
    }
  }

  /** An assignment to a declared variable whose right-hand side types
      passes whatever the two types are, and marks the variable. */
  lemma AssignmentNeverRejectsATypeMismatch(m: Table, x: string, e: Expr)
    requires x in m && ExprType(m, e).Ok?
    ensures CheckCmd(m, Assign(x, e)) == Analysis(Pass, Initialized(m, x))
    ensures Initialized(m, x)[x].initialized
  {
  }

  /** A condition of any type is accepted. */
  lemma ConditionsOfAnyTypeAreAccepted(m: Table, cond: Expr, body: seq<Cmd>)
    requires ExprType(m, cond).Ok?
    ensures CheckCmd(m, While(cond, body)) == CheckBlock(m, body)
    ensures CheckCmd(m, If(cond, body, [])).outcome == CheckBlock(m, body).outcome
  {
  }

  /** Arithmetic is real exactly when one operand is real, integer when both
      are integers, and rejects any other operand type with the message
      naming the operator and both types. */
  lemma ArithmeticTypes(m: Table, l: Expr, op: string, r: Expr, tl: string, tr: string)
    requires IsArithmetic(op) && ExprType(m, l) == Ok(tl) && ExprType(m, r) == Ok(tr)
    ensures IsNumericType(tl) && IsNumericType(tr) ==>
      ExprType(m, Binary(l, op, r)) == Ok(if tl == "real" || tr == "real" then "real" else "inteiro")
    ensures !(IsNumericType(tl) && IsNumericType(tr)) ==>
      ExprType(m, Binary(l, op, r)) == Err(Unlocated(Semantic, ArithmeticMessage(op, tl, tr)))
  {
  }

  /** The literals the parser builds from number, truth-value and text
      tokens get the types of those tokens. */
  lemma LiteralTypesOfTokens(digits: string, fraction: string, text: string)
    requires |digits| > 0 && AllDigits(digits) && AllDigits(fraction)
    ensures LiteralType(digits) == "inteiro"
    ensures LiteralType(digits + "." + fraction) == "real"
    ensures LiteralType("\"" + text + "\"") == "caracter"
    ensures LiteralType("verdadeiro") == "logico" && LiteralType("falso") == "logico"
  {
    assert StripSpaces(digits) == digits;
    assert (digits + "." + fraction)[|digits|] == '.';
    var q := "\"" + text + "\"";
    assert q[0] == '"' && q[|q| - 1] == '"';
  }

  /** Declaring a list of declarations succeeds exactly when no name is
      declared twice, neither in the list nor before it. */
  predicate FreshNames(m: Table, ds: seq<Decl>) {
    (forall k :: 0 <= k < |ds| ==> ds[k].name !in m)
    && forall j, k :: 0 <= j < k < |ds| ==> ds[j].name != ds[k].name
  }

  lemma {:induction false} DeclareAllPassesIffFresh(m: Table, ds: seq<Decl>)
    ensures DeclareAll(m, ds).outcome.Pass? <==> FreshNames(m, ds)
    ensures DeclareAll(m, ds).outcome.Pass? ==>
      forall k :: 0 <= k < |ds| ==>
        ds[k].name in DeclareAll(m, ds).table && DeclareAll(m, ds).table[ds[k].name] == Symbol(ds[k].typ, false, 0, 0)
    decreases |ds|
  {
    if ds != [] {
      var d := ds[0];
      if d.name !in m {
        var m' := m[d.name := Symbol(d.typ, false, 0, 0)];
        DeclareAllPassesIffFresh(m', ds[1..]);
        DeclareAllKeeps(m', ds[1..], d.name);
        assert FreshNames(m, ds) <==> FreshNames(m', ds[1..]) by {
          if FreshNames(m', ds[1..]) {
            forall j, k | 0 <= j < k < |ds| ensures ds[j].name != ds[k].name {
              if j > 0 { assert ds[1..][j - 1] == ds[j] && ds[1..][k - 1] == ds[k]; }
              else { assert ds[1..][k - 1] == ds[k]; }
            }
          }
          if FreshNames(m, ds) {
            forall k | 0 <= k < |ds[1..]| ensures ds[1..][k].name !in m' {
              assert ds[1..][k] == ds[k + 1];
            }
          }
        }
      } else {
        assert !FreshNames(m, ds) by { assert ds[0].name in m; }
      }
    }
  }

  /** Declaring more names leaves an existing entry as it was. */
  lemma {:induction false} DeclareAllKeeps(m: Table, ds: seq<Decl>, x: string)
    requires x in m
    ensures x in DeclareAll(m, ds).table && DeclareAll(m, ds).table[x] == m[x]
    decreases |ds|
  {
    if ds != [] && ds[0].name !in m {
      DeclareAllKeeps(m[ds[0].name := Symbol(ds[0].typ, false, 0, 0)], ds[1..], x);
    }
  }

  // ------------------------------------------------------------------
  // The table and the analyser as objects
  // ------------------------------------------------------------------

  /** `TabelaSimbolos`: the dictionary `simbolos`, updated in place. */
  class SymbolTable {
    var symbols: Table

    constructor()
      ensures symbols == map[]
    {
      symbols := map[];
    }

    method DeclareVariable(name: string, typ: string, line: int, column: int) returns (r: Outcome)
      modifies this
      ensures Declare(old(symbols), name, typ, line, column).Err? ==>
        r == Fail(Declare(old(symbols), name, typ, line, column).error) && symbols == old(symbols)
      ensures Declare(old(symbols), name, typ, line, column).Ok? ==>
        r == Pass && symbols == Declare(old(symbols), name, typ, line, column).value
    {
      if name in symbols {
        return Fail(CompilerError(Semantic, DeclaredTwiceMessage(name), line, column));
      }
      symbols := symbols[name := Symbol(typ, false, line, column)];
      return Pass;
    }

    method CheckDeclared(name: string, line: int, column: int) returns (r: Result<string>)
      ensures r.Ok? <==> name in symbols
      ensures r.Ok? ==> r.value == symbols[name].typ
      ensures r.Err? ==> r.error == CompilerError(Semantic, UndeclaredMessage(name), line, column)
    {
      if name !in symbols {
        return Err(CompilerError(Semantic, UndeclaredMessage(name), line, column));
      }
      return Ok(symbols[name].typ);
    }

    method MarkInitialized(name: string)
      modifies this
      ensures symbols == Initialized(old(symbols), name)
    {
      if name in symbols {
        symbols := symbols[name := symbols[name].(initialized := true)];
      }
    }

    method GetType(name: string) returns (r: string)
      ensures name in symbols ==> r == symbols[name].typ
      ensures name !in symbols ==> r == "desconhecido"
    {
      if name in symbols {
        r := symbols[name].typ;
      } else {
        r := "desconhecido";
      }
    }
  }

  /** `AnalisadorSemantico`: walks the program over its own symbol table. */
  class Analyzer {
    const table: SymbolTable

    constructor()
      ensures fresh(table) && table.symbols == map[]
    {
      table := new SymbolTable();
    }

    method Analyze(p: Program) returns (r: Outcome)
      modifies table
      ensures Analysis(r, table.symbols) == CheckProgram(old(table.symbols), p)
    {
      var k := 0;
      while k < |p.decls|
        invariant 0 <= k <= |p.decls|
        invariant DeclareAll(old(table.symbols), p.decls) == DeclareAll(table.symbols, p.decls[k..])
      {
        var d := p.decls[k];
        assert p.decls[k..][1..] == p.decls[k + 1..];
        r := table.DeclareVariable(d.name, d.typ, 0, 0);
        if r.Fail? {
          return;
        }
        k := k + 1;
      }
      r := AnalyzeBlock(p.cmds);
    }

    method AnalyzeBlock(cs: seq<Cmd>) returns (r: Outcome)
      modifies table
      ensures Analysis(r, table.symbols) == CheckBlock(old(table.symbols), cs)
      decreases cs
    {
      var k := 0;
      while k < |cs|
        invariant 0 <= k <= |cs|
        invariant CheckBlock(old(table.symbols), cs) == CheckBlock(table.symbols, cs[k..])
      {
        assert cs[k..][1..] == cs[k + 1..];
        r := AnalyzeCommand(cs[k]);
        if r.Fail? {
          return;
        }
        k := k + 1;
      }
      return Pass;
    }

    method AnalyzeCommand(c: Cmd) returns (r: Outcome)
      modifies table
      ensures Analysis(r, table.symbols) == CheckCmd(old(table.symbols), c)
      decreases c
    {
      match c
      case Assign(x, e) =>
        var declared := table.CheckDeclared(x, 0, 0);
        if declared.Err? {
          return Fail(declared.error);
        }
        var t := ExprType(table.symbols, e);
        if t.Err? {
          return Fail(t.error);
        }
        table.MarkInitialized(x);
        return Pass;
      case If(cond, thenCmds, elseCmds) =>
        var t := ExprType(table.symbols, cond);
        if t.Err? {
          return Fail(t.error);
        }
        r := AnalyzeBlock(thenCmds);
        if r.Fail? {
          return;
        }
        r := AnalyzeBlock(elseCmds);
      case While(cond, body) =>
        var t := ExprType(table.symbols, cond);
        if t.Err? {
          return Fail(t.error);
        }
        r := AnalyzeBlock(body);
      case Read(x) =>
        var declared := table.CheckDeclared(x, 0, 0);
        if declared.Err? {
          return Fail(declared.error);
        }
        table.MarkInitialized(x);
        return Pass;
      case Write(es) =>
        var k := 0;
        while k < |es|
          invariant 0 <= k <= |es| && table.symbols == old(table.symbols)
          invariant CheckExprs(table.symbols, es) == CheckExprs(table.symbols, es[k..])
        {
          assert es[k..][1..] == es[k + 1..];
          var t := ExprType(table.symbols, es[k]);
          if t.Err? {
            return Fail(t.error);
          }
          k := k + 1;
        }
        return Pass;
    }
  }
}
