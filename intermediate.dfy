/**
 * The three-address code generator (src/intermediate.py): instructions,
 * their text, and the lowering of a program into a flat list of them with
 * fresh temporaries `t1, t2, ...` and labels `L1, L2, ...`.
 *
 * The lowering is specified by functions that take the two counters and
 * give back the code and the new counters; the class `IRGenerator` does the
 * same work by appending to its instruction list and bumping its counters.
 */
module Intermediate {
  import opened Chars
  import opened Errors
  import opened Ast

  datatype InstrKind = LABEL | ASSIGN | OP | UNARY | GOTO | IF | IFFALSE | READ | WRITE | INIT

  /** An instruction; a field the instruction does not use is `None`. */
  datatype Instr = Instr(
    kind: InstrKind,
    result: Option<string>,
    operand1: Option<string>,
    operator: Option<string>,
    operand2: Option<string>)

  function KindName(k: InstrKind): string {
    match k
    case LABEL => "LABEL"
    case ASSIGN => "ASSIGN"
    case OP => "OP"
    case UNARY => "UNARY"
    case GOTO => "GOTO"
    case IF => "IF"
    case IFFALSE => "IFFALSE"
    case READ => "READ"
    case WRITE => "WRITE"
    case INIT => "INIT"
  }

  /** A field as an f-string shows it: `None` when absent. */
  function Shown(o: Option<string>): string {
    if o.Some? then o.value else "None"
  }

  /** Python truthiness of an optional text field. */
  predicate Present(o: Option<string>) {
    o.Some? && o.value != ""
  }

  predicate IsJump(k: InstrKind) {
    k == GOTO || k == IF || k == IFFALSE
  }

  /** Instructions that give their destination a value and render as
      `destination = ...`. */
  predicate RendersAsDefinition(i: Instr) {
    i.kind == ASSIGN || i.kind == UNARY || i.kind == INIT || (i.kind == OP && Present(i.operand2))
  }

  predicate EndsWith(s: string, suffix: string) {
    |suffix| <= |s| && s[|s| - |suffix|..] == suffix
  }

  /** `destination = right-hand side`. */
  function DefinitionText(res: string, rhs: string): (s: string)
    ensures res + " = " <= s
  {
    res + " = " + rhs
  }

  /** A jump: whatever comes first, then `goto` and the label. */
  function JumpText(head: string, target: string): (s: string)
    ensures EndsWith(s, "goto " + target)
  {
    head + ("goto " + target)
  }

  /** `__str__`. An `OP` without a second operand falls through to the
      text for an unknown instruction. */
  function Render(i: Instr): (s: string)
    ensures RendersAsDefinition(i) ==> Shown(i.result) + " = " <= s
    ensures IsJump(i.kind) ==> EndsWith(s, "goto " + Shown(i.result))
    ensures i.kind == OP && !Present(i.operand2) ==> s == "// instrução desconhecida: OP"
  {
    var res := Shown(i.result);
    match i.kind
    case LABEL => res + ":"
    case ASSIGN => DefinitionText(res, Shown(i.operand1))
    case OP =>
      if Present(i.operand2) then
        DefinitionText(res, Shown(i.operand1) + " " + Shown(i.operator) + " " + Shown(i.operand2))
      else "// instrução desconhecida: " + KindName(i.kind)
    case UNARY => DefinitionText(res, Shown(i.operator) + " " + Shown(i.operand1))
    case GOTO => JumpText("", res)
    case IF => JumpText("if " + Shown(i.operand1) + " ", res)
    case IFFALSE => JumpText("ifFalse " + Shown(i.operand1) + " ", res)
    case READ => "read " + res
    case WRITE => "write " + Shown(i.operand1)
    case INIT => DefinitionText(res, Shown(i.operand1) + "  // inicialização")
  }

  // ------------------------------------------------------------------
  // Building instructions
  // ------------------------------------------------------------------

  function MkLabel(l: string): Instr { Instr(LABEL, Some(l), None, None, None) }
  function MkGoto(l: string): Instr { Instr(GOTO, Some(l), None, None, None) }
  function MkIfFalse(c: string, l: string): Instr { Instr(IFFALSE, Some(l), Some(c), None, None) }
  function MkAssign(x: string, v: string): Instr { Instr(ASSIGN, Some(x), Some(v), None, None) }
  function MkInit(x: string, v: string): Instr { Instr(INIT, Some(x), Some(v), None, None) }
  function MkOp(x: string, a: string, op: string, b: string): Instr { Instr(OP, Some(x), Some(a), Some(op), Some(b)) }
  function MkUnary(x: string, op: string, a: string): Instr { Instr(UNARY, Some(x), Some(a), Some(op), None) }
  function MkRead(x: string): Instr { Instr(READ, Some(x), None, None, None) }
  function MkWrite(v: string): Instr { Instr(WRITE, None, Some(v), None, None) }

  // ------------------------------------------------------------------
  // Names of temporaries and labels
  // ------------------------------------------------------------------

  /** `novo_temporario` after the counter has reached n. */
  function TempName(n: nat): string {
    "t" + NatToDecimal(n)
  }

  /** `novo_label` after the counter has reached n. */
  function LabelName(n: nat): string {
    "L" + NatToDecimal(n)
  }

  /** Different counter values never give the same name. */
  lemma NamesAreNeverReused(m: nat, n: nat)
    requires m != n
    ensures TempName(m) != TempName(n) && LabelName(m) != LabelName(n)
    ensures TempName(m) != LabelName(n)
  {
    assert TempName(m)[0] == 't' && LabelName(n)[0] == 'L';
    if TempName(m) == TempName(n) {
      PrefixedDecimalInjective('t', m, n);
    }
    if LabelName(m) == LabelName(n) {
      PrefixedDecimalInjective('L', m, n);
    }
  }

  lemma PrefixedDecimalInjective(c: char, m: nat, n: nat)
    requires [c] + NatToDecimal(m) == [c] + NatToDecimal(n)
    ensures m == n
  {
    assert ([c] + NatToDecimal(m))[1..] == NatToDecimal(m);
    assert ([c] + NatToDecimal(n))[1..] == NatToDecimal(n);
    DecimalInjective(m, n);
  }

  /** The temporaries numbered a+1 to b, in order. */
  function TempRange(a: nat, b: nat): (r: seq<string>)
    requires a <= b
    ensures |r| == b - a
    decreases b - a
  {
    if a == b then [] else TempRange(a, b - 1) + [TempName(b)]
  }

  lemma {:induction false} TempRangeAt(a: nat, b: nat, k: nat)
    requires a <= b && k < b - a
    ensures TempRange(a, b)[k] == TempName(a + k + 1)
    decreases b - a
  {
    if k < b - a - 1 {
      TempRangeAt(a, b - 1, k);
    }
  }

  lemma {:induction false} TempRangeSplit(a: nat, b: nat, c: nat)
    requires a <= b <= c
    ensures TempRange(a, b) + TempRange(b, c) == TempRange(a, c)
    decreases c - b
  {
    if b < c {
      TempRangeSplit(a, b, c - 1);
    }
  }

  /** A range of temporaries names each temporary once. */
  lemma TempRangeDistinct(a: nat, b: nat)
    requires a <= b
    ensures forall j, k :: 0 <= j < k < b - a ==> TempRange(a, b)[j] != TempRange(a, b)[k]
  {
    forall j, k | 0 <= j < k < b - a
      ensures TempRange(a, b)[j] != TempRange(a, b)[k]
    {
      TempRangeAt(a, b, j);
      TempRangeAt(a, b, k);
      NamesAreNeverReused(a + j + 1, a + k + 1);
    }
  }

  // ------------------------------------------------------------------
  // What a piece of code defines and where it jumps
  // ------------------------------------------------------------------

  /** The destinations of the `OP` and `UNARY` instructions, in order. */
  function TempDefs(code: seq<Instr>): seq<string>
    decreases |code|
  {
    if code == [] then []
    else
      var here := if code[0].kind == OP || code[0].kind == UNARY then [Shown(code[0].result)] else [];
      here + TempDefs(code[1..])
  }

  lemma {:induction false} TempDefsAppend(a: seq<Instr>, b: seq<Instr>)
    ensures TempDefs(a + b) == TempDefs(a) + TempDefs(b)
    decreases |a|
  {
    if a != [] {
      assert (a + b)[0] == a[0] && (a + b)[1..] == a[1..] + b;
      TempDefsAppend(a[1..], b);
    } else {
      assert a + b == b;
    }
  }

  /** The labels defined by `LABEL` instructions. */
  function LabelDefs(code: seq<Instr>): set<string>
    decreases |code|
  {
    if code == [] then {}
    else (if code[0].kind == LABEL then {Shown(code[0].result)} else {}) + LabelDefs(code[1..])
  }

  /** The labels jumped to. */
  function JumpTargets(code: seq<Instr>): set<string>
    decreases |code|
  {
    if code == [] then {}
    else (if IsJump(code[0].kind) then {Shown(code[0].result)} else {}) + JumpTargets(code[1..])
  }

  lemma {:induction false} LabelsAppend(a: seq<Instr>, b: seq<Instr>)
    ensures LabelDefs(a + b) == LabelDefs(a) + LabelDefs(b)
    ensures JumpTargets(a + b) == JumpTargets(a) + JumpTargets(b)
    decreases |a|
  {
    if a != [] {
      assert (a + b)[0] == a[0] && (a + b)[1..] == a[1..] + b;
      LabelsAppend(a[1..], b);
    } else {
      assert a + b == b;
    }
  }

  /** The `WRITE` instructions' operands, in order. */
  function Writes(code: seq<Instr>): seq<string>
    decreases |code|
  {
    if code == [] then []
    else (if code[0].kind == WRITE then [Shown(code[0].operand1)] else []) + Writes(code[1..])
  }

  lemma {:induction false} WritesAppend(a: seq<Instr>, b: seq<Instr>)
    ensures Writes(a + b) == Writes(a) + Writes(b)
    decreases |a|
  {
    if a != [] {
      assert (a + b)[0] == a[0] && (a + b)[1..] == a[1..] + b;
      WritesAppend(a[1..], b);
    } else {
      assert a + b == b;
    }
  }

  /** Code made of operations only: it writes, reads and jumps nowhere. */
  predicate OperationsOnly(code: seq<Instr>) {
    forall k :: 0 <= k < |code| ==> code[k].kind == OP || code[k].kind == UNARY
  }

  lemma {:induction false} OperationsOnlyHaveNoLabels(code: seq<Instr>)
    requires OperationsOnly(code)
    ensures LabelDefs(code) == {} && JumpTargets(code) == {} && Writes(code) == []
    decreases |code|
  {
    if code != [] {
      OperationsOnlyHaveNoLabels(code[1..]);
    }
  }

  // ------------------------------------------------------------------
  // Lowering
  // ------------------------------------------------------------------

  /** The initial value an `INIT` gives a declared variable. */
  function InitValue(typ: string): string {
    if typ == "inteiro" then "0"
    else if typ == "real" then "0.0"
    else if typ == "caracter" then "\"\""
    else if typ == "logico" then "false"
    else "0"
  }

  /** A literal used as an operand: the truth values become `true`/`false`. */
  function LiteralOperand(v: string): string {
    if v == "verdadeiro" then "true" else if v == "falso" then "false" else v
  }

  /** The operator of an `OP`: `e`/`ou` become `and`/`or`. */
  function IrOperator(op: string): string {
    if op == "e" then "and" else if op == "ou" then "or" else op
  }

  /** The code of an expression, the operand that holds its value, and the
      temporary counter afterwards. */
  datatype ExprCode = ExprCode(place: string, code: seq<Instr>, temps: nat)

  /** `_gerar_expressao`: the left operand first, then the right one, then
      one instruction into a fresh temporary. */
  function LowerExpr(e: Expr, t: nat): (r: ExprCode)
    ensures r.temps == t + OpCount(e) && |r.code| == OpCount(e)
    ensures e.Literal? ==> r.place == LiteralOperand(e.value)
    ensures e.Var? ==> r.place == e.name
    ensures e.Binary? || e.Unary? ==> r.place == TempName(r.temps)
  {
    match e
    case Literal(v) => ExprCode(LiteralOperand(v), [], t)
    case Var(n) => ExprCode(n, [], t)
    case Binary(l, op, r) =>
      var a := LowerExpr(l, t);
      var b := LowerExpr(r, a.temps);
      var d := TempName(b.temps + 1);
      ExprCode(d, a.code + b.code + [MkOp(d, a.place, IrOperator(op), b.place)], b.temps + 1)
    case Unary(op, x) =>
      var a := LowerExpr(x, t);
      var d := TempName(a.temps + 1);
      ExprCode(d, a.code + [MkUnary(d, op, a.place)], a.temps + 1)
  }

  /** An expression's code is made of operations only, and the
      temporaries it defines are the ones its counter handed out, in order. */
  lemma LowerExprShape(e: Expr, t: nat)
    ensures OperationsOnly(LowerExpr(e, t).code)
    ensures TempDefs(LowerExpr(e, t).code) == TempRange(t, LowerExpr(e, t).temps)
  {
    LowerExprOperationsOnly(e, t);
    LowerExprTemps(e, t);
  }

  lemma {:induction false} LowerExprOperationsOnly(e: Expr, t: nat)
    ensures OperationsOnly(LowerExpr(e, t).code)
    decreases e
  {
    match e
    case Literal(_) =>
    case Var(_) =>
    case Binary(l, op, r) =>
      var a := LowerExpr(l, t);
      LowerExprOperationsOnly(l, t);
      LowerExprOperationsOnly(r, a.temps);
    case Unary(op, x) =>
      LowerExprOperationsOnly(x, t);
  }

  lemma {:induction false} LowerExprTemps(e: Expr, t: nat)
    ensures TempDefs(LowerExpr(e, t).code) == TempRange(t, LowerExpr(e, t).temps)
    decreases e
  {
    match e
    case Literal(_) =>
    case Var(_) =>
    case Binary(l, op, r) =>
      var a := LowerExpr(l, t);
      var b := LowerExpr(r, a.temps);
      LowerExprTemps(l, t);
      LowerExprTemps(r, a.temps);
      var last := MkOp(TempName(b.temps + 1), a.place, IrOperator(op), b.place);
      OperationTemps(a.code + b.code, last, t, b.temps, b.temps + 1) by {
        TempDefsAppend(a.code, b.code);
        TempRangeSplit(t, a.temps, b.temps);
      }
    case Unary(op, x) =>
      var a := LowerExpr(x, t);
      LowerExprTemps(x, t);
      OperationTemps(a.code, MkUnary(TempName(a.temps + 1), op, a.place), t, a.temps, a.temps + 1);
  }

  /** An operation into the next temporary extends the range by one. */
  lemma OperationTemps(code: seq<Instr>, i: Instr, t0: nat, t1: nat, t2: nat)
    requires t0 <= t1 && t2 == t1 + 1 && TempDefs(code) == TempRange(t0, t1)
    requires IsOperation(i) && i.result == Some(TempName(t2))
    ensures TempDefs(code + [i]) == TempRange(t0, t2)
  {
    TempDefsAppend(code, [i]);
    TempDefsOne(i);
  }

  lemma ExprCodeHasNoLabels(e: Expr, t: nat)
    ensures LabelDefs(LowerExpr(e, t).code) == {} && JumpTargets(LowerExpr(e, t).code) == {}
    ensures Writes(LowerExpr(e, t).code) == []
  {
    LowerExprShape(e, t);
    OperationsOnlyHaveNoLabels(LowerExpr(e, t).code);
  }

  /** Code without operations defines no temporary. */
  lemma {:induction false} NoTempDefs(code: seq<Instr>)
    requires forall k :: 0 <= k < |code| ==> code[k].kind != OP && code[k].kind != UNARY
    ensures TempDefs(code) == []
    decreases |code|
  {
    if code != [] {
      NoTempDefs(code[1..]);
    }
  }

  lemma TempDefsOne(i: Instr)
    ensures TempDefs([i]) == if i.kind == OP || i.kind == UNARY then [Shown(i.result)] else []
  {
    assert [i][1..] == [];
  }

  /** The code of a command or a list of commands and both counters after it. */
  datatype CmdCode = CmdCode(code: seq<Instr>, temps: nat, labels: nat)

  /** `_gerar_saida`: each expression, then one `WRITE` of its operand. */
  function LowerWrites(es: seq<Expr>, t: nat): (r: CmdCode)
    ensures r.temps >= t && r.labels == 0
    decreases |es|
  {
    if es == [] then CmdCode([], t, 0)
    else
      var a := LowerExpr(es[0], t);
      var rest := LowerWrites(es[1..], a.temps);
      CmdCode(a.code + [MkWrite(a.place)] + rest.code, rest.temps, 0)
  }

  /** `_gerar_comando`. A conditional takes two labels after its condition
      is lowered, a loop takes two before. */
  function LowerCmd(c: Cmd, t: nat, l: nat): (r: CmdCode)
    ensures r.temps >= t && r.labels >= l
    decreases c
  {
    match c
    case Assign(x, e) =>
      var a := LowerExpr(e, t);
      CmdCode(a.code + [MkAssign(x, a.place)], a.temps, l)
    case If(cond, thenCmds, elseCmds) =>
      var a := LowerExpr(cond, t);
      var elseLabel := LabelName(l + 1);
      var endLabel := LabelName(l + 2);
      var th := LowerBlock(thenCmds, a.temps, l + 2);
      if elseCmds != [] then
        var el := LowerBlock(elseCmds, th.temps, th.labels);
        CmdCode(a.code + [MkIfFalse(a.place, elseLabel)] + th.code
                + [MkGoto(endLabel), MkLabel(elseLabel)] + el.code + [MkLabel(endLabel)],
                el.temps, el.labels)
      else
        CmdCode(a.code + [MkIfFalse(a.place, endLabel)] + th.code + [MkLabel(endLabel)], th.temps, th.labels)
    case While(cond, body) =>
      var startLabel := LabelName(l + 1);
      var endLabel := LabelName(l + 2);
      var a := LowerExpr(cond, t);
      var b := LowerBlock(body, a.temps, l + 2);
      CmdCode([MkLabel(startLabel)] + a.code + [MkIfFalse(a.place, endLabel)] + b.code
               + [MkGoto(startLabel), MkLabel(endLabel)],
               b.temps, b.labels)
    case Read(x) => CmdCode([MkRead(x)], t, l)
    case Write(es) =>
      var w := LowerWrites(es, t);
      CmdCode(w.code, w.temps, l)
  }

  function LowerBlock(cs: seq<Cmd>, t: nat, l: nat): (r: CmdCode)
    ensures r.temps >= t && r.labels >= l
    decreases cs
  {
    if cs == [] then CmdCode([], t, l)
    else
      var first := LowerCmd(cs[0], t, l);
      var rest := LowerBlock(cs[1..], first.temps, first.labels);
      CmdCode(first.code + rest.code, rest.temps, rest.labels)
  }

  /** `_gerar_declaracao` for each declaration. */
  function LowerDecls(ds: seq<Decl>): (code: seq<Instr>)
    ensures |code| == |ds|
    ensures forall k :: 0 <= k < |ds| ==> code[k] == MkInit(ds[k].name, InitValue(ds[k].typ))
    decreases |ds|
  {
    if ds == [] then [] else [MkInit(ds[0].name, InitValue(ds[0].typ))] + LowerDecls(ds[1..])
  }

  /** `gerar`: both counters start at 0, the declarations come first. */
  function LowerProgram(p: Program): seq<Instr> {
    LowerDecls(p.decls) + LowerBlock(p.cmds, 0, 0).code
  }

  // ------------------------------------------------------------------
  // Properties of the lowering
  // ------------------------------------------------------------------

  /** The temporaries a command defines are exactly the ones its counter
      handed out, in order. */
  lemma {:induction false} LowerCmdTemps(c: Cmd, t: nat, l: nat)
    ensures TempDefs(LowerCmd(c, t, l).code) == TempRange(t, LowerCmd(c, t, l).temps)
    decreases c
  {
    match c
    case Assign(x, e) =>
      var a := LowerExpr(e, t);
      LowerExprShape(e, t);
      NoTempDefs([MkAssign(x, a.place)]);
      TempDefsAppend(a.code, [MkAssign(x, a.place)]);
    case If(cond, thenCmds, elseCmds) =>
      var a := LowerExpr(cond, t);
      LowerExprShape(cond, t);
      var th := LowerBlock(thenCmds, a.temps, l + 2);
      LowerBlockTemps(thenCmds, a.temps, l + 2);
      if elseCmds != [] {
        var el := LowerBlock(elseCmds, th.temps, th.labels);
        LowerBlockTemps(elseCmds, th.temps, th.labels);
        IfElseTemps(a.code, MkIfFalse(a.place, LabelName(l + 1)), th.code,
                    MkGoto(LabelName(l + 2)), MkLabel(LabelName(l + 1)), el.code, MkLabel(LabelName(l + 2)),
                    t, a.temps, th.temps, el.temps);
      } else {
        IfThenTemps(a.code, MkIfFalse(a.place, LabelName(l + 2)), th.code, MkLabel(LabelName(l + 2)),
                    t, a.temps, th.temps);
      }
    case While(cond, body) =>
      var a := LowerExpr(cond, t);
      LowerExprShape(cond, t);
      var b := LowerBlock(body, a.temps, l + 2);
      LowerBlockTemps(body, a.temps, l + 2);
      WhileTemps(MkLabel(LabelName(l + 1)), a.code, MkIfFalse(a.place, LabelName(l + 2)), b.code,
                 MkGoto(LabelName(l + 1)), MkLabel(LabelName(l + 2)), t, a.temps, b.temps);
    case Read(x) =>
    case Write(es) =>
      LowerWritesTemps(es, t);
  }

  lemma {:induction false} LowerBlockTemps(cs: seq<Cmd>, t: nat, l: nat)
    ensures TempDefs(LowerBlock(cs, t, l).code) == TempRange(t, LowerBlock(cs, t, l).temps)
    decreases cs
  {
    if cs != [] {
      var first := LowerCmd(cs[0], t, l);
      var rest := LowerBlock(cs[1..], first.temps, first.labels);
      LowerCmdTemps(cs[0], t, l);
      LowerBlockTemps(cs[1..], first.temps, first.labels);
      TempDefsAppend(first.code, rest.code);
      TempRangeSplit(t, first.temps, rest.temps);
    }
  }

  lemma {:induction false} LowerWritesTemps(es: seq<Expr>, t: nat)
    ensures TempDefs(LowerWrites(es, t).code) == TempRange(t, LowerWrites(es, t).temps)
    decreases |es|
  {
    if es != [] {
      var a := LowerExpr(es[0], t);
      LowerExprShape(es[0], t);
      var rest := LowerWrites(es[1..], a.temps);
      LowerWritesTemps(es[1..], a.temps);
      TempDefsGlue(a.code, MkWrite(a.place), rest.code);
      TempRangeSplit(t, a.temps, rest.temps);
    }
  }

  predicate IsOperation(i: Instr) {
    i.kind == OP || i.kind == UNARY
  }

  /** An instruction that is not an operation, put between two pieces of
      code, adds no temporary. */
  lemma TempDefsGlue(x: seq<Instr>, i: Instr, y: seq<Instr>)
    requires !IsOperation(i)
    ensures TempDefs(x + [i] + y) == TempDefs(x) + TempDefs(y)
  {
    TempDefsOne(i);
    TempDefsAppend(x, [i]);
    TempDefsAppend(x + [i], y);
  }

  lemma IfThenTemps(a: seq<Instr>, j: Instr, th: seq<Instr>, lab: Instr, t0: nat, t1: nat, t2: nat)
    requires !IsOperation(j) && !IsOperation(lab) && t0 <= t1 <= t2
    requires TempDefs(a) == TempRange(t0, t1) && TempDefs(th) == TempRange(t1, t2)
    ensures TempDefs(a + [j] + th + [lab]) == TempRange(t0, t2)
  {
    TempDefsGlue(a, j, th);
    TempRangeSplit(t0, t1, t2);
    TempDefsGlue(a + [j] + th, lab, []);
    assert a + [j] + th + [lab] + [] == a + [j] + th + [lab];
  }

  lemma IfElseTemps(a: seq<Instr>, j: Instr, th: seq<Instr>, g: Instr, lab: Instr, el: seq<Instr>, fin: Instr,
                    t0: nat, t1: nat, t2: nat, t3: nat)
    requires !IsOperation(j) && !IsOperation(g) && !IsOperation(lab) && !IsOperation(fin)
    requires t0 <= t1 <= t2 <= t3
    requires TempDefs(a) == TempRange(t0, t1) && TempDefs(th) == TempRange(t1, t2) && TempDefs(el) == TempRange(t2, t3)
    ensures TempDefs(a + [j] + th + [g, lab] + el + [fin]) == TempRange(t0, t3)
  {
    var p1 := a + [j] + th;
    TempDefsGlue(a, j, th);
    TempRangeSplit(t0, t1, t2);
    var p2 := p1 + [g] + [];
    TempDefsGlue(p1, g, []);
    var p3 := p2 + [lab] + el;
    TempDefsGlue(p2, lab, el);
    TempRangeSplit(t0, t2, t3);
    TempDefsGlue(p3, fin, []);
    assert p3 + [fin] + [] == a + [j] + th + [g, lab] + el + [fin];
  }

  lemma WhileTemps(start: Instr, a: seq<Instr>, j: Instr, b: seq<Instr>, g: Instr, fin: Instr, t0: nat, t1: nat, t2: nat)
    requires !IsOperation(start) && !IsOperation(j) && !IsOperation(g) && !IsOperation(fin)
    requires t0 <= t1 <= t2
    requires TempDefs(a) == TempRange(t0, t1) && TempDefs(b) == TempRange(t1, t2)
    ensures TempDefs([start] + a + [j] + b + [g, fin]) == TempRange(t0, t2)
  {
    TempDefsGlue([], start, a);
    var p1 := [] + [start] + a + [j] + b;
    TempDefsGlue([] + [start] + a, j, b);
    TempRangeSplit(t0, t1, t2);
    var p2 := p1 + [g] + [];
    TempDefsGlue(p1, g, []);
    TempDefsGlue(p2, fin, []);
    assert p2 + [fin] + [] == [start] + a + [j] + b + [g, fin];
  }

  /** No temporary of a lowered program is assigned by two instructions. */
  lemma ProgramTempsAreSingleAssignment(p: Program)
    ensures var defs := TempDefs(LowerProgram(p));
            forall j, k :: 0 <= j < k < |defs| ==> defs[j] != defs[k]
  {
    var b := LowerBlock(p.cmds, 0, 0);
    LowerBlockTemps(p.cmds, 0, 0);
    DeclsDefineNoTemps(p.decls);
    TempDefsAppend(LowerDecls(p.decls), b.code);
    TempRangeDistinct(0, b.temps);
  }

  lemma {:induction false} DeclsDefineNoTemps(ds: seq<Decl>)
    ensures TempDefs(LowerDecls(ds)) == []
    decreases |ds|
  {
    if ds != [] {
      DeclsDefineNoTemps(ds[1..]);
    }
  }

  /** Every label a command jumps to is defined in its own code. */
  lemma {:induction false} LowerCmdJumpsStayInside(c: Cmd, t: nat, l: nat)
    ensures JumpTargets(LowerCmd(c, t, l).code) <= LabelDefs(LowerCmd(c, t, l).code)
    decreases c
  {
    match c
    case Assign(x, e) =>
      var a := LowerExpr(e, t);
      ExprCodeHasNoLabels(e, t);
      LabelsAppend(a.code, [MkAssign(x, a.place)]);
    case If(cond, thenCmds, elseCmds) =>
      var a := LowerExpr(cond, t);
      ExprCodeHasNoLabels(cond, t);
      var th := LowerBlock(thenCmds, a.temps, l + 2);
      LowerBlockJumpsStayInside(thenCmds, a.temps, l + 2);
      if elseCmds != [] {
        var el := LowerBlock(elseCmds, th.temps, th.labels);
        LowerBlockJumpsStayInside(elseCmds, th.temps, th.labels);
        IfElseLabels(a.code, a.place, LabelName(l + 1), LabelName(l + 2), th.code, el.code);
      } else {
        IfThenLabels(a.code, a.place, LabelName(l + 2), th.code);
      }
    case While(cond, body) =>
      var a := LowerExpr(cond, t);
      ExprCodeHasNoLabels(cond, t);
      var b := LowerBlock(body, a.temps, l + 2);
      LowerBlockJumpsStayInside(body, a.temps, l + 2);
      WhileLabels(a.code, a.place, LabelName(l + 1), LabelName(l + 2), b.code);
    case Read(x) =>
    case Write(es) =>
      LowerWritesHaveNoLabels(es, t);
  }

  lemma {:induction false} LowerBlockJumpsStayInside(cs: seq<Cmd>, t: nat, l: nat)
    ensures JumpTargets(LowerBlock(cs, t, l).code) <= LabelDefs(LowerBlock(cs, t, l).code)
    decreases cs
  {
    if cs != [] {
      var first := LowerCmd(cs[0], t, l);
      var rest := LowerBlock(cs[1..], first.temps, first.labels);
      LowerCmdJumpsStayInside(cs[0], t, l);
      LowerBlockJumpsStayInside(cs[1..], first.temps, first.labels);
      LabelsAppend(first.code, rest.code);
    }
  }

  lemma {:induction false} LowerWritesHaveNoLabels(es: seq<Expr>, t: nat)
    ensures JumpTargets(LowerWrites(es, t).code) == {}
    decreases |es|
  {
    if es != [] {
      var a := LowerExpr(es[0], t);
      var rest := LowerWrites(es[1..], a.temps);
      ExprCodeHasNoLabels(es[0], t);
      LowerWritesHaveNoLabels(es[1..], a.temps);
      LabelsAppend(a.code, [MkWrite(a.place)]);
      LabelsAppend(a.code + [MkWrite(a.place)], rest.code);
    }
  }

  lemma GotoThenLabel(target: string, defined: string)
    ensures JumpTargets([MkGoto(target), MkLabel(defined)]) == {target}
    ensures LabelDefs([MkGoto(target), MkLabel(defined)]) == {defined}
  {
    var one := [MkLabel(defined)];
    assert one[1..] == [];
    assert JumpTargets(one) == {} && LabelDefs(one) == {defined};
    assert [MkGoto(target), MkLabel(defined)][1..] == one;
  }

  lemma IfThenLabels(a: seq<Instr>, place: string, endLabel: string, th: seq<Instr>)
    requires JumpTargets(a) == {} && JumpTargets(th) <= LabelDefs(th)
    ensures var code := a + [MkIfFalse(place, endLabel)] + th + [MkLabel(endLabel)];
            JumpTargets(code) <= LabelDefs(code)
  {
    LabelsAppend(a, [MkIfFalse(place, endLabel)]);
    LabelsAppend(a + [MkIfFalse(place, endLabel)], th);
    LabelsAppend(a + [MkIfFalse(place, endLabel)] + th, [MkLabel(endLabel)]);
  }

  lemma IfElseLabels(a: seq<Instr>, place: string, elseLabel: string, endLabel: string, th: seq<Instr>, el: seq<Instr>)
    requires JumpTargets(a) == {} && JumpTargets(th) <= LabelDefs(th) && JumpTargets(el) <= LabelDefs(el)
    ensures var code := a + [MkIfFalse(place, elseLabel)] + th + [MkGoto(endLabel), MkLabel(elseLabel)]
                        + el + [MkLabel(endLabel)];
            JumpTargets(code) <= LabelDefs(code)
  {
    var mid := [MkGoto(endLabel), MkLabel(elseLabel)];
    GotoThenLabel(endLabel, elseLabel);
    LabelsAppend(a, [MkIfFalse(place, elseLabel)]);
    LabelsAppend(a + [MkIfFalse(place, elseLabel)], th);
    LabelsAppend(a + [MkIfFalse(place, elseLabel)] + th, mid);
    LabelsAppend(a + [MkIfFalse(place, elseLabel)] + th + mid, el);
    LabelsAppend(a + [MkIfFalse(place, elseLabel)] + th + mid + el, [MkLabel(endLabel)]);
  }

  lemma WhileLabels(a: seq<Instr>, place: string, startLabel: string, endLabel: string, b: seq<Instr>)
    requires JumpTargets(a) == {} && JumpTargets(b) <= LabelDefs(b)
    ensures var code := [MkLabel(startLabel)] + a + [MkIfFalse(place, endLabel)] + b
                        + [MkGoto(startLabel), MkLabel(endLabel)];
            JumpTargets(code) <= LabelDefs(code)
  {
    var fin := [MkGoto(startLabel), MkLabel(endLabel)];
    GotoThenLabel(startLabel, endLabel);
    LabelsAppend([MkLabel(startLabel)], a);
    LabelsAppend([MkLabel(startLabel)] + a, [MkIfFalse(place, endLabel)]);
    LabelsAppend([MkLabel(startLabel)] + a + [MkIfFalse(place, endLabel)], b);
    LabelsAppend([MkLabel(startLabel)] + a + [MkIfFalse(place, endLabel)] + b, fin);
  }

  /** `escreva` emits one `WRITE` per expression, in order, each writing
      the operand that holds that expression's value. */
  lemma {:induction false} OneWritePerExpression(es: seq<Expr>, t: nat)
    ensures |Writes(LowerWrites(es, t).code)| == |es|
    ensures es != [] ==> Writes(LowerWrites(es, t).code)[0] == LowerExpr(es[0], t).place
    decreases |es|
  {
    if es != [] {
      var a := LowerExpr(es[0], t);
      var rest := LowerWrites(es[1..], a.temps);
      ExprCodeHasNoLabels(es[0], t);
      OneWritePerExpression(es[1..], a.temps);
      WritesAppend(a.code, [MkWrite(a.place)]);
      WritesAppend(a.code + [MkWrite(a.place)], rest.code);
    }
  }

  lemma AppendTwo<T>(s: seq<T>, a: seq<T>, b: seq<T>)
    ensures s + a + b == s + (a + b)
  {
  }

  lemma AppendThree<T>(s: seq<T>, a: seq<T>, b: seq<T>, c: seq<T>)
    ensures s + a + b + c == s + (a + b + c)
  {
  }

  lemma IfThenAppend(s: seq<Instr>, a: seq<Instr>, j: Instr, th: seq<Instr>, fin: Instr)
    ensures s + a + [j] + th + [fin] == s + (a + [j] + th + [fin])
  {
  }

  lemma IfElseAppend(s: seq<Instr>, a: seq<Instr>, j: Instr, th: seq<Instr>, g: Instr, lab: Instr,
                     el: seq<Instr>, fin: Instr)
    ensures s + a + [j] + th + [g] + [lab] + el + [fin] == s + (a + [j] + th + [g, lab] + el + [fin])
  {
    assert [g] + [lab] == [g, lab];
  }

  lemma WhileAppend(s: seq<Instr>, start: Instr, a: seq<Instr>, j: Instr, b: seq<Instr>, g: Instr, fin: Instr)
    ensures s + [start] + a + [j] + b + [g] + [fin] == s + ([start] + a + [j] + b + [g, fin])
  {
    assert [g] + [fin] == [g, fin];
  }

  lemma LowerIfElse(cond: Expr, thenCmds: seq<Cmd>, elseCmds: seq<Cmd>, t: nat, l: nat,
                    a: ExprCode, th: CmdCode, el: CmdCode)
    requires elseCmds != [] && a == LowerExpr(cond, t)
    requires th == LowerBlock(thenCmds, a.temps, l + 2) && el == LowerBlock(elseCmds, th.temps, th.labels)
    ensures LowerCmd(If(cond, thenCmds, elseCmds), t, l)
            == CmdCode(a.code + [MkIfFalse(a.place, LabelName(l + 1))] + th.code
                       + [MkGoto(LabelName(l + 2)), MkLabel(LabelName(l + 1))] + el.code + [MkLabel(LabelName(l + 2))],
                       el.temps, el.labels)
  {
  }

  lemma LowerIfThen(cond: Expr, thenCmds: seq<Cmd>, t: nat, l: nat, a: ExprCode, th: CmdCode)
    requires a == LowerExpr(cond, t) && th == LowerBlock(thenCmds, a.temps, l + 2)
    ensures LowerCmd(If(cond, thenCmds, []), t, l)
            == CmdCode(a.code + [MkIfFalse(a.place, LabelName(l + 2))] + th.code + [MkLabel(LabelName(l + 2))],
                       th.temps, th.labels)
  {
  }

  // ------------------------------------------------------------------
  // The generator as an object
  // ------------------------------------------------------------------

  /** `GeradorCodigoIntermediario`: the instruction list and the two counters. */
  class IRGenerator {
    var code: seq<Instr>
    var temps: nat
    var labels: nat

    constructor()
      ensures code == [] && temps == 0 && labels == 0
    {
      code := [];
      temps := 0;
      labels := 0;
    }

    method NewTemp() returns (name: string)
      modifies this
      ensures temps == old(temps) + 1 && name == TempName(temps)
      ensures code == old(code) && labels == old(labels)
    {
      temps := temps + 1;
      name := TempName(temps);
    }

    method NewLabel() returns (name: string)
      modifies this
      ensures labels == old(labels) + 1 && name == LabelName(labels)
      ensures code == old(code) && temps == old(temps)
    {
      labels := labels + 1;
      name := LabelName(labels);
    }

    method Emit(i: Instr)
      modifies this
      ensures code == old(code) + [i] && temps == old(temps) && labels == old(labels)
    {
      code := code + [i];
    }

    /** `gerar`: resets the list and both counters, then lowers the
        declarations and the commands. */
    method Generate(p: Program) returns (r: seq<Instr>)
      modifies this
      ensures r == code && code == LowerProgram(p)
      ensures temps == LowerBlock(p.cmds, 0, 0).temps && labels == LowerBlock(p.cmds, 0, 0).labels
    {
      code := [];
      temps := 0;
      labels := 0;
      var k := 0;
      while k < |p.decls|
        invariant 0 <= k <= |p.decls|
        invariant code == LowerDecls(p.decls)[..k] && temps == 0 && labels == 0
      {
        GenerateDecl(p.decls[k]);
        assert LowerDecls(p.decls)[..k + 1] == LowerDecls(p.decls)[..k] + [LowerDecls(p.decls)[k]];
        k := k + 1;
      }
      assert LowerDecls(p.decls)[..k] == LowerDecls(p.decls);
      GenerateBlock(p.cmds);
      r := code;
    }

    method GenerateDecl(d: Decl)
      modifies this
      ensures code == old(code) + [MkInit(d.name, InitValue(d.typ))]
      ensures temps == old(temps) && labels == old(labels)
    {
      var value := InitValue(d.typ);
      Emit(MkInit(d.name, value));
    }

    method GenerateBlock(cs: seq<Cmd>)
      modifies this
      ensures var b := LowerBlock(cs, old(temps), old(labels));
              code == old(code) + b.code && temps == b.temps && labels == b.labels
      decreases cs, 0
    {
      ghost var t0 := temps;
      ghost var l0 := labels;
      ghost var c0 := code;
      var k := 0;
      while k < |cs|
        invariant 0 <= k <= |cs|
        invariant var whole := LowerBlock(cs, t0, l0);
                  var rest := LowerBlock(cs[k..], temps, labels);
                  c0 + whole.code == code + rest.code && whole.temps == rest.temps && whole.labels == rest.labels
      {
        assert cs[k..][1..] == cs[k + 1..];
        ghost var before := code;
        ghost var first := LowerCmd(cs[k], temps, labels);
        GenerateCommand(cs[k]);
        AppendTwo(before, first.code, LowerBlock(cs[k + 1..], temps, labels).code);
        k := k + 1;
      }
    }

    /** `_gerar_comando`: dispatches on the kind of command. */
    method GenerateCommand(c: Cmd)
      modifies this
      ensures var r := LowerCmd(c, old(temps), old(labels));
              code == old(code) + r.code && temps == r.temps && labels == r.labels
      decreases c, 2
    {
      match c
      case Assign(x, e) =>
        GenerateAssign(x, e);
      case If(cond, thenCmds, elseCmds) =>
        GenerateIf(cond, thenCmds, elseCmds);
      case While(cond, body) =>
        GenerateWhile(cond, body);
      case Read(x) =>
        Emit(MkRead(x));
      case Write(es) =>
        GenerateWrites(es);
    }

    /** `_gerar_atribuicao`. */
    method GenerateAssign(x: string, e: Expr)
      modifies this
      ensures var r := LowerCmd(Assign(x, e), old(temps), old(labels));
              code == old(code) + r.code && temps == r.temps && labels == r.labels
    {
      ghost var c0 := code;
      ghost var value := LowerExpr(e, temps);
      var place := GenerateExpr(e);
      Emit(MkAssign(x, place));
      AppendTwo(c0, value.code, [MkAssign(x, place)]);
    }

    /** `_gerar_condicional`. */
    method GenerateIf(cond: Expr, thenCmds: seq<Cmd>, elseCmds: seq<Cmd>)
      modifies this
      ensures var r := LowerCmd(If(cond, thenCmds, elseCmds), old(temps), old(labels));
              code == old(code) + r.code && temps == r.temps && labels == r.labels
      decreases If(cond, thenCmds, elseCmds), 1
    {
      ghost var c0 := code;
      ghost var t0 := temps;
      ghost var l0 := labels;
      ghost var test := LowerExpr(cond, temps);
      var place := GenerateExpr(cond);
      var elseLabel := NewLabel();
      var endLabel := NewLabel();
      ghost var th := LowerBlock(thenCmds, temps, labels);
      if elseCmds != [] {
        Emit(MkIfFalse(place, elseLabel));
        GenerateBlock(thenCmds);
        Emit(MkGoto(endLabel));
        Emit(MkLabel(elseLabel));
        ghost var el := LowerBlock(elseCmds, temps, labels);
        GenerateBlock(elseCmds);
        Emit(MkLabel(endLabel));
        IfElseAppend(c0, test.code, MkIfFalse(place, elseLabel), th.code, MkGoto(endLabel), MkLabel(elseLabel),
                     el.code, MkLabel(endLabel));
        LowerIfElse(cond, thenCmds, elseCmds, t0, l0, test, th, el);
      } else {
        Emit(MkIfFalse(place, endLabel));
        GenerateBlock(thenCmds);
        Emit(MkLabel(endLabel));
        IfThenAppend(c0, test.code, MkIfFalse(place, endLabel), th.code, MkLabel(endLabel));
        LowerIfThen(cond, thenCmds, t0, l0, test, th);
      }
    }

    /** `_gerar_repeticao`. */
    method GenerateWhile(cond: Expr, body: seq<Cmd>)
      modifies this
      ensures var r := LowerCmd(While(cond, body), old(temps), old(labels));
              code == old(code) + r.code && temps == r.temps && labels == r.labels
      decreases While(cond, body), 1
    {
      ghost var c0 := code;
      ghost var l0 := labels;
      var startLabel := NewLabel();
      var endLabel := NewLabel();
      assert startLabel == LabelName(l0 + 1) && endLabel == LabelName(l0 + 2);
      Emit(MkLabel(startLabel));
      ghost var test := LowerExpr(cond, temps);
      var place := GenerateExpr(cond);
      Emit(MkIfFalse(place, endLabel));
      ghost var b := LowerBlock(body, temps, labels);
      GenerateBlock(body);
      Emit(MkGoto(startLabel));
      Emit(MkLabel(endLabel));
      WhileAppend(c0, MkLabel(startLabel), test.code, MkIfFalse(place, endLabel), b.code,
                  MkGoto(startLabel), MkLabel(endLabel));
    }

    /** `_gerar_saida`. */
    method GenerateWrites(es: seq<Expr>)
      modifies this
      ensures var w := LowerWrites(es, old(temps));
              code == old(code) + w.code && temps == w.temps && labels == old(labels)
    {
      ghost var t0 := temps;
      ghost var c0 := code;
      var k := 0;
      while k < |es|
        invariant 0 <= k <= |es| && labels == old(labels)
        invariant var whole := LowerWrites(es, t0);
                  var rest := LowerWrites(es[k..], temps);
                  c0 + whole.code == code + rest.code && whole.temps == rest.temps
      {
        assert es[k..][1..] == es[k + 1..];
        ghost var before := code;
        ghost var value := LowerExpr(es[k], temps);
        var place := GenerateExpr(es[k]);
        Emit(MkWrite(place));
        AppendThree(before, value.code, [MkWrite(place)], LowerWrites(es[k + 1..], temps).code);
        k := k + 1;
      }
    }

    /** `_gerar_expressao`. */
    method GenerateExpr(e: Expr) returns (place: string)
      modifies this
      ensures var r := LowerExpr(e, old(temps));
              place == r.place && code == old(code) + r.code && temps == r.temps && labels == old(labels)
      decreases e, 0
    {
      match e
      case Literal(v) =>
        place := LiteralOperand(v);
      case Var(n) =>
        place := n;
      case Binary(l, op, r) =>
        ghost var c0 := code;
        ghost var left := LowerExpr(l, temps);
        var a := GenerateExpr(l);
        ghost var right := LowerExpr(r, temps);
        var b := GenerateExpr(r);
        place := NewTemp();
        Emit(MkOp(place, a, IrOperator(op), b));
        AppendThree(c0, left.code, right.code, [MkOp(place, a, IrOperator(op), b)]);
      case Unary(op, x) =>
        ghost var c0 := code;
        ghost var operand := LowerExpr(x, temps);
        var a := GenerateExpr(x);
        place := NewTemp();
        Emit(MkUnary(place, op, a));
        AppendTwo(c0, operand.code, [MkUnary(place, op, a)]);
    }
  }
}
