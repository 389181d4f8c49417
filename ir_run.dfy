/**
 * A meaning for straight-line three-address code, and what the optimizer's
 * passes do to it.
 *
 * The code is run on a machine holding the variables' values, the values
 * still to be read and the values written so far. Values are numbers,
 * booleans and texts; a value nothing defines (an unknown name, an
 * operation on the wrong kind of value, a division by zero, a read past the
 * end of the input) is `Stuck`. Jumps have no meaning here: every theorem is
 * about code without GOTO, IF and IFFALSE, whose destinations are names
 * rather than constants.
 *
 * Folding, the corrected propagations and dead code elimination keep the
 * meaning; the propagations as written do not (two counterexamples).
 */
module IrRun {
  import opened Chars
  import opened Errors
  import opened Intermediate
  import opened Optimizer

  datatype Value = Num(x: real) | Truth(b: bool) | Text(s: string) | Stuck

  /** The value a constant operand denotes. Infinities and not-a-number are
      left without one. */
  function Literal(s: string): Value {
    if IsNumeral(s) then Num(NumeralValue(s))
    else if s == "true" then Truth(true)
    else if s == "false" then Truth(false)
    else if IsQuoted(s) && |s| >= 2 then Text(s[1..|s| - 1])
    else Stuck
  }

  type Env = map<string, Value>

  function Lookup(e: Env, n: string): Value {
    if n in e then e[n] else Stuck
  }

  /** An operand's value: a constant denotes itself, a name its variable. */
  function Val(e: Env, o: Option<string>): Value {
    if IsConstant(o) then Literal(o.value)
    else if o.Some? then Lookup(e, o.value)
    else Stuck
  }

  /** Binary operators on numbers and booleans, as the generated Python
      computes them (exactly, where Python uses floating point). */
  function Apply(op: string, a: Value, b: Value): Value {
    if a.Num? && b.Num? && IsArithmeticOperator(op) && (op != "/" || b.x != 0.0) then Num(Arithmetic(op, a.x, b.x))
    else if a.Num? && b.Num? && IsComparisonOperator(op) then Truth(Compare(op, a.x, b.x))
    else if a.Truth? && b.Truth? && op == "and" then Truth(a.b && b.b)
    else if a.Truth? && b.Truth? && op == "or" then Truth(a.b || b.b)
    else Stuck
  }

  /** The parser builds only unary minus. */
  function ApplyUnary(op: string, a: Value): Value {
    if a.Num? && op == "-" then Num(-a.x) else Stuck
  }

  datatype Machine = Machine(env: Env, input: seq<Value>, output: seq<Value>)

  /** The value a defining instruction gives its destination. */
  function Produced(i: Instr, m: Machine): Value {
    match i.kind
    case ASSIGN => Val(m.env, i.operand1)
    case INIT => Val(m.env, i.operand1)
    case OP => Apply(Shown(i.operator), Val(m.env, i.operand1), Val(m.env, i.operand2))
    case UNARY => ApplyUnary(Shown(i.operator), Val(m.env, i.operand1))
    case READ => if m.input == [] then Stuck else m.input[0]
    case _ => Stuck
  }

  /** One instruction. A READ consumes a value; labels do nothing. */
  function Step(i: Instr, m: Machine): Machine {
    if Defines(i) && i.result.Some? then
      var rest := if i.kind == READ && m.input != [] then m.input[1..] else m.input;
      Machine(m.env[i.result.value := Produced(i, m)], rest, m.output)
    else if i.kind == WRITE then m.(output := m.output + [Val(m.env, i.operand1)])
    else m
  }

  function Run(code: seq<Instr>, m: Machine): Machine {
    if code == [] then m else Step(code[|code| - 1], Run(code[..|code| - 1], m))
  }

  /** No jump, and every destination a name the optimizer cannot mistake for
      a constant. */
  predicate Straight(i: Instr) {
    !IsJump(i.kind) && (Defines(i) ==> i.result.Some? && !IsConstant(i.result))
  }

  predicate StraightLine(code: seq<Instr>) {
    forall k :: 0 <= k < |code| ==> Straight(code[k])
  }

  // ---------------------------------------------------------------------------
  // Small facts about the machine

  lemma RunAppend(code: seq<Instr>, i: Instr, m: Machine)
    ensures Run(code + [i], m) == Step(i, Run(code, m))
  {
    assert (code + [i])[..|code|] == code;
  }

  lemma StraightLineInit(code: seq<Instr>)
    requires StraightLine(code) && code != []
    ensures StraightLine(code[..|code| - 1]) && Straight(code[|code| - 1])
  {
    var init := code[..|code| - 1];
    forall k | 0 <= k < |init|
      ensures Straight(init[k])
    {
      assert init[k] == code[k];
    }
  }

  /** Giving x a value changes no other operand's value. */
  lemma ValUnaffected(e: Env, x: string, v: Value, o: Option<string>)
    requires o != Some(x) || IsConstant(o)
    ensures Val(e[x := v], o) == Val(e, o)
  {
  }

  /** Two definitions of one destination that read no input and produce the
      same value do the same. */
  lemma SameDefinition(i: Instr, j: Instr, m: Machine)
    requires Defines(i) && Defines(j) && i.kind != READ && j.kind != READ
    requires i.result == j.result && Produced(i, m) == Produced(j, m)
    ensures Step(i, m) == Step(j, m)
  {
  }

  // ---------------------------------------------------------------------------
  // Folding

  lemma BoolLiteral(b: bool)
    ensures Literal(BoolText(b)) == Truth(b)
  {
    assert !IsNumeral("true") by {
      assert "true"[..FirstDot("true")] == "true";
    }
    assert !IsNumeral("false") by {
      assert "false"[..FirstDot("false")] == "false";
    }
  }

  /** The constant `_avaliar_operacao` computes denotes the value of the
      operation on the constants' values. */
  lemma EvaluateAgreesWithApply(a: string, op: string, b: string)
    requires Evaluate(a, op, b).Some?
    ensures Literal(Evaluate(a, op, b).value) == Apply(op, Literal(a), Literal(b))
  {
    if IsComparisonOperator(op) {
      BoolLiteral(Compare(op, NumeralValue(a), NumeralValue(b)));
    }
  }

  /** The constant a folded instruction assigns is the value the operation
      computes, in every state. */
  lemma FoldedProduces(i: Instr, m: Machine)
    requires Folded(i).Some?
    ensures Produced(Folded(i).value, m) == Produced(i, m)
  {
    var a, op, b := i.operand1.value, Shown(i.operator), i.operand2.value;
    EvaluateAgreesWithApply(a, op, b);
    assert Produced(i, m) == Apply(op, Literal(a), Literal(b));
  }

  /** A folded instruction does what the operation did, in every state. */
  lemma FoldKeepsStep(i: Instr, m: Machine)
    ensures Step(FoldOne(i), m) == Step(i, m)
  {
    if Folded(i).Some? {
      FoldedProduces(i, m);
      SameDefinition(Folded(i).value, i, m);
    }
  }

  /** Constant folding keeps the meaning of any code. */
  lemma {:induction false} FoldKeepsRun(code: seq<Instr>, m: Machine)
    ensures Run(Fold(code).code, m) == Run(code, m)
  {
    if code != [] {
      var init := code[..|code| - 1];
      var i := code[|code| - 1];
      FoldKeepsRun(init, m);
      FoldKeepsStep(i, Run(init, m));
      RunAppend(Fold(init).code, FoldOne(i), m);
    }
  }

  // ---------------------------------------------------------------------------
  // Algebraic simplification

  /** On two numbers, the operand an identity keeps has the operation's
      value. */
  lemma SimplifiedProducesOnNumbers(i: Instr, m: Machine)
    requires Simplified(i).Some?
    requires Val(m.env, i.operand1).Num? && Val(m.env, i.operand2).Num?
    ensures Produced(Simplified(i).value, m) == Produced(i, m)
  {
    ZeroAndOne();
    assert IsConstant(Some("0")) && IsConstant(Some("1"));
    var a, b := i.operand1, i.operand2;
    var x, y := Val(m.env, a).x, Val(m.env, b).x;
    var kept := Simplified(i).value.operand1;
    if i.operator == Some("+") && (b == Some("0") || a == Some("0")) {
      assert kept == if b == Some("0") then a else b;
    } else if i.operator == Some("-") && b == Some("0") {
      assert kept == a;
    } else if i.operator == Some("*") && b == Some("1") {
      assert kept == a && x * y == x;
    } else if i.operator == Some("*") && a == Some("1") {
      assert kept == b && x * y == y;
    } else if i.operator == Some("*") {
      assert kept == Some("0");
      if b == Some("0") {
        assert y == 0.0;
      } else {
        assert x == 0.0;
      }
    } else {
      assert kept == a;
    }
  }

  /** Algebraic simplification keeps a step whose operands are numbers. It
      does not keep others: `x + 0` with a text x fails where `x` does not. */
  lemma SimplifyKeepsStepOnNumbers(i: Instr, m: Machine)
    requires Val(m.env, i.operand1).Num? && Val(m.env, i.operand2).Num?
    ensures Step(SimplifyOne(i), m) == Step(i, m)
  {
    if Simplified(i).Some? {
      SimplifiedProducesOnNumbers(i, m);
      SameDefinition(Simplified(i).value, i, m);
    }
  }

  // ---------------------------------------------------------------------------
  // Propagation

  /** The table tells the truth about operand o in e. */
  predicate HoldsOn(t: Table, e: Env, o: Option<string>) {
    o in t ==> Val(e, o) == Val(e, Some(t[o]))
  }

  /** Every name the table knows has the value of its replacement. */
  predicate TableHolds(t: Table, e: Env) {
    forall o :: o in t ==> Val(e, o) == Val(e, Some(t[o]))
  }

  /** Each entry of t2 is one of t1. */
  predicate SubTable(t2: Table, t1: Table) {
    forall o :: o in t2 ==> o in t1 && t2[o] == t1[o]
  }

  /** Replacing operands the table tells the truth about changes nothing. */
  lemma SubstitutionKeepsStep(i: Instr, t: Table, m: Machine)
    requires HoldsOn(t, m.env, i.operand1)
    requires i.kind == OP ==> HoldsOn(t, m.env, i.operand2)
    ensures Step(Substituted(i, t), m) == Step(i, m)
  {
  }

  predicate ConstantValues(t: Table) {
    forall o :: o in t ==> IsConstant(Some(t[o]))
  }

  /** The table of constants holds only constants. */
  lemma {:induction false} ConstantTableHoldsConstants(code: seq<Instr>, v: Version)
    ensures ConstantValues(ConstantTable(code, v))
  {
    if code != [] {
      ConstantTableHoldsConstants(code[..|code| - 1], v);
    }
  }

  /** The value of a constant replacement does not depend on the state. */
  lemma ConstantTableSurvives(t: Table, e: Env, x: string, w: Value)
    requires ConstantValues(t) && TableHolds(t, e) && Some(x) !in t
    ensures TableHolds(t, e[x := w])
  {
    forall o | o in t
      ensures Val(e[x := w], o) == Val(e[x := w], Some(t[o]))
    {
      ValUnaffected(e, x, w, o);
      ValUnaffected(e, x, w, Some(t[o]));
    }
  }

  /** Dropping x from a table of constants keeps it truthful once x changes. */
  lemma ConstantDropped(t: Table, e: Env, x: string, w: Value)
    requires ConstantValues(t) && TableHolds(t, e)
    ensures TableHolds(t - {Some(x)}, e[x := w])
  {
    ConstantTableSurvives(t - {Some(x)}, e, x, w);
  }

  /** A new entry for x tells the truth when x has its replacement's value. */
  lemma TableExtends(t: Table, e: Env, x: string, c: string)
    requires TableHolds(t, e) && Val(e, Some(x)) == Val(e, Some(c))
    ensures TableHolds(t[Some(x) := c], e)
  {
  }

  /** The updated table of constants tells the truth about the operands the
      instruction reads, before it runs. */
  lemma ConstantOperandsHold(t: Table, i: Instr, e: Env)
    requires TableHolds(t, e) && Straight(i)
    ensures HoldsOn(ConstantUpdate(t, i, Corrected), e, i.operand1)
    ensures i.kind == OP ==> HoldsOn(ConstantUpdate(t, i, Corrected), e, i.operand2)
  {
    if i.kind == ASSIGN && IsConstant(i.operand1) {
      assert i.operand1 != i.result;
    }
  }

  /** The updated table of constants tells the truth once a definition has
      given its destination the value w. */
  lemma ConstantTableAfter(t: Table, i: Instr, e: Env, w: Value)
    requires ConstantValues(t) && TableHolds(t, e) && Straight(i) && Defines(i)
    requires i.kind == ASSIGN ==> w == Val(e, i.operand1)
    ensures TableHolds(ConstantUpdate(t, i, Corrected), e[i.result.value := w])
  {
    var x := i.result.value;
    ConstantDropped(t, e, x, w);
    if i.kind == ASSIGN && IsConstant(i.operand1) {
      TableExtends(t - {Some(x)}, e[x := w], x, i.operand1.value);
    }
  }

  /** One instruction of the corrected propagation of constants: the
      rewritten instruction does what the original does, and the updated
      table tells the truth afterwards. */
  lemma ConstantUpdateKeepsStep(t: Table, i: Instr, m: Machine)
    requires ConstantValues(t) && TableHolds(t, m.env) && Straight(i)
    ensures Step(Substituted(i, ConstantUpdate(t, i, Corrected)), m) == Step(i, m)
    ensures TableHolds(ConstantUpdate(t, i, Corrected), Step(i, m).env)
  {
    ConstantOperandsHold(t, i, m.env);
    SubstitutionKeepsStep(i, ConstantUpdate(t, i, Corrected), m);
    if Defines(i) {
      ConstantTableAfter(t, i, m.env, Produced(i, m));
    }
  }

  /** The corrected propagation of constants keeps the meaning of
      straight-line code. */
  lemma {:induction false} ConstantsKeepRun(code: seq<Instr>, m: Machine)
    requires StraightLine(code)
    ensures Run(PropagateConstants(code, Corrected).code, m) == Run(code, m)
    ensures TableHolds(ConstantTable(code, Corrected), Run(code, m).env)
  {
    if code != [] {
      var init := code[..|code| - 1];
      var i := code[|code| - 1];
      StraightLineInit(code);
      ConstantsKeepRun(init, m);
      ConstantTableHoldsConstants(init, Corrected);
      ConstantUpdateKeepsStep(ConstantTable(init, Corrected), i, Run(init, m));
      RunAppend(PropagateConstants(init, Corrected).code, Substituted(i, ConstantTable(code, Corrected)), m);
    }
  }

  /** What is left of a copy table after x gets a value w still tells the
      truth. */
  lemma ForgetSurvives(t: Table, e: Env, x: string, w: Value)
    requires TableHolds(t, e)
    ensures TableHolds(Forget(t, Some(x)), e[x := w])
  {
    var f := Forget(t, Some(x));
    forall o | o in f
      ensures Val(e[x := w], o) == Val(e[x := w], Some(f[o]))
    {
      ValUnaffected(e, x, w, o);
      ValUnaffected(e, x, w, Some(f[o]));
    }
  }

  /** The updated copy table tells the truth about the operands the
      instruction reads, before it runs. */
  lemma CopyOperandsHold(t: Table, i: Instr, e: Env)
    requires TableHolds(t, e) && Straight(i)
    ensures HoldsOn(CopyUpdate(t, i, Corrected), e, i.operand1)
    ensures i.kind == OP ==> HoldsOn(CopyUpdate(t, i, Corrected), e, i.operand2)
  {
    if Defines(i) {
      assert SubTable(Forget(t, i.result), t);
    }
  }

  /** The updated copy table tells the truth once a definition has given its
      destination the value w. */
  lemma CopyTableAfter(t: Table, i: Instr, e: Env, w: Value)
    requires TableHolds(t, e) && Straight(i) && Defines(i)
    requires i.kind == ASSIGN ==> w == Val(e, i.operand1)
    ensures TableHolds(CopyUpdate(t, i, Corrected), e[i.result.value := w])
  {
    var x := i.result.value;
    ForgetSurvives(t, e, x, w);
    if i.kind == ASSIGN && !IsConstant(i.operand1) && Present(i.operand1) && i.operand1 != i.result {
      ValUnaffected(e, x, w, i.operand1);
      TableExtends(Forget(t, i.result), e[x := w], x, i.operand1.value);
    }
  }

  /** One instruction of the corrected propagation of copies. */
  lemma CopyUpdateKeepsStep(t: Table, i: Instr, m: Machine)
    requires TableHolds(t, m.env) && Straight(i)
    ensures Step(Substituted(i, CopyUpdate(t, i, Corrected)), m) == Step(i, m)
    ensures TableHolds(CopyUpdate(t, i, Corrected), Step(i, m).env)
  {
    CopyOperandsHold(t, i, m.env);
    SubstitutionKeepsStep(i, CopyUpdate(t, i, Corrected), m);
    if Defines(i) {
      CopyTableAfter(t, i, m.env, Produced(i, m));
    }
  }

  /** The corrected propagation of copies keeps the meaning of straight-line
      code. */
  lemma {:induction false} CopiesKeepRun(code: seq<Instr>, m: Machine)
    requires StraightLine(code)
    ensures Run(PropagateCopies(code, Corrected).code, m) == Run(code, m)
    ensures TableHolds(CopyTable(code, Corrected), Run(code, m).env)
  {
    if code != [] {
      var init := code[..|code| - 1];
      var i := code[|code| - 1];
      StraightLineInit(code);
      CopiesKeepRun(init, m);
      CopyUpdateKeepsStep(CopyTable(init, Corrected), i, Run(init, m));
      RunAppend(PropagateCopies(init, Corrected).code, Substituted(i, CopyTable(code, Corrected)), m);
    }
  }

  // ---------------------------------------------------------------------------
  // Dead code elimination

  /** A name whose value may still be read: a used name, or one that is not a
      temporary. */
  predicate Visible(n: string, used: set<string>) {
    n in used || !StartsWithT(n)
  }

  /** Two machines that read and wrote the same and agree on visible names. */
  ghost predicate Related(m1: Machine, m2: Machine, used: set<string>) {
    m1.input == m2.input && m1.output == m2.output
    && forall n :: Visible(n, used) ==> Lookup(m1.env, n) == Lookup(m2.env, n)
  }

  /** An operand dead code elimination cannot have orphaned. */
  predicate Covered(o: Option<string>, used: set<string>) {
    Present(o) && !IsConstant(o) ==> o.value in used
  }

  lemma ValAgrees(m1: Machine, m2: Machine, used: set<string>, o: Option<string>)
    requires Related(m1, m2, used) && Covered(o, used)
    ensures Val(m1.env, o) == Val(m2.env, o)
  {
    if o.Some? && !IsConstant(o) {
      assert Visible(o.value, used);
    }
  }

  /** A kept instruction does the same on related machines. */
  lemma KeptStepRelated(i: Instr, m1: Machine, m2: Machine, used: set<string>)
    requires Related(m1, m2, used) && Straight(i) && UsedBy(i) <= used
    ensures Related(Step(i, m1), Step(i, m2), used)
  {
    ValAgrees(m1, m2, used, i.operand1);
    ValAgrees(m1, m2, used, i.operand2);
    assert Produced(i, m1) == Produced(i, m2);
  }

  /** A removed instruction only changes a name nobody reads. */
  lemma RemovedStepRelated(i: Instr, m1: Machine, m2: Machine, used: set<string>)
    requires Related(m1, m2, used) && Straight(i) && Removable(i, used)
    ensures Related(m1, Step(i, m2), used)
  {
    assert !Visible(i.result.value, used);
  }

  /** On straight-line code, with a used set that covers the code's names,
      dead code elimination keeps what is read and written, and every name
      but the unused temporaries. */
  lemma {:induction false} DeadCodeKeepsRun(code: seq<Instr>, used: set<string>, m: Machine)
    requires StraightLine(code) && UsedNames(code) <= used
    ensures Related(Run(DeadCode(code, used).code, m), Run(code, m), used)
  {
    if code != [] {
      var init := code[..|code| - 1];
      var i := code[|code| - 1];
      StraightLineInit(code);
      DeadCodeKeepsRun(init, used, m);
      NoJumpNoDeadRegion(init);
      var p := DeadCode(init, used).code;
      if Kept(i, false, used) {
        KeptStepRelated(i, Run(p, m), Run(init, m), used);
        RunAppend(p, i, m);
      } else {
        RemovedStepRelated(i, Run(p, m), Run(init, m), used);
      }
    }
  }

  /** Dead code elimination with the pass's own used set writes what the
      code writes. */
  lemma DeadCodeKeepsOutput(code: seq<Instr>, m: Machine)
    requires StraightLine(code)
    ensures Run(DeadCode(code, UsedNames(code)).code, m).output == Run(code, m).output
  {
    DeadCodeKeepsRun(code, UsedNames(code), m);
  }

  // ---------------------------------------------------------------------------
  // The propagations as written

  /** A one-letter name is not mistaken for a constant. */
  lemma LetterIsName(c: char)
    requires 'a' <= c <= 'z'
    ensures !IsConstant(Some([c]))
  {
    assert [c][..FirstDot([c])] == [c];
  }

  lemma FiveIsConstant()
    ensures IsConstant(Some("5")) && Literal("5") == Num(5.0)
  {
    IntegerNumeral(5);
    assert IntToDecimal(5) == "5";
  }

  lemma RunThree(a: Instr, b: Instr, c: Instr, m: Machine)
    ensures Run([a, b, c], m) == Step(c, Step(b, Step(a, m)))
  {
    RunAppend([a, b], c, m);
    RunAppend([a], b, m);
    RunAppend([], a, m);
    assert [a, b] + [c] == [a, b, c] && [a] + [b] == [a, b] && [] + [a] == [a];
  }

  lemma StraightThree(a: Instr, b: Instr, c: Instr)
    requires Straight(a) && Straight(b) && Straight(c)
    ensures StraightLine([a, b, c])
  {
  }

  /** Both examples' machine: y holds 7, nothing to read, nothing written. */
  function SevenInY(): Machine {
    Machine(map["y" := Num(7.0)], [], [])
  }

  /** `write` after two assignments writes just the value written. */
  lemma WriteAfterTwo(a: Instr, b: Instr, c: Instr, m: Machine)
    requires m.output == [] && Defines(a) && Defines(b) && c.kind == WRITE
    ensures Step(c, Step(b, Step(a, m))).output == [Val(Step(b, Step(a, m)).env, c.operand1)]
  {
  }

  lemma ConstantExampleValues()
    ensures Val(Step(MkAssign("x", "y"), Step(MkAssign("x", "5"), SevenInY())).env, Some("x")) == Num(7.0)
    ensures Val(Step(MkAssign("x", "y"), Step(MkAssign("x", "5"), SevenInY())).env, Some("5")) == Num(5.0)
  {
    LetterIsName('x');
    LetterIsName('y');
    FiveIsConstant();
  }

  lemma CopyExampleValues()
    ensures Val(Step(MkAssign("y", "5"), Step(MkAssign("x", "y"), SevenInY())).env, Some("x")) == Num(7.0)
    ensures Val(Step(MkAssign("y", "5"), Step(MkAssign("x", "y"), SevenInY())).env, Some("y")) == Num(5.0)
  {
    LetterIsName('x');
    LetterIsName('y');
    FiveIsConstant();
  }

  lemma ConstantsAppend(code: seq<Instr>, i: Instr, v: Version)
    ensures ConstantTable(code + [i], v) == ConstantUpdate(ConstantTable(code, v), i, v)
    ensures PropagateConstants(code + [i], v).code
      == PropagateConstants(code, v).code + [Substituted(i, ConstantUpdate(ConstantTable(code, v), i, v))]
  {
    assert (code + [i])[..|code|] == code;
  }

  lemma CopiesAppend(code: seq<Instr>, i: Instr, v: Version)
    ensures CopyTable(code + [i], v) == CopyUpdate(CopyTable(code, v), i, v)
    ensures PropagateCopies(code + [i], v).code
      == PropagateCopies(code, v).code + [Substituted(i, CopyUpdate(CopyTable(code, v), i, v))]
  {
    assert (code + [i])[..|code|] == code;
  }

  /** As written, the constant of x survives `x = y`. */
  lemma ConstantsAsWrittenPrefix(x: string, y: string, v: string)
    requires IsConstant(Some(v)) && !IsConstant(Some(y)) && v != x && y != x
    ensures ConstantTable([MkAssign(x, v), MkAssign(x, y)], AsWritten) == map[Some(x) := v]
    ensures PropagateConstants([MkAssign(x, v), MkAssign(x, y)], AsWritten).code == [MkAssign(x, v), MkAssign(x, y)]
  {
    ConstantsAppend([], MkAssign(x, v), AsWritten);
    ConstantsAppend([MkAssign(x, v)], MkAssign(x, y), AsWritten);
    assert [] + [MkAssign(x, v)] == [MkAssign(x, v)];
  }

  /** ... and replaces the later use of x. */
  lemma ConstantsAsWrittenExample(x: string, y: string, v: string)
    requires IsConstant(Some(v)) && !IsConstant(Some(y)) && v != x && y != x
    ensures PropagateConstants([MkAssign(x, v), MkAssign(x, y), MkWrite(x)], AsWritten).code
      == [MkAssign(x, v), MkAssign(x, y), MkWrite(v)]
  {
    ConstantsAsWrittenPrefix(x, y, v);
    ConstantsAppend([MkAssign(x, v), MkAssign(x, y)], MkWrite(x), AsWritten);
    assert [MkAssign(x, v), MkAssign(x, y)] + [MkWrite(x)] == [MkAssign(x, v), MkAssign(x, y), MkWrite(x)];
  }

  /** As written, the copy `x = y` survives `y = v`. */
  lemma CopiesAsWrittenPrefix(x: string, y: string, v: string)
    requires IsConstant(Some(v)) && !IsConstant(Some(y)) && Present(Some(y)) && v != x && y != x
    ensures CopyTable([MkAssign(x, y), MkAssign(y, v)], AsWritten) == map[Some(x) := y]
    ensures PropagateCopies([MkAssign(x, y), MkAssign(y, v)], AsWritten).code == [MkAssign(x, y), MkAssign(y, v)]
  {
    CopiesAppend([], MkAssign(x, y), AsWritten);
    CopiesAppend([MkAssign(x, y)], MkAssign(y, v), AsWritten);
    assert [] + [MkAssign(x, y)] == [MkAssign(x, y)];
  }

  /** ... and replaces the later use of x with y. */
  lemma CopiesAsWrittenExample(x: string, y: string, v: string)
    requires IsConstant(Some(v)) && !IsConstant(Some(y)) && Present(Some(y)) && v != x && y != x
    ensures PropagateCopies([MkAssign(x, y), MkAssign(y, v), MkWrite(x)], AsWritten).code
      == [MkAssign(x, y), MkAssign(y, v), MkWrite(y)]
  {
    CopiesAsWrittenPrefix(x, y, v);
    CopiesAppend([MkAssign(x, y), MkAssign(y, v)], MkWrite(x), AsWritten);
    assert [MkAssign(x, y), MkAssign(y, v)] + [MkWrite(x)] == [MkAssign(x, y), MkAssign(y, v), MkWrite(x)];
  }

  /** As written, `x = y` leaves the constant x had: after `x = 5; x = y`,
      `write x` becomes `write 5`, and with y = 7 the code writes 5 where it
      wrote 7. */
  lemma StaleConstantChangesOutput()
    ensures StraightLine([MkAssign("x", "5"), MkAssign("x", "y"), MkWrite("x")])
    ensures Run([MkAssign("x", "5"), MkAssign("x", "y"), MkWrite("x")], SevenInY()).output == [Num(7.0)]
    ensures Run(PropagateConstants([MkAssign("x", "5"), MkAssign("x", "y"), MkWrite("x")], AsWritten).code, SevenInY()).output
      == [Num(5.0)]
  {
    var a, b, c := MkAssign("x", "5"), MkAssign("x", "y"), MkWrite("x");
    LetterIsName('x');
    StraightThree(a, b, c);
    RunThree(a, b, c, SevenInY());
    WriteAfterTwo(a, b, c, SevenInY());
    FiveIsConstant();
    ConstantsAsWrittenExample("x", "y", "5");
    RunThree(a, b, MkWrite("5"), SevenInY());
    WriteAfterTwo(a, b, MkWrite("5"), SevenInY());
    ConstantExampleValues();
  }

  /** As written, a copy `x = y` survives a new value of y: after
      `x = y; y = 5`, `write x` becomes `write y`, and with y = 7 at the
      start the code writes 5 where it wrote 7. */
  lemma StaleCopyChangesOutput()
    ensures StraightLine([MkAssign("x", "y"), MkAssign("y", "5"), MkWrite("x")])
    ensures Run([MkAssign("x", "y"), MkAssign("y", "5"), MkWrite("x")], SevenInY()).output == [Num(7.0)]
    ensures Run(PropagateCopies([MkAssign("x", "y"), MkAssign("y", "5"), MkWrite("x")], AsWritten).code, SevenInY()).output
      == [Num(5.0)]
  {
    var a, b, c := MkAssign("x", "y"), MkAssign("y", "5"), MkWrite("x");
    LetterIsName('x');
    LetterIsName('y');
    StraightThree(a, b, c);
    RunThree(a, b, c, SevenInY());
    WriteAfterTwo(a, b, c, SevenInY());
    FiveIsConstant();
    CopiesAsWrittenExample("x", "y", "5");
    RunThree(a, b, MkWrite("y"), SevenInY());
    WriteAfterTwo(a, b, MkWrite("y"), SevenInY());
    CopyExampleValues();
  }
}
