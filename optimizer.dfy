/**
 * The optimizer of the three-address code (src/optimizer.py): which operand
 * texts count as constants, how an operation on two constants is evaluated,
 * and the five rewriting passes that `otimizar` runs, in order, until a pass
 * changes nothing or the pass budget is spent.
 *
 * Each pass is specified by a function over a prefix of the code (the last
 * instruction is handled after the ones before it, which is the order the
 * source's loops visit them); the class `CodeOptimizer` does the same work
 * with loops and its two fields, the set of used names and the
 * "modifications made" flag.
 *
 * The two propagation passes are given in two versions: as written, and
 * corrected so that every definition of a name forgets what was known about
 * it. The optimizer runs the passes as written; the corrected ones are what
 * the meaning-preservation proofs of ir_run.dfy are about.
 */
module Optimizer {
  import opened Chars
  import opened Errors
  import opened Intermediate

  // ---------------------------------------------------------------------------
  // Constants

  /** The index of the first '.' of s, or |s| when s has none. */
  function FirstDot(s: string): (k: nat)
    ensures k <= |s|
    ensures k < |s| ==> s[k] == '.'
    ensures forall i :: 0 <= i < k ==> s[i] != '.'
  {
    if s == [] || s[0] == '.' then 0 else 1 + FirstDot(s[1..])
  }

  /** Digits with at most one decimal point and at least one digit: the
      unsigned numerals that `float` reads ("12", "1.5", "1." and ".5"). */
  predicate IsUnsignedNumeral(s: string) {
    var k := FirstDot(s);
    s != [] && s != "." && AllDigits(s[..k]) && (k < |s| ==> AllDigits(s[k + 1..]))
  }

  predicate HasSign(s: string) {
    |s| > 0 && (s[0] == '+' || s[0] == '-')
  }

  /** The text after an optional leading sign. */
  function Magnitude(s: string): (m: string)
    ensures |m| <= |s|
  {
    if HasSign(s) then s[1..] else s
  }

  /** A decimal numeral with an optional sign. */
  predicate IsNumeral(s: string) {
    IsUnsignedNumeral(Magnitude(s))
  }

  /** The infinities and the not-a-number value, spelt in any case. */
  predicate IsSpecialFloat(s: string) {
    var l := Lower(Magnitude(s));
    l == "inf" || l == "infinity" || l == "nan"
  }

  /** The texts `float(valor)` accepts (leaving out blanks around the text,
      underscores between digits and exponents). */
  predicate IsFloatText(s: string) {
    IsNumeral(s) || IsSpecialFloat(s)
  }

  predicate IsQuoted(v: string) {
    |v| > 0 && v[0] == '"' && v[|v| - 1] == '"'
  }

  /** `_eh_constante`: a present operand that is a boolean, a quoted string or
      a number. */
  predicate IsConstant(o: Option<string>) {
    Present(o) && (o.value == "true" || o.value == "false" || IsQuoted(o.value) || IsFloatText(o.value))
  }

  function Pow10(n: nat): (p: nat)
    ensures p >= 1
  {
    if n == 0 then 1 else 10 * Pow10(n - 1)
  }

  /** The exact value of an unsigned numeral. */
  function UnsignedValue(s: string): real
    requires IsUnsignedNumeral(s)
  {
    var k := FirstDot(s);
    var whole := DecimalValue(s[..k]) as real;
    if k < |s| then whole + DecimalValue(s[k + 1..]) as real / Pow10(|s| - k - 1) as real else whole
  }

  /** The exact value of a numeral: what `float` reads, before rounding. */
  function NumeralValue(s: string): real
    requires IsNumeral(s)
  {
    if HasSign(s) && s[0] == '-' then -UnsignedValue(Magnitude(s)) else UnsignedValue(Magnitude(s))
  }

  lemma DigitsHaveNoDot(s: string)
    requires AllDigits(s)
    ensures FirstDot(s) == |s|
  {
  }

  /** What `str(i)` writes is a numeral, and reading it back gives i. */
  lemma IntegerNumeral(i: int)
    ensures IsNumeral(IntToDecimal(i))
    ensures NumeralValue(IntToDecimal(i)) == i as real
  {
    var n: nat := if i < 0 then -i else i;
    var d := NatToDecimal(n);
    DigitsHaveNoDot(d);
    DecimalRoundTrip(n);
    assert d[..|d|] == d;
    assert IsDigit(d[0]);
    if i < 0 {
      assert IntToDecimal(i)[1..] == d;
    }
  }

  // ---------------------------------------------------------------------------
  // Evaluating an operation on two constants (`_avaliar_operacao`)

  predicate IsArithmeticOperator(op: string) {
    op == "+" || op == "-" || op == "*" || op == "/"
  }

  predicate IsComparisonOperator(op: string) {
    op == "<" || op == "<=" || op == ">" || op == ">=" || op == "==" || op == "!="
  }

  function Arithmetic(op: string, x: real, y: real): real
    requires IsArithmeticOperator(op)
    requires op == "/" ==> y != 0.0
  {
    if op == "+" then x + y
    else if op == "-" then x - y
    else if op == "*" then x * y
    else x / y
  }

  function Compare(op: string, x: real, y: real): bool
    requires IsComparisonOperator(op)
  {
    if op == "<" then x < y
    else if op == "<=" then x <= y
    else if op == ">" then x > y
    else if op == ">=" then x >= y
    else if op == "==" then x == y
    else x != y
  }

  function BoolText(b: bool): string {
    if b then "true" else "false"
  }

  /** `str(int(r))` for an integral result; any other result is not modelled. */
  function IntegralText(r: real): (t: Option<string>)
    ensures t.Some? ==> IsNumeral(t.value) && NumeralValue(t.value) == r
  {
    if r.Floor as real == r then
      IntegerNumeral(r.Floor);
      Some(IntToDecimal(r.Floor))
    else None
  }

  /**
   * The text `_avaliar_operacao` returns for two constant operands, or None
   * where it raises: an operand that is not a number, division by zero, an
   * unknown operator. Arithmetic is exact; a result that is not an integer
   * (and an infinity or not-a-number operand) is not modelled and gives None.
   */
  function Evaluate(a: string, op: string, b: string): (r: Option<string>)
    ensures r.Some? ==> IsConstant(Some(r.value))
    ensures !IsNumeral(a) || !IsNumeral(b) ==> r == None
    ensures !IsArithmeticOperator(op) && !IsComparisonOperator(op) ==> r == None
    ensures IsNumeral(a) && IsNumeral(b) && IsComparisonOperator(op) ==>
      r == Some(BoolText(Compare(op, NumeralValue(a), NumeralValue(b))))
    ensures IsNumeral(a) && IsNumeral(b) && op == "/" && NumeralValue(b) == 0.0 ==> r == None
    ensures r.Some? && IsArithmeticOperator(op) ==>
      IsNumeral(a) && IsNumeral(b) && (op == "/" ==> NumeralValue(b) != 0.0)
      && IsNumeral(r.value) && NumeralValue(r.value) == Arithmetic(op, NumeralValue(a), NumeralValue(b))
  {
    if !IsNumeral(a) || !IsNumeral(b) then None
    else
      var x := NumeralValue(a);
      var y := NumeralValue(b);
      if IsComparisonOperator(op) then Some(BoolText(Compare(op, x, y)))
      else if IsArithmeticOperator(op) && (op != "/" || y != 0.0) then IntegralText(Arithmetic(op, x, y))
      else None
  }

  // ---------------------------------------------------------------------------
  // The passes

  /** A pass's output and whether it set `modificacoes_feitas`. */
  datatype Rewrite = Rewrite(code: seq<Instr>, changed: bool)

  /** The instructions that give their destination a new value. */
  predicate Defines(i: Instr) {
    i.kind == ASSIGN || i.kind == INIT || i.kind == OP || i.kind == UNARY || i.kind == READ
  }

  /** An instruction with the same kind, destination and operator: only
      operands may differ. */
  predicate SameShape(i: Instr, j: Instr) {
    i.kind == j.kind && i.result == j.result && i.operator == j.operator
  }

  /** The ASSIGN of `resultado` to an operand, which the folding and the
      simplification put in place of an OP. */
  function AssignOf(i: Instr, o: Option<string>): Instr {
    Instr(ASSIGN, i.result, o, None, None)
  }

  // Constant folding (`_constant_folding`)

  /** The ASSIGN of the computed constant that replaces an OP on two
      constants, when the evaluation succeeds. */
  function Folded(i: Instr): (r: Option<Instr>)
    ensures r.Some? ==> i.kind == OP && r.value.kind == ASSIGN && r.value.result == i.result
    ensures r.Some? ==> IsConstant(r.value.operand1)
  {
    if i.kind == OP && Present(i.operand2) && IsConstant(i.operand1) && IsConstant(i.operand2) then
      match Evaluate(i.operand1.value, Shown(i.operator), i.operand2.value)
      case Some(v) => Some(AssignOf(i, Some(v)))
      case None => None
    else None
  }

  function FoldOne(i: Instr): Instr {
    if Folded(i).Some? then Folded(i).value else i
  }

  function Fold(code: seq<Instr>): (r: Rewrite)
    ensures |r.code| == |code|
    ensures forall k :: 0 <= k < |code| ==> r.code[k] == FoldOne(code[k])
  {
    if code == [] then Rewrite([], false)
    else
      var p := Fold(code[..|code| - 1]);
      var i := code[|code| - 1];
      Rewrite(p.code + [FoldOne(i)], p.changed || Folded(i).Some?)
  }

  // Propagation of constants and copies

  /** Which rule a propagation pass follows. */
  datatype Version = AsWritten | Corrected

  /** What a propagation pass knows: a destination and the text that may
      replace it. */
  type Table = map<Option<string>, string>

  /** The instruction with each operand the table knows replaced; the second
      operand only when it is present. */
  function Substituted(i: Instr, t: Table): Instr {
    var o1 := if i.operand1 in t then Some(t[i.operand1]) else i.operand1;
    var o2 := if Present(i.operand2) && i.operand2 in t then Some(t[i.operand2]) else i.operand2;
    i.(operand1 := o1, operand2 := o2)
  }

  predicate Substitutes(i: Instr, t: Table) {
    i.operand1 in t || (Present(i.operand2) && i.operand2 in t)
  }

  /** The table of constants after one instruction. As written only OP, UNARY
      and READ forget their destination; corrected, every definition does. */
  function ConstantUpdate(t: Table, i: Instr, v: Version): Table {
    if i.kind == ASSIGN && IsConstant(i.operand1) then t[i.result := i.operand1.value]
    else if i.kind == OP || i.kind == UNARY || i.kind == READ || (v == Corrected && Defines(i)) then t - {i.result}
    else t
  }

  /** The table of constants after a prefix of the code. */
  function ConstantTable(code: seq<Instr>, v: Version): Table {
    if code == [] then map[] else ConstantUpdate(ConstantTable(code[..|code| - 1], v), code[|code| - 1], v)
  }

  /** `_constant_propagation`: each instruction's operands are replaced with
      the table as it stands after that instruction's own update. */
  function PropagateConstants(code: seq<Instr>, v: Version): (r: Rewrite)
    ensures |r.code| == |code|
    ensures forall k :: 0 <= k < |code| ==> SameShape(r.code[k], code[k])
    ensures !r.changed ==> r.code == code
  {
    if code == [] then Rewrite([], false)
    else
      var p := PropagateConstants(code[..|code| - 1], v);
      var i := code[|code| - 1];
      var t := ConstantTable(code, v);
      Rewrite(p.code + [Substituted(i, t)], p.changed || Substitutes(i, t))
  }

  /** The copies left once a name gets a new value: none from it and none
      to it. */
  function Forget(t: Table, d: Option<string>): (r: Table)
    ensures forall x :: x in r <==> x in t && x != d && Some(t[x]) != d
    ensures forall x :: x in r ==> r[x] == t[x]
  {
    map x | x in t && x != d && Some(t[x]) != d :: t[x]
  }

  /** The table of copies after one instruction. As written a copy `x = y` is
      recorded by an ASSIGN of a non-constant and dropped only when OP, UNARY
      or READ define x; corrected, every definition of a name drops the copies
      to it and from it, and a self-copy is not recorded. */
  function CopyUpdate(t: Table, i: Instr, v: Version): Table {
    var copies := i.kind == ASSIGN && !IsConstant(i.operand1) && Present(i.operand1);
    if v == AsWritten then
      if copies then t[i.result := i.operand1.value]
      else if i.kind == OP || i.kind == UNARY || i.kind == READ then t - {i.result}
      else t
    else if Defines(i) then
      var kept := Forget(t, i.result);
      if copies && i.operand1 != i.result then kept[i.result := i.operand1.value] else kept
    else t
  }

  function CopyTable(code: seq<Instr>, v: Version): Table {
    if code == [] then map[] else CopyUpdate(CopyTable(code[..|code| - 1], v), code[|code| - 1], v)
  }

  /** `_copy_propagation`, with the same order of update and replacement as
      the propagation of constants. */
  function PropagateCopies(code: seq<Instr>, v: Version): (r: Rewrite)
    ensures |r.code| == |code|
    ensures forall k :: 0 <= k < |code| ==> SameShape(r.code[k], code[k])
    ensures !r.changed ==> r.code == code
  {
    if code == [] then Rewrite([], false)
    else
      var p := PropagateCopies(code[..|code| - 1], v);
      var i := code[|code| - 1];
      var t := CopyTable(code, v);
      Rewrite(p.code + [Substituted(i, t)], p.changed || Substitutes(i, t))
  }

  // Algebraic simplification (`_algebraic_simplification`)

  /** The ASSIGN that replaces an OP by one of the identities x+0, 0+x, x-0,
      x*1, 1*x, x*0, 0*x and x/1, tried in that order. */
  function Simplified(i: Instr): (r: Option<Instr>)
    ensures r.Some? ==> i.kind == OP && r.value.kind == ASSIGN && r.value.result == i.result
  {
    if i.kind == OP && Present(i.operand2) then
      var a := i.operand1;
      var b := i.operand2;
      if i.operator == Some("+") && (b == Some("0") || a == Some("0")) then Some(AssignOf(i, if b == Some("0") then a else b))
      else if i.operator == Some("-") && b == Some("0") then Some(AssignOf(i, a))
      else if i.operator == Some("*") && (b == Some("1") || a == Some("1")) then Some(AssignOf(i, if b == Some("1") then a else b))
      else if i.operator == Some("*") && (b == Some("0") || a == Some("0")) then Some(AssignOf(i, Some("0")))
      else if i.operator == Some("/") && b == Some("1") then Some(AssignOf(i, a))
      else None
    else None
  }

  function SimplifyOne(i: Instr): Instr {
    if Simplified(i).Some? then Simplified(i).value else i
  }

  function Simplify(code: seq<Instr>): (r: Rewrite)
    ensures |r.code| == |code|
    ensures forall k :: 0 <= k < |code| ==> r.code[k] == SimplifyOne(code[k])
  {
    if code == [] then Rewrite([], false)
    else
      var p := Simplify(code[..|code| - 1]);
      var i := code[|code| - 1];
      Rewrite(p.code + [SimplifyOne(i)], p.changed || Simplified(i).Some?)
  }

  // Dead code elimination (`_dead_code_elimination`)

  predicate StartsWithT(s: string) {
    |s| > 0 && s[0] == 't'
  }

  /** A definition of a temporary (a name starting with 't') nobody uses. */
  predicate Removable(i: Instr, used: set<string>) {
    (i.kind == ASSIGN || i.kind == OP || i.kind == UNARY) && StartsWithT(Shown(i.result)) && Shown(i.result) !in used
  }

  /** Whether the code after a prefix is unreachable: a GOTO starts such a
      region and a LABEL ends it. */
  function DeadAfter(code: seq<Instr>): bool {
    if code == [] then false
    else if code[|code| - 1].kind == GOTO then true
    else if code[|code| - 1].kind == LABEL then false
    else DeadAfter(code[..|code| - 1])
  }

  predicate IsControl(i: Instr) {
    i.kind == GOTO || i.kind == LABEL
  }

  predicate Kept(i: Instr, dead: bool, used: set<string>) {
    IsControl(i) || (!dead && !Removable(i, used))
  }

  /** The GOTO and LABEL instructions of the code, in order. */
  function Control(code: seq<Instr>): seq<Instr> {
    if code == [] then [] else Control(code[..|code| - 1]) + (if IsControl(code[|code| - 1]) then [code[|code| - 1]] else [])
  }

  /** Whether `a` is `b` with some instructions left out, the rest in order. */
  predicate Subsequence(a: seq<Instr>, b: seq<Instr>)
    decreases |b|
  {
    a == [] ||
    (b != [] &&
     ((a[|a| - 1] == b[|b| - 1] && Subsequence(a[..|a| - 1], b[..|b| - 1])) || Subsequence(a, b[..|b| - 1])))
  }

  function DeadCode(code: seq<Instr>, used: set<string>): (r: Rewrite)
    ensures Subsequence(r.code, code)
    ensures |r.code| <= |code|
    ensures r.changed <==> |r.code| < |code|
    ensures !r.changed ==> r.code == code
    ensures Control(r.code) == Control(code)
    ensures forall i :: i in r.code ==> i in code
  {
    if code == [] then Rewrite([], false)
    else
      var p := DeadCode(code[..|code| - 1], used);
      var i := code[|code| - 1];
      if Kept(i, DeadAfter(code[..|code| - 1]), used) then
        assert (p.code + [i])[..|p.code|] == p.code;
        Rewrite(p.code + [i], p.changed)
      else Rewrite(p.code, true)
  }

  // The names in use (`_analisar_uso_variaveis`)

  /** The non-constant operands of an instruction, and its destination when
      that does not start with 't'. */
  function UsedBy(i: Instr): set<string> {
    (if Present(i.operand1) && !IsConstant(i.operand1) then {i.operand1.value} else {})
    + (if Present(i.operand2) && !IsConstant(i.operand2) then {i.operand2.value} else {})
    + (if Present(i.result) && !StartsWithT(i.result.value) then {i.result.value} else {})
  }

  function UsedNames(code: seq<Instr>): set<string> {
    if code == [] then {} else UsedNames(code[..|code| - 1]) + UsedBy(code[|code| - 1])
  }

  // The whole optimizer (`otimizar`)

  /** One pass: the names in use are taken from the code the pass starts
      with, then the five rewritings run in order, the propagations as
      written. */
  function PassOnce(code: seq<Instr>): (r: Rewrite) {
    var used := UsedNames(code);
    var f := Fold(code);
    var c := PropagateConstants(f.code, AsWritten);
    var a := Simplify(c.code);
    var p := PropagateCopies(a.code, AsWritten);
    var d := DeadCode(p.code, used);
    Rewrite(d.code, f.changed || c.changed || a.changed || p.changed || d.changed)
  }

  /** The optimized code and the number of passes that ran. */
  datatype Optimized = Optimized(code: seq<Instr>, passes: nat)

  /** Passes run until one reports no modification or the budget is spent. */
  function Iterate(pass: seq<Instr> -> Rewrite, code: seq<Instr>, budget: nat): Optimized
    decreases budget
  {
    if budget == 0 then Optimized(code, 0)
    else
      var p := pass(code);
      if !p.changed then Optimized(p.code, 1)
      else
        var rest := Iterate(pass, p.code, budget - 1);
        Optimized(rest.code, rest.passes + 1)
  }

  /** `range(max_passadas)` is empty for a negative budget. */
  function Budget(maxPasses: int): nat {
    if maxPasses < 0 then 0 else maxPasses
  }

  // ---------------------------------------------------------------------------
  // Properties of the passes

  /** Folding reports a modification exactly when it rewrites something. */
  lemma {:induction false} FoldReportsChange(code: seq<Instr>)
    ensures Fold(code).changed <==> Fold(code).code != code
  {
    if code != [] {
      var init := code[..|code| - 1];
      var i := code[|code| - 1];
      FoldReportsChange(init);
      var p := Fold(init);
      assert code == init + [i];
      if Fold(code).code == code {
        assert (p.code + [FoldOne(i)])[..|init|] == p.code;
      }
    }
  }

  /** A second folding finds nothing left to fold. */
  lemma {:induction false} FoldIdempotent(code: seq<Instr>)
    ensures Fold(Fold(code).code) == Rewrite(Fold(code).code, false)
  {
    if code != [] {
      var init := code[..|code| - 1];
      var p := Fold(init).code;
      var x := FoldOne(code[|code| - 1]);
      FoldIdempotent(init);
      assert (p + [x])[..|p|] == p;
    }
  }

  lemma {:induction false} SimplifyReportsChange(code: seq<Instr>)
    ensures Simplify(code).changed <==> Simplify(code).code != code
  {
    if code != [] {
      var init := code[..|code| - 1];
      var i := code[|code| - 1];
      SimplifyReportsChange(init);
      var p := Simplify(init);
      assert code == init + [i];
      if Simplify(code).code == code {
        assert (p.code + [SimplifyOne(i)])[..|init|] == p.code;
      }
    }
  }

  /** A second simplification finds nothing left to simplify. */
  lemma {:induction false} SimplifyIdempotent(code: seq<Instr>)
    ensures Simplify(Simplify(code).code) == Rewrite(Simplify(code).code, false)
  {
    if code != [] {
      var init := code[..|code| - 1];
      var p := Simplify(init).code;
      var x := SimplifyOne(code[|code| - 1]);
      SimplifyIdempotent(init);
      assert (p + [x])[..|p|] == p;
    }
  }

  /** On two numbers, the operand an identity keeps has the value the
      operation computes. */
  lemma SimplificationAgreesWithArithmetic(i: Instr)
    requires Simplified(i).Some?
    requires IsNumeral(Shown(i.operand1)) && IsNumeral(Shown(i.operand2))
    ensures IsArithmeticOperator(Shown(i.operator))
    ensures IsNumeral(Shown(Simplified(i).value.operand1))
    ensures Shown(i.operator) != "/" || NumeralValue(Shown(i.operand2)) != 0.0
    ensures NumeralValue(Shown(Simplified(i).value.operand1))
      == Arithmetic(Shown(i.operator), NumeralValue(Shown(i.operand1)), NumeralValue(Shown(i.operand2)))
  {
    ZeroAndOne();
    var a, b := i.operand1, i.operand2;
    var x, y := NumeralValue(Shown(a)), NumeralValue(Shown(b));
    var kept := Simplified(i).value.operand1;
    if i.operator == Some("+") && (b == Some("0") || a == Some("0")) {
      assert kept == if b == Some("0") then a else b;
    } else if i.operator == Some("-") && b == Some("0") {
      assert kept == a;
    } else if i.operator == Some("*") && b == Some("1") {
      assert kept == a && x * y == x;
    } else if i.operator == Some("*") && a == Some("1") {
      assert kept == b && x * y == y;
    } else if i.operator == Some("*") {
      assert kept == Some("0");
      if b == Some("0") {
        assert y == 0.0;
      } else {
        assert x == 0.0;
      }
    } else {
      assert kept == a;
    }
  }

  /** The numerals the identities look for, and their values. */
  lemma ZeroAndOne()
    ensures IsNumeral("0") && NumeralValue("0") == 0.0
    ensures IsNumeral("1") && NumeralValue("1") == 1.0
  {
    assert "0"[..1] == "0" && "1"[..1] == "1";
  }

  lemma {:induction false} NoJumpNoDeadRegion(code: seq<Instr>)
    requires forall k :: 0 <= k < |code| ==> code[k].kind != GOTO
    ensures !DeadAfter(code)
  {
    if code != [] {
      NoJumpNoDeadRegion(code[..|code| - 1]);
    }
  }

  /** Without a GOTO, dead code elimination drops only unused temporaries. */
  lemma {:induction false} DeadCodeKeepsWhatIsUsed(code: seq<Instr>, used: set<string>)
    requires forall k :: 0 <= k < |code| ==> code[k].kind != GOTO
    ensures forall k :: 0 <= k < |code| && !Removable(code[k], used) ==> code[k] in DeadCode(code, used).code
  {
    if code != [] {
      var init := code[..|code| - 1];
      DeadCodeKeepsWhatIsUsed(init, used);
      NoJumpNoDeadRegion(init);
      forall k | 0 <= k < |code| - 1 && !Removable(code[k], used)
        ensures code[k] in DeadCode(code, used).code
      {
        assert code[k] == init[k];
      }
    }
  }

  /** Every name an instruction reads, and every destination that is not a
      temporary, is in the set of used names. */
  lemma {:induction false} UsedNamesCover(code: seq<Instr>, k: nat)
    requires k < |code|
    ensures UsedBy(code[k]) <= UsedNames(code)
  {
    if k < |code| - 1 {
      UsedNamesCover(code[..|code| - 1], k);
    }
  }

  /** A pass that reports no modification hands back the code it was given. */
  lemma PassWithoutChangeIsIdentity(code: seq<Instr>)
    ensures !PassOnce(code).changed ==> PassOnce(code).code == code
  {
    FoldReportsChange(code);
    SimplifyReportsChange(PropagateConstants(Fold(code).code, AsWritten).code);
  }

  /** Each code of the trace is what the pass made of the one before, and
      every one of those passes reported a modification. */
  predicate Chained(pass: seq<Instr> -> Rewrite, trace: seq<seq<Instr>>)
    decreases |trace|
  {
    |trace| <= 1 || (pass(trace[0]) == Rewrite(trace[1], true) && Chained(pass, trace[1..]))
  }

  lemma {:induction false} ChainedExtends(pass: seq<Instr> -> Rewrite, trace: seq<seq<Instr>>, next: seq<Instr>)
    requires |trace| >= 1 && Chained(pass, trace)
    requires pass(trace[|trace| - 1]) == Rewrite(next, true)
    ensures Chained(pass, trace + [next])
    decreases |trace|
  {
    if |trace| > 1 {
      ChainedExtends(pass, trace[1..], next);
      assert (trace + [next])[1..] == trace[1..] + [next];
    }
  }

  /** A run of passes that each reported a modification, followed either by a
      pass that reported none or by the end of the budget, is what `Iterate`
      computes. */
  lemma {:induction false} RunOfPasses(pass: seq<Instr> -> Rewrite, trace: seq<seq<Instr>>, budget: nat, final: seq<Instr>, stopped: bool)
    requires |trace| >= 1 && |trace| - 1 <= budget && Chained(pass, trace)
    requires stopped ==> |trace| - 1 < budget && pass(trace[|trace| - 1]) == Rewrite(final, false)
    requires !stopped ==> |trace| - 1 == budget && final == trace[|trace| - 1]
    ensures Iterate(pass, trace[0], budget).code == final
    decreases |trace|
  {
    if |trace| > 1 {
      RunOfPasses(pass, trace[1..], budget - 1, final, stopped);
    }
  }

  /** Iterating a pass that hands back its input whenever it reports no
      modification runs at least one pass and at most the budget, and when it
      stops early its result is left unchanged by one more pass. */
  lemma {:induction false} IterationStops(pass: seq<Instr> -> Rewrite, code: seq<Instr>, budget: nat)
    requires forall c :: !pass(c).changed ==> pass(c).code == c
    ensures Iterate(pass, code, budget).passes <= budget
    ensures budget > 0 ==> Iterate(pass, code, budget).passes >= 1
    ensures Iterate(pass, code, budget).passes < budget ==>
      pass(Iterate(pass, code, budget).code) == Rewrite(Iterate(pass, code, budget).code, false)
    decreases budget
  {
    if budget > 0 && pass(code).changed {
      IterationStops(pass, pass(code).code, budget - 1);
    }
  }

  /** `otimizar` runs at least one pass (for a positive budget) and at most
      the budget, and when it stops early the code it returns is a fixed
      point of a pass. */
  lemma OptimizerStops(code: seq<Instr>, budget: nat)
    ensures Iterate(PassOnce, code, budget).passes <= budget
    ensures budget > 0 ==> Iterate(PassOnce, code, budget).passes >= 1
    ensures Iterate(PassOnce, code, budget).passes < budget ==>
      PassOnce(Iterate(PassOnce, code, budget).code) == Rewrite(Iterate(PassOnce, code, budget).code, false)
  {
    forall c | true
      ensures !PassOnce(c).changed ==> PassOnce(c).code == c
    {
      PassWithoutChangeIsIdentity(c);
    }
    IterationStops(PassOnce, code, budget);
  }

  /** The self-copy `x = x`. */
  function SelfCopy(x: string): Instr {
    Instr(ASSIGN, Some(x), Some(x), None, None)
  }

  /** As written, copy propagation records `x = x` and then replaces `x` by
      itself, which counts as a modification: a pass over `x = x` hands the
      code back unchanged and still reports a change. */
  lemma SelfCopyPass(x: string)
    requires x != "" && !IsConstant(Some(x))
    ensures PassOnce([SelfCopy(x)]) == Rewrite([SelfCopy(x)], true)
  {
    var code := [SelfCopy(x)];
    assert Fold(code) == Rewrite(code, false) by {
      assert code[..0] == [];
    }
    assert PropagateConstants(code, AsWritten) == Rewrite(code, false) by {
      assert code[..0] == [];
      assert ConstantTable(code, AsWritten) == map[];
    }
    assert Simplify(code) == Rewrite(code, false) by {
      assert code[..0] == [];
    }
    assert CopyTable(code, AsWritten) == map[Some(x) := x] by {
      assert code[..0] == [];
    }
    assert PropagateCopies(code, AsWritten) == Rewrite(code, true) by {
      assert code[..0] == [];
    }
    assert x in UsedNames(code) by {
      assert code[..0] == [];
    }
    assert DeadCode(code, UsedNames(code)) == Rewrite(code, false) by {
      assert code[..0] == [];
    }
  }

  /** So a program holding only `x = x` keeps `otimizar` busy for the whole
      budget, where the corrected copy rule would stop after one pass. */
  lemma {:induction false} SelfCopySpendsBudget(x: string, budget: nat)
    requires x != "" && !IsConstant(Some(x))
    ensures Iterate(PassOnce, [SelfCopy(x)], budget) == Optimized([SelfCopy(x)], budget)
    decreases budget
  {
    if budget > 0 {
      SelfCopyPass(x);
      SelfCopySpendsBudget(x, budget - 1);
    }
  }

  /** One more instruction of the propagation of constants. */
  lemma ConstantStep(code: seq<Instr>, k: nat, v: Version)
    requires k < |code|
    ensures ConstantTable(code[..k + 1], v) == ConstantUpdate(ConstantTable(code[..k], v), code[k], v)
    ensures PropagateConstants(code[..k + 1], v)
      == Rewrite(PropagateConstants(code[..k], v).code + [Substituted(code[k], ConstantTable(code[..k + 1], v))],
                 PropagateConstants(code[..k], v).changed || Substitutes(code[k], ConstantTable(code[..k + 1], v)))
  {
    assert code[..k + 1][..k] == code[..k];
  }

  /** One more instruction of the propagation of copies. */
  lemma CopyStep(code: seq<Instr>, k: nat, v: Version)
    requires k < |code|
    ensures CopyTable(code[..k + 1], v) == CopyUpdate(CopyTable(code[..k], v), code[k], v)
    ensures PropagateCopies(code[..k + 1], v)
      == Rewrite(PropagateCopies(code[..k], v).code + [Substituted(code[k], CopyTable(code[..k + 1], v))],
                 PropagateCopies(code[..k], v).changed || Substitutes(code[k], CopyTable(code[..k + 1], v)))
  {
    assert code[..k + 1][..k] == code[..k];
  }

  /** One more instruction of dead code elimination. */
  lemma DeadCodeStep(code: seq<Instr>, k: nat, used: set<string>)
    requires k < |code|
    ensures DeadAfter(code[..k + 1]) == (code[k].kind == GOTO || (code[k].kind != LABEL && DeadAfter(code[..k])))
    ensures DeadCode(code[..k + 1], used)
      == if Kept(code[k], DeadAfter(code[..k]), used)
         then Rewrite(DeadCode(code[..k], used).code + [code[k]], DeadCode(code[..k], used).changed)
         else Rewrite(DeadCode(code[..k], used).code, true)
  {
    assert code[..k + 1][..k] == code[..k];
  }

  /** One more instruction of the use analysis. */
  lemma UsedNamesStep(code: seq<Instr>, k: nat)
    requires k < |code|
    ensures UsedNames(code[..k + 1]) == UsedNames(code[..k]) + UsedBy(code[k])
  {
    assert code[..k + 1][..k] == code[..k];
  }

  /** The names one instruction uses, gathered as `_analisar_uso_variaveis` does. */
  method NamesUsedBy(i: Instr) returns (names: set<string>)
    ensures names == UsedBy(i)
  {
    names := {};
    if Present(i.operand1) && !IsConstant(i.operand1) {
      names := names + {i.operand1.value};
    }
    if Present(i.operand2) && !IsConstant(i.operand2) {
      names := names + {i.operand2.value};
    }
    if Present(i.result) && !StartsWithT(i.result.value) {
      names := names + {i.result.value};
    }
  }

  /** The constant table after one instruction, as `_constant_propagation`
      updates it. */
  method LearnConstant(table: Table, i: Instr) returns (t: Table)
    ensures t == ConstantUpdate(table, i, AsWritten)
  {
    t := table;
    if i.kind == ASSIGN && IsConstant(i.operand1) {
      t := t[i.result := i.operand1.value];
    } else if i.kind == OP || i.kind == UNARY || i.kind == READ {
      t := t - {i.result};
    }
  }

  /** The copy table after one instruction, as `_copy_propagation` updates
      it. */
  method LearnCopy(table: Table, i: Instr) returns (t: Table)
    ensures t == CopyUpdate(table, i, AsWritten)
  {
    t := table;
    if i.kind == ASSIGN && !IsConstant(i.operand1) && Present(i.operand1) {
      t := t[i.result := i.operand1.value];
    } else if i.kind == OP || i.kind == UNARY || i.kind == READ {
      t := t - {i.result};
    }
  }

  /** Replaces the operands the table knows; `hit` tells whether any was. */
  method SubstituteFrom(table: Table, i: Instr) returns (next: Instr, hit: bool)
    ensures next == Substituted(i, table) && hit == Substitutes(i, table)
  {
    next := i;
    hit := false;
    if i.operand1 in table {
      next := next.(operand1 := Some(table[i.operand1]));
      hit := true;
    }
    if Present(i.operand2) && i.operand2 in table {
      next := next.(operand2 := Some(table[i.operand2]));
      hit := true;
    }
  }

  // ---------------------------------------------------------------------------
  // The optimizer object

  class CodeOptimizer {
    /** `variaveis_usadas`: the names in use, as of the start of a pass. */
    var used: set<string>
    /** `modificacoes_feitas`: whether the current pass rewrote anything. */
    var changed: bool

    constructor()
      ensures used == {} && !changed
    {
      used := {};
      changed := false;
    }

    method AnalyzeUse(code: seq<Instr>)
      modifies this
      ensures used == UsedNames(code) && changed == old(changed)
    {
      used := {};
      var k := 0;
      while k < |code|
        invariant 0 <= k <= |code|
        invariant used == UsedNames(code[..k]) && changed == old(changed)
      {
        UsedNamesStep(code, k);
        var names := NamesUsedBy(code[k]);
        used := used + names;
        k := k + 1;
      }
      assert code[..|code|] == code;
    }

    method ConstantFolding(code: seq<Instr>) returns (r: seq<Instr>)
      modifies this
      ensures r == Fold(code).code
      ensures changed == (old(changed) || Fold(code).changed) && used == old(used)
    {
      r := [];
      var k := 0;
      while k < |code|
        invariant 0 <= k <= |code|
        invariant r == Fold(code[..k]).code
        invariant changed == (old(changed) || Fold(code[..k]).changed) && used == old(used)
      {
        assert code[..k + 1][..k] == code[..k];
        var i := code[k];
        var folded := Folded(i);
        if folded.Some? {
          r := r + [folded.value];
          changed := true;
        } else {
          r := r + [i];
        }
        k := k + 1;
      }
      assert code[..|code|] == code;
    }

    /** Constant propagation, where only OP, UNARY and READ forget their
        destination's constant. */
    method ConstantPropagation(code: seq<Instr>) returns (r: seq<Instr>)
      modifies this
      ensures r == PropagateConstants(code, AsWritten).code
      ensures changed == (old(changed) || PropagateConstants(code, AsWritten).changed) && used == old(used)
    {
      r := [];
      var table: Table := map[];
      var k := 0;
      while k < |code|
        invariant 0 <= k <= |code|
        invariant table == ConstantTable(code[..k], AsWritten)
        invariant r == PropagateConstants(code[..k], AsWritten).code
        invariant changed == (old(changed) || PropagateConstants(code[..k], AsWritten).changed) && used == old(used)
      {
        ConstantStep(code, k, AsWritten);
        var i := code[k];
        table := LearnConstant(table, i);
        var next, hit := SubstituteFrom(table, i);
        if hit {
          changed := true;
        }
        r := r + [next];
        k := k + 1;
      }
      assert code[..|code|] == code;
    }

    method AlgebraicSimplification(code: seq<Instr>) returns (r: seq<Instr>)
      modifies this
      ensures r == Simplify(code).code
      ensures changed == (old(changed) || Simplify(code).changed) && used == old(used)
    {
      r := [];
      var k := 0;
      while k < |code|
        invariant 0 <= k <= |code|
        invariant r == Simplify(code[..k]).code
        invariant changed == (old(changed) || Simplify(code[..k]).changed) && used == old(used)
      {
        assert code[..k + 1][..k] == code[..k];
        var i := code[k];
        var simplified := Simplified(i);
        if simplified.Some? {
          r := r + [simplified.value];
          changed := true;
        } else {
          r := r + [i];
        }
        k := k + 1;
      }
      assert code[..|code|] == code;
    }

    /** Copy propagation, where only OP, UNARY and READ forget a copy, and
        only the copy held under their destination. */
    method CopyPropagation(code: seq<Instr>) returns (r: seq<Instr>)
      modifies this
      ensures r == PropagateCopies(code, AsWritten).code
      ensures changed == (old(changed) || PropagateCopies(code, AsWritten).changed) && used == old(used)
    {
      r := [];
      var table: Table := map[];
      var k := 0;
      while k < |code|
        invariant 0 <= k <= |code|
        invariant table == CopyTable(code[..k], AsWritten)
        invariant r == PropagateCopies(code[..k], AsWritten).code
        invariant changed == (old(changed) || PropagateCopies(code[..k], AsWritten).changed) && used == old(used)
      {
        CopyStep(code, k, AsWritten);
        var i := code[k];
        table := LearnCopy(table, i);
        var next, hit := SubstituteFrom(table, i);
        if hit {
          changed := true;
        }
        r := r + [next];
        k := k + 1;
      }
      assert code[..|code|] == code;
    }

    method DeadCodeElimination(code: seq<Instr>) returns (r: seq<Instr>)
      modifies this
      ensures r == DeadCode(code, old(used)).code
      ensures changed == (old(changed) || DeadCode(code, old(used)).changed) && used == old(used)
    {
      r := [];
      var dead := false;
      var k := 0;
      while k < |code|
        invariant 0 <= k <= |code|
        invariant dead == DeadAfter(code[..k])
        invariant r == DeadCode(code[..k], used).code
        invariant changed == (old(changed) || DeadCode(code[..k], used).changed) && used == old(used)
      {
        DeadCodeStep(code, k, used);
        var i := code[k];
        if i.kind == GOTO {
          r := r + [i];
          dead := true;
        } else if i.kind == LABEL {
          dead := false;
          r := r + [i];
        } else if dead {
          changed := true;
        } else if Removable(i, used) {
          changed := true;
        } else {
          r := r + [i];
        }
        k := k + 1;
      }
      assert code[..|code|] == code;
    }

    /** One iteration of `otimizar`'s loop. */
    method RunPass(code: seq<Instr>) returns (r: seq<Instr>)
      modifies this
      ensures PassOnce(code) == Rewrite(r, changed)
    {
      changed := false;
      AnalyzeUse(code);
      r := ConstantFolding(code);
      r := ConstantPropagation(r);
      r := AlgebraicSimplification(r);
      r := CopyPropagation(r);
      r := DeadCodeElimination(r);
    }

    method Optimize(code: seq<Instr>, maxPasses: int) returns (r: seq<Instr>)
      modifies this
      ensures r == Iterate(PassOnce, code, Budget(maxPasses)).code
    {
      var current := code;
      var left := Budget(maxPasses);
      ghost var trace: seq<seq<Instr>> := [code];
      while left > 0
        invariant |trace| >= 1 && trace[0] == code && trace[|trace| - 1] == current
        invariant |trace| - 1 + left == Budget(maxPasses)
        invariant Chained(PassOnce, trace)
      {
        var c := RunPass(current);
        if !changed {
          RunOfPasses(PassOnce, trace, Budget(maxPasses), c, true);
          return c;
        }
        ChainedExtends(PassOnce, trace, c);
        trace := trace + [c];
        current := c;
        left := left - 1;
      }
      RunOfPasses(PassOnce, trace, Budget(maxPasses), current, false);
      r := current;
    }
  }
}
