/**
 * The semantic analysis of programa.py: the scoped symbol table
 * (`TabelaSimbolos`, a stack of scopes from the outermost to the innermost)
 * and the analyser that walks the tree, declaring names, checking that the
 * names it meets are declared, checking assignments against the declared
 * type and opening a scope for each branch of `se` and each `enquanto` body.
 *
 * The functions state what one visit computes, from the scopes before it to
 * the scopes after it or the error it raises; the classes `SymbolTable` and
 * `Analyzer` update the stack in place and are proved to agree with them.
 */
module LegacySemantic {
  import opened Errors
  import opened LegacyAst

  /** The scopes, outermost first; each maps a name to its declared type. */
  type Scopes = seq<map<string, Kind>>

  /** Semantic errors of programa.py carry no position. */
  function SemanticError(message: string): (e: CompilerError)
    ensures e.kind == Semantic && e.line == 0
  {
    CompilerError(Semantic, message, 0, 0)
  }

  function RedeclaredMessage(name: string): string {
    "Variável '" + name + "' já declarada neste escopo"
  }

  function UndeclaredMessage(name: string): string {
    "Variável '" + name + "' não declarada"
  }

  /** The types print as enumeration members, `TipoToken.INTEIRO`. */
  function IncompatibleMessage(name: string, declared: Kind, found: Kind): string {
    "Tipo incompatível na atribuição de '" + name + "'. Esperado TipoToken." + KindName(declared)
      + ", encontrado TipoToken." + KindName(found)
  }

  const ReadArgumentMessage := "Argumento da função 'leia' deve ser uma variável"

  function UnknownFunctionMessage(name: string): string {
    "Função '" + name + "' não reconhecida"
  }

  // ---------------------------------------------------------------------------
  // The scope stack as a value

  /** `entrar_escopo`. */
  function Pushed(s: Scopes): (r: Scopes)
    ensures |r| == |s| + 1 && r[..|s|] == s && r[|s|] == map[]
  {
    s + [map[]]
  }

  /** `sair_escopo`: the innermost scope is dropped unless it is the only
      one. */
  function Popped(s: Scopes): (r: Scopes)
    requires |s| >= 1
    ensures |r| >= 1
    ensures |s| > 1 ==> r == s[..|s| - 1]
    ensures |s| == 1 ==> r == s
  {
    if |s| > 1 then s[..|s| - 1] else s
  }

  /** `obter_simbolo`: the type of the innermost binding of `name`. */
  function Find(s: Scopes, name: string): Option<Kind> {
    if s == [] then None
    else if name in s[|s| - 1] then Some(s[|s| - 1][name])
    else Find(s[..|s| - 1], name)
  }

  /** `adicionar_simbolo`: bind `name` in the innermost scope, unless it is
      already bound there. */
  function Declared(s: Scopes, name: string, typ: Kind): (r: Result<Scopes>)
    requires |s| >= 1
    ensures r.Err? <==> name in s[|s| - 1]
    ensures r.Err? ==> r.error == SemanticError(RedeclaredMessage(name))
  {
    var last := s[|s| - 1];
    if name in last then Err(SemanticError(RedeclaredMessage(name)))
    else Ok(s[..|s| - 1] + [last[name := typ]])
  }

  /** `inner` holds every binding of `outer`, and maybe more. */
  predicate Extends(inner: map<string, Kind>, outer: map<string, Kind>) {
    forall x :: x in outer ==> x in inner && inner[x] == outer[x]
  }

  /** What a visit may do to the scopes: bind new names in the innermost
      scope, and nothing else. */
  predicate Keeps(before: Scopes, after: Scopes) {
    |before| >= 1 && |after| == |before|
    && after[..|before| - 1] == before[..|before| - 1]
    && Extends(after[|before| - 1], before[|before| - 1])
  }

  lemma KeepsTransitive(a: Scopes, b: Scopes, c: Scopes)
    requires Keeps(a, b) && Keeps(b, c)
    ensures Keeps(a, c)
  {
    assert c[..|a| - 1] == b[..|a| - 1];
  }

  /** The same, when the second step may have failed. */
  lemma KeepsThen(a: Scopes, b: Scopes, r: Result<Scopes>)
    requires Keeps(a, b) && (r.Ok? ==> Keeps(b, r.value))
    ensures r.Ok? ==> Keeps(a, r.value)
  {
    if r.Ok? {
      KeepsTransitive(a, b, r.value);
    }
  }

  lemma KeepsReflexive(a: Scopes)
    requires |a| >= 1
    ensures Keeps(a, a)
  {
  }

  // ---------------------------------------------------------------------------
  // Lookup

  /** The lookup finds nothing exactly when no scope binds the name, and
      otherwise the binding of the innermost scope that has it. */
  lemma {:induction false} FindInnermost(s: Scopes, name: string)
    ensures Find(s, name).None? <==> forall i :: 0 <= i < |s| ==> name !in s[i]
    ensures forall i :: 0 <= i < |s| && name in s[i] && (forall j :: i < j < |s| ==> name !in s[j])
              ==> Find(s, name) == Some(s[i][name])
  {
    if s != [] {
      var n := |s| - 1;
      var init := s[..n];
      FindInnermost(init, name);
      assert forall i :: 0 <= i < n ==> init[i] == s[i];
    }
  }

  /** A declaration shadows: the name now finds the new type, and every other
      name finds what it found before. */
  lemma DeclaredShadows(s: Scopes, name: string, typ: Kind, other: string)
    requires |s| >= 1 && Declared(s, name, typ).Ok?
    ensures Find(Declared(s, name, typ).value, name) == Some(typ)
    ensures other != name ==> Find(Declared(s, name, typ).value, other) == Find(s, other)
  {
    var r := Declared(s, name, typ).value;
    assert r[..|r| - 1] == s[..|s| - 1];
  }

  /** A name bound in an outer scope can be declared again in a new scope. */
  lemma NestedRedeclaration(s: Scopes, name: string, typ: Kind)
    requires |s| >= 1
    ensures Declared(Pushed(s), name, typ).Ok?
  {
  }

  /** Entering a scope hides nothing, and leaving it gives the scopes back. */
  lemma PushPop(s: Scopes, name: string)
    requires |s| >= 1
    ensures Find(Pushed(s), name) == Find(s, name)
    ensures Popped(Pushed(s)) == s
  {
    assert Pushed(s)[..|s|] == s;
  }

  /** Leaving the outermost scope does nothing. */
  lemma OutermostStays(s: Scopes)
    requires |s| == 1
    ensures Popped(s) == s
  {
  }

  // ---------------------------------------------------------------------------
  // Types of expressions

  /** 10 to a natural power. */
  function TenUp(n: nat): (p: real)
    ensures p >= 1.0
  {
    if n == 0 then 1.0 else 10.0 * TenUp(n - 1)
  }

  /** `m` is the digit `d` shifted `n` places, to the left or to the right. */
  predicate Shifted(m: real, d: int, n: nat) {
    m == d as real * TenUp(n) || m * TenUp(n) == d as real
  }

  /** A number Python prints in exponent notation without a dot: a single
      significant digit times a power of ten (`1e-05`, `3e+16`). */
  ghost predicate DigitTimesPowerOfTen(m: real) {
    exists d: int, n: nat :: 1 <= d <= 9 && Shifted(m, d, n)
  }

  /** How far a positive number is from [1, 10), as a count that shrinks
      when the number is brought a factor of ten closer. */
  function Spread(m: real): nat
    requires m > 0.0
  {
    if m >= 10.0 then m.Floor else if m < 1.0 then (1.0 / m).Floor else 0
  }

  lemma SpreadDrops(m: real)
    requires m > 0.0
    ensures m >= 10.0 ==> Spread(m / 10.0) < Spread(m)
    ensures m < 1.0 ==> Spread(m * 10.0) < Spread(m)
  {
    if m < 1.0 {
      var q := 1.0 / m;
      assert q * m == 1.0;
      assert q > 1.0;
      if m * 10.0 < 1.0 {
        assert 1.0 / (m * 10.0) == q / 10.0;
      }
    }
  }

  /** The decimal digits of a positive number, read without rounding, hold a
      single non-zero digit. */
  predicate OneSignificantDigit(m: real)
    requires m > 0.0
    decreases Spread(m)
  {
    if m >= 10.0 then SpreadDrops(m); OneSignificantDigit(m / 10.0)
    else if m < 1.0 then SpreadDrops(m); OneSignificantDigit(m * 10.0)
    else m.Floor as real == m
  }

  lemma TimesPower(x: real, n: nat)
    requires n >= 1
    ensures x * TenUp(n) == (x * TenUp(n - 1)) * 10.0
  {
  }

  /** Ten times a shifted digit is the same digit shifted once more. */
  lemma ShiftedTimesTen(t: real, d: int, n: nat) returns (k: nat)
    requires Shifted(t, d, n)
    ensures Shifted(t * 10.0, d, k)
  {
    if t == d as real * TenUp(n) {
      TimesPower(d as real, n + 1);
      k := n + 1;
    } else {
      // with n == 0 the first case applies
      assert n > 0;
      TimesPower(t, n);
      k := n - 1;
    }
  }

  /** A tenth of a shifted digit is the same digit shifted once less. */
  lemma ShiftedTenth(m: real, d: int, n: nat) returns (k: nat)
    requires Shifted(m, d, n)
    ensures Shifted(m / 10.0, d, k)
  {
    var t := m / 10.0;
    assert m == t * 10.0;
    if m == d as real * TenUp(n) && n > 0 {
      TimesPower(d as real, n);
      k := n - 1;
    } else if m == d as real * TenUp(n) {
      k := 1;
    } else {
      TimesPower(t, n + 1);
      k := n + 1;
    }
  }

  /** Dividing by ten keeps the shape. */
  lemma TenthShape(m: real)
    requires m > 0.0
    ensures DigitTimesPowerOfTen(m / 10.0) <==> DigitTimesPowerOfTen(m)
  {
    if DigitTimesPowerOfTen(m / 10.0) {
      var d: int, n: nat :| 1 <= d <= 9 && Shifted(m / 10.0, d, n);
      var k := ShiftedTimesTen(m / 10.0, d, n);
      assert m / 10.0 * 10.0 == m;
      assert Shifted(m, d, k);
    }
    if DigitTimesPowerOfTen(m) {
      var d: int, n: nat :| 1 <= d <= 9 && Shifted(m, d, n);
      var k := ShiftedTenth(m, d, n);
      assert Shifted(m / 10.0, d, k);
    }
  }

  /** A number of at least 1, shifted left, is at least 10. */
  lemma AtLeastTen(x: real, n: nat)
    requires x >= 1.0 && n >= 1
    ensures x * TenUp(n) >= 10.0
  {
    TimesPower(x, n);
    assert x * TenUp(n - 1) >= 1.0 by {
      assert (x - 1.0) * TenUp(n - 1) >= 0.0;
    }
  }

  /** Between 1 and 10 the shape is a whole number. */
  lemma UnitShape(m: real)
    requires 1.0 <= m < 10.0
    ensures DigitTimesPowerOfTen(m) <==> m.Floor as real == m
  {
    if DigitTimesPowerOfTen(m) {
      var d: int, n: nat :| 1 <= d <= 9 && Shifted(m, d, n);
      if n >= 1 {
        AtLeastTen(d as real, n);
        AtLeastTen(m, n);
      }
      assert m == d as real;
    }
    if m.Floor as real == m {
      assert Shifted(m, m.Floor, 0);
    }
  }

  /** The digit test is the single-digit-times-a-power-of-ten shape. */
  lemma {:induction false} OneSignificantDigitMeans(m: real)
    requires m > 0.0
    ensures OneSignificantDigit(m) <==> DigitTimesPowerOfTen(m)
    decreases Spread(m)
  {
    SpreadDrops(m);
    if m >= 10.0 {
      OneSignificantDigitMeans(m / 10.0);
      TenthShape(m);
    } else if m < 1.0 {
      OneSignificantDigitMeans(m * 10.0);
      TenthShape(m * 10.0);
      assert m * 10.0 / 10.0 == m;
    } else {
      UnitShape(m);
    }
  }

  /** Multiplying by ten keeps the digit test. */
  lemma TimesTen(y: real, z: real)
    requires y >= 1.0 && z == y * 10.0
    ensures OneSignificantDigit(z) == OneSignificantDigit(y)
  {
    assert z / 10.0 == y;
  }

  /** Scaling a number of at least 1 by a power of ten keeps the digit
      test. */
  lemma {:induction false} ScaledUp(m: real, n: nat)
    requires m >= 1.0
    ensures m * TenUp(n) >= 1.0
    ensures OneSignificantDigit(m * TenUp(n)) == OneSignificantDigit(m)
  {
    if n > 0 {
      ScaledUp(m, n - 1);
      TimesPower(m, n);
      TimesTen(m * TenUp(n - 1), m * TenUp(n));
    }
  }

  /** Whether `str(valor)` of a float holds a `.`: Python writes 0 and the
      magnitudes from 1e-4 up to 1e16 positionally, always with a dot, and
      the others as a mantissa and an exponent, where the dot appears unless
      the mantissa is a single digit. */
  predicate FloatTextHasDot(x: real) {
    var m := if x < 0.0 then -x else x;
    m == 0.0 || (1.0 / 10000.0 <= m && m < 10000000000000000.0) || !OneSignificantDigit(m)
  }

  /** The dot is missing exactly for a single significant digit times a
      power of ten outside Python's positional range. */
  lemma FloatDotRule(x: real)
    ensures !FloatTextHasDot(x) <==>
      var m := if x < 0.0 then -x else x;
      DigitTimesPowerOfTen(m) && (m < 1.0 / 10000.0 || m >= 10000000000000000.0)
  {
    var m := if x < 0.0 then -x else x;
    if m > 0.0 {
      OneSignificantDigitMeans(m);
    } else {
      assert !DigitTimesPowerOfTen(m);
    }
  }

  predicate IsComparison(k: Kind) {
    k == IGUAL || k == DIFERENTE || k == MAIOR || k == MENOR || k == MAIOR_IGUAL || k == MENOR_IGUAL
  }

  /** `inferir_tipo`. */
  function InferType(s: Scopes, n: Node): (t: Option<Kind>)
    ensures n.NumeroLiteral? && n.number.BoolVal? ==> t == Some(LOGICO)
    ensures n.NumeroLiteral? && n.number.IntVal? ==> t == Some(INTEIRO)
    ensures n.NumeroLiteral? && n.number.FloatVal? ==> t == Some(REAL) || t == Some(INTEIRO)
    ensures n.NumeroLiteral? && n.number.FloatVal? ==> (t == Some(REAL) <==> FloatTextHasDot(n.number.x))
    ensures n.StringLiteral? ==> t == Some(CARACTER)
    ensures n.Identificador? ==> t == Find(s, n.id)
    ensures n.Binario? ==> (t.Some? <==> IsComparison(n.op.kind) || n.op.kind == E || n.op.kind == OU)
    ensures !n.NumeroLiteral? && !n.StringLiteral? && !n.Identificador? && !n.Binario? ==> t.None?
  {
    match n
    case NumeroLiteral(v) =>
      (match v
       case BoolVal(_) => Some(LOGICO)
       case FloatVal(x) => Some(if FloatTextHasDot(x) then REAL else INTEIRO)
       case IntVal(_) => Some(INTEIRO))
    case StringLiteral(_) => Some(CARACTER)
    case Identificador(id) => Find(s, id)
    case Binario(_, op, _) =>
      if IsComparison(op.kind) || op.kind == E || op.kind == OU then Some(LOGICO) else None
    case _ => None
  }

  /** The types a value may have when assigned to a variable declared
      `declared`: any unknown type, the same type, or an implicit
      conversion between `inteiro` and `real`. */
  predicate Assignable(declared: Kind, found: Option<Kind>) {
    found.None? || found.value == declared
    || (found.value, declared) == (INTEIRO, REAL)
    || (found.value, declared) == (REAL, INTEIRO)
    || (found.value, declared) == (LOGICO, LOGICO)
  }

  // ---------------------------------------------------------------------------
  // The analysis

  /** `visitar_DeclaracaoVariavel`: each name in turn. */
  function DeclareNames(s: Scopes, names: seq<string>, typ: Kind): (r: Result<Scopes>)
    requires |s| >= 1
    ensures r.Ok? ==> Keeps(s, r.value)
    decreases |names|
  {
    if names == [] then Ok(s)
    else
      match Declared(s, names[0], typ)
      case Err(e) => Err(e)
      case Ok(s1) =>
        assert Keeps(s, s1) by {
          assert s1[..|s| - 1] == s[..|s| - 1];
        }
        var r := DeclareNames(s1, names[1..], typ);
        KeepsThen(s, s1, r);
        r
  }

  /** `visitar_ChamadaFuncao` for `leia`: each argument must be a declared
      variable. */
  function CheckReadArguments(s: Scopes, args: seq<Node>): Outcome
    decreases |args|
  {
    if args == [] then Pass
    else if !args[0].Identificador? then Fail(SemanticError(ReadArgumentMessage))
    else if Find(s, args[0].id).None? then Fail(SemanticError(UndeclaredMessage(args[0].id)))
    else CheckReadArguments(s, args[1..])
  }

  /** `visitar_ChamadaFuncao`: `leia` checks its arguments, `escreva` is
      accepted as it stands, any other name is an error. */
  function CheckCall(s: Scopes, callee: string, args: seq<Node>): Outcome {
    if callee == "leia" then CheckReadArguments(s, args)
    else if callee == "escreva" then Pass
    else Fail(SemanticError(UnknownFunctionMessage(callee)))
  }

  /** `visitar`: the scopes after visiting `n`, or the error raised. */
  function Analyze(s: Scopes, n: Node): (r: Result<Scopes>)
    requires |s| >= 1
    ensures r.Ok? ==> Keeps(s, r.value)
    decreases n, 2
  {
    match n
    case Programa(items) => AnalyzeAll(s, items)
    case DeclaracaoVariavel(typ, names) => DeclareNames(s, names, typ)
    case Atribuicao(_, _) => AnalyzeAssignment(s, n)
    case ChamadaFuncao(callee, args) =>
      (match CheckCall(s, callee, args)
       case Fail(e) => Err(e)
       case Pass => Ok(s))
    case Se(_, _, _) => AnalyzeIf(s, n)
    case Enquanto(_, _) => AnalyzeWhile(s, n)
    case Identificador(id) => if Find(s, id).None? then Err(SemanticError(UndeclaredMessage(id))) else Ok(s)
    case NumeroLiteral(_) => Ok(s)
    case StringLiteral(_) => Ok(s)
    case Binario(l, _, r) =>
      (match Analyze(s, l)
       case Err(e) => Err(e)
       case Ok(s1) =>
         var s2 := Analyze(s1, r);
         KeepsThen(s, s1, s2);
         s2)
    case Bloco(items) => AnalyzeAll(s, items)
  }

  /** `visitar_padrao` over a list: the nodes in order. */
  function AnalyzeAll(s: Scopes, items: seq<Node>): (r: Result<Scopes>)
    requires |s| >= 1
    ensures r.Ok? ==> Keeps(s, r.value)
    decreases items, 2
  {
    if items == [] then Ok(s)
    else
      match Analyze(s, items[0])
      case Err(e) => Err(e)
      case Ok(s1) =>
        var s2 := AnalyzeAll(s1, items[1..]);
        KeepsThen(s, s1, s2);
        s2
  }

  /** `visitar_Atribuicao`: the target must be declared, the value's type
      assignable to it, and the value is then visited. */
  function AnalyzeAssignment(s: Scopes, n: Node): (r: Result<Scopes>)
    requires |s| >= 1 && n.Atribuicao?
    ensures r.Ok? ==> Keeps(s, r.value)
    decreases n, 1
  {
    match Find(s, n.name)
    case None => Err(SemanticError(UndeclaredMessage(n.name)))
    case Some(declared) =>
      var found := InferType(s, n.value);
      if !Assignable(declared, found) then Err(SemanticError(IncompatibleMessage(n.name, declared, found.value)))
      else Analyze(s, n.value)
  }

  /** The scopes after leaving a scope opened for a branch or a body. */
  function Closed(s: Scopes, r: Result<Scopes>): (c: Result<Scopes>)
    requires |s| >= 1
    requires r.Ok? ==> Keeps(Pushed(s), r.value)
    ensures c.Ok? ==> c.value == s
    ensures c.Err? <==> r.Err?
  {
    match r
    case Err(e) => Err(e)
    case Ok(inner) =>
      assert inner[..|s|] == Pushed(s)[..|s|];
      Ok(Popped(inner))
  }

  /** `visitar_Se`: a scope around the condition and the `então` block, and
      another around the `senão` block when there is one. */
  function AnalyzeIf(s: Scopes, n: Node): (r: Result<Scopes>)
    requires |s| >= 1 && n.Se?
    ensures r.Ok? ==> r.value == s
    decreases n, 1
  {
    var inner := Analyze(Pushed(s), n.cond);
    var thenDone :=
      (match inner
       case Err(e) => Err(e)
       case Ok(s1) =>
         var s2 := Analyze(s1, n.thenBlock);
         KeepsThen(Pushed(s), s1, s2);
         s2);
    match Closed(s, thenDone)
    case Err(e) => Err(e)
    case Ok(_) =>
      match n.elseBlock
      case NoElse => Ok(s)
      case Else(b) => Closed(s, Analyze(Pushed(s), b))
  }

  /** `visitar_Enquanto`: one scope around the condition and the body. */
  function AnalyzeWhile(s: Scopes, n: Node): (r: Result<Scopes>)
    requires |s| >= 1 && n.Enquanto?
    ensures r.Ok? ==> r.value == s
    decreases n, 1
  {
    var inner := Analyze(Pushed(s), n.cond);
    var bodyDone :=
      (match inner
       case Err(e) => Err(e)
       case Ok(s1) =>
         var s2 := Analyze(s1, n.body);
         KeepsThen(Pushed(s), s1, s2);
         s2);
    Closed(s, bodyDone)
  }

  // ---------------------------------------------------------------------------
  // What the analysis accepts

  predicate Distinct(names: seq<string>) {
    forall i, j :: 0 <= i < j < |names| ==> names[i] != names[j]
  }

  /** None of `names` is bound in `scope`. */
  predicate Fresh(names: seq<string>, scope: map<string, Kind>) {
    forall i :: 0 <= i < |names| ==> names[i] !in scope
  }

  /** Distinct fresh names are a fresh first name followed by distinct names
      fresh in the scope that binds the first. */
  lemma FreshSplit(names: seq<string>, scope: map<string, Kind>, typ: Kind)
    requires names != [] && names[0] !in scope
    ensures Distinct(names) && Fresh(names, scope)
        <==> Distinct(names[1..]) && Fresh(names[1..], scope[names[0] := typ])
  {
    var tail := names[1..];
    assert forall i :: 0 <= i < |tail| ==> tail[i] == names[i + 1];
    if Distinct(tail) && Fresh(tail, scope[names[0] := typ]) {
      forall i, j | 0 <= i < j < |names|
        ensures names[i] != names[j]
      {
        assert names[j] == tail[j - 1];
        if i > 0 {
          assert names[i] == tail[i - 1];
        }
      }
      forall i | 0 <= i < |names|
        ensures names[i] !in scope
      {
        if i > 0 {
          assert names[i] == tail[i - 1];
        }
      }
    }
  }

  /** A declaration succeeds exactly when its names are distinct and none is
      already bound in the innermost scope. */
  lemma {:induction false} DeclarationAccepted(s: Scopes, names: seq<string>, typ: Kind)
    requires |s| >= 1
    ensures DeclareNames(s, names, typ).Ok? <==> Distinct(names) && Fresh(names, s[|s| - 1])
    decreases |names|
  {
    if names != [] && names[0] !in s[|s| - 1] {
      var s1 := Declared(s, names[0], typ).value;
      assert s1[|s1| - 1] == s[|s| - 1][names[0] := typ];
      DeclarationAccepted(s1, names[1..], typ);
      FreshSplit(names, s[|s| - 1], typ);
    }
  }

  /** After a declaration each of its names finds the declared type. */
  lemma {:induction false} DeclarationBinds(s: Scopes, names: seq<string>, typ: Kind)
    requires |s| >= 1 && DeclareNames(s, names, typ).Ok?
    ensures forall i :: 0 <= i < |names| ==> Find(DeclareNames(s, names, typ).value, names[i]) == Some(typ)
    decreases |names|
  {
    if names != [] {
      var s1 := Declared(s, names[0], typ).value;
      var r := DeclareNames(s1, names[1..], typ).value;
      DeclarationBinds(s1, names[1..], typ);
      forall i | 0 <= i < |names|
        ensures Find(r, names[i]) == Some(typ)
      {
        if i > 0 {
          assert names[i] == names[1..][i - 1];
        } else {
          assert names[0] in s1[|s1| - 1];
          assert names[0] in r[|r| - 1];
        }
      }
    }
  }

  /** `leia` accepts its arguments exactly when every one is a declared
      variable. */
  lemma {:induction false} ReadArgumentRules(s: Scopes, args: seq<Node>)
    ensures CheckReadArguments(s, args).Pass?
      <==> forall i :: 0 <= i < |args| ==> args[i].Identificador? && Find(s, args[i].id).Some?
    decreases |args|
  {
    if args != [] {
      ReadArgumentRules(s, args[1..]);
      assert forall i :: 1 <= i < |args| ==> args[i] == args[1..][i - 1];
    }
  }

  /** A call passes exactly when it is `escreva`, whatever its arguments, or
      `leia` on declared variables; it never changes the scopes. */
  lemma CallRules(s: Scopes, callee: string, args: seq<Node>)
    requires |s| >= 1
    ensures Analyze(s, ChamadaFuncao(callee, args)).Ok? <==>
              (callee == "escreva"
               || (callee == "leia" && forall i :: 0 <= i < |args| ==> args[i].Identificador? && Find(s, args[i].id).Some?))
    ensures Analyze(s, ChamadaFuncao(callee, args)).Ok? ==> Analyze(s, ChamadaFuncao(callee, args)).value == s
  {
    ReadArgumentRules(s, args);
  }

  /** The trees `parse_expressao_ou_simples` builds. */
  predicate IsExpression(n: Node) {
    match n
    case Identificador(_) => true
    case NumeroLiteral(_) => true
    case StringLiteral(_) => true
    case Binario(l, _, r) => IsExpression(l) && IsExpression(r)
    case _ => false
  }

  /** The variables an expression mentions. */
  function Names(n: Node): set<string>
    requires IsExpression(n)
  {
    match n
    case Identificador(id) => {id}
    case Binario(l, _, r) => Names(l) + Names(r)
    case _ => {}
  }

  /** An expression passes exactly when every variable in it is declared, and
      it leaves the scopes as they were. */
  lemma {:induction false} ExpressionRules(s: Scopes, n: Node)
    requires |s| >= 1 && IsExpression(n)
    ensures Analyze(s, n).Ok? <==> forall x :: x in Names(n) ==> Find(s, x).Some?
    ensures Analyze(s, n).Ok? ==> Analyze(s, n).value == s
  {
    match n
    case Binario(l, _, r) =>
      ExpressionRules(s, l);
      ExpressionRules(s, r);
    case Identificador(id) =>
      assert Names(n) == {id};
    case _ =>
  }

  /** Assigning to an undeclared variable is an error, whatever the value. */
  lemma AssignmentUndeclared(s: Scopes, x: string, v: Node)
    requires |s| >= 1 && Find(s, x).None?
    ensures Analyze(s, Atribuicao(x, v)) == Err(SemanticError(UndeclaredMessage(x)))
  {
  }

  /** A value whose type is unknown, or a `real` assigned to an `inteiro`,
      is accepted as far as types go: the value is only visited. */
  lemma AssignmentAccepted(s: Scopes, x: string, v: Node)
    requires |s| >= 1 && Find(s, x).Some?
    requires InferType(s, v).None? || (Find(s, x) == Some(INTEIRO) && InferType(s, v) == Some(REAL))
    ensures Analyze(s, Atribuicao(x, v)) == Analyze(s, v)
  {
  }

  /** Text into an `inteiro` and a whole number into a `logico` are
      refused. */
  lemma AssignmentRefused(s: Scopes, x: string, v: Node)
    requires |s| >= 1
    requires (Find(s, x) == Some(INTEIRO) && v.StringLiteral?)
          || (Find(s, x) == Some(LOGICO) && v.NumeroLiteral? && v.number.IntVal?)
    ensures Analyze(s, Atribuicao(x, v)) == Err(SemanticError(IncompatibleMessage(x, Find(s, x).value, InferType(s, v).value)))
  {
  }

  /** The whole assignment rule: with the target declared, the assignment
      is refused exactly when the value has a type, that type differs from
      the declared one, and the pair is not one of the two conversions
      between `inteiro` and `real`; otherwise only the value is visited. */
  lemma AssignmentTypeRule(s: Scopes, x: string, v: Node)
    requires |s| >= 1 && Find(s, x).Some?
    ensures var d := Find(s, x).value;
      var t := InferType(s, v);
      Analyze(s, Atribuicao(x, v))
        == if t.Some? && t.value != d && !(t.value == INTEIRO && d == REAL) && !(t.value == REAL && d == INTEIRO)
           then Err(SemanticError(IncompatibleMessage(x, d, t.value)))
           else Analyze(s, v)
  {
  }

  /** Python's text of `0.000015` is `1.5e-05` and that of `1.5e16` is
      `1.5e+16`, both with a dot, so both are `REAL`; `0.00001` and `1e16`
      print as `1e-05` and `1e+16`, without one, so both are `INTEIRO`;
      `0.0001` still prints positionally. */
  lemma FloatLiteralTypes(s: Scopes)
    ensures InferType(s, NumeroLiteral(FloatVal(0.000015))) == Some(REAL)
    ensures InferType(s, NumeroLiteral(FloatVal(15000000000000000.0))) == Some(REAL)
    ensures InferType(s, NumeroLiteral(FloatVal(0.00001))) == Some(INTEIRO)
    ensures InferType(s, NumeroLiteral(FloatVal(-10000000000000000.0))) == Some(INTEIRO)
    ensures InferType(s, NumeroLiteral(FloatVal(0.0001))) == Some(REAL)
  {
    assert TenUp(8) == 100000000.0;
    ScaledUp(1.5, 8);
    ScaledUp(150000000.0, 8);
    ScaledUp(1.0, 8);
    ScaledUp(100000000.0, 8);
  }

  /** `logico x; x = 0.000015` is refused with the type `REAL`. */
  lemma SmallFloatIntoLogical(s: Scopes, x: string)
    requires |s| >= 1 && Find(s, x) == Some(LOGICO)
    ensures Analyze(s, Atribuicao(x, NumeroLiteral(FloatVal(0.000015))))
      == Err(SemanticError(IncompatibleMessage(x, LOGICO, REAL)))
  {
    FloatLiteralTypes(s);
  }

  /** A name declared only inside a `se` is unknown after it. */
  lemma BranchDeclarationIsLocal(s: Scopes, branch: Node, x: string)
    requires |s| >= 1 && branch.Se? && Find(s, x).None?
    requires Analyze(s, branch).Ok?
    ensures Analyze(s, Bloco([branch, Identificador(x)])) == Err(SemanticError(UndeclaredMessage(x)))
  {
    var items := [branch, Identificador(x)];
    assert items[1..] == [Identificador(x)];
    assert Analyze(s, branch) == Ok(s);
    assert [Identificador(x)][1..] == [];
    assert AnalyzeAll(s, [Identificador(x)]) == Err(SemanticError(UndeclaredMessage(x)));
    assert AnalyzeAll(s, items) == AnalyzeAll(s, items[1..]);
  }

  // ---------------------------------------------------------------------------
  // The table and the analyser as objects

  /** `TabelaSimbolos`: the list of scopes, pushed and popped in place. */
  class SymbolTable {
    var scopes: Scopes

    ghost predicate Valid()
      reads this
    {
      |scopes| >= 1
    }

    /** A table with the one outermost scope. */
    constructor()
      ensures Valid() && scopes == [map[]]
    {
      scopes := [map[]];
    }

    /** `entrar_escopo`. */
    method Enter()
      requires Valid()
      modifies this
      ensures Valid() && scopes == Pushed(old(scopes))
    {
      scopes := scopes + [map[]];
    }

    /** `sair_escopo`. */
    method Exit()
      requires Valid()
      modifies this
      ensures Valid() && scopes == Popped(old(scopes))
    {
      if |scopes| > 1 {
        scopes := scopes[..|scopes| - 1];
      }
    }

    /** `adicionar_simbolo`. */
    method Add(name: string, typ: Kind) returns (r: Outcome)
      requires Valid()
      modifies this
      ensures Valid()
      ensures Declared(old(scopes), name, typ).Ok? ==> r == Pass && scopes == Declared(old(scopes), name, typ).value
      ensures Declared(old(scopes), name, typ).Err? ==> r == Fail(Declared(old(scopes), name, typ).error) && scopes == old(scopes)
    {
      var last := scopes[|scopes| - 1];
      if name in last {
        return Fail(SemanticError(RedeclaredMessage(name)));
      }
      scopes := scopes[..|scopes| - 1] + [last[name := typ]];
      return Pass;
    }

    /** `obter_simbolo`: the scopes from the innermost outwards. */
    method Lookup(name: string) returns (r: Option<Kind>)
      ensures r == Find(scopes, name)
    {
      var k := |scopes|;
      assert scopes[..k] == scopes;
      while k > 0
        invariant 0 <= k <= |scopes|
        invariant Find(scopes[..k], name) == Find(scopes, name)
      {
        assert scopes[..k][..k - 1] == scopes[..k - 1];
        if name in scopes[k - 1] {
          return Some(scopes[k - 1][name]);
        }
        k := k - 1;
      }
      return None;
    }
  }

  /** A visit's answer `r`, with the table left holding `scopes`, is what
      the analysis computes. */
  predicate Reached(r: Outcome, scopes: Scopes, expected: Result<Scopes>) {
    match expected
    case Ok(v) => r == Pass && scopes == v
    case Err(e) => r == Fail(e)
  }

  /** `AnalisadorSemantico`, working on its symbol table. */
  class Analyzer {
    const table: SymbolTable

    constructor(table: SymbolTable)
      ensures this.table == table
    {
      this.table := table;
    }

    /** `inferir_tipo`. */
    method TypeOf(n: Node) returns (t: Option<Kind>)
      ensures t == InferType(table.scopes, n)
    {
      match n
      case NumeroLiteral(v) =>
        match v {
          case BoolVal(_) => t := Some(LOGICO);
          case FloatVal(x) => t := Some(if FloatTextHasDot(x) then REAL else INTEIRO);
          case IntVal(_) => t := Some(INTEIRO);
        }
      case StringLiteral(_) => t := Some(CARACTER);
      case Identificador(id) => t := table.Lookup(id);
      case Binario(_, op, _) =>
        t := if IsComparison(op.kind) || op.kind == E || op.kind == OU then Some(LOGICO) else None;
      case _ => t := None;
    }

    /** `visitar_ChamadaFuncao`. */
    method CheckCallOf(callee: string, args: seq<Node>) returns (r: Outcome)
      ensures r == CheckCall(table.scopes, callee, args)
    {
      if callee == "leia" {
        var k := 0;
        while k < |args|
          invariant 0 <= k <= |args|
          invariant CheckReadArguments(table.scopes, args[k..]) == CheckReadArguments(table.scopes, args)
        {
          assert args[k..][1..] == args[k + 1..];
          if !args[k].Identificador? {
            return Fail(SemanticError(ReadArgumentMessage));
          }
          var t := table.Lookup(args[k].id);
          if t.None? {
            return Fail(SemanticError(UndeclaredMessage(args[k].id)));
          }
          k := k + 1;
        }
        return Pass;
      } else if callee == "escreva" {
        return Pass;
      }
      return Fail(SemanticError(UnknownFunctionMessage(callee)));
    }

    /** `visitar_DeclaracaoVariavel`. */
    method Declare(names: seq<string>, typ: Kind) returns (r: Outcome)
      requires table.Valid()
      modifies table
      ensures table.Valid()
      ensures Reached(r, table.scopes, DeclareNames(old(table.scopes), names, typ))
    {
      var k := 0;
      while k < |names|
        invariant 0 <= k <= |names| && table.Valid()
        invariant DeclareNames(table.scopes, names[k..], typ) == DeclareNames(old(table.scopes), names, typ)
      {
        assert names[k..][1..] == names[k + 1..];
        r := table.Add(names[k], typ);
        if r.Fail? {
          return;
        }
        k := k + 1;
      }
      return Pass;
    }

    /** `visitar`. */
    method Visit(n: Node) returns (r: Outcome)
      requires table.Valid()
      modifies table
      ensures table.Valid()
      ensures Reached(r, table.scopes, Analyze(old(table.scopes), n))
      decreases n, 2
    {
      match n
      case Programa(items) => r := VisitAll(items);
      case DeclaracaoVariavel(typ, names) => r := Declare(names, typ);
      case Atribuicao(_, _) => r := VisitAssignment(n);
      case ChamadaFuncao(callee, args) => r := CheckCallOf(callee, args);
      case Se(_, _, _) => r := VisitIf(n);
      case Enquanto(_, _) => r := VisitWhile(n);
      case Identificador(id) =>
        var t := table.Lookup(id);
        r := if t.None? then Fail(SemanticError(UndeclaredMessage(id))) else Pass;
      case NumeroLiteral(_) => r := Pass;
      case StringLiteral(_) => r := Pass;
      case Binario(left, _, right) =>
        r := Visit(left);
        if r.Pass? {
          r := Visit(right);
        }
      case Bloco(items) => r := VisitAll(items);
    }

    /** `visitar_padrao` over a list. */
    method VisitAll(items: seq<Node>) returns (r: Outcome)
      requires table.Valid()
      modifies table
      ensures table.Valid()
      ensures Reached(r, table.scopes, AnalyzeAll(old(table.scopes), items))
      decreases items, 2
    {
      var k := 0;
      while k < |items|
        invariant 0 <= k <= |items| && table.Valid()
        invariant AnalyzeAll(table.scopes, items[k..]) == AnalyzeAll(old(table.scopes), items)
      {
        assert items[k..][1..] == items[k + 1..];
        r := Visit(items[k]);
        if r.Fail? {
          return;
        }
        k := k + 1;
      }
      return Pass;
    }

    /** `visitar_Atribuicao`. */
    method VisitAssignment(n: Node) returns (r: Outcome)
      requires table.Valid() && n.Atribuicao?
      modifies table
      ensures table.Valid()
      ensures Reached(r, table.scopes, AnalyzeAssignment(old(table.scopes), n))
      decreases n, 1
    {
      var declared := table.Lookup(n.name);
      if declared.None? {
        return Fail(SemanticError(UndeclaredMessage(n.name)));
      }
      var found := TypeOf(n.value);
      if !Assignable(declared.value, found) {
        return Fail(SemanticError(IncompatibleMessage(n.name, declared.value, found.value)));
      }
      r := Visit(n.value);
    }

    /** `visitar_Se`. */
    method VisitIf(n: Node) returns (r: Outcome)
      requires table.Valid() && n.Se?
      modifies table
      ensures table.Valid()
      ensures Reached(r, table.scopes, AnalyzeIf(old(table.scopes), n))
      decreases n, 1
    {
      ghost var s := table.scopes;
      table.Enter();
      r := Visit(n.cond);
      if r.Fail? {
        return;
      }
      r := Visit(n.thenBlock);
      if r.Fail? {
        return;
      }
      table.Exit();
      match n.elseBlock
      case NoElse =>
      case Else(b) =>
        assert table.scopes == s;
        table.Enter();
        r := Visit(b);
        if r.Fail? {
          return;
        }
        table.Exit();
    }

    /** `visitar_Enquanto`. */
    method VisitWhile(n: Node) returns (r: Outcome)
      requires table.Valid() && n.Enquanto?
      modifies table
      ensures table.Valid()
      ensures Reached(r, table.scopes, AnalyzeWhile(old(table.scopes), n))
      decreases n, 1
    {
      table.Enter();
      r := Visit(n.cond);
      if r.Fail? {
        return;
      }
      r := Visit(n.body);
      if r.Fail? {
        return;
      }
      table.Exit();
    }
  }
}
