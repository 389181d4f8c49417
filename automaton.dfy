/**
 * The explicit deterministic automata of src/automaton.py: a table from
 * states to ordered transitions, where a transition's key is either the
 * symbol itself or the name of one of the automaton's character-class
 * methods (a name starting with `_`), and the three automata built on it
 * for identifiers, integers and reals.
 */
module Automata {
  import opened Chars
  import opened Errors

  /** `EstadoAFD`. */
  datatype State = Q0 | Q1 | Q2 | Error

  /** `tabela_transicoes`: for each state, its transitions in the order the
      dictionary holds them. */
  type Table = map<State, seq<(string, State)>>

  const LetterOrUnderscore := "_eh_letra_ou_underscore"
  const AlnumOrUnderscore := "_eh_alfanumerico_ou_underscore"
  const Digit := "_eh_digito"

  /** The character-class methods the automata define. */
  predicate Holds(name: string, c: char) {
    if name == LetterOrUnderscore then IsAlpha(c) || c == '_'
    else if name == AlnumOrUnderscore then IsIdentChar(c)
    else if name == Digit then IsDigit(c)
    else false
  }

  /** A key used as a predicate: it starts with `_`, names a method of the
      automaton, and that method holds of the symbol. */
  predicate Matches(methods: set<string>, key: string, c: char) {
    |key| > 0 && key[0] == '_' && key in methods && Holds(key, c)
  }

  /** The dictionary lookup `transicoes[simbolo]`. */
  function DirectTarget(entries: seq<(string, State)>, c: char): (r: Option<State>)
    ensures r.Some? <==> exists k :: 0 <= k < |entries| && entries[k].0 == [c]
  {
    if entries == [] then None
    else if entries[0].0 == [c] then Some(entries[0].1)
    else DirectTarget(entries[1..], c)
  }

  /** The target of the first transition whose predicate holds. */
  function PredicateTarget(entries: seq<(string, State)>, methods: set<string>, c: char): (r: Option<State>)
    ensures r.Some? <==> exists k :: 0 <= k < |entries| && Matches(methods, entries[k].0, c)
  {
    if entries == [] then None
    else if Matches(methods, entries[0].0, c) then Some(entries[0].1)
    else PredicateTarget(entries[1..], methods, c)
  }

  /** One step: no step from a state without transitions; otherwise the
      symbol's own transition, then the first predicate that holds. */
  function Delta(table: Table, methods: set<string>, s: State, c: char): Option<State> {
    if s !in table then None
    else if DirectTarget(table[s], c).Some? then DirectTarget(table[s], c)
    else PredicateTarget(table[s], methods, c)
  }

  /** The state after the whole input, or None once a step fails. */
  function Run(table: Table, methods: set<string>, s: State, input: string): Option<State>
    decreases |input|
  {
    if input == [] then Some(s)
    else match Delta(table, methods, s, input[0])
      case None => None
      case Some(t) => Run(table, methods, t, input[1..])
  }

  /** `processar_string`'s answer. */
  predicate Accepts(table: Table, methods: set<string>, finals: set<State>, input: string) {
    match Run(table, methods, Q0, input)
    case None => false
    case Some(q) => q in finals
  }

  /** `AFD`: the current state changes; the table, the final states and the
      methods are fixed when the automaton is built. */
  class Automaton {
    var state: State
    const finals: set<State>
    const table: Table
    const methods: set<string>

    constructor(finals: set<State>, table: Table, methods: set<string>)
      ensures state == Q0 && this.finals == finals && this.table == table && this.methods == methods
    {
      state := Q0;
      this.finals := finals;
      this.table := table;
      this.methods := methods;
    }

    /** `resetar`. */
    method Reset()
      modifies this
      ensures state == Q0
    {
      state := Q0;
    }

    /** `transitar`: a failed step leaves the automaton in `Error`. */
    method Transit(c: char) returns (ok: bool)
      modifies this
      ensures ok == Delta(table, methods, old(state), c).Some?
      ensures state == if ok then Delta(table, methods, old(state), c).value else Error
    {
      if state !in table {
        state := Error;
        return false;
      }
      var entries := table[state];
      var direct := DirectTarget(entries, c);
      if direct.Some? {
        state := direct.value;
        return true;
      }
      var k := 0;
      while k < |entries|
        invariant 0 <= k <= |entries| && state == old(state)
        invariant PredicateTarget(entries, methods, c) == PredicateTarget(entries[k..], methods, c)
      {
        assert entries[k..][1..] == entries[k + 1..];
        var (key, next) := entries[k];
        if |key| > 0 && key[0] == '_' && key in methods && Holds(key, c) {
          state := next;
          return true;
        }
        k := k + 1;
      }
      state := Error;
      return false;
    }

    /** `esta_em_estado_final`. */
    predicate InFinalState()
      reads this
    {
      state in finals
    }

    /** `processar_string`: start again from `Q0` and stop at the first
        failed step. */
    method Process(input: string) returns (accepted: bool)
      modifies this
      ensures accepted == Accepts(table, methods, finals, input)
      ensures state == match Run(table, methods, Q0, input) case None => Error case Some(q) => q
    {
      Reset();
      var k := 0;
      while k < |input|
        invariant 0 <= k <= |input|
        invariant Run(table, methods, Q0, input) == Run(table, methods, state, input[k..])
      {
        assert input[k..][1..] == input[k + 1..];
        var ok := Transit(input[k]);
        if !ok {
          return false;
        }
        k := k + 1;
      }
      accepted := InFinalState();
    }
  }

  // ---------------------------------------------------------------------------
  // The three automata

  /** `AFDIdentificador`. */
  const IdentifierTable: Table := map[Q0 := [(LetterOrUnderscore, Q1)], Q1 := [(AlnumOrUnderscore, Q1)]]
  const IdentifierMethods := {LetterOrUnderscore, AlnumOrUnderscore}

  /** `AFDNumeroInteiro`. */
  const IntegerTable: Table := map[Q0 := [(Digit, Q1)], Q1 := [(Digit, Q1)]]
  const IntegerMethods := {Digit}

  /** `AFDNumeroReal`: Q2 is final as soon as the dot is read. */
  const RealTable: Table := map[Q0 := [(Digit, Q1)], Q1 := [(Digit, Q1), (".", Q2)], Q2 := [(Digit, Q2)]]
  const RealMethods := {Digit}

  /** `[a-zA-Z_][a-zA-Z0-9_]*`. */
  predicate IdentifierName(s: string) {
    |s| > 0 && (IsAlpha(s[0]) || s[0] == '_') && forall k :: 1 <= k < |s| ==> IsIdentChar(s[k])
  }

  /** `[0-9]+`. */
  predicate IntegerNumeral(s: string) {
    |s| > 0 && AllDigits(s)
  }

  /** `[0-9]+\.[0-9]*`: digits, a dot, and possibly no digits after it. */
  predicate RealNumeral(s: string) {
    exists p :: 0 < p < |s| && s[p] == '.' && AllDigits(s[..p]) && AllDigits(s[p + 1..])
  }

  lemma IdentifierSteps(c: char)
    ensures Delta(IdentifierTable, IdentifierMethods, Q0, c) == if IsAlpha(c) || c == '_' then Some(Q1) else None
    ensures Delta(IdentifierTable, IdentifierMethods, Q1, c) == if IsIdentChar(c) then Some(Q1) else None
  {
    assert [c] != LetterOrUnderscore && [c] != AlnumOrUnderscore;
  }

  lemma {:induction false} IdentifierTail(s: string)
    ensures Run(IdentifierTable, IdentifierMethods, Q1, s)
      == if forall k :: 0 <= k < |s| ==> IsIdentChar(s[k]) then Some(Q1) else None
  {
    if s != [] {
      IdentifierSteps(s[0]);
      IdentifierTail(s[1..]);
      if !IsIdentChar(s[0]) {
        assert !(forall k :: 0 <= k < |s| ==> IsIdentChar(s[k]));
      } else {
        assert (forall k :: 0 <= k < |s| ==> IsIdentChar(s[k])) <==> (forall k :: 0 <= k < |s[1..]| ==> IsIdentChar(s[1..][k]));
      }
    }
  }

  /** The identifier automaton accepts exactly the identifiers. */
  lemma IdentifierLanguage(s: string)
    ensures Accepts(IdentifierTable, IdentifierMethods, {Q1}, s) <==> IdentifierName(s)
  {
    if s != [] {
      IdentifierSteps(s[0]);
      IdentifierTail(s[1..]);
      assert (forall k :: 1 <= k < |s| ==> IsIdentChar(s[k])) <==> (forall k :: 0 <= k < |s[1..]| ==> IsIdentChar(s[1..][k]));
    }
  }

  lemma IntegerSteps(c: char)
    ensures Delta(IntegerTable, IntegerMethods, Q0, c) == if IsDigit(c) then Some(Q1) else None
    ensures Delta(IntegerTable, IntegerMethods, Q1, c) == if IsDigit(c) then Some(Q1) else None
  {
    assert [c] != Digit;
  }

  lemma {:induction false} IntegerTail(s: string)
    ensures Run(IntegerTable, IntegerMethods, Q1, s) == if AllDigits(s) then Some(Q1) else None
  {
    if s != [] {
      IntegerSteps(s[0]);
      IntegerTail(s[1..]);
      assert AllDigits(s) <==> IsDigit(s[0]) && AllDigits(s[1..]);
    }
  }

  /** The integer automaton accepts exactly the non-empty digit strings. */
  lemma IntegerLanguage(s: string)
    ensures Accepts(IntegerTable, IntegerMethods, {Q1}, s) <==> IntegerNumeral(s)
  {
    if s != [] {
      IntegerSteps(s[0]);
      IntegerTail(s[1..]);
      assert AllDigits(s) <==> IsDigit(s[0]) && AllDigits(s[1..]);
    }
  }

  /** The dot is looked up directly before `_eh_digito` is tried. */
  lemma RealSteps(c: char)
    ensures Delta(RealTable, RealMethods, Q0, c) == if IsDigit(c) then Some(Q1) else None
    ensures Delta(RealTable, RealMethods, Q1, c) == if c == '.' then Some(Q2) else if IsDigit(c) then Some(Q1) else None
    ensures Delta(RealTable, RealMethods, Q2, c) == if IsDigit(c) then Some(Q2) else None
  {
    assert [c] != Digit;
    var e := RealTable[Q1];
    assert e[1..] == [(".", Q2)] && e[1..][1..] == [];
    if c == '.' {
      assert DirectTarget(e[1..], c) == Some(Q2);
    } else {
      assert [c] != ".";
      assert DirectTarget(e, c) == None;
      assert !Matches(RealMethods, ".", c);
    }
  }

  lemma {:induction false} RealFraction(s: string)
    ensures Run(RealTable, RealMethods, Q2, s) == if AllDigits(s) then Some(Q2) else None
  {
    if s != [] {
      RealSteps(s[0]);
      RealFraction(s[1..]);
      assert AllDigits(s) <==> IsDigit(s[0]) && AllDigits(s[1..]);
    }
  }

  /** Digits (possibly none), a dot, digits. */
  predicate DotThenDigits(s: string) {
    exists p :: 0 <= p < |s| && s[p] == '.' && AllDigits(s[..p]) && AllDigits(s[p + 1..])
  }

  lemma DotFirst(s: string)
    requires |s| > 0 && s[0] == '.'
    ensures DotThenDigits(s) <==> AllDigits(s[1..])
  {
    if AllDigits(s[1..]) {
      assert s[..0] == [];
    }
    if DotThenDigits(s) {
      var p :| 0 <= p < |s| && s[p] == '.' && AllDigits(s[..p]) && AllDigits(s[p + 1..]);
      if p > 0 {
        assert s[..p][0] == '.';
      }
    }
  }

  /** A dot at p in the tail is a dot at p + 1 in the whole text. */
  lemma ShiftWitness(s: string, p: nat)
    requires |s| > 0 && IsDigit(s[0]) && p < |s| - 1
    ensures (s[1..][p] == '.' && AllDigits(s[1..][..p]) && AllDigits(s[1..][p + 1..]))
      <==> (s[p + 1] == '.' && AllDigits(s[..p + 1]) && AllDigits(s[p + 2..]))
  {
    assert s[..p + 1] == [s[0]] + s[1..][..p];
    assert s[p + 2..] == s[1..][p + 1..];
  }

  lemma DigitFirstFromTail(s: string)
    requires |s| > 0 && IsDigit(s[0]) && DotThenDigits(s[1..])
    ensures DotThenDigits(s)
  {
    var p :| 0 <= p < |s[1..]| && s[1..][p] == '.' && AllDigits(s[1..][..p]) && AllDigits(s[1..][p + 1..]);
    ShiftWitness(s, p);
  }

  lemma DigitFirstToTail(s: string)
    requires |s| > 0 && IsDigit(s[0]) && DotThenDigits(s)
    ensures DotThenDigits(s[1..])
  {
    var p :| 0 <= p < |s| && s[p] == '.' && AllDigits(s[..p]) && AllDigits(s[p + 1..]);
    ShiftWitness(s, p - 1);
  }

  lemma DigitFirst(s: string)
    requires |s| > 0 && IsDigit(s[0])
    ensures DotThenDigits(s) <==> DotThenDigits(s[1..])
  {
    if DotThenDigits(s[1..]) {
      DigitFirstFromTail(s);
    }
    if DotThenDigits(s) {
      DigitFirstToTail(s);
    }
  }

  lemma OtherFirst(s: string)
    requires |s| > 0 && s[0] != '.' && !IsDigit(s[0])
    ensures !DotThenDigits(s)
  {
  }

  lemma {:induction false} RealWhole(s: string)
    ensures Run(RealTable, RealMethods, Q1, s) == Some(Q2) <==> DotThenDigits(s)
  {
    if s != [] {
      RealSteps(s[0]);
      if s[0] == '.' {
        RealFraction(s[1..]);
        DotFirst(s);
      } else if IsDigit(s[0]) {
        RealWhole(s[1..]);
        DigitFirst(s);
      } else {
        OtherFirst(s);
      }
    }
  }

  lemma RealNumeralSplit(s: string)
    requires |s| > 0
    ensures RealNumeral(s) <==> IsDigit(s[0]) && DotThenDigits(s[1..])
  {
    if RealNumeral(s) {
      var p :| 0 < p < |s| && s[p] == '.' && AllDigits(s[..p]) && AllDigits(s[p + 1..]);
      assert IsDigit(s[..p][0]);
      ShiftWitness(s, p - 1);
    }
    if IsDigit(s[0]) && DotThenDigits(s[1..]) {
      var p :| 0 <= p < |s[1..]| && s[1..][p] == '.' && AllDigits(s[1..][..p]) && AllDigits(s[1..][p + 1..]);
      ShiftWitness(s, p);
    }
  }

  /** The real automaton accepts digits, a dot and any digits: "12." as well
      as "3.14", but never an integer. */
  lemma RealLanguage(s: string)
    ensures Accepts(RealTable, RealMethods, {Q2}, s) <==> RealNumeral(s)
  {
    if s != [] {
      RealSteps(s[0]);
      RealWhole(s[1..]);
      RealNumeralSplit(s);
    }
  }

  // ---------------------------------------------------------------------------
  // Classifying a token

  /** `identificar_tipo_token`: identifier first, then real, then integer. */
  function TokenType(s: string): string {
    if IdentifierName(s) then "identificador"
    else if RealNumeral(s) then "real"
    else if IntegerNumeral(s) then "inteiro"
    else "desconhecido"
  }

  /** The three languages are disjoint, so the order of the tests does not
      matter: each text has the type of the one language it belongs to. */
  lemma TokenTypeExact(s: string)
    ensures TokenType(s) == "identificador" <==> IdentifierName(s)
    ensures TokenType(s) == "real" <==> RealNumeral(s)
    ensures TokenType(s) == "inteiro" <==> IntegerNumeral(s)
    ensures TokenType(s) == "desconhecido" <==> !IdentifierName(s) && !RealNumeral(s) && !IntegerNumeral(s)
  {
    if RealNumeral(s) {
      var p :| 0 < p < |s| && s[p] == '.' && AllDigits(s[..p]) && AllDigits(s[p + 1..]);
      assert s[..p][0] == s[0];
      assert !AllDigits(s);
    }
  }

  /** Without a dot there is no real. */
  lemma NoDotNoReal(s: string)
    requires forall k :: 0 <= k < |s| ==> s[k] != '.'
    ensures !RealNumeral(s)
  {
  }

  /** A text made of digits only is an integer, not a real. */
  lemma DigitsAreInteger(s: string)
    requires |s| > 0 && AllDigits(s)
    ensures TokenType(s) == "inteiro"
  {
    assert !IsAlpha(s[0]) && s[0] != '_';
    NoDotNoReal(s);
  }

  /** Digits, a dot and digits make a real, never an integer. */
  lemma DotMakesReal(s: string, p: nat)
    requires 0 < p < |s| && s[p] == '.' && AllDigits(s[..p]) && AllDigits(s[p + 1..])
    ensures TokenType(s) == "real" && !IntegerNumeral(s)
  {
    assert IsDigit(s[..p][0]);
    assert !IsDigit(s[p]);
  }

  /** The examples of the validator's documentation. */
  lemma IdentifierExamples()
    ensures TokenType("soma") == "identificador"
    ensures !IdentifierName("123abc") && TokenType("123abc") == "desconhecido"
  {
    assert IsAlpha("soma"[0]) && IsIdentChar("soma"[1]) && IsIdentChar("soma"[2]) && IsIdentChar("soma"[3]);
    NoDotNoReal("123abc");
    assert !IsAlpha("123abc"[0]) && "123abc"[0] != '_' && !IsDigit("123abc"[3]);
  }

  lemma IntegerExamples()
    ensures TokenType("123") == "inteiro" && !RealNumeral("123")
  {
    DigitsAreInteger("123");
    NoDotNoReal("123");
  }

  lemma RealExamples()
    ensures !IntegerNumeral("12.5") && TokenType("12.5") == "real"
    ensures TokenType("3.14") == "real"
  {
    assert "12.5"[..2] == "12" && "12.5"[3..] == "5";
    DotMakesReal("12.5", 2);
    assert "3.14"[..1] == "3" && "3.14"[2..] == "14";
    DotMakesReal("3.14", 1);
  }

  /** The real automaton's table also takes a dot with no digit after it,
      which its documented pattern `[0-9]+\.[0-9]+` does not. */
  lemma TrailingDotIsReal()
    ensures TokenType("12.") == "real"
  {
    assert "12."[..2] == "12" && "12."[3..] == "";
    DotMakesReal("12.", 2);
  }

  /** `ValidadorTokensAFD`: one automaton of each kind. */
  class Validator {
    const identifier: Automaton
    const integer: Automaton
    const realNumber: Automaton

    predicate Valid() {
      identifier.table == IdentifierTable && identifier.methods == IdentifierMethods && identifier.finals == {Q1}
      && integer.table == IntegerTable && integer.methods == IntegerMethods && integer.finals == {Q1}
      && realNumber.table == RealTable && realNumber.methods == RealMethods && realNumber.finals == {Q2}
    }

    constructor()
      ensures Valid() && fresh(identifier) && fresh(integer) && fresh(realNumber)
    {
      identifier := new Automaton({Q1}, IdentifierTable, IdentifierMethods);
      integer := new Automaton({Q1}, IntegerTable, IntegerMethods);
      realNumber := new Automaton({Q2}, RealTable, RealMethods);
    }

    /** `eh_identificador_valido`. */
    method IsIdentifier(text: string) returns (b: bool)
      requires Valid()
      modifies identifier
      ensures b == IdentifierName(text)
    {
      b := identifier.Process(text);
      IdentifierLanguage(text);
    }

    /** `eh_numero_inteiro_valido`. */
    method IsInteger(text: string) returns (b: bool)
      requires Valid()
      modifies integer
      ensures b == IntegerNumeral(text)
    {
      b := integer.Process(text);
      IntegerLanguage(text);
    }

    /** `eh_numero_real_valido`. */
    method IsReal(text: string) returns (b: bool)
      requires Valid()
      modifies realNumber
      ensures b == RealNumeral(text)
    {
      b := realNumber.Process(text);
      RealLanguage(text);
    }

    /** `identificar_tipo_token`. */
    method Classify(text: string) returns (kind: string)
      requires Valid()
      modifies identifier, integer, realNumber
      ensures kind == TokenType(text)
    {
      var b := IsIdentifier(text);
      if b {
        return "identificador";
      }
      b := IsReal(text);
      if b {
        return "real";
      }
      b := IsInteger(text);
      if b {
        return "inteiro";
      }
      return "desconhecido";
    }
  }
}
