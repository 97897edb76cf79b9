/**
 * Concrete expressions, from the repository's unit test and from the edge cases of evaluate,
 * run through the model: text to parts, parts to a value or an error. Each proof walks the
 * loops of the source one step at a time.
 */
module Examples {
  import opened Results
  import opened Parts
  import opened Parser
  import opened Evaluator
  import opened Expressions

  const NoVariables: map<string, real> := map[]

  // ---------------------------------------------------------------------------------------
  // Steps of parse

  /** The state of parseSimple after a step, field by field. */
  predicate At(r: Result<Simple, ParseError>, parts: seq<Part>, onHold: Option<string>, last: Option<Part>) {
    r.Ok? && r.value.parts == parts && r.value.onHold == onHold && r.value.last == last
  }

  /** An operator symbol on its own is read as that operator. */
  lemma ClassifySymbol(op: OperatorType)
    ensures Classify(Word([Symbol(op)])) == AsPart(Operator(op))
  {
    SymbolRoundTrip(op);
    assert [Symbol(op)] != ",";
  }

  /** A letter is no operator symbol. */
  predicate IsLetter(c: char) {
    'a' <= c <= 'z' || 'A' <= c <= 'Z'
  }

  /** A word that is neither a comma nor a single non-letter is read as a name. */
  lemma ClassifyName(t: string)
    requires t != "," && (|t| == 1 ==> IsLetter(t[0]))
    ensures Classify(Word(t)) == AsName(t)
  {
    if |t| == 1 {
      forall op ensures Symbol(op) != t[0] {
        match op
        case Power =>
        case Multiply =>
        case Divide =>
        case Add =>
        case Subtract =>
      }
      assert ValueOfSymbol(t[0]).None?;
      assert t[0] !in OperatorCharacters();
    }
  }

  /** A run that starts with a number where the last checked part allows one. */
  lemma {:induction false} NumberRun(st: Simple, atoms: seq<Atom>)
    requires atoms != [] && atoms[0].Numeral?
    requires st.onHold.None? && (st.last.None? || NumberKind in ValidNextParts(st.last.value))
    ensures SimpleRun(st, atoms)
         == SimpleRun(Simple(st.parts + [Number(atoms[0].value)], None, Some(Number(atoms[0].value))), atoms[1..])
  {
  }

  /** A run that starts with an operator symbol where the last checked part allows one. */
  lemma {:induction false} SymbolRun(st: Simple, atoms: seq<Atom>, op: OperatorType)
    requires atoms != [] && atoms[0] == Word([Symbol(op)])
    requires st.onHold.None? && (st.last.None? || OperatorKind in ValidNextParts(st.last.value))
    ensures SimpleRun(st, atoms) == SimpleRun(Simple(st.parts + [Operator(op)], None, Some(Operator(op))), atoms[1..])
  {
    ClassifySymbol(op);
    assert Predecessor(st) == st.last;
    assert At(SimpleStep(st, atoms[0]), st.parts + [Operator(op)], None, Some(Operator(op)));
  }

  /** A run that starts with an operator symbol after a held name: the name is released first. */
  lemma {:induction false} HeldSymbolRun(st: Simple, atoms: seq<Atom>, op: OperatorType, name: string)
    requires atoms != [] && atoms[0] == Word([Symbol(op)]) && st.onHold == Some(name)
    ensures SimpleRun(st, atoms) == SimpleRun(Simple(st.parts + [Variable(name), Operator(op)], None, Some(Operator(op))), atoms[1..])
  {
    ClassifySymbol(op);
    assert Predecessor(st) == Some(Variable(name));
    assert OperatorKind in ValidNextParts(Variable(name));
    assert At(SimpleStep(st, atoms[0]), st.parts + [Variable(name)] + [Operator(op)], None, Some(Operator(op)));
    assert st.parts + [Variable(name)] + [Operator(op)] == st.parts + [Variable(name), Operator(op)];
  }

  /** A run that starts with a name, with nothing held and no number before it: the name is held. */
  lemma {:induction false} NameRun(st: Simple, atoms: seq<Atom>, t: string)
    requires atoms != [] && atoms[0] == Word(t)
    requires t != "," && (|t| == 1 ==> IsLetter(t[0]))
    requires st.onHold.None? && !(st.last.Some? && st.last.value.Number?)
    ensures SimpleRun(st, atoms) == SimpleRun(Simple(st.parts, Some(t), st.last), atoms[1..])
  {
    ClassifyName(t);
  }

  /** A run of parseSimple is its first step, then the run of the rest. */
  lemma RunStep(st: Simple, atoms: seq<Atom>)
    requires atoms != [] && SimpleStep(st, atoms[0]).Ok?
    ensures SimpleRun(st, atoms) == SimpleRun(SimpleStep(st, atoms[0]).value, atoms[1..])
  {
  }

  /** A run of parse is its first step, then the run of the rest. */
  lemma ParseRunStep(st: Stacked, tokens: seq<Token>)
    requires tokens != [] && ParseStep(st, tokens[0]).Ok?
    ensures ParseRun(st, tokens) == ParseRun(ParseStep(st, tokens[0]).value, tokens[1..])
  {
  }

  /** A text whose first token starts with a visible character is not blank. */
  lemma VisibleStart(tokens: seq<Token>)
    requires tokens != [] && TokenText(tokens[0]) != [] && TokenText(tokens[0])[0] > ' '
    ensures !IsBlank(Text(tokens))
  {
    assert Text(tokens)[0] == TokenText(tokens[0])[0];
  }

  /** parse of a single segment is parseSimple of its atoms, when the result can end an expression. */
  lemma ParseOneSegment(raw: string, atoms: seq<Atom>, parts: seq<Part>)
    requires raw != [] && raw[0] > ' '
    requires SimpleParts(atoms) == Ok(parts) && parts != [] && IsComplete(parts[|parts| - 1])
    ensures Parsed([Segment(raw, atoms)]) == Ok(parts)
  {
    var tokens := [Segment(raw, atoms)];
    VisibleStart(tokens);
    assert tokens[1..] == [];
    var empty: seq<Part> := [];
    assert empty + parts == parts;
    assert ParseStep(ParseStart, tokens[0]) == Ok(Stacked([], parts));
    assert ParseRun(Stacked([], parts), []) == Ok(Stacked([], parts));
    assert ParseRun(ParseStart, tokens) == Ok(Stacked([], parts));
    assert Finish(Stacked([], parts)) == Ok(parts);
  }

  /** parse of a single segment whose parts end on an operator fails as incomplete. */
  lemma ParseOneSegmentIncomplete(raw: string, atoms: seq<Atom>, parts: seq<Part>)
    requires raw != [] && raw[0] > ' '
    requires SimpleParts(atoms) == Ok(parts) && parts != [] && !IsComplete(parts[|parts| - 1])
    ensures Parsed([Segment(raw, atoms)]) == Err(IncompleteExpression)
  {
    var tokens := [Segment(raw, atoms)];
    VisibleStart(tokens);
    assert tokens[1..] == [];
    var empty: seq<Part> := [];
    assert empty + parts == parts;
    assert ParseStep(ParseStart, tokens[0]) == Ok(Stacked([], parts));
    assert ParseRun(Stacked([], parts), []) == Ok(Stacked([], parts));
    assert ParseRun(ParseStart, tokens) == Ok(Stacked([], parts));
  }

  // ---------------------------------------------------------------------------------------
  // parse

  /** The atoms of "1 + 1 * 2". */
  const SimpleAtoms := [Numeral(1.0), Word("+"), Numeral(1.0), Word("*"), Numeral(2.0)]

  /** "1 + 1 * 2": one segment of five atoms, read as five parts. */
  lemma ParseSimpleText()
    ensures Parsed([Segment("1 + 1 * 2", SimpleAtoms)])
         == Ok([Number(1.0), Operator(Add), Number(1.0), Operator(Multiply), Number(2.0)])
  {
    SimpleTextParts();
    ParseOneSegment("1 + 1 * 2", SimpleAtoms, [Number(1.0), Operator(Add), Number(1.0), Operator(Multiply), Number(2.0)]);
  }

  lemma SimpleTextParts()
    ensures SimpleParts(SimpleAtoms) == Ok([Number(1.0), Operator(Add), Number(1.0), Operator(Multiply), Number(2.0)])
  {
    SimpleTextOnePlus();
    SimpleTextOneTimes();
    SimpleTextTwo();
  }

  /** "1 +" */
  lemma SimpleTextOnePlus()
    ensures SimpleRun(SimpleStart, SimpleAtoms) == SimpleRun(Simple([Number(1.0), Operator(Add)], None, Some(Operator(Add))), SimpleAtoms[2..])
  {
    var a0 := SimpleAtoms;
    var s1 := Simple([] + [Number(1.0)], None, Some(Number(1.0)));
    assert a0[1..][0] == Word([Symbol(Add)]);
    NumberRun(SimpleStart, a0);
    SymbolRun(s1, a0[1..], Add);
    assert a0[1..][1..] == a0[2..];
    assert s1.parts + [Operator(Add)] == [Number(1.0), Operator(Add)];
  }

  /** " 1 *" */
  lemma SimpleTextOneTimes()
    ensures SimpleRun(Simple([Number(1.0), Operator(Add)], None, Some(Operator(Add))), SimpleAtoms[2..])
         == SimpleRun(Simple([Number(1.0), Operator(Add), Number(1.0), Operator(Multiply)], None, Some(Operator(Multiply))), SimpleAtoms[4..])
  {
    SimpleTextSecondOne();
    SimpleTextTimes();
  }

  /** " 1" */
  lemma SimpleTextSecondOne()
    ensures SimpleRun(Simple([Number(1.0), Operator(Add)], None, Some(Operator(Add))), SimpleAtoms[2..])
         == SimpleRun(Simple([Number(1.0), Operator(Add), Number(1.0)], None, Some(Number(1.0))), SimpleAtoms[3..])
  {
    var a2 := SimpleAtoms[2..];
    var s2 := Simple([Number(1.0), Operator(Add)], None, Some(Operator(Add)));
    assert a2[0] == Numeral(1.0);
    NumberRun(s2, a2);
    assert a2[1..] == SimpleAtoms[3..];
    assert s2.parts + [Number(1.0)] == [Number(1.0), Operator(Add), Number(1.0)];
  }

  /** " *" */
  lemma SimpleTextTimes()
    ensures SimpleRun(Simple([Number(1.0), Operator(Add), Number(1.0)], None, Some(Number(1.0))), SimpleAtoms[3..])
         == SimpleRun(Simple([Number(1.0), Operator(Add), Number(1.0), Operator(Multiply)], None, Some(Operator(Multiply))), SimpleAtoms[4..])
  {
    var a3 := SimpleAtoms[3..];
    var s3 := Simple([Number(1.0), Operator(Add), Number(1.0)], None, Some(Number(1.0)));
    assert a3[0] == Word([Symbol(Multiply)]);
    SymbolRun(s3, a3, Multiply);
    assert a3[1..] == SimpleAtoms[4..];
    assert s3.parts + [Operator(Multiply)] == [Number(1.0), Operator(Add), Number(1.0), Operator(Multiply)];
  }

  /** " 2" */
  lemma SimpleTextTwo()
    ensures SimpleRun(Simple([Number(1.0), Operator(Add), Number(1.0), Operator(Multiply)], None, Some(Operator(Multiply))), SimpleAtoms[4..])
         == Ok(Simple([Number(1.0), Operator(Add), Number(1.0), Operator(Multiply), Number(2.0)], None, Some(Number(2.0))))
  {
    var a4 := SimpleAtoms[4..];
    var s4 := Simple([Number(1.0), Operator(Add), Number(1.0), Operator(Multiply)], None, Some(Operator(Multiply)));
    assert a4 == [Numeral(2.0)];
    NumberRun(s4, a4);
    assert a4[1..] == [];
    assert s4.parts + [Number(2.0)] == [Number(1.0), Operator(Add), Number(1.0), Operator(Multiply), Number(2.0)];
  }

  /** The tokens of "cos(0) + 1". */
  const CallTokens := [Segment("cos", [Word("cos")]), Open, Segment("0", [Numeral(0.0)]), Close, Segment(" + 1", [Word("+"), Numeral(1.0)])]

  /** "cos(0) + 1": a name directly before a parenthesis becomes a call over the inner parts. */
  lemma ParseFunctionCall()
    ensures Parsed(CallTokens) == Ok([Function("cos", [Expression([Number(0.0)])]), Operator(Add), Number(1.0)])
  {
    var parts := [Function("cos", [Expression([Number(0.0)])]), Operator(Add), Number(1.0)];
    CallOpens();
    CallCloses();
    CallEnds();
    VisibleStart(CallTokens);
    assert Finish(Stacked([], parts)) == Ok(parts);
  }

  /** "cos(": the name is stacked, to become the function when the parenthesis closes. */
  lemma CallOpens()
    ensures ParseRun(ParseStart, CallTokens) == ParseRun(Stacked([[Variable("cos")]], []), CallTokens[2..])
  {
    var tokens := CallTokens;
    LoneName("cos");
    var st1 := ParseStep(ParseStart, tokens[0]).value;
    assert st1.stack == [] && st1.current == [Variable("cos")];
    var st2 := ParseStep(st1, tokens[1]).value;
    assert st2.stack == [[Variable("cos")]] && st2.current == [];
    ParseRunStep(ParseStart, tokens); ParseRunStep(st1, tokens[1..]);
    assert tokens[1..][1..] == tokens[2..];
  }

  /** "0)": the inner parts close into the call. */
  lemma CallCloses()
    ensures ParseRun(Stacked([[Variable("cos")]], []), CallTokens[2..])
         == ParseRun(Stacked([], [Function("cos", [Expression([Number(0.0)])])]), CallTokens[4..])
  {
    var tokens := CallTokens[2..];
    assert tokens == [Segment("0", [Numeral(0.0)]), Close, Segment(" + 1", [Word("+"), Numeral(1.0)])];
    ZeroSegment();
    CloseCosine();
    var st2 := Stacked([[Variable("cos")]], []);
    var st3 := ParseStep(st2, tokens[0]).value;
    assert st3.stack == [[Variable("cos")]] && st3.current == [Number(0.0)];
    var st4 := ParseStep(st3, tokens[1]).value;
    assert st4.stack == [] && st4.current == [Function("cos", [Expression([Number(0.0)])])];
    ParseRunStep(st2, tokens); ParseRunStep(st3, tokens[1..]);
    assert tokens[1..][1..] == CallTokens[4..];
  }

  /** " + 1" after the call. */
  lemma CallEnds()
    ensures ParseRun(Stacked([], [Function("cos", [Expression([Number(0.0)])])]), CallTokens[4..])
         == Ok(Stacked([], [Function("cos", [Expression([Number(0.0)])]), Operator(Add), Number(1.0)]))
  {
    var tokens := CallTokens[4..];
    assert tokens == [Segment(" + 1", [Word("+"), Numeral(1.0)])];
    PlusOne();
    var call := Function("cos", [Expression([Number(0.0)])]);
    var st4 := Stacked([], [call]);
    var st5 := ParseStep(st4, tokens[0]).value;
    assert [call] + [Operator(Add), Number(1.0)] == [call, Operator(Add), Number(1.0)];
    assert st5.stack == [] && st5.current == [call, Operator(Add), Number(1.0)];
    ParseRunStep(st4, tokens);
    assert tokens[1..] == [];
  }

  /** A name alone is held and released as a Variable. */
  lemma LoneName(t: string)
    requires t != "," && (|t| == 1 ==> IsLetter(t[0]))
    ensures SimpleParts([Word(t)]) == Ok([Variable(t)])
  {
    NameRun(SimpleStart, [Word(t)], t);
    assert [Word(t)][1..] == [];
    var empty: seq<Part> := [];
    assert empty + [Variable(t)] == [Variable(t)];
  }

  lemma ZeroSegment()
    ensures SimpleParts([Numeral(0.0)]) == Ok([Number(0.0)])
  {
    NumberRun(SimpleStart, [Numeral(0.0)]);
    assert [Numeral(0.0)][1..] == [];
    var empty: seq<Part> := [];
    assert empty + [Number(0.0)] == [Number(0.0)];
  }

  /** The segment " + 1": an operator may open a segment. */
  lemma PlusOne()
    ensures SimpleParts([Word("+"), Numeral(1.0)]) == Ok([Operator(Add), Number(1.0)])
  {
    var a0 := [Word("+"), Numeral(1.0)];
    var s1 := Simple([] + [Operator(Add)], None, Some(Operator(Add)));
    SymbolRun(SimpleStart, a0, Add);
    NumberRun(s1, a0[1..]);
    assert a0[1..][1..] == [];
    assert s1.parts + [Number(1.0)] == [Operator(Add), Number(1.0)];
  }

  lemma CloseCosine()
    ensures CloseInto([Variable("cos")], [Number(0.0)]) == [Function("cos", [Expression([Number(0.0)])])]
  {
    SegmentsOfCommaFree([Number(0.0)]);
    assert AsExpressions([[Number(0.0)]]) == [Expression([Number(0.0)])];
    assert DropEmpty([Expression([Number(0.0)])]) == [Expression([Number(0.0)])];
  }

  /** "2 x" multiplies implicitly; "x 2" is refused. */
  lemma ParseImplicitProducts()
    ensures Parsed([Segment("2 x", [Numeral(2.0), Word("x")])]) == Ok([Number(2.0), Operator(Multiply), Variable("x")])
    ensures Parsed([Segment("x 2", [Word("x"), Numeral(2.0)])]) == Err(VariableBeforeNumber)
  {
    ImplicitProductParts();
    ParseOneSegment("2 x", [Numeral(2.0), Word("x")], [Number(2.0), Operator(Multiply), Variable("x")]);
    VariableBeforeNumberParts();
    VisibleStart([Segment("x 2", [Word("x"), Numeral(2.0)])]);
  }

  /** A name after a number: the MULTIPLY is inserted, and the number stays the last checked part. */
  lemma ImplicitProductParts()
    ensures SimpleParts([Numeral(2.0), Word("x")]) == Ok([Number(2.0), Operator(Multiply), Variable("x")])
  {
    var a0 := [Numeral(2.0), Word("x")];
    var s1 := Simple([] + [Number(2.0)], None, Some(Number(2.0)));
    NumberRun(SimpleStart, a0);
    ClassifyName("x");
    RunStep(s1, a0[1..]);
    assert a0[1..][1..] == [];
    assert s1.parts + [Operator(Multiply), Variable("x")] == [Number(2.0), Operator(Multiply), Variable("x")];
  }

  /** A number after a held name is refused. */
  lemma VariableBeforeNumberParts()
    ensures SimpleParts([Word("x"), Numeral(2.0)]) == Err(VariableBeforeNumber)
  {
    var a0 := [Word("x"), Numeral(2.0)];
    NameRun(SimpleStart, a0, "x");
    assert a0[1..][0] == Numeral(2.0);
  }

  /** "1 2": two numbers in a row are refused by the successor check. */
  lemma ParseAdjacentNumbers()
    ensures Parsed([Segment("1 2", [Numeral(1.0), Numeral(2.0)])]) == Err(UnexpectedToken(NumberKind))
  {
    var atoms := [Numeral(1.0), Numeral(2.0)];
    assert At(SimpleStep(SimpleStart, atoms[0]), [Number(1.0)], None, Some(Number(1.0)));
    RunStep(SimpleStart, atoms);
    assert atoms[1..] == [Numeral(2.0)];
    assert SimpleParts(atoms) == Err(UnexpectedToken(NumberKind));
    VisibleStart([Segment("1 2", atoms)]);
  }

  /** ")" alone and "(" alone fail; a blank text is the empty expression. */
  lemma ParseFailures()
    ensures Parsed([Close]) == Err(IllegalClosingParenthesis)
    ensures Parsed([Open]) == Err(IncompleteExpression)
    ensures Parsed([Segment("  ", [])]) == Ok([])
  {
    VisibleStart([Close]);
    VisibleStart([Open]);
    assert ParseRun(ParseStart, [Open]).value.stack != [] by {
      ParseRunStep(ParseStart, [Open]);
      assert [Open][1..] == [];
    }
    assert Text([Segment("  ", [])]) == "  " by {
      assert [Segment("  ", [])][1..] == [];
    }
  }

  /** "1 +" fails: an expression may not end on an operator. */
  lemma ParseDanglingOperator()
    ensures Parsed([Segment("1 +", [Numeral(1.0), Word("+")])]) == Err(IncompleteExpression)
  {
    DanglingParts();
    ParseOneSegmentIncomplete("1 +", [Numeral(1.0), Word("+")], [Number(1.0), Operator(Add)]);
  }

  lemma DanglingParts()
    ensures SimpleParts([Numeral(1.0), Word("+")]) == Ok([Number(1.0), Operator(Add)])
  {
    var a0 := [Numeral(1.0), Word("+")];
    var s1 := Simple([] + [Number(1.0)], None, Some(Number(1.0)));
    NumberRun(SimpleStart, a0);
    SymbolRun(s1, a0[1..], Add);
    assert a0[1..][1..] == [];
    assert s1.parts + [Operator(Add)] == [Number(1.0), Operator(Add)];
  }

  // ---------------------------------------------------------------------------------------
  // Steps of evaluate

  /** The two lists of evaluate after a step, field by field. */
  predicate Is(r: Result<Lists, EvalError>, vals: seq<real>, ops: seq<seq<OperatorType>>) {
    r.Ok? && r.value.evaluated == vals && r.value.operators == ops
  }

  lemma GroupOperand(parts: seq<Part>, p: Part, v: real, vars: map<string, real>, lib: Library, rev: Revision)
    requires Group(parts, vars, lib, rev).Ok? && IsEvaluable(p) && PartValue(p, vars, lib, rev) == Ok(v)
    ensures Is(Group(parts + [p], vars, lib, rev), Group(parts, vars, lib, rev).value.evaluated + [v], Group(parts, vars, lib, rev).value.operators)
  {
    var all := parts + [p];
    assert all[..|all| - 1] == parts && all[|all| - 1] == p;
  }

  lemma GroupOperator(parts: seq<Part>, op: OperatorType, vars: map<string, real>, lib: Library, rev: Revision)
    requires Group(parts, vars, lib, rev).Ok?
    ensures Group(parts + [Operator(op)], vars, lib, rev) == AddOperator(Group(parts, vars, lib, rev).value, op)
  {
    var all := parts + [Operator(op)];
    assert all[..|all| - 1] == parts && all[|all| - 1] == Operator(op);
  }

  /** One more operand, on lists already known field by field. */
  lemma OperandIs(parts: seq<Part>, p: Part, v: real, vars: map<string, real>, lib: Library,
                  vals: seq<real>, ops: seq<seq<OperatorType>>, rev: Revision)
    requires Is(Group(parts, vars, lib, rev), vals, ops) && IsEvaluable(p) && PartValue(p, vars, lib, rev) == Ok(v)
    ensures Is(Group(parts + [p], vars, lib, rev), vals + [v], ops)
  {
    GroupOperand(parts, p, v, vars, lib, rev);
  }

  /** One more operator after a later operand, on lists already known field by field. */
  lemma NextGapIs(parts: seq<Part>, op: OperatorType, vars: map<string, real>, lib: Library,
                  vals: seq<real>, ops: seq<seq<OperatorType>>, rev: Revision)
    requires Is(Group(parts, vars, lib, rev), vals, ops) && |ops| == |vals| >= 1
    ensures Is(Group(parts + [Operator(op)], vars, lib, rev), vals, ops + [[op]])
  {
    GroupOperator(parts, op, vars, lib, rev);
    NextGap(Group(parts, vars, lib, rev).value, op);
  }

  /** An operator after the first operand opens gaps 0 and 1. */
  lemma FirstGap(l: Lists, op: OperatorType)
    requires l.operators == [] && |l.evaluated| == 1
    ensures Is(AddOperator(l, op), l.evaluated, [[], [op]])
  {
    var empty: seq<OperatorType> := [];
    assert seq(2, _ => empty) == [empty, empty];
    var padded := Pad(l.operators, 2);
    assert padded == [[], []];
    assert padded[1] + [op] == [op];
    assert padded[1 := [op]] == [[], [op]];
  }

  /** An operator after a later operand opens the next gap. */
  lemma NextGap(l: Lists, op: OperatorType)
    requires SignsValid(l.operators) && |l.operators| == |l.evaluated| >= 1
    ensures Is(AddOperator(l, op), l.evaluated, l.operators + [[op]])
  {
    var empty: seq<OperatorType> := [];
    assert seq(1, _ => empty) == [empty];
    var n := |l.evaluated|;
    var padded := Pad(l.operators, n + 1);
    assert padded == l.operators + [[]];
    assert padded[n] + [op] == [op];
    assert padded[n := [op]] == l.operators + [[op]];
  }

  /** A sign before the first operand. */
  lemma LeadingSign(l: Lists, op: OperatorType)
    requires l.operators == [] && l.evaluated == [] && Modifier(op).Some?
    ensures Is(AddOperator(l, op), [], [[op]])
  {
    var empty: seq<OperatorType> := [];
    assert seq(1, _ => empty) == [empty];
    var padded := Pad(l.operators, 1);
    assert padded == [[]];
    assert padded[0] + [op] == [op];
    assert padded[0 := [op]] == [[op]];
  }

  /** The three passes of evaluate, one after the other. */
  lemma ThreeTiers(l: Lists, lib: Library, rev: Revision)
    requires SignsValid(l.operators)
    ensures Tiers(GetByOrder(), l, lib, rev)
         == (var a :- PassFrom({Power}, 0, l, lib, rev);
             var b :- PassFrom({Multiply, Divide}, 0, a, lib, rev);
             PassFrom({Add, Subtract}, 0, b, lib, rev))
  {
    var t := GetByOrder();
    assert t[0] == {Power} && t[1..][0] == {Multiply, Divide} && t[1..][1..][0] == {Add, Subtract};
    assert t[1..][1..][1..] == [];
    var a := PassFrom({Power}, 0, l, lib, rev);
    if a.Ok? {
      assert Tiers(t, l, lib, rev) == Tiers(t[1..], a.value, lib, rev);
      var b := PassFrom({Multiply, Divide}, 0, a.value, lib, rev);
      if b.Ok? {
        assert Tiers(t[1..], a.value, lib, rev) == Tiers(t[1..][1..], b.value, lib, rev);
        var c := PassFrom({Add, Subtract}, 0, b.value, lib, rev);
        if c.Ok? {
          assert Tiers(t[1..][1..], b.value, lib, rev) == Tiers(t[1..][1..][1..], c.value, lib, rev);
        }
      }
    }
  }

  // ---------------------------------------------------------------------------------------
  // evaluate

  /** "1 + 1 * 2" is 3: the product is taken first. */
  lemma EvaluateSimple(lib: Library, rev: Revision)
    ensures Value([Number(1.0), Operator(Add), Number(1.0), Operator(Multiply), Number(2.0)], NoVariables, lib, rev) == Ok(3.0)
  {
    GroupSimple(lib, rev);
    ReduceSimple(Group([Number(1.0), Operator(Add), Number(1.0), Operator(Multiply), Number(2.0)], NoVariables, lib, rev).value, lib, rev);
  }

  lemma GroupSimple(lib: Library, rev: Revision)
    ensures Is(Group([Number(1.0), Operator(Add), Number(1.0), Operator(Multiply), Number(2.0)], NoVariables, lib, rev),
               [1.0, 1.0, 2.0], [[], [Add], [Multiply]])
  {
    var p4 := [Number(1.0), Operator(Add), Number(1.0), Operator(Multiply)];
    GroupOnePlusOneTimes(lib, rev);
    OperandIs(p4, Number(2.0), 2.0, NoVariables, lib, [1.0, 1.0], [[], [Add], [Multiply]], rev);
    assert [1.0, 1.0] + [2.0] == [1.0, 1.0, 2.0];
    assert p4 + [Number(2.0)] == [Number(1.0), Operator(Add), Number(1.0), Operator(Multiply), Number(2.0)];
  }

  /** "1 + 1 *" */
  lemma GroupOnePlusOneTimes(lib: Library, rev: Revision)
    ensures Is(Group([Number(1.0), Operator(Add), Number(1.0), Operator(Multiply)], NoVariables, lib, rev),
               [1.0, 1.0], [[], [Add], [Multiply]])
  {
    var v := NoVariables;
    var p2 := [Number(1.0), Operator(Add)];
    var p3 := p2 + [Number(1.0)];
    GroupNumberThen(1.0, Add, lib, rev);
    OperandIs(p2, Number(1.0), 1.0, v, lib, [1.0], [[], [Add]], rev);
    assert [1.0] + [1.0] == [1.0, 1.0];
    NextGapIs(p3, Multiply, v, lib, [1.0, 1.0], [[], [Add]], rev);
    assert [[], [Add]] + [[Multiply]] == [[], [Add], [Multiply]];
    assert p3 + [Operator(Multiply)] == [Number(1.0), Operator(Add), Number(1.0), Operator(Multiply)];
  }

  lemma ReduceSimple(l: Lists, lib: Library, rev: Revision)
    requires l.evaluated == [1.0, 1.0, 2.0] && l.operators == [[], [Add], [Multiply]]
    ensures Reduce(l, lib, rev) == Ok(3.0)
  {
    ThreeTiers(l, lib, rev);
    SimpleNoPower(l, lib, rev);
    SimpleProduct(l, lib, rev);
    SimpleSum(PassFrom({Multiply, Divide}, 0, l, lib, rev).value, lib, rev);
  }

  lemma SimpleNoPower(l: Lists, lib: Library, rev: Revision)
    requires l.evaluated == [1.0, 1.0, 2.0] && l.operators == [[], [Add], [Multiply]]
    ensures PassFrom({Power}, 0, l, lib, rev) == Ok(l)
  {
    assert PassFrom({Power}, 2, l, lib, rev) == Ok(l);
    assert PassFrom({Power}, 1, l, lib, rev) == Ok(l);
  }

  /** "1 + 1 * 2" after the product: 1 + 2. */
  lemma SimpleProduct(l: Lists, lib: Library, rev: Revision)
    requires l.evaluated == [1.0, 1.0, 2.0] && l.operators == [[], [Add], [Multiply]]
    ensures Is(PassFrom({Multiply, Divide}, 0, l, lib, rev), [1.0, 2.0], [[], [Add]])
  {
    var m := ReduceAt(l, 1, lib, rev);
    assert m.evaluated == [1.0, 2.0] && m.operators == [[], [Add]];
    assert PassFrom({Multiply, Divide}, 1, m, lib, rev) == Ok(m);
    assert PassFrom({Multiply, Divide}, 1, l, lib, rev) == Ok(m);
  }

  lemma SimpleSum(m: Lists, lib: Library, rev: Revision)
    requires m.evaluated == [1.0, 2.0] && m.operators == [[], [Add]]
    ensures PassFrom({Add, Subtract}, 0, m, lib, rev).Ok?
    ensures PassFrom({Add, Subtract}, 0, m, lib, rev).value.evaluated == [3.0]
  {
    var f := ReduceAt(m, 0, lib, rev);
    assert f.evaluated == [3.0];
  }

  /** "cos(0) + 1" is 2 when the library's cosine of 0 is 1. */
  lemma EvaluateFunctionCall(lib: Library, cos: seq<real> -> real, rev: Revision)
    requires lib.functions("cos", 1) == Some(cos) && cos([0.0]) == 1.0
    ensures Value([Function("cos", [Expression([Number(0.0)])]), Operator(Add), Number(1.0)], NoVariables, lib, rev) == Ok(2.0)
  {
    GroupFunctionCall(lib, cos, rev);
    ReduceOnePlusOne(Group([Function("cos", [Expression([Number(0.0)])]), Operator(Add), Number(1.0)], NoVariables, lib, rev).value, lib, rev);
  }

  /** An operator after the first and only operand, on lists already known field by field. */
  lemma FirstGapIs(parts: seq<Part>, op: OperatorType, vars: map<string, real>, lib: Library,
                   vals: seq<real>, rev: Revision)
    requires Is(Group(parts, vars, lib, rev), vals, []) && |vals| == 1
    ensures Is(Group(parts + [Operator(op)], vars, lib, rev), vals, [[], [op]])
  {
    GroupOperator(parts, op, vars, lib, rev);
    FirstGap(Group(parts, vars, lib, rev).value, op);
  }

  /** The call alone groups to its value. */
  lemma GroupCall(lib: Library, cos: seq<real> -> real, rev: Revision)
    requires lib.functions("cos", 1) == Some(cos) && cos([0.0]) == 1.0
    ensures Is(Group([Function("cos", [Expression([Number(0.0)])])], NoVariables, lib, rev), [1.0], [])
  {
    var call := Function("cos", [Expression([Number(0.0)])]);
    var empty: seq<Part> := [];
    CallOfOne("cos", Number(0.0), 0.0, NoVariables, lib, cos, 1.0, rev);
    GroupOperand(empty, call, 1.0, NoVariables, lib, rev);
    assert empty + [call] == [call];
  }

  lemma GroupFunctionCall(lib: Library, cos: seq<real> -> real, rev: Revision)
    requires lib.functions("cos", 1) == Some(cos) && cos([0.0]) == 1.0
    ensures Is(Group([Function("cos", [Expression([Number(0.0)])]), Operator(Add), Number(1.0)], NoVariables, lib, rev), [1.0, 1.0], [[], [Add]])
  {
    var call := Function("cos", [Expression([Number(0.0)])]);
    GroupCall(lib, cos, rev);
    FirstGapIs([call], Add, NoVariables, lib, [1.0], rev);
    assert [call] + [Operator(Add)] == [call, Operator(Add)];
    OperandIs([call, Operator(Add)], Number(1.0), 1.0, NoVariables, lib, [1.0], [[], [Add]], rev);
    assert [call, Operator(Add)] + [Number(1.0)] == [call, Operator(Add), Number(1.0)];
  }

  /** A call on one operand is the library function on that operand's value. */
  lemma CallOfOne(name: string, arg: Part, x: real, vars: map<string, real>, lib: Library,
                  f: seq<real> -> real, y: real, rev: Revision)
    requires IsEvaluable(arg) && PartValue(arg, vars, lib, rev) == Ok(x)
    requires lib.functions(name, 1) == Some(f) && f([x]) == y
    ensures PartValue(Function(name, [Expression([arg])]), vars, lib, rev) == Ok(y)
  {
    var es := [Expression([arg])];
    ValueOfOne(arg, x, vars, lib, rev);
    assert es[..|es| - 1] == [] && es[|es| - 1].parts == [arg];
    assert ArgValues(es[..|es| - 1], vars, lib, rev) == Ok([]);
    assert [] + [x] == [x];
    assert ArgValues(es, vars, lib, rev) == Ok([x]);
  }

  /** A lone operand without signs is its own value. */
  lemma ValueOfOne(arg: Part, x: real, vars: map<string, real>, lib: Library, rev: Revision)
    requires IsEvaluable(arg) && PartValue(arg, vars, lib, rev) == Ok(x)
    ensures Value([arg], vars, lib, rev) == Ok(x)
  {
    var empty: seq<Part> := [];
    GroupOperand(empty, arg, x, vars, lib, rev);
    assert empty + [arg] == [arg];
  }

  lemma ReduceOnePlusOne(l: Lists, lib: Library, rev: Revision)
    requires l.evaluated == [1.0, 1.0] && l.operators == [[], [Add]]
    ensures Reduce(l, lib, rev) == Ok(2.0)
  {
    ThreeTiers(l, lib, rev);
    assert PassFrom({Power}, 1, l, lib, rev) == Ok(l);
    assert PassFrom({Multiply, Divide}, 1, l, lib, rev) == Ok(l);
    var f := ReduceAt(l, 0, lib, rev);
    assert f.evaluated == [2.0];
  }

  /** "10 + -12" is -2: a sign after an operator belongs to the operand that follows. */
  lemma EvaluateSignAfterOperator(lib: Library, rev: Revision)
    ensures Value([Number(10.0), Operator(Add), Operator(Subtract), Number(12.0)], NoVariables, lib, rev) == Ok(-2.0)
  {
    GroupSignAfterOperator(lib, rev);
    ReduceSignAfterOperator(Group([Number(10.0), Operator(Add), Operator(Subtract), Number(12.0)], NoVariables, lib, rev).value, lib, rev);
  }

  lemma GroupSignAfterOperator(lib: Library, rev: Revision)
    ensures Is(Group([Number(10.0), Operator(Add), Operator(Subtract), Number(12.0)], NoVariables, lib, rev), [10.0, 12.0], [[], [Add, Subtract]])
  {
    var v := NoVariables;
    var p2 := [Number(10.0), Operator(Add)];
    var p3 := p2 + [Operator(Subtract)];
    GroupTenPlusMinus(lib, rev);
    assert p3 == [Number(10.0), Operator(Add), Operator(Subtract)];
    OperandIs(p3, Number(12.0), 12.0, v, lib, [10.0], [[], [Add, Subtract]], rev);
    assert [10.0] + [12.0] == [10.0, 12.0];
    assert p3 + [Number(12.0)] == [Number(10.0), Operator(Add), Operator(Subtract), Number(12.0)];
  }

  /** "10 + -": the sign joins the run of the addition. */
  lemma GroupTenPlusMinus(lib: Library, rev: Revision)
    ensures Is(Group([Number(10.0), Operator(Add), Operator(Subtract)], NoVariables, lib, rev), [10.0], [[], [Add, Subtract]])
  {
    var v := NoVariables;
    var p2 := [Number(10.0), Operator(Add)];
    GroupNumberThen(10.0, Add, lib, rev);
    GroupOperator(p2, Subtract, v, lib, rev);
    SecondOperator(Group(p2, v, lib, rev).value, Add, Subtract);
    assert p2 + [Operator(Subtract)] == [Number(10.0), Operator(Add), Operator(Subtract)];
  }

  /** A second operator after the first operand joins the run in gap 1. */
  lemma SecondOperator(l: Lists, a: OperatorType, op: OperatorType)
    requires l.operators == [[], [a]] && |l.evaluated| == 1 && Modifier(op).Some?
    ensures Is(AddOperator(l, op), l.evaluated, [[], [a, op]])
  {
    assert Pad(l.operators, 2) == l.operators;
    assert l.operators[1] + [op] == [a, op];
    assert l.operators[1 := [a, op]] == [[], [a, op]];
  }

  /** A number and then an operator: the number, and the operator alone in gap 1. */
  lemma GroupNumberThen(x: real, op: OperatorType, lib: Library, rev: Revision)
    ensures Is(Group([Number(x), Operator(op)], NoVariables, lib, rev), [x], [[], [op]])
  {
    var v := NoVariables;
    var p0: seq<Part> := [];
    var p1 := p0 + [Number(x)];
    GroupOperand(p0, Number(x), x, v, lib, rev);
    GroupOperator(p1, op, v, lib, rev);
    FirstGap(Group(p1, v, lib, rev).value, op);
    assert p1 + [Operator(op)] == [Number(x), Operator(op)];
  }

  lemma ReduceSignAfterOperator(l: Lists, lib: Library, rev: Revision)
    requires l.evaluated == [10.0, 12.0] && l.operators == [[], [Add, Subtract]]
    ensures Reduce(l, lib, rev) == Ok(-2.0)
  {
    ThreeTiers(l, lib, rev);
    assert PassFrom({Power}, 1, l, lib, rev) == Ok(l);
    assert PassFrom({Multiply, Divide}, 1, l, lib, rev) == Ok(l);
    assert l.operators[1][1..] == [Subtract];
    assert SignOf([Subtract]) == -1;
    var f := ReduceAt(l, 0, lib, rev);
    assert f.evaluated == [-2.0];
  }

  /** A variable: the built-in constant under any case, unless the map binds the exact name. */
  lemma EvaluateVariables(lib: Library, rev: Revision)
    ensures Value([Variable("PI")], NoVariables, lib, rev) == Ok(3.141592653589793)
    ensures Value([Variable("pi")], map["pi" := 3.0], lib, rev) == Ok(3.0)
    ensures Value([Variable("x")], NoVariables, lib, rev) == Err(UnknownVariable("x"))
  {
    assert Lower("PI") == "pi";
    assert Lower("x") == "x";
  }

  /** An empty parts list, and an operator that cannot start an expression. */
  lemma EvaluateBadStart(lib: Library, rev: Revision)
    ensures Value([], NoVariables, lib, rev) == Err(EmptyParts)
    ensures Value([Operator(Multiply), Number(1.0)], NoVariables, lib, rev) == Err(CannotStartWith(Multiply))
  {
    var p0: seq<Part> := [];
    GroupOperator(p0, Multiply, NoVariables, lib, rev);
    assert p0 + [Operator(Multiply)] == [Operator(Multiply)];
    assert [Operator(Multiply), Number(1.0)][..1] == [Operator(Multiply)];
  }

  /** "1 + * 2": an operator that is not a sign after another operator. */
  lemma EvaluateDuplicateOperators(lib: Library, rev: Revision)
    ensures Value([Number(1.0), Operator(Add), Operator(Multiply), Number(2.0)], NoVariables, lib, rev) == Err(DuplicateOperators)
  {
    var v := NoVariables;
    var p0: seq<Part> := [];
    var p1 := p0 + [Number(1.0)];
    var p2 := p1 + [Operator(Add)];
    var p3 := p2 + [Operator(Multiply)];
    GroupOperand(p0, Number(1.0), 1.0, v, lib, rev);
    GroupOperator(p1, Add, v, lib, rev);
    FirstGap(Group(p1, v, lib, rev).value, Add);
    GroupOperator(p2, Multiply, v, lib, rev);
    assert Group(p3, v, lib, rev) == Err(DuplicateOperators);
    assert (p3 + [Number(2.0)])[..|p3|] == p3;
    assert p3 + [Number(2.0)] == [Number(1.0), Operator(Add), Operator(Multiply), Number(2.0)];
  }

  /** A comma outside a function call is not an operator. */
  lemma EvaluateStrayComma(lib: Library, rev: Revision)
    ensures Value([Number(1.0), Comma, Number(2.0)], NoVariables, lib, rev) == Err(NotAnOperator)
  {
    var p0: seq<Part> := [];
    var p1 := p0 + [Number(1.0)];
    GroupOperand(p0, Number(1.0), 1.0, NoVariables, lib, rev);
    assert [Number(1.0), Comma, Number(2.0)][..2] == p1 + [Comma];
    assert (p1 + [Comma])[..1] == p1;
  }

  /** Two operands with nothing between them, and signs with no operand, read past the lists. */
  lemma EvaluateOutOfBounds(lib: Library, rev: Revision)
    ensures Value([Number(1.0), Number(2.0)], NoVariables, lib, rev) == Err(IndexOutOfBounds)
    ensures Value([Operator(Subtract)], NoVariables, lib, rev) == Err(IndexOutOfBounds)
  {
    var v := NoVariables;
    var p0: seq<Part> := [];
    var p1 := p0 + [Number(1.0)];
    GroupOperand(p0, Number(1.0), 1.0, v, lib, rev);
    GroupOperand(p1, Number(2.0), 2.0, v, lib, rev);
    var l := Group(p1 + [Number(2.0)], v, lib, rev).value;
    assert l.evaluated == [1.0, 2.0] && l.operators == [];
    assert p1 + [Number(2.0)] == [Number(1.0), Number(2.0)];
    GroupOperator(p0, Subtract, v, lib, rev);
    LeadingSign(Group(p0, v, lib, rev).value, Subtract);
    assert p0 + [Operator(Subtract)] == [Operator(Subtract)];
  }

  // ---------------------------------------------------------------------------------------
  // The two defects of evaluate, as written and corrected

  /** A lone operand loses its first sign: "- 5" gives 5 as written, -5 corrected. */
  lemma LoneOperandSign(lib: Library)
    ensures Value([Operator(Subtract), Number(5.0)], NoVariables, lib, AsWritten) == Ok(5.0)
    ensures Value([Operator(Subtract), Number(5.0)], NoVariables, lib, Corrected) == Ok(-5.0)
  {
    GroupMinusFive(lib, AsWritten);
    GroupMinusFive(lib, Corrected);
    assert SignOf([Subtract]) == -1;
  }

  /** "- 5": the sign waits in the first run. */
  lemma GroupMinusFive(lib: Library, rev: Revision)
    ensures Is(Group([Operator(Subtract), Number(5.0)], NoVariables, lib, rev), [5.0], [[Subtract]])
  {
    var v := NoVariables;
    var p0: seq<Part> := [];
    var p1 := p0 + [Operator(Subtract)];
    GroupOperator(p0, Subtract, v, lib, rev);
    LeadingSign(Group(p0, v, lib, rev).value, Subtract);
    GroupOperand(p1, Number(5.0), 5.0, v, lib, rev);
    assert p1 + [Number(5.0)] == [Operator(Subtract), Number(5.0)];
  }

  /**
   * A reduction at the first operand leaves its leading sign behind, to be applied again:
   * "- 5 * 2 + 1" gives 11 as written, -9 corrected.
   */
  lemma LeadingSignReapplied(lib: Library)
    ensures Value([Operator(Subtract), Number(5.0), Operator(Multiply), Number(2.0), Operator(Add), Number(1.0)], NoVariables, lib, AsWritten)
         == Ok(11.0)
    ensures Value([Operator(Subtract), Number(5.0), Operator(Multiply), Number(2.0), Operator(Add), Number(1.0)], NoVariables, lib, Corrected)
         == Ok(-9.0)
  {
    var parts := [Operator(Subtract), Number(5.0), Operator(Multiply), Number(2.0), Operator(Add), Number(1.0)];
    GroupLeadingSign(lib, AsWritten);
    GroupLeadingSign(lib, Corrected);
    ReduceLeadingSignAsWritten(Group(parts, NoVariables, lib, AsWritten).value, lib);
    ReduceLeadingSignCorrected(Group(parts, NoVariables, lib, Corrected).value, lib);
  }

  lemma GroupLeadingSign(lib: Library, rev: Revision)
    ensures Is(Group([Operator(Subtract), Number(5.0), Operator(Multiply), Number(2.0), Operator(Add), Number(1.0)], NoVariables, lib, rev),
               [5.0, 2.0, 1.0], [[Subtract], [Multiply], [Add]])
  {
    var v := NoVariables;
    var p3 := [Operator(Subtract), Number(5.0), Operator(Multiply)];
    var p4 := p3 + [Number(2.0)];
    var p5 := p4 + [Operator(Add)];
    var p6 := p5 + [Number(1.0)];
    GroupMinusFiveTimes(lib, rev);
    OperandIs(p3, Number(2.0), 2.0, v, lib, [5.0], [[Subtract], [Multiply]], rev);
    assert [5.0] + [2.0] == [5.0, 2.0];
    NextGapIs(p4, Add, v, lib, [5.0, 2.0], [[Subtract], [Multiply]], rev);
    assert [[Subtract], [Multiply]] + [[Add]] == [[Subtract], [Multiply], [Add]];
    OperandIs(p5, Number(1.0), 1.0, v, lib, [5.0, 2.0], [[Subtract], [Multiply], [Add]], rev);
    assert [5.0, 2.0] + [1.0] == [5.0, 2.0, 1.0];
    assert p6 == [Operator(Subtract), Number(5.0), Operator(Multiply), Number(2.0), Operator(Add), Number(1.0)];
  }

  /** "- 5 *": the sign waits in the first run, the product opens the next. */
  lemma GroupMinusFiveTimes(lib: Library, rev: Revision)
    ensures Is(Group([Operator(Subtract), Number(5.0), Operator(Multiply)], NoVariables, lib, rev), [5.0], [[Subtract], [Multiply]])
  {
    var p2 := [Operator(Subtract), Number(5.0)];
    GroupMinusFive(lib, rev);
    NextGapIs(p2, Multiply, NoVariables, lib, [5.0], [[Subtract]], rev);
    assert [[Subtract]] + [[Multiply]] == [[Subtract], [Multiply]];
    assert p2 + [Operator(Multiply)] == [Operator(Subtract), Number(5.0), Operator(Multiply)];
  }

  /** As written, the sign of 5 survives the product and is applied once more in the sum. */
  lemma ReduceLeadingSignAsWritten(l: Lists, lib: Library)
    requires l.evaluated == [5.0, 2.0, 1.0] && l.operators == [[Subtract], [Multiply], [Add]]
    ensures Reduce(l, lib, AsWritten) == Ok(11.0)
  {
    assert SignOf([Subtract]) == -1;
    assert PassFrom({Power}, 2, l, lib, AsWritten) == Ok(l);
    assert PassFrom({Power}, 1, l, lib, AsWritten) == Ok(l);
    assert PassFrom({Power}, 0, l, lib, AsWritten) == Ok(l);
    ThreeTiers(l, lib, AsWritten);
    var w := ReduceAt(l, 0, lib, AsWritten);
    assert w.evaluated == [-10.0, 1.0] && w.operators == [[Subtract], [Add]];
    assert PassFrom({Multiply, Divide}, 1, w, lib, AsWritten) == Ok(w);
    assert PassFrom({Multiply, Divide}, 0, w, lib, AsWritten) == Ok(w);
    assert PassFrom({Multiply, Divide}, 0, l, lib, AsWritten) == Ok(w);
    assert ReduceAt(w, 0, lib, AsWritten).evaluated == [11.0];
  }

  /** Corrected, the sign is consumed by the product. */
  lemma ReduceLeadingSignCorrected(l: Lists, lib: Library)
    requires l.evaluated == [5.0, 2.0, 1.0] && l.operators == [[Subtract], [Multiply], [Add]]
    ensures Reduce(l, lib, Corrected) == Ok(-9.0)
  {
    assert SignOf([Subtract]) == -1;
    assert PassFrom({Power}, 2, l, lib, Corrected) == Ok(l);
    assert PassFrom({Power}, 1, l, lib, Corrected) == Ok(l);
    assert PassFrom({Power}, 0, l, lib, Corrected) == Ok(l);
    ThreeTiers(l, lib, Corrected);
    var c := ReduceAt(l, 0, lib, Corrected);
    assert c.evaluated == [-10.0, 1.0] && c.operators == [[], [Add]];
    assert PassFrom({Multiply, Divide}, 1, c, lib, Corrected) == Ok(c);
    assert PassFrom({Multiply, Divide}, 0, c, lib, Corrected) == Ok(c);
    assert PassFrom({Multiply, Divide}, 0, l, lib, Corrected) == Ok(c);
    assert ReduceAt(c, 0, lib, Corrected).evaluated == [-9.0];
  }

  // ---------------------------------------------------------------------------------------
  // The object

  /** The tokens of "sin(x)", a test expression evaluated with x bound to 0. */
  const SineTokens := [Segment("sin", [Word("sin")]), Open, Segment("x", [Word("x")]), Close]

  const SineOfX := [Function("sin", [Expression([Variable("x")])])]

  /** "sin(x)" with x bound to 0 is 0 when the library's sine of 0 is 0, under either reading. */
  lemma EvaluateSineOfX(lib: Library, sin: seq<real> -> real, rev: Revision)
    requires lib.functions("sin", 1) == Some(sin) && sin([0.0]) == 0.0
    ensures Parsed(SineTokens) == Ok(SineOfX)
    ensures Value(SineOfX, map["x" := 0.0], lib, rev) == Ok(0.0)
  {
    ParseSineOfX();
    SineValue(lib, sin, rev);
  }

  lemma SineValue(lib: Library, sin: seq<real> -> real, rev: Revision)
    requires lib.functions("sin", 1) == Some(sin) && sin([0.0]) == 0.0
    ensures Value(SineOfX, map["x" := 0.0], lib, rev) == Ok(0.0)
  {
    var v := map["x" := 0.0];
    var empty: seq<Part> := [];
    CallOfOne("sin", Variable("x"), 0.0, v, lib, sin, 0.0, rev);
    GroupOperand(empty, SineOfX[0], 0.0, v, lib, rev);
    assert empty + [SineOfX[0]] == SineOfX;
  }

  lemma ParseSineOfX()
    ensures Parsed(SineTokens) == Ok(SineOfX)
  {
    SineOpens();
    SineCloses();
    VisibleStart(SineTokens);
    assert Finish(Stacked([], SineOfX)) == Ok(SineOfX);
  }

  /** "sin(": the name is stacked, to become the function when the parenthesis closes. */
  lemma SineOpens()
    ensures ParseRun(ParseStart, SineTokens) == ParseRun(Stacked([[Variable("sin")]], []), SineTokens[2..])
  {
    var tokens := SineTokens;
    LoneName("sin");
    var st1 := ParseStep(ParseStart, tokens[0]).value;
    assert st1.stack == [] && st1.current == [Variable("sin")];
    var st2 := ParseStep(st1, tokens[1]).value;
    assert st2.stack == [[Variable("sin")]] && st2.current == [];
    ParseRunStep(ParseStart, tokens); ParseRunStep(st1, tokens[1..]);
    assert tokens[1..][1..] == tokens[2..];
  }

  /** "x)": the variable closes into the call. */
  lemma SineCloses()
    ensures ParseRun(Stacked([[Variable("sin")]], []), SineTokens[2..]) == Ok(Stacked([], SineOfX))
  {
    var tokens := SineTokens[2..];
    assert tokens == [Segment("x", [Word("x")]), Close];
    LoneName("x");
    assert CloseInto([Variable("sin")], [Variable("x")]) == SineOfX by {
      SegmentsOfCommaFree([Variable("x")]);
      assert AsExpressions([[Variable("x")]]) == [Expression([Variable("x")])];
      assert DropEmpty([Expression([Variable("x")])]) == [Expression([Variable("x")])];
    }
    var st2 := Stacked([[Variable("sin")]], []);
    var st3 := ParseStep(st2, tokens[0]).value;
    assert st3.stack == [[Variable("sin")]] && st3.current == [Variable("x")];
    var st4 := ParseStep(st3, tokens[1]).value;
    assert st4 == Stacked([], SineOfX);
    ParseRunStep(st2, tokens); ParseRunStep(st3, tokens[1..]);
    assert tokens[1..][1..] == [];
  }

  /**
   * The unit test's use of the object on "sin(x)": parse, bind x to 0, evaluate as written.
   */
  method ParseBindEvaluate(lib: Library, sin: seq<real> -> real) returns (r: Result<real, EvalError>)
    requires lib.functions("sin", 1) == Some(sin) && sin([0.0]) == 0.0
    ensures r == Ok(0.0)
  {
    EvaluateSineOfX(lib, sin, AsWritten);
    var parsed := MathExpression.Parse(SineTokens, map[]);
    var e := parsed.value;
    var same := e.SetVariable("x", 0.0);
    r := same.Evaluate(lib);
  }
}
