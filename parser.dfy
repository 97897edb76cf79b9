/**
 * `MathExpression.parse`, `parseSimple` and `splitComma`: from the lexer's tokens to the
 * flat list of parts of an expression, with nested parentheses resolved through a stack.
 *
 * The two regular expressions of the source are not modelled; their matches are the input.
 * A `Token` is one match of `([()]|[^()]+)`; a `Segment` carries its raw text (needed only for
 * the blank-input test) and the matches of the atom pattern inside it.
 */
module Parser {
  import opened Results
  import opened Parts

  /** One atom of a segment: a match that `Double.parseDouble` accepted, or any other match. */
  datatype Atom = Numeral(value: real) | Word(text: string)

  datatype Token = Open | Close | Segment(raw: string, atoms: seq<Atom>)

  datatype ParseError =
    | IllegalClosingParenthesis
    | IncompleteExpression
    | UnexpectedToken(found: PartKind)
    | VariableBeforeNumber
    | UnknownOperatorSymbol(symbol: char)

  // ---------------------------------------------------------------------------------------
  // parseSimple

  /** How parseSimple reads one atom: as a part, as a name, or as a symbol `valueOfSymbol` rejects. */
  datatype Reading = AsPart(part: Part) | AsName(name: string) | BadSymbol(symbol: char)

  function Classify(a: Atom): (r: Reading)
    ensures r.AsPart? ==> r.part.Number? || r.part.Operator? || r.part.Comma?
    ensures r.AsPart? && r.part.Operator? ==> a == Word([Symbol(r.part.op)])
    ensures r.BadSymbol? ==> a == Word([r.symbol]) && ValueOfSymbol(r.symbol).None?
    ensures a.Numeral? <==> r.AsPart? && r.part.Number?
  {
    match a
    case Numeral(v) => AsPart(Number(v))
    case Word(t) =>
      if t == "," then AsPart(Comma)
      else if |t| == 1 && t[0] in OperatorCharacters() then
        assert t == [t[0]];
        match ValueOfSymbol(t[0])
        case Some(op) => AsPart(Operator(op))
        case None => BadSymbol(t[0])
      else AsName(t)
  }

  /** The loop state of parseSimple: the parts so far, the held name and the last checked part. */
  datatype Simple = Simple(parts: seq<Part>, onHold: Option<string>, last: Option<Part>)

  const SimpleStart := Simple([], None, None)

  /** The part the checked path compares against: a held name becomes that Variable first. */
  function Predecessor(st: Simple): Option<Part> {
    if st.onHold.Some? then Some(Variable(st.onHold.value)) else st.last
  }

  /** The body of parseSimple's loop for one atom. */
  function SimpleStep(st: Simple, a: Atom): Result<Simple, ParseError> {
    match Classify(a)
    case BadSymbol(c) => Err(UnknownOperatorSymbol(c))
    case AsName(n) =>
      if st.onHold.Some? then
        Ok(Simple(st.parts + [Variable(st.onHold.value), Operator(Multiply), Variable(n)], None, st.last))
      else if st.last.Some? && st.last.value.Number? then
        Ok(Simple(st.parts + [Operator(Multiply), Variable(n)], None, st.last))
      else
        Ok(Simple(st.parts, Some(n), st.last))
    case AsPart(p) =>
      if st.onHold.Some? && p.Number? then Err(VariableBeforeNumber)
      else
        var parts := if st.onHold.Some? then st.parts + [Variable(st.onHold.value)] else st.parts;
        var prev := Predecessor(st);
        if prev.None? || Kind(p) in ValidNextParts(prev.value) then Ok(Simple(parts + [p], None, Some(p)))
        else Err(UnexpectedToken(Kind(p)))
  }

  function SimpleRun(st: Simple, atoms: seq<Atom>): Result<Simple, ParseError>
    decreases |atoms|
  {
    if atoms == [] then Ok(st)
    else
      match SimpleStep(st, atoms[0])
      case Err(e) => Err(e)
      case Ok(next) => SimpleRun(next, atoms[1..])
  }

  /** The parts list a state stands for once a held name is released. */
  function Flushed(st: Simple): seq<Part> {
    if st.onHold.Some? then st.parts + [Variable(st.onHold.value)] else st.parts
  }

  /** What parseSimple returns for the atoms of one segment. */
  function SimpleParts(atoms: seq<Atom>): Result<seq<Part>, ParseError> {
    match SimpleRun(SimpleStart, atoms)
    case Err(e) => Err(e)
    case Ok(st) => Ok(Flushed(st))
  }

  /** `parseSimple`: folds the atoms of one segment into parts. */
  method ParseSimple(atoms: seq<Atom>) returns (r: Result<seq<Part>, ParseError>)
    ensures r == SimpleParts(atoms)
  {
    var parts: seq<Part> := [];
    var onHold: Option<string> := None;
    var last: Option<Part> := None;
    var i := 0;
    while i < |atoms|
      invariant 0 <= i <= |atoms|
      invariant SimpleRun(SimpleStart, atoms) == SimpleRun(Simple(parts, onHold, last), atoms[i..])
    {
      assert atoms[i..][1..] == atoms[i + 1..];
      var reading := Classify(atoms[i]);
      match reading {
        case BadSymbol(c) =>
          return Err(UnknownOperatorSymbol(c));
        case AsName(n) =>
          if onHold.Some? {
            parts := parts + [Variable(onHold.value), Operator(Multiply), Variable(n)];
            onHold := None;
          } else if last.Some? && last.value.Number? {
            parts := parts + [Operator(Multiply), Variable(n)];
          } else {
            onHold := Some(n);
          }
        case AsPart(p) =>
          if onHold.Some? {
            if p.Number? {
              return Err(VariableBeforeNumber);
            }
            last := Some(Variable(onHold.value));
            parts := parts + [last.value];
            onHold := None;
          }
          if last.None? {
            parts := parts + [p];
            last := Some(p);
          } else if Kind(p) in ValidNextParts(last.value) {
            parts := parts + [p];
            last := Some(p);
          } else {
            return Err(UnexpectedToken(Kind(p)));
          }
      }
      i := i + 1;
    }
    if onHold.Some? {
      parts := parts + [Variable(onHold.value)];
    }
    return Ok(parts);
  }

  /** The part an atom stands for, reading every name as a Variable. */
  function Denotation(a: Atom): Part {
    match Classify(a)
    case AsPart(p) => p
    case AsName(n) => Variable(n)
    case BadSymbol(c) => Comma
  }

  function Denote(atoms: seq<Atom>): (r: seq<Part>)
    ensures |r| == |atoms|
  {
    if atoms == [] then [] else [Denotation(atoms[0])] + Denote(atoms[1..])
  }

  /** The parts with every MULTIPLY operator removed. */
  function WithoutMultiply(ps: seq<Part>): seq<Part> {
    if ps == [] then []
    else if ps[0] == Operator(Multiply) then WithoutMultiply(ps[1..])
    else [ps[0]] + WithoutMultiply(ps[1..])
  }

  lemma {:induction false} WithoutMultiplyAppend(a: seq<Part>, b: seq<Part>)
    ensures WithoutMultiply(a + b) == WithoutMultiply(a) + WithoutMultiply(b)
  {
    if a == [] {
      assert a + b == b;
    } else {
      assert (a + b)[1..] == a[1..] + b;
      WithoutMultiplyAppend(a[1..], b);
    }
  }

  lemma {:induction false} SimpleRunKeepsAtoms(st: Simple, atoms: seq<Atom>)
    requires SimpleRun(st, atoms).Ok?
    ensures WithoutMultiply(Flushed(SimpleRun(st, atoms).value))
         == WithoutMultiply(Flushed(st)) + WithoutMultiply(Denote(atoms))
    decreases |atoms|
  {
    if atoms == [] {
      assert WithoutMultiply(Denote(atoms)) == [];
    } else {
      var next := SimpleStep(st, atoms[0]).value;
      SimpleRunKeepsAtoms(next, atoms[1..]);
      var d := Denotation(atoms[0]);
      StepKeepsAtom(st, atoms[0]);
      assert Denote(atoms) == [d] + Denote(atoms[1..]);
      WithoutMultiplyAppend([d], Denote(atoms[1..]));
    }
  }

  /** One step of parseSimple appends the atom's denotation, and perhaps a MULTIPLY. */
  lemma StepKeepsAtom(st: Simple, a: Atom)
    requires SimpleStep(st, a).Ok?
    ensures WithoutMultiply(Flushed(SimpleStep(st, a).value)) == WithoutMultiply(Flushed(st)) + WithoutMultiply([Denotation(a)])
  {
    var next := SimpleStep(st, a).value;
    var held := if st.onHold.Some? then [Variable(st.onHold.value)] else [];
    assert Flushed(st) == st.parts + held;
    match Classify(a)
    case AsName(n) =>
      if st.onHold.Some? {
        assert Flushed(next) == Flushed(st) + [Operator(Multiply), Variable(n)];
        WithoutMultiplyAppend(Flushed(st), [Operator(Multiply), Variable(n)]);
      } else if st.last.Some? && st.last.value.Number? {
        assert Flushed(next) == Flushed(st) + [Operator(Multiply), Variable(n)];
        WithoutMultiplyAppend(Flushed(st), [Operator(Multiply), Variable(n)]);
      } else {
        assert Flushed(next) == Flushed(st) + [Variable(n)];
        WithoutMultiplyAppend(Flushed(st), [Variable(n)]);
      }
    case AsPart(p) =>
      assert Flushed(next) == Flushed(st) + [p];
      WithoutMultiplyAppend(Flushed(st), [p]);
  }

  /**
   * parseSimple keeps every atom, in order, reading names as Variables, and adds nothing but
   * implicit MULTIPLY operators.
   */
  lemma ParseSimpleKeepsAtoms(atoms: seq<Atom>)
    requires SimpleParts(atoms).Ok?
    ensures WithoutMultiply(SimpleParts(atoms).value) == WithoutMultiply(Denote(atoms))
  {
    SimpleRunKeepsAtoms(SimpleStart, atoms);
  }

  /** A flat part: one parseSimple can produce. */
  predicate IsFlat(p: Part) {
    p.Number? || p.Operator? || p.Comma? || p.Variable?
  }

  lemma {:induction false} SimpleRunFlat(st: Simple, atoms: seq<Atom>)
    requires forall k :: 0 <= k < |st.parts| ==> IsFlat(st.parts[k])
    requires SimpleRun(st, atoms).Ok?
    ensures forall k :: 0 <= k < |Flushed(SimpleRun(st, atoms).value)| ==> IsFlat(Flushed(SimpleRun(st, atoms).value)[k])
    decreases |atoms|
  {
    if atoms != [] {
      SimpleRunFlat(SimpleStep(st, atoms[0]).value, atoms[1..]);
    }
  }

  /** parseSimple never produces a Parenthesis or a Function: those come from parse alone. */
  lemma ParseSimpleFlat(atoms: seq<Atom>)
    requires SimpleParts(atoms).Ok?
    ensures forall k :: 0 <= k < |SimpleParts(atoms).value| ==> IsFlat(SimpleParts(atoms).value[k])
  {
    SimpleRunFlat(SimpleStart, atoms);
  }

  /**
   * The checked path of parseSimple: a non-name atom is appended, after any held name, exactly
   * when there is no predecessor or its kind is among the predecessor's `validNextParts`, and a
   * held name followed directly by a number fails.
   */
  lemma CheckedPath(st: Simple, a: Atom)
    requires Classify(a).AsPart?
    ensures var p := Classify(a).part;
            var prev := Predecessor(st);
            && (st.onHold.Some? && p.Number? ==> SimpleStep(st, a) == Err(VariableBeforeNumber))
            && (SimpleStep(st, a).Ok? <==>
                  !(st.onHold.Some? && p.Number?) && (prev.None? || Kind(p) in ValidNextParts(prev.value)))
            && (SimpleStep(st, a).Ok? ==> SimpleStep(st, a).value == Simple(Flushed(st) + [p], None, Some(p)))
  {
  }

  /** Two names in a row, or a number followed by a name, are joined by an implicit MULTIPLY. */
  lemma ImplicitMultiply(st: Simple, n: string)
    requires Classify(Word(n)).AsName?
    requires st.onHold.Some? || (st.last.Some? && st.last.value.Number?)
    ensures SimpleStep(st, Word(n)).Ok?
    ensures SimpleStep(st, Word(n)).value.parts == Flushed(st) + [Operator(Multiply), Variable(n)]
    ensures SimpleStep(st, Word(n)).value.onHold == None
  {
  }

  // ---------------------------------------------------------------------------------------
  // splitComma

  function CommaCount(ps: seq<Part>): nat {
    if ps == [] then 0 else (if ps[0] == Comma then 1 else 0) + CommaCount(ps[1..])
  }

  /** The lists joined back together with a Comma between consecutive ones. */
  function JoinCommas(lists: seq<seq<Part>>): seq<Part>
    requires lists != []
  {
    if |lists| == 1 then lists[0] else lists[0] + [Comma] + JoinCommas(lists[1..])
  }

  /** The comma-separated segments of a parts list. */
  function Segments(ps: seq<Part>): (r: seq<seq<Part>>)
    ensures |r| == CommaCount(ps) + 1
    ensures forall k :: 0 <= k < |r| ==> Comma !in r[k]
    ensures JoinCommas(r) == ps
  {
    if ps == [] then [[]]
    else if ps[0] == Comma then
      var rest := Segments(ps[1..]);
      assert JoinCommas([[]] + rest) == [Comma] + JoinCommas(rest) by {
        assert ([[]] + rest)[1..] == rest;
      }
      [[]] + rest
    else
      var rest := Segments(ps[1..]);
      var r := [[ps[0]] + rest[0]] + rest[1..];
      assert JoinCommas(r) == [ps[0]] + JoinCommas(rest) by {
        if |rest| > 1 {
          assert r[1..] == rest[1..];
        }
      }
      r
  }

  lemma {:induction false} JoinCommasAppend(lists: seq<seq<Part>>, last: seq<Part>)
    requires lists != []
    ensures JoinCommas(lists + [last]) == JoinCommas(lists) + [Comma] + last
  {
    if |lists| > 1 {
      assert (lists + [last])[1..] == lists[1..] + [last];
      JoinCommasAppend(lists[1..], last);
    } else {
      assert (lists + [last])[1..] == [last];
    }
  }

  lemma {:induction false} CommaCountAppend(a: seq<Part>, b: seq<Part>)
    ensures CommaCount(a + b) == CommaCount(a) + CommaCount(b)
  {
    if a == [] {
      assert a + b == b;
    } else {
      assert (a + b)[1..] == a[1..] + b;
      CommaCountAppend(a[1..], b);
    }
  }

  /** Comma-free lists that join to `ps` are exactly its segments: splitting and joining are inverse. */
  lemma {:induction false} SegmentsUnique(lists: seq<seq<Part>>, ps: seq<Part>)
    requires lists != []
    requires forall k :: 0 <= k < |lists| ==> Comma !in lists[k]
    requires JoinCommas(lists) == ps
    ensures lists == Segments(ps)
    decreases |ps|
  {
    var first := lists[0];
    if |lists| == 1 {
      SegmentsOfCommaFree(first);
    } else if first == [] {
      assert ps == [Comma] + JoinCommas(lists[1..]);
      assert ps[1..] == JoinCommas(lists[1..]);
      SegmentsUnique(lists[1..], ps[1..]);
      assert lists == [[]] + lists[1..];
    } else {
      var tail := [first[1..]] + lists[1..];
      assert JoinCommas(tail) == first[1..] + [Comma] + JoinCommas(lists[1..]) by {
        assert tail[1..] == lists[1..];
      }
      assert ps == [first[0]] + JoinCommas(tail);
      assert ps[1..] == JoinCommas(tail);
      assert Comma !in first[1..] by {
        assert forall x :: x in first[1..] ==> x in first;
      }
      SegmentsUnique(tail, ps[1..]);
      assert first[0] != Comma by {
        assert first[0] in lists[0];
      }
      assert first == [first[0]] + first[1..];
      assert lists == [[first[0]] + tail[0]] + tail[1..];
    }
  }

  lemma {:induction false} SegmentsOfCommaFree(ps: seq<Part>)
    requires Comma !in ps
    ensures Segments(ps) == [ps]
    decreases |ps|
  {
    if ps != [] {
      assert Comma !in ps[1..] by {
        assert forall x :: x in ps[1..] ==> x in ps;
      }
      SegmentsOfCommaFree(ps[1..]);
    }
  }

  /** The parts with every Comma removed. */
  function WithoutCommas(ps: seq<Part>): seq<Part> {
    if ps == [] then [] else (if ps[0] == Comma then [] else [ps[0]]) + WithoutCommas(ps[1..])
  }

  function Concat(lists: seq<seq<Part>>): seq<Part> {
    if lists == [] then [] else lists[0] + Concat(lists[1..])
  }

  lemma {:induction false} WithoutCommasAppend(a: seq<Part>, b: seq<Part>)
    ensures WithoutCommas(a + b) == WithoutCommas(a) + WithoutCommas(b)
  {
    if a == [] {
      assert a + b == b;
    } else {
      assert (a + b)[1..] == a[1..] + b;
      WithoutCommasAppend(a[1..], b);
    }
  }

  lemma {:induction false} WithoutCommasOfCommaFree(ps: seq<Part>)
    requires Comma !in ps
    ensures WithoutCommas(ps) == ps
  {
    if ps != [] {
      assert Comma !in ps[1..] by {
        assert forall x :: x in ps[1..] ==> x in ps;
      }
      WithoutCommasOfCommaFree(ps[1..]);
    }
  }

  lemma {:induction false} ConcatOfJoin(lists: seq<seq<Part>>)
    requires lists != []
    requires forall k :: 0 <= k < |lists| ==> Comma !in lists[k]
    ensures Concat(lists) == WithoutCommas(JoinCommas(lists))
  {
    WithoutCommasOfCommaFree(lists[0]);
    if |lists| == 1 {
      assert Concat(lists) == lists[0] + Concat([]);
    } else {
      ConcatOfJoin(lists[1..]);
      WithoutCommasAppend(lists[0] + [Comma], JoinCommas(lists[1..]));
      WithoutCommasAppend(lists[0], [Comma]);
    }
  }

  /** Concatenating the segments gives the input with its commas removed, order preserved. */
  lemma SegmentsConcat(ps: seq<Part>)
    ensures Concat(Segments(ps)) == WithoutCommas(ps)
  {
    ConcatOfJoin(Segments(ps));
  }

  /** Every part of every segment comes from the input. */
  lemma SegmentsFromInput(ps: seq<Part>)
    ensures forall k, p :: 0 <= k < |Segments(ps)| && p in Segments(ps)[k] ==> p in ps
  {
    forall k, p | 0 <= k < |Segments(ps)| && p in Segments(ps)[k] ensures p in ps {
      JoinContains(Segments(ps), k, p);
    }
  }

  lemma {:induction false} JoinContains(lists: seq<seq<Part>>, k: nat, p: Part)
    requires k < |lists| && p in lists[k]
    ensures p in JoinCommas(lists)
  {
    if k > 0 {
      JoinContains(lists[1..], k - 1, p);
    }
  }

  /** `splitComma`: cuts a parts list at its commas. */
  method SplitComma(parts: seq<Part>) returns (split: seq<seq<Part>>)
    ensures split == Segments(parts)
    ensures |split| == CommaCount(parts) + 1
  {
    split := [];
    var current: seq<Part> := [];
    var i := 0;
    while i < |parts|
      invariant 0 <= i <= |parts|
      invariant forall k :: 0 <= k < |split| ==> Comma !in split[k]
      invariant Comma !in current
      invariant JoinCommas(split + [current]) == parts[..i]
    {
      assert parts[..i + 1] == parts[..i] + [parts[i]];
      if parts[i] == Comma {
        JoinCommasAppend(split + [current], []);
        split := split + [current];
        current := [];
      } else {
        if split == [] {
          assert JoinCommas(split + [current + [parts[i]]]) == current + [parts[i]];
        } else {
          JoinCommasAppend(split, current);
          JoinCommasAppend(split, current + [parts[i]]);
        }
        current := current + [parts[i]];
      }
      i := i + 1;
    }
    split := split + [current];
    assert parts[..|parts|] == parts;
    SegmentsUnique(split, parts);
  }

  // ---------------------------------------------------------------------------------------
  // parse

  /** The loop state of parse: the stack of enclosing lists and the list being filled. */
  datatype Stacked = Stacked(stack: seq<seq<Part>>, current: seq<Part>)

  const ParseStart := Stacked([], [])

  function AsExpressions(lists: seq<seq<Part>>): (r: seq<Expression>)
    ensures |r| == |lists| && forall k :: 0 <= k < |r| ==> r[k].parts == lists[k]
  {
    seq(|lists|, k requires 0 <= k < |lists| => Expression(lists[k]))
  }

  /**
   * What a closing parenthesis makes of the enclosing list: a trailing Variable becomes a
   * Function of the comma-separated inner parts, otherwise the inner parts are appended as
   * one Parenthesis.
   */
  function CloseInto(enclosing: seq<Part>, inner: seq<Part>): seq<Part> {
    if enclosing != [] && enclosing[|enclosing| - 1].Variable? then
      enclosing[..|enclosing| - 1] + [NewFunction(enclosing[|enclosing| - 1].name, AsExpressions(Segments(inner)))]
    else
      enclosing + [Parenthesis(Expression(inner))]
  }

  /** The body of parse's loop for one token. */
  function ParseStep(st: Stacked, t: Token): Result<Stacked, ParseError> {
    match t
    case Open => Ok(Stacked(st.stack + [st.current], []))
    case Close =>
      if st.stack == [] then Err(IllegalClosingParenthesis)
      else Ok(Stacked(st.stack[..|st.stack| - 1], CloseInto(st.stack[|st.stack| - 1], st.current)))
    case Segment(_, atoms) =>
      match SimpleParts(atoms)
      case Err(e) => Err(e)
      case Ok(ps) => Ok(Stacked(st.stack, st.current + ps))
  }

  function ParseRun(st: Stacked, tokens: seq<Token>): Result<Stacked, ParseError>
    decreases |tokens|
  {
    if tokens == [] then Ok(st)
    else
      match ParseStep(st, tokens[0])
      case Err(e) => Err(e)
      case Ok(next) => ParseRun(next, tokens[1..])
  }

  function TokenText(t: Token): string {
    match t
    case Open => "("
    case Close => ")"
    case Segment(raw, _) => raw
  }

  /** The source text the tokens were cut from. */
  function Text(tokens: seq<Token>): string {
    if tokens == [] then "" else TokenText(tokens[0]) + Text(tokens[1..])
  }

  /** `trim().isEmpty()`: every character is a space or a control character. */
  predicate IsBlank(s: string) {
    forall k :: 0 <= k < |s| ==> s[k] <= ' '
  }

  /** The final test of parse: exactly one list left, non-empty, ending on a complete part. */
  function Finish(st: Stacked): Result<seq<Part>, ParseError> {
    if st.stack != [] || st.current == [] || !IsComplete(st.current[|st.current| - 1]) then Err(IncompleteExpression)
    else Ok(st.current)
  }

  /** What `parse` returns for the tokens of a text. */
  function Parsed(tokens: seq<Token>): (r: Result<seq<Part>, ParseError>)
    ensures r.Ok? ==> (r.value == [] <==> IsBlank(Text(tokens)))
    ensures r.Ok? && r.value != [] ==> IsComplete(r.value[|r.value| - 1])
  {
    if IsBlank(Text(tokens)) then Ok([])
    else
      match ParseRun(ParseStart, tokens)
      case Err(e) => Err(e)
      case Ok(st) => Finish(st)
  }

  /** `parse`: the parts list of the expression, resolving parentheses with a stack. */
  method Parse(tokens: seq<Token>) returns (r: Result<seq<Part>, ParseError>)
    ensures r == Parsed(tokens)
  {
    if IsBlank(Text(tokens)) {
      return Ok([]);
    }
    var stack: seq<seq<Part>> := [];
    var current: seq<Part> := [];
    var i := 0;
    while i < |tokens|
      invariant 0 <= i <= |tokens|
      invariant ParseRun(ParseStart, tokens) == ParseRun(Stacked(stack, current), tokens[i..])
    {
      assert tokens[i..][1..] == tokens[i + 1..];
      match tokens[i] {
        case Open =>
          stack := stack + [current];
          current := [];
        case Close =>
          if stack == [] {
            return Err(IllegalClosingParenthesis);
          }
          var last := stack[|stack| - 1];
          if last != [] && last[|last| - 1].Variable? {
            var split := SplitComma(current);
            last := last[..|last| - 1] + [NewFunction(last[|last| - 1].name, AsExpressions(split))];
          } else {
            last := last + [Parenthesis(Expression(current))];
          }
          current := last;
          stack := stack[..|stack| - 1];
        case Segment(_, atoms) =>
          var simple := ParseSimple(atoms);
          if simple.Err? {
            return Err(simple.error);
          }
          current := current + simple.value;
      }
      i := i + 1;
    }
    if stack != [] || current == [] || !IsComplete(current[|current| - 1]) {
      return Err(IncompleteExpression);
    }
    return Ok(current);
  }
}
