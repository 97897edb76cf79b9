/**
 * The `MathExpression` object: an immutable parts list and a mutable variable map, with
 * `evaluate`, `pass`, `isValid`, `setVariable`, `removeVariable` and the `parse` factory.
 * Sub-expressions share the variable map of the expression that holds them, as `parse`
 * arranges, so they are evaluated against the same map.
 */
module Expressions {
  import opened Results
  import opened Parts
  import opened Parser
  import opened Evaluator
  import opened Grouping
  import opened Revisions

  /** The parts alternate between evaluable and non-evaluable ones, and there is at least one. */
  predicate Alternating(parts: seq<Part>) {
    |parts| > 0 && forall k :: 0 <= k < |parts| - 1 ==> IsEvaluable(parts[k]) != IsEvaluable(parts[k + 1])
  }

  class MathExpression {
    const parts: seq<Part>
    var variables: map<string, real>

    /** `MathExpression(parts)`: a fresh, empty variable map. */
    constructor (parts: seq<Part>)
      ensures this.parts == parts && variables == map[]
    {
      this.parts := parts;
      variables := map[];
    }

    /** `MathExpression(parts, variables)`: the given map, as `parse` passes it on. */
    constructor WithVariables(parts: seq<Part>, variables: map<string, real>)
      ensures this.parts == parts && this.variables == variables
    {
      this.parts := parts;
      this.variables := variables;
    }

    /** `parse(expression, variables)`: the parsed parts over the given variable map. */
    static method Parse(tokens: seq<Token>, variables: map<string, real>) returns (r: Result<MathExpression, ParseError>)
      ensures r.Ok? <==> Parsed(tokens).Ok?
      ensures r.Err? ==> r.error == Parsed(tokens).error
      ensures r.Ok? ==> fresh(r.value) && r.value.parts == Parsed(tokens).value && r.value.variables == variables
    {
      var parsed := Parser.Parse(tokens);
      if parsed.Err? {
        return Err(parsed.error);
      }
      var e := new MathExpression.WithVariables(parsed.value, variables);
      return Ok(e);
    }

    /** `setVariable`: binds the name, returning the expression itself for chaining. */
    method SetVariable(name: string, val: real) returns (self: MathExpression)
      modifies this
      ensures variables == old(variables)[name := val]
      ensures self == this
    {
      variables := variables[name := val];
      return this;
    }

    /** `removeVariable`: unbinds the name, returning the value it had, if any. */
    method RemoveVariable(name: string) returns (previous: Option<real>)
      modifies this
      ensures previous == if name in old(variables) then Some(old(variables)[name]) else None
      ensures variables == old(variables) - {name}
    {
      previous := if name in variables then Some(variables[name]) else None;
      variables := variables - {name};
    }

    /**
     * `evaluate`, as written; when no minus sign stands before the first operand of the
     * expression or of any sub-expression, that is also the corrected evaluate.
     */
    method Evaluate(lib: Library) returns (r: Result<real, EvalError>)
      ensures r == Value(parts, variables, lib, AsWritten)
      ensures NoLeadingMinus(parts) ==> r == Value(parts, variables, lib, Corrected)
    {
      r := EvaluateParts(parts, variables, lib, AsWritten);
      if NoLeadingMinus(parts) {
        ValueRevisions(parts, variables, lib);
      }
    }

    /** `isValid`: walks the parts, toggling whether an evaluable part is expected next. */
    method IsValid() returns (valid: bool)
      ensures valid <==> Alternating(parts)
    {
      if parts == [] {
        return false;
      }
      var shouldHaveEvaluable := IsEvaluable(parts[0]);
      var k := 0;
      while k < |parts|
        invariant 0 <= k <= |parts|
        invariant k < |parts| ==> shouldHaveEvaluable == IsEvaluable(parts[k]) || k > 0
        invariant forall j :: 0 <= j < k - 1 ==> IsEvaluable(parts[j]) != IsEvaluable(parts[j + 1])
        invariant k > 0 ==> shouldHaveEvaluable == !IsEvaluable(parts[k - 1])
      {
        if IsEvaluable(parts[k]) {
          if !shouldHaveEvaluable {
            return false;
          }
        } else if shouldHaveEvaluable {
          return false;
        }
        shouldHaveEvaluable := !shouldHaveEvaluable;
        k := k + 1;
      }
      return true;
    }
  }

  // ---------------------------------------------------------------------------------------
  // The bodies of evaluate, pass and the parts' evaluate, over the shared variable map

  /** An error in the grouping of a prefix is the error of the whole grouping. */
  lemma {:induction false} GroupPrefixError(parts: seq<Part>, k: nat, vars: map<string, real>, lib: Library, rev: Revision)
    requires k <= |parts| && Group(parts[..k], vars, lib, rev).Err?
    ensures Group(parts, vars, lib, rev) == Group(parts[..k], vars, lib, rev)
    decreases |parts| - k
  {
    if k < |parts| {
      var front := parts[..|parts| - 1];
      assert front[..k] == parts[..k];
      GroupPrefixError(front, k, vars, lib, rev);
    } else {
      assert parts[..k] == parts;
    }
  }

  /** One more part read by the grouping loop. */
  lemma GroupNext(parts: seq<Part>, k: nat, vars: map<string, real>, lib: Library, rev: Revision)
    requires k < |parts| && Group(parts[..k], vars, lib, rev).Ok?
    ensures var l := Group(parts[..k], vars, lib, rev).value;
      Group(parts[..k + 1], vars, lib, rev) ==
        if IsEvaluable(parts[k]) then
          (match PartValue(parts[k], vars, lib, rev)
           case Ok(v) => Ok(Lists(l.evaluated + [v], l.operators))
           case Err(e) => Err(e))
        else if parts[k].Comma? then Err(NotAnOperator)
        else AddOperator(l, parts[k].op)
  {
    assert parts[..k + 1][..k] == parts[..k];
  }

  /** An error in the arguments of a prefix is the error of all the arguments. */
  lemma {:induction false} ArgPrefixError(es: seq<Expression>, k: nat, vars: map<string, real>, lib: Library, rev: Revision)
    requires k <= |es| && ArgValues(es[..k], vars, lib, rev).Err?
    ensures ArgValues(es, vars, lib, rev) == ArgValues(es[..k], vars, lib, rev)
    decreases |es| - k
  {
    if k < |es| {
      var front := es[..|es| - 1];
      assert front[..k] == es[..k];
      ArgPrefixError(front, k, vars, lib, rev);
    } else {
      assert es[..k] == es;
    }
  }

  /** One more argument evaluated. */
  lemma ArgNext(es: seq<Expression>, k: nat, vars: map<string, real>, lib: Library, rev: Revision)
    requires k < |es| && ArgValues(es[..k], vars, lib, rev).Ok?
    ensures ArgValues(es[..k + 1], vars, lib, rev) ==
      match Value(es[k].parts, vars, lib, rev)
      case Ok(v) => Ok(ArgValues(es[..k], vars, lib, rev).value + [v])
      case Err(e) => Err(e)
  {
    assert es[..k + 1][..k] == es[..k];
  }

  /** The body of `evaluate` for a parts list, under either reading of its leading signs. */
  method EvaluateParts(parts: seq<Part>, vars: map<string, real>, lib: Library, rev: Revision) returns (r: Result<real, EvalError>)
    ensures r == Value(parts, vars, lib, rev)
    decreases PartsSize(parts), 3
  {
    if parts == [] {
      return Err(EmptyParts);
    }
    var grouped := GroupParts(parts, vars, lib, rev);
    if grouped.Err? {
      return Err(grouped.error);
    }
    var evaluated := grouped.value.evaluated;
    var operators := grouped.value.operators;
    if |evaluated| <= 1 {
      if evaluated == [] {
        return Err(IndexOutOfBounds);
      }
      var val := evaluated[0];
      if operators != [] {
        if rev.Corrected? {
          val := ApplyModifiers(val, operators[0]);
        } else if |operators[0]| > 1 {
          val := ApplyModifiers(val, operators[0][1..]);
        }
      }
      return Ok(val);
    }
    var tiers := GetByOrder();
    ghost var start := grouped.value;
    for t := 0 to |tiers|
      invariant SignsValid(operators) && 1 <= |evaluated|
      invariant Tiers(tiers, start, lib, rev) == Tiers(tiers[t..], Lists(evaluated, operators), lib, rev)
    {
      assert tiers[t..][1..] == tiers[t + 1..];
      var passed := Pass(tiers[t], Lists(evaluated, operators), lib, rev);
      if passed.Err? {
        return Err(passed.error);
      }
      evaluated := passed.value.evaluated;
      operators := passed.value.operators;
    }
    return Ok(evaluated[0]);
  }

  /**
   * The first loop of `evaluate`: evaluates the evaluable parts and files the operators by
   * gap, or throws at the first part that fails.
   */
  method GroupParts(parts: seq<Part>, vars: map<string, real>, lib: Library, rev: Revision) returns (r: Result<Lists, EvalError>)
    ensures r == Group(parts, vars, lib, rev)
    ensures r.Ok? <==> NoFailure(parts, vars, lib, rev)
    ensures r.Ok? ==> Collects(parts, r.value, vars, lib, rev)
    ensures forall j :: FirstFailure(parts, j, vars, lib, rev) ==> r == Err(FailureAt(parts, j, vars, lib, rev))
    decreases PartsSize(parts), 2
  {
    var evaluated: seq<real> := [];
    var operators: seq<seq<OperatorType>> := [];
    var k := 0;
    while k < |parts|
      invariant 0 <= k <= |parts|
      invariant Group(parts[..k], vars, lib, rev) == Ok(Lists(evaluated, operators))
    {
      PartSizeBound(parts, k);
      var next := ReadPart(parts, k, Lists(evaluated, operators), vars, lib, rev);
      if next.Err? {
        GroupPrefixError(parts, k + 1, vars, lib, rev);
        GroupMeaning(parts, vars, lib, rev);
        return Err(next.error);
      }
      evaluated := next.value.evaluated;
      operators := next.value.operators;
      k := k + 1;
    }
    assert parts[..|parts|] == parts;
    GroupMeaning(parts, vars, lib, rev);
    return Ok(Lists(evaluated, operators));
  }

  /** One pass of the first loop of `evaluate`: part `k` evaluated, or its operator filed. */
  method ReadPart(parts: seq<Part>, k: nat, l: Lists, vars: map<string, real>, lib: Library, rev: Revision) returns (r: Result<Lists, EvalError>)
    requires k < |parts| && Group(parts[..k], vars, lib, rev) == Ok(l)
    ensures r == Group(parts[..k + 1], vars, lib, rev)
    decreases PartSize(parts[k]), 1
  {
    var part := parts[k];
    GroupNext(parts, k, vars, lib, rev);
    if IsEvaluable(part) {
      PartSizeBound(parts, k);
      var v := EvaluatePart(part, vars, lib, rev);
      if v.Err? {
        return Err(v.error);
      }
      return Ok(Lists(l.evaluated + [v.value], l.operators));
    } else if part.Comma? {
      return Err(NotAnOperator);
    }
    r := PushOperator(l, part.op);
  }

  /**
   * The operator branch of the first loop of `evaluate`: a sign is always filed at the current
   * gap, any other operator only as the first of its gap and never before the first value.
   */
  method PushOperator(l: Lists, op: OperatorType) returns (r: Result<Lists, EvalError>)
    requires SignsValid(l.operators)
    ensures r == AddOperator(l, op)
    ensures var index := |l.evaluated|; var current := Pad(l.operators, index + 1)[index];
      && (r.Ok? <==> Modifier(op).Some? || (index > 0 && current == []))
      && (r.Err? ==> r.error == if index == 0 && current == [] then CannotStartWith(op) else DuplicateOperators)
      && (r.Ok? ==> r.value == Lists(l.evaluated, Pad(l.operators, index + 1)[index := current + [op]]))
  {
    var index := |l.evaluated|;
    var operators := l.operators;
    while index >= |operators|
      invariant |l.operators| <= |operators| <= if |l.operators| >= index + 1 then |l.operators| else index + 1
      invariant operators == Pad(l.operators, |operators|)
      decreases index - |operators|
    {
      operators := operators + [[]];
    }
    assert operators == Pad(l.operators, index + 1);
    var current := operators[index];
    if index == 0 && current == [] && Modifier(op).None? {
      return Err(CannotStartWith(op));
    }
    if current != [] && Modifier(op).None? {
      return Err(DuplicateOperators);
    }
    return Ok(Lists(l.evaluated, operators[index := current + [op]]));
  }

  /**
   * `pass`: reduces, left to right, every pair whose combining operator is of the given tier;
   * as written it keeps the first sign of the leading run after a reduction, corrected it drops it.
   */
  method Pass(types: set<OperatorType>, l: Lists, lib: Library, rev: Revision) returns (r: Result<Lists, EvalError>)
    requires SignsValid(l.operators)
    ensures r == PassFrom(types, 0, l, lib, rev)
  {
    var evaluated := l.evaluated;
    var operators := l.operators;
    if |evaluated| <= 1 {
      return Ok(l);
    }
    var i := 0;
    while i < |evaluated| - 1
      invariant SignsValid(operators)
      invariant PassFrom(types, 0, l, lib, rev) == PassFrom(types, i, Lists(evaluated, operators), lib, rev)
      decreases |evaluated| - i
    {
      if i != 0 && i >= |operators| {
        return Err(MissingOperator(i + 1));
      }
      if i + 1 >= |operators| || operators[i + 1] == [] {
        return Err(IndexOutOfBounds);
      }
      var currentOperators := operators[i];
      var nextOperators := operators[i + 1];
      var combining := nextOperators[0];
      if combining in types {
        ghost var l0 := Lists(evaluated, operators);
        SignsAreSigns(operators, i);
        SignsAreSigns(operators, i + 1);
        var left := evaluated[i];
        if currentOperators != [] {
          left := ApplyModifiers(left, Signs(i, currentOperators));
        }
        var right := evaluated[i + 1];
        if |nextOperators| > 1 {
          right := ApplyModifiers(right, nextOperators[1..]);
        }
        var result := Combine(combining, left, right, lib);
        evaluated := evaluated[..i] + [result] + evaluated[i + 2..];
        operators := operators[..i + 1] + operators[i + 2..];
        if currentOperators != [] {
          operators := operators[i := if i == 0 && rev.Corrected? then [] else [currentOperators[0]]];
        }
        ReducedPair(l0, i, lib, rev, left, right, evaluated, operators);
      } else {
        i := i + 1;
      }
    }
    return Ok(Lists(evaluated, operators));
  }

  /** The lists pass builds after one reduction are the reduction of the specification. */
  lemma ReducedPair(l: Lists, i: nat, lib: Library, rev: Revision, left: real, right: real,
                    evaluated: seq<real>, operators: seq<seq<OperatorType>>)
    requires i + 1 < |l.evaluated| && i + 1 < |l.operators| && l.operators[i + 1] != []
    requires SignsValid(l.operators)
    requires AllSigns(Signs(i, l.operators[i])) && AllSigns(Signs(i + 1, l.operators[i + 1]))
    requires left == if l.operators[i] != [] then ApplyModifiers(l.evaluated[i], Signs(i, l.operators[i])) else l.evaluated[i]
    requires right == if |l.operators[i + 1]| > 1 then ApplyModifiers(l.evaluated[i + 1], l.operators[i + 1][1..]) else l.evaluated[i + 1]
    requires evaluated == l.evaluated[..i] + [Combine(l.operators[i + 1][0], left, right, lib)] + l.evaluated[i + 2..]
    requires var rest := l.operators[..i + 1] + l.operators[i + 2..];
             operators == if l.operators[i] != [] then rest[i := if i == 0 && rev.Corrected? then [] else [l.operators[i][0]]] else rest
    ensures Lists(evaluated, operators) == ReduceAt(l, i, lib, rev)
  {
    var r := ReduceAt(l, i, lib, rev);
    assert ApplyModifiers(l.evaluated[i], Signs(i, l.operators[i])) == left;
    assert ApplyModifiers(l.evaluated[i + 1], Signs(i + 1, l.operators[i + 1])) == right;
    assert r.evaluated == evaluated;
  }

  /** The `evaluate` of one evaluable part. */
  method EvaluatePart(p: Part, vars: map<string, real>, lib: Library, rev: Revision) returns (r: Result<real, EvalError>)
    requires IsEvaluable(p)
    ensures r == PartValue(p, vars, lib, rev)
    decreases PartSize(p), 0
  {
    match p {
      case Number(v) =>
        return Ok(v);
      case Variable(name) =>
        var val := if name in vars then Some(vars[name]) else if Lower(name) in BuiltIn then Some(BuiltIn[Lower(name)]) else None;
        if val.None? {
          return Err(UnknownVariable(name));
        }
        return Ok(val.value);
      case Parenthesis(e) =>
        r := EvaluateParts(e.parts, vars, lib, rev);
      case Function(name, es) =>
        var args := EvaluateArgs(es, vars, lib, rev);
        if args.Err? {
          return Err(args.error);
        }
        var mathMethod := lib.functions(name, |args.value|);
        if mathMethod.None? {
          return Err(UnknownFunction(name, |args.value|));
        }
        return Ok(mathMethod.value(args.value));
    }
  }

  /** The loop of Function.evaluate that evaluates the argument expressions in order. */
  method EvaluateArgs(es: seq<Expression>, vars: map<string, real>, lib: Library, rev: Revision) returns (r: Result<seq<real>, EvalError>)
    ensures r == ArgValues(es, vars, lib, rev)
    decreases ExpressionsSize(es), 3
  {
    var values: seq<real> := [];
    for k := 0 to |es|
      invariant ArgValues(es[..k], vars, lib, rev) == Ok(values)
    {
      ArgNext(es, k, vars, lib, rev);
      ExpressionSizeBound(es, k);
      var v := EvaluateParts(es[k].parts, vars, lib, rev);
      if v.Err? {
        ArgPrefixError(es, k + 1, vars, lib, rev);
        return Err(v.error);
      }
      values := values + [v.value];
    }
    assert es[..|es|] == es;
    return Ok(values);
  }
}
