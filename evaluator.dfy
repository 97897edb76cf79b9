/**
 * `MathExpression.evaluate`, `pass` and `applyModifiers`, and the `evaluate` of each
 * evaluable part: numbers, variables, parenthesised sub-expressions and function calls.
 *
 * Doubles are modelled as reals. What the JVM supplies — `Math.pow`, division by zero and
 * the `java.lang.Math` methods a Function calls by reflection — is a `Library` parameter.
 */
module Evaluator {
  import opened Results
  import opened Parts

  /** The exceptions evaluation can throw, one constructor per distinct cause. */
  datatype EvalError =
    | EmptyParts
    | CannotStartWith(op: OperatorType)
    | DuplicateOperators
    | NotAnOperator
    | MissingOperator(position: nat)
    | IndexOutOfBounds
    | UnknownVariable(name: string)
    | UnknownFunction(name: string, arity: nat)

  /** The floating-point and reflective services the evaluator calls into. */
  datatype Library = Library(
    pow: (real, real) -> real,
    divideByZero: real -> real,
    functions: (string, nat) -> Option<seq<real> -> real>)

  /** The combiner of each operator type. */
  function Combine(op: OperatorType, a: real, b: real, lib: Library): real {
    match op
    case Power => lib.pow(a, b)
    case Multiply => a * b
    case Divide => if b == 0.0 then lib.divideByZero(a) else a / b
    case Add => a + b
    case Subtract => a - b
  }

  // ---------------------------------------------------------------------------------------
  // Signs

  /** Every operator of the run is a sign (ADD or SUBTRACT), so it has a modifier. */
  predicate AllSigns(run: seq<OperatorType>) {
    forall k :: 0 <= k < |run| ==> Modifier(run[k]).Some?
  }

  /** The product of the modifiers of a run of signs. */
  function SignOf(run: seq<OperatorType>): (r: int)
    requires AllSigns(run)
    ensures r == 1 || r == -1
  {
    if run == [] then 1 else SignOf(run[..|run| - 1]) * Modifier(run[|run| - 1]).value
  }

  /** `applyModifiers`: the value times the product of the run's modifiers. */
  function ApplyModifiers(v: real, run: seq<OperatorType>): real
    requires AllSigns(run)
  {
    v * SignOf(run) as real
  }

  function MinusCount(run: seq<OperatorType>): nat {
    if run == [] then 0 else MinusCount(run[..|run| - 1]) + (if run[|run| - 1] == Subtract then 1 else 0)
  }

  /** A run of signs negates exactly when it holds an odd number of minus signs. */
  lemma {:induction false} SignCountsMinuses(run: seq<OperatorType>)
    requires AllSigns(run)
    ensures SignOf(run) == (if MinusCount(run) % 2 == 0 then 1 else -1)
  {
    if run != [] {
      SignCountsMinuses(run[..|run| - 1]);
    }
  }

  /** Signs compose: applying two runs in turn is applying their concatenation. */
  lemma {:induction false} SignOfAppend(a: seq<OperatorType>, b: seq<OperatorType>)
    requires AllSigns(a) && AllSigns(b)
    ensures AllSigns(a + b)
    ensures SignOf(a + b) == SignOf(a) * SignOf(b)
    decreases |b|
  {
    if b == [] {
      assert a + b == a;
    } else {
      assert (a + b)[..|a + b| - 1] == a + b[..|b| - 1];
      SignOfAppend(a, b[..|b| - 1]);
    }
  }

  // ---------------------------------------------------------------------------------------
  // Variables

  /** The public constants of `java.lang.Math`, keyed by lower-cased field name. */
  const BuiltIn: map<string, real> := map[
    "e" := 2.718281828459045,
    "pi" := 3.141592653589793,
    "tau" := 6.283185307179586]

  function LowerChar(c: char): char {
    if 'A' <= c <= 'Z' then (c as int + 32) as char else c
  }

  /** `toLowerCase` on ASCII letters. */
  function Lower(s: string): (r: string)
    ensures |r| == |s| && forall k :: 0 <= k < |s| ==> r[k] == LowerChar(s[k])
  {
    if s == [] then [] else [LowerChar(s[0])] + Lower(s[1..])
  }

  /** The value of a Variable: the expression's own map first, then the built-in constants. */
  function Lookup(vars: map<string, real>, name: string): Option<real> {
    if name in vars then Some(vars[name])
    else if Lower(name) in BuiltIn then Some(BuiltIn[Lower(name)])
    else None
  }

  // ---------------------------------------------------------------------------------------
  // Grouping: the first loop of evaluate

  /**
   * The two lists evaluate works on: the values of the evaluable parts, and for each gap the
   * operators written there; `operators[0]` holds those before the first value and
   * `operators[k]` those between values k - 1 and k.
   */
  datatype Lists = Lists(evaluated: seq<real>, operators: seq<seq<OperatorType>>)

  /**
   * The runs obey the grouping checks: the leading run is all signs, and any other run is one
   * operator followed by signs.
   */
  predicate SignsValid(ops: seq<seq<OperatorType>>) {
    (|ops| > 0 ==> AllSigns(ops[0])) && forall k :: 0 < k < |ops| ==> |ops[k]| <= 1 || AllSigns(ops[k][1..])
  }

  /** The operator lists padded with empty runs up to length `n`. */
  function Pad(ops: seq<seq<OperatorType>>, n: nat): (r: seq<seq<OperatorType>>)
    ensures |r| == if |ops| >= n then |ops| else n
    ensures r[..|ops|] == ops && forall k :: |ops| <= k < |r| ==> r[k] == []
  {
    if |ops| >= n then ops else ops + seq(n - |ops|, _ => [])
  }

  /**
   * One operator part met by the grouping loop, at gap `|evaluated|`: a sign is always filed;
   * any other operator only as the first of its gap, and never before the first value.
   */
  function AddOperator(l: Lists, op: OperatorType): (r: Result<Lists, EvalError>)
    requires SignsValid(l.operators)
    ensures var index := |l.evaluated|; var current := Pad(l.operators, index + 1)[index];
      && (r.Ok? <==> Modifier(op).Some? || (index > 0 && current == []))
      && (r.Err? ==> r.error == if index == 0 && current == [] then CannotStartWith(op) else DuplicateOperators)
      && (r.Ok? ==> r.value == Lists(l.evaluated, Pad(l.operators, index + 1)[index := current + [op]]))
    ensures r.Ok? ==> SignsValid(r.value.operators)
  {
    var index := |l.evaluated|;
    var ops := Pad(l.operators, index + 1);
    var current := ops[index];
    if index == 0 && current == [] && Modifier(op).None? then Err(CannotStartWith(op))
    else if current != [] && Modifier(op).None? then Err(DuplicateOperators)
    else
      var r := ops[index := current + [op]];
      assert forall k :: 0 < k < |r| && k != index ==> r[k] == ops[k];
      assert index > 0 && current != [] ==> r[index][1..] == current[1..] + [op];
      Ok(Lists(l.evaluated, r))
  }

  // ---------------------------------------------------------------------------------------
  // Evaluation

  /**
   * Which reading of evaluate is meant: the code as written, or with its two defects in the
   * handling of leading signs corrected (see the Findings of the README). Sub-expressions are
   * evaluated under the same reading as the expression holding them.
   */
  datatype Revision = AsWritten | Corrected

  /** What evaluate returns for a parts list sharing the variable map `vars`. */
  function Value(parts: seq<Part>, vars: map<string, real>, lib: Library, rev: Revision): Result<real, EvalError>
    decreases PartsSize(parts), 2
  {
    if parts == [] then Err(EmptyParts)
    else
      var lists :- Group(parts, vars, lib, rev);
      Reduce(lists, lib, rev)
  }

  /** The grouping loop of evaluate over the parts, evaluating each evaluable part in turn. */
  function Group(parts: seq<Part>, vars: map<string, real>, lib: Library, rev: Revision): (r: Result<Lists, EvalError>)
    ensures r.Ok? ==> SignsValid(r.value.operators)
    decreases PartsSize(parts), 1
  {
    if parts == [] then Ok(Lists([], []))
    else
      assert PartSize(parts[|parts| - 1]) >= 1;
      var l :- Group(parts[..|parts| - 1], vars, lib, rev);
      var p := parts[|parts| - 1];
      if IsEvaluable(p) then
        var v :- PartValue(p, vars, lib, rev);
        Ok(Lists(l.evaluated + [v], l.operators))
      else if p.Comma? then Err(NotAnOperator)
      else AddOperator(l, p.op)
  }

  /** The `evaluate` of one evaluable part. */
  function PartValue(p: Part, vars: map<string, real>, lib: Library, rev: Revision): Result<real, EvalError>
    requires IsEvaluable(p)
    decreases PartSize(p), 0
  {
    match p
    case Number(v) => Ok(v)
    case Variable(name) =>
      (match Lookup(vars, name)
       case Some(v) => Ok(v)
       case None => Err(UnknownVariable(name)))
    case Parenthesis(e) => Value(e.parts, vars, lib, rev)
    case Function(name, es) =>
      var args :- ArgValues(es, vars, lib, rev);
      match lib.functions(name, |args|)
      case Some(f) => Ok(f(args))
      case None => Err(UnknownFunction(name, |args|))
  }

  /** The argument expressions of a function call, evaluated left to right. */
  function ArgValues(es: seq<Expression>, vars: map<string, real>, lib: Library, rev: Revision): (r: Result<seq<real>, EvalError>)
    ensures r.Ok? ==> |r.value| == |es|
    decreases ExpressionsSize(es), 3
  {
    if es == [] then Ok([])
    else
      var front :- ArgValues(es[..|es| - 1], vars, lib, rev);
      var last :- Value(es[|es| - 1].parts, vars, lib, rev);
      Ok(front + [last])
  }

  // ---------------------------------------------------------------------------------------
  // Reduction: pass over the tiers

  /** The signs of the operand at position i: the whole leading run, or a run after its operator. */
  function Signs(i: nat, run: seq<OperatorType>): seq<OperatorType> {
    if i == 0 || run == [] then run else run[1..]
  }

  lemma SignsAreSigns(ops: seq<seq<OperatorType>>, i: nat)
    requires SignsValid(ops) && i < |ops|
    ensures AllSigns(Signs(i, ops[i]))
  {
    if i > 0 && |ops[i]| == 1 {
      assert Signs(i, ops[i]) == [];
    }
  }

  /** The run left at position i once its operand has been combined. */
  function Trimmed(i: nat, run: seq<OperatorType>, rev: Revision): seq<OperatorType> {
    if run == [] || (rev.Corrected? && i == 0) then [] else [run[0]]
  }

  /** One reduction of pass: values i and i + 1, with their signs, combined by operator i + 1. */
  function ReduceAt(l: Lists, i: nat, lib: Library, rev: Revision): (r: Lists)
    requires i + 1 < |l.evaluated| && i + 1 < |l.operators| && l.operators[i + 1] != []
    requires SignsValid(l.operators)
    ensures |r.evaluated| == |l.evaluated| - 1 && |r.operators| == |l.operators| - 1
    ensures SignsValid(r.operators)
  {
    var ops := l.operators;
    SignsAreSigns(ops, i);
    SignsAreSigns(ops, i + 1);
    var left := ApplyModifiers(l.evaluated[i], Signs(i, ops[i]));
    var right := ApplyModifiers(l.evaluated[i + 1], Signs(i + 1, ops[i + 1]));
    var result := Combine(ops[i + 1][0], left, right, lib);
    var rest := ops[..i + 1] + ops[i + 2..];
    var newOps := rest[i := Trimmed(i, ops[i], rev)];
    assert forall k :: 0 <= k < |newOps| && k != i ==> newOps[k] == (if k < i then ops[k] else ops[k + 1]);
    Lists(l.evaluated[..i] + [result] + l.evaluated[i + 2..], newOps)
  }

  /** The loop of pass from index i: reduce every pair whose combining operator is in `types`. */
  function PassFrom(types: set<OperatorType>, i: nat, l: Lists, lib: Library, rev: Revision): (r: Result<Lists, EvalError>)
    requires SignsValid(l.operators)
    ensures r.Ok? ==> SignsValid(r.value.operators)
    ensures r.Ok? && l.evaluated != [] ==> 1 <= |r.value.evaluated| <= |l.evaluated|
    decreases |l.evaluated| - i
  {
    if i + 1 >= |l.evaluated| then Ok(l)
    else if i != 0 && i >= |l.operators| then Err(MissingOperator(i + 1))
    else if i + 1 >= |l.operators| || l.operators[i + 1] == [] then Err(IndexOutOfBounds)
    else if l.operators[i + 1][0] !in types then PassFrom(types, i + 1, l, lib, rev)
    else PassFrom(types, i, ReduceAt(l, i, lib, rev), lib, rev)
  }

  /** `pass` once per operator tier, in order of operation. */
  function Tiers(tiers: seq<set<OperatorType>>, l: Lists, lib: Library, rev: Revision): (r: Result<Lists, EvalError>)
    requires SignsValid(l.operators)
    ensures r.Ok? ==> SignsValid(r.value.operators)
    ensures r.Ok? && l.evaluated != [] ==> 1 <= |r.value.evaluated| <= |l.evaluated|
  {
    if tiers == [] then Ok(l)
    else
      var next :- PassFrom(tiers[0], 0, l, lib, rev);
      Tiers(tiers[1..], next, lib, rev)
  }

  /** The value of a lone operand: its leading signs applied. */
  function SingleOperand(v: real, ops: seq<seq<OperatorType>>, rev: Revision): real
    requires SignsValid(ops)
  {
    if |ops| == 0 then v
    else if rev.Corrected? then ApplyModifiers(v, ops[0])
    else if |ops[0]| > 1 then ApplyModifiers(v, ops[0][1..])
    else v
  }

  /** The second half of evaluate: a lone operand, or the tiers reduced to one value. */
  function Reduce(l: Lists, lib: Library, rev: Revision): Result<real, EvalError>
    requires SignsValid(l.operators)
  {
    if |l.evaluated| == 0 then Err(IndexOutOfBounds)
    else if |l.evaluated| == 1 then Ok(SingleOperand(l.evaluated[0], l.operators, rev))
    else
      var last :- Tiers(GetByOrder(), l, lib, rev);
      Ok(last.evaluated[0])
  }
}
