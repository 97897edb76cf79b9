/**
 * The elements a parsed expression is made of (the `Part` kinds of MathExpression)
 * and the operator table (`OperatorType`).
 */
module Parts {
  import opened Results

  /** The operator constants, declared in order of operation. */
  datatype OperatorType = Power | Multiply | Divide | Add | Subtract

  function Symbol(op: OperatorType): char {
    match op
    case Power => '^'
    case Multiply => '*'
    case Divide => '/'
    case Add => '+'
    case Subtract => '-'
  }

  /** The precedence tier: lower tiers fire first. */
  function ExecutionIndex(op: OperatorType): nat {
    match op
    case Power => 0
    case Multiply => 1
    case Divide => 1
    case Add => 2
    case Subtract => 2
  }

  /** The sign an operator contributes when it is used as a unary prefix; only `+` and `-` have one. */
  function Modifier(op: OperatorType): Option<int> {
    match op
    case Add => Some(1)
    case Subtract => Some(-1)
    case _ => None
  }

  /** The constants in declaration order, as `OperatorType.values()` lists them. */
  function Values(): (r: seq<OperatorType>)
    ensures SortedByTier(r)
  {
    [Power, Multiply, Divide, Add, Subtract]
  }

  /** Every constant is listed by `Values`. */
  lemma ValuesComplete(op: OperatorType)
    ensures op in Values()
  {
    match op
    case Power => assert Values()[0] == op;
    case Multiply => assert Values()[1] == op;
    case Divide => assert Values()[2] == op;
    case Add => assert Values()[3] == op;
    case Subtract => assert Values()[4] == op;
  }

  predicate SortedByTier(ops: seq<OperatorType>) {
    forall j, k :: 0 <= j < k < |ops| ==> ExecutionIndex(ops[j]) <= ExecutionIndex(ops[k])
  }

  /** The first operator of `ops` whose symbol is `c`, if any. */
  function FindSymbol(ops: seq<OperatorType>, c: char): (r: Option<OperatorType>)
    ensures r.Some? ==> r.value in ops && Symbol(r.value) == c
    ensures r.None? <==> forall op :: op in ops ==> Symbol(op) != c
  {
    if ops == [] then None
    else if Symbol(ops[0]) == c then Some(ops[0])
    else FindSymbol(ops[1..], c)
  }

  /** `OperatorType.valueOfSymbol`; `None` stands for the IllegalArgumentException it throws. */
  function ValueOfSymbol(c: char): (r: Option<OperatorType>)
    ensures r.Some? ==> Symbol(r.value) == c
    ensures r.None? <==> forall op :: Symbol(op) != c
  {
    FindSymbol(Values(), c)
  }

  /** Symbols are distinct, so looking up an operator's own symbol finds that operator. */
  lemma SymbolRoundTrip(op: OperatorType)
    ensures ValueOfSymbol(Symbol(op)) == Some(op)
  {
    var r := ValueOfSymbol(Symbol(op));
    assert r.Some? && Symbol(r.value) == Symbol(op);
  }

  /** Every symbol prefixed by a backslash, the text parseSimple builds its character class from. */
  function EscapedSymbols(ops: seq<OperatorType>): (r: string)
    ensures |r| == 2 * |ops|
    ensures forall c :: c in r <==> (c == '\\' && ops != []) || exists op :: op in ops && Symbol(op) == c
  {
    if ops == [] then ""
    else
      var rest := EscapedSymbols(ops[1..]);
      assert forall op :: op in ops <==> op == ops[0] || op in ops[1..];
      ['\\', Symbol(ops[0])] + rest
  }

  /** The `operators` string of parseSimple: the five symbols and the escaping backslash. */
  function OperatorCharacters(): (r: string)
    ensures forall c :: c in r <==> c == '\\' || ValueOfSymbol(c).Some?
  {
    EscapedSymbols(Values())
  }

  /** One step of the reduction in `getByOrder`: start a new tier or extend the existing one. */
  function AddToTiers(tiers: seq<set<OperatorType>>, op: OperatorType): (r: seq<set<OperatorType>>)
    requires ExecutionIndex(op) <= |tiers|
    ensures |r| == if ExecutionIndex(op) == |tiers| then |tiers| + 1 else |tiers|
    ensures forall k, x :: 0 <= k < |r| ==>
      (x in r[k] <==> (k < |tiers| && x in tiers[k]) || (x == op && k == ExecutionIndex(op)))
  {
    var i := ExecutionIndex(op);
    if |tiers| == i then tiers + [{op}] else tiers[i := tiers[i] + {op}]
  }

  /** The operators start at tier 0 and never skip a tier. */
  predicate TiersContiguous(ops: seq<OperatorType>) {
    && SortedByTier(ops)
    && (|ops| > 0 ==> ExecutionIndex(ops[0]) == 0)
    && forall k :: 0 < k < |ops| ==> ExecutionIndex(ops[k]) <= ExecutionIndex(ops[k - 1]) + 1
  }

  /** Groups tier-ordered operators into one set per tier. */
  function GroupByTier(ops: seq<OperatorType>): (r: seq<set<OperatorType>>)
    requires TiersContiguous(ops)
    ensures ops != [] ==> |r| == ExecutionIndex(ops[|ops| - 1]) + 1
    ensures ops == [] ==> r == []
  {
    if ops == [] then []
    else
      var init := ops[..|ops| - 1];
      assert TiersContiguous(init) by {
        assert forall k :: 0 <= k < |init| ==> init[k] == ops[k];
      }
      var g := GroupByTier(init);
      assert ExecutionIndex(ops[|ops| - 1]) <= |g| by {
        if |init| > 0 {
          assert init[|init| - 1] == ops[|ops| - 2];
        }
      }
      AddToTiers(g, ops[|ops| - 1])
  }

  /** Tier `k` of the grouping holds exactly the listed operators whose execution index is `k`. */
  lemma {:induction false} GroupByTierMembers(ops: seq<OperatorType>, k: nat, op: OperatorType)
    requires TiersContiguous(ops)
    requires k < |GroupByTier(ops)|
    ensures op in GroupByTier(ops)[k] <==> op in ops && ExecutionIndex(op) == k
  {
    var init := ops[..|ops| - 1];
    assert TiersContiguous(init) by {
      assert forall j :: 0 <= j < |init| ==> init[j] == ops[j];
    }
    assert op in ops <==> op in init || op == ops[|ops| - 1];
    assert GroupByTier(ops) == AddToTiers(GroupByTier(init), ops[|ops| - 1]);
    if k < |GroupByTier(init)| {
      GroupByTierMembers(init, k, op);
    }
  }

  lemma TierCases(op: OperatorType)
    ensures ExecutionIndex(op) == 0 <==> op == Power
    ensures ExecutionIndex(op) == 1 <==> op == Multiply || op == Divide
    ensures ExecutionIndex(op) == 2 <==> op == Add || op == Subtract
  {
  }

  /** `getByOrder`: the operator tiers in order of operation. */
  function GetByOrder(): (r: seq<set<OperatorType>>)
    ensures |r| == 3
    ensures forall k, op :: 0 <= k < 3 ==> (op in r[k] <==> ExecutionIndex(op) == k)
    ensures r == [{Power}, {Multiply, Divide}, {Add, Subtract}]
  {
    var r := GroupByTier(Values());
    assert forall k, op :: 0 <= k < 3 ==> (op in r[k] <==> ExecutionIndex(op) == k) by {
      forall k, op | 0 <= k < 3 ensures op in r[k] <==> ExecutionIndex(op) == k {
        ValuesComplete(op);
        GroupByTierMembers(Values(), k, op);
      }
    }
    assert forall op :: op in r[0] <==> op in {Power} by {
      forall op ensures op in r[0] <==> op in {Power} { TierCases(op); }
    }
    assert forall op :: op in r[1] <==> op in {Multiply, Divide} by {
      forall op ensures op in r[1] <==> op in {Multiply, Divide} { TierCases(op); }
    }
    assert forall op :: op in r[2] <==> op in {Add, Subtract} by {
      forall op ensures op in r[2] <==> op in {Add, Subtract} { TierCases(op); }
    }
    assert r[0] == {Power} && r[1] == {Multiply, Divide} && r[2] == {Add, Subtract};
    assert r == [r[0], r[1], r[2]];
    r
  }

  /** The closed set of element kinds of a parsed expression. */
  datatype Part =
    | Number(value: real)
    | Operator(op: OperatorType)
    | Parenthesis(expression: Expression)
    | Function(name: string, expressions: seq<Expression>)
    | Variable(name: string)
    | Comma

  /** The parts list of a (sub-)expression; its variable map is shared and held elsewhere. */
  datatype Expression = Expression(parts: seq<Part>)

  /** The class of a part, as `validNextParts` names the allowed successors. */
  datatype PartKind = NumberKind | OperatorKind | ParenthesisKind | FunctionKind | VariableKind | CommaKind

  function Kind(p: Part): PartKind {
    match p
    case Number(_) => NumberKind
    case Operator(_) => OperatorKind
    case Parenthesis(_) => ParenthesisKind
    case Function(_, _) => FunctionKind
    case Variable(_) => VariableKind
    case Comma => CommaKind
  }

  /** The parts that implement `Evaluable`: everything but operators and commas. */
  predicate IsEvaluable(p: Part) {
    !p.Operator? && !p.Comma?
  }

  /** The kinds that may directly follow `p` on the checked path of parseSimple. */
  function ValidNextParts(p: Part): (r: set<PartKind>)
    ensures IsEvaluable(p) ==> OperatorKind in r
    ensures p.Variable? || p.Function? ==> r == {OperatorKind}
    ensures CommaKind !in r
    ensures VariableKind in r <==> p.Comma?
  {
    match p
    case Number(_) => {OperatorKind, ParenthesisKind}
    case Operator(_) => {NumberKind, ParenthesisKind, OperatorKind}
    case Parenthesis(_) => {OperatorKind, ParenthesisKind}
    case Function(_, _) => {OperatorKind}
    case Variable(_) => {OperatorKind}
    case Comma => {ParenthesisKind, NumberKind, VariableKind, FunctionKind}
  }

  /** Whether an expression may end with `p`. */
  function IsComplete(p: Part): (r: bool)
    ensures r <==> IsEvaluable(p)
  {
    match p
    case Operator(_) => false
    case Comma => false
    case _ => true
  }

  /** The argument list with every empty argument expression removed, the others kept in order. */
  function DropEmpty(args: seq<Expression>): (r: seq<Expression>)
    ensures |r| <= |args|
  {
    if args == [] then []
    else if args[0].parts == [] then DropEmpty(args[1..])
    else [args[0]] + DropEmpty(args[1..])
  }

  /** The kept arguments are exactly the non-empty ones. */
  lemma {:induction false} DropEmptyMembers(args: seq<Expression>)
    ensures forall a :: a in DropEmpty(args) <==> a in args && a.parts != []
  {
    if args != [] {
      DropEmptyMembers(args[1..]);
      assert forall a :: a in args <==> a == args[0] || a in args[1..];
    }
  }

  /** Dropping empties distributes over concatenation, so the kept arguments keep their order. */
  lemma {:induction false} DropEmptyAppend(a: seq<Expression>, b: seq<Expression>)
    ensures DropEmpty(a + b) == DropEmpty(a) + DropEmpty(b)
  {
    if a == [] {
      assert a + b == b;
    } else {
      DropEmptyCons(a[0], a[1..] + b);
      DropEmptyCons(a[0], a[1..]);
      assert a + b == [a[0]] + (a[1..] + b);
      assert a == [a[0]] + a[1..];
      DropEmptyAppend(a[1..], b);
    }
  }

  lemma DropEmptyCons(x: Expression, rest: seq<Expression>)
    ensures DropEmpty([x] + rest) == (if x.parts == [] then [] else [x]) + DropEmpty(rest)
  {
    assert ([x] + rest)[1..] == rest;
  }

  /** The `Function` constructor: the name and the non-empty argument expressions. */
  function NewFunction(name: string, args: seq<Expression>): (r: Part)
    ensures r.Function? && r.name == name
    ensures forall a :: a in r.expressions <==> a in args && a.parts != []
  {
    DropEmptyMembers(args);
    Function(name, DropEmpty(args))
  }

  /** Structural size of a part tree, used as a termination measure. */
  function PartSize(p: Part): nat {
    match p
    case Parenthesis(e) => 1 + PartsSize(e.parts)
    case Function(_, es) => 1 + ExpressionsSize(es)
    case _ => 1
  }

  function PartsSize(ps: seq<Part>): nat {
    if ps == [] then 0 else PartsSize(ps[..|ps| - 1]) + PartSize(ps[|ps| - 1])
  }

  function ExpressionsSize(es: seq<Expression>): nat {
    if es == [] then 0 else ExpressionsSize(es[..|es| - 1]) + 1 + PartsSize(es[|es| - 1].parts)
  }

  lemma {:induction false} PartSizeBound(ps: seq<Part>, k: nat)
    requires k < |ps|
    ensures PartSize(ps[k]) <= PartsSize(ps)
  {
    if k < |ps| - 1 {
      PartSizeBound(ps[..|ps| - 1], k);
    }
  }

  lemma {:induction false} ExpressionSizeBound(es: seq<Expression>, k: nat)
    requires k < |es|
    ensures PartsSize(es[k].parts) < ExpressionsSize(es)
  {
    if k < |es| - 1 {
      ExpressionSizeBound(es[..|es| - 1], k);
    }
  }
}
