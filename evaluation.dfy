/**
 * What `evaluate` computes for a parts list, stated on the parts themselves: the grouping
 * loop leaves every operand after the first with an operator before it exactly when no two
 * evaluable parts stand side by side, and then the (corrected) evaluate is the usual order
 * of operations on the signed operands; otherwise it fails with an index out of bounds.
 * evaluate as written agrees on every expression without a leading minus sign.
 */
module Evaluation {
  import opened Results
  import opened Parts
  import opened Evaluator
  import opened OrderOfOperations
  import opened Expressions
  import opened Revisions

  /** No two evaluable parts follow each other without an operator between them. */
  predicate NoAdjacentOperands(parts: seq<Part>) {
    forall k :: 0 < k < |parts| ==> !(IsEvaluable(parts[k - 1]) && IsEvaluable(parts[k]))
  }

  /** Operand k has a non-empty operator run before it. */
  predicate Gap(l: Lists, k: nat) {
    k < |l.operators| && l.operators[k] != []
  }

  /** Every operand after the first has a non-empty operator run before it. */
  predicate Separated(l: Lists) {
    forall k: nat :: 0 < k < |l.evaluated| ==> Gap(l, k)
  }

  /** The shape of the two lists after the grouping loop has read `parts`. */
  predicate GroupShape(parts: seq<Part>, l: Lists) {
    && |l.operators| <= |l.evaluated| + 1
    && (parts != [] && IsEvaluable(parts[|parts| - 1]) ==> 1 <= |l.evaluated| && |l.operators| <= |l.evaluated|)
    && (parts != [] && parts[|parts| - 1].Operator? ==>
          |l.operators| == |l.evaluated| + 1 && l.operators[|l.evaluated|] != [])
    && (parts == [] ==> l == Lists([], []))
    && (Separated(l) <==> NoAdjacentOperands(parts))
    && (|l.evaluated| >= 1 <==> exists k :: 0 <= k < |parts| && IsEvaluable(parts[k]))
  }

  /** The grouping loop keeps its shape, part by part. */
  lemma {:induction false} GroupKeepsShape(parts: seq<Part>, vars: map<string, real>, lib: Library, rev: Revision)
    requires Group(parts, vars, lib, rev).Ok?
    ensures GroupShape(parts, Group(parts, vars, lib, rev).value)
    decreases |parts|
  {
    if parts != [] {
      GroupKeepsShape(parts[..|parts| - 1], vars, lib, rev);
      ShapeStep(parts, vars, lib, rev);
    }
  }

  /** One part read keeps the shape. */
  lemma ShapeStep(parts: seq<Part>, vars: map<string, real>, lib: Library, rev: Revision)
    requires parts != [] && Group(parts, vars, lib, rev).Ok?
    requires Group(parts[..|parts| - 1], vars, lib, rev).Ok?
    requires GroupShape(parts[..|parts| - 1], Group(parts[..|parts| - 1], vars, lib, rev).value)
    ensures GroupShape(parts, Group(parts, vars, lib, rev).value)
  {
    var front := parts[..|parts| - 1];
    var p := parts[|parts| - 1];
    var l0 := Group(front, vars, lib, rev).value;
    var l := Group(parts, vars, lib, rev).value;
    if IsEvaluable(p) {
      assert l.operators == l0.operators && l.evaluated == l0.evaluated + [l.evaluated[|l0.evaluated|]];
      if front != [] {
        assert parts[|parts| - 2] == front[|front| - 1];
        assert front[|front| - 1].Operator? || IsEvaluable(front[|front| - 1]);
      }
      EvaluableStep(parts, l0, l);
    } else {
      assert p.Operator?;
      OperatorStep(parts, l0, l, p.op);
    }
  }

  lemma EvaluableStep(parts: seq<Part>, l0: Lists, l: Lists)
    requires parts != [] && IsEvaluable(parts[|parts| - 1])
    requires GroupShape(parts[..|parts| - 1], l0)
    requires l.operators == l0.operators && |l.evaluated| == |l0.evaluated| + 1
    requires |parts| > 1 ==> parts[|parts| - 2].Operator? || IsEvaluable(parts[|parts| - 2])
    ensures GroupShape(parts, l)
  {
    var front := parts[..|parts| - 1];
    var n := |l0.evaluated|;
    assert forall k :: 0 <= k < |front| ==> parts[k] == front[k];
    if Separated(l) {
      forall k: nat | 0 < k < n ensures Gap(l0, k) {
        assert Gap(l, k);
      }
      if n >= 1 {
        assert Gap(l, n);
        assert !IsEvaluable(parts[|parts| - 2]);
      } else if |parts| > 1 {
        assert !IsEvaluable(parts[|parts| - 2]);
      }
    }
    assert IsEvaluable(parts[|parts| - 1]);
    if NoAdjacentOperands(parts) {
      assert NoAdjacentOperands(front);
      assert Separated(l0);
      if n >= 1 {
        assert |parts| > 1;
        assert parts[|parts| - 2].Operator?;
        assert Gap(l0, n);
      }
      forall k: nat | 0 < k < n + 1 ensures Gap(l, k) {
        if k < n {
          assert Gap(l0, k);
        }
      }
    }
  }

  lemma OperatorStep(parts: seq<Part>, l0: Lists, l: Lists, op: OperatorType)
    requires parts != [] && parts[|parts| - 1] == Operator(op)
    requires SignsValid(l0.operators) && GroupShape(parts[..|parts| - 1], l0)
    requires AddOperator(l0, op) == Ok(l)
    ensures GroupShape(parts, l)
  {
    var front := parts[..|parts| - 1];
    var n := |l0.evaluated|;
    AddOperatorPrefix(l0, op, l);
    assert forall k :: 0 <= k < |front| ==> parts[k] == front[k];
    assert NoAdjacentOperands(parts) <==> NoAdjacentOperands(front);
    assert (exists k :: 0 <= k < |parts| && IsEvaluable(parts[k])) <==> (exists k :: 0 <= k < |front| && IsEvaluable(front[k]));
    assert forall k: nat :: 0 < k < n ==> (Gap(l, k) <==> Gap(l0, k));
  }

  /** The operator lists after an operator: the earlier runs, padded with empty ones, then a non-empty run. */
  lemma AddOperatorPrefix(l0: Lists, op: OperatorType, l: Lists)
    requires SignsValid(l0.operators) && |l0.operators| <= |l0.evaluated| + 1 && AddOperator(l0, op) == Ok(l)
    ensures l.evaluated == l0.evaluated && |l.operators| == |l0.evaluated| + 1
    ensures l.operators[|l0.evaluated|] != []
    ensures forall k :: 0 <= k < |l0.evaluated| ==> l.operators[k] == (if k < |l0.operators| then l0.operators[k] else [])
  {
    var n := |l0.evaluated|;
    var padded := Pad(l0.operators, n + 1);
    assert l.operators == padded[n := padded[n] + [op]];
    forall k | 0 <= k < n ensures l.operators[k] == (if k < |l0.operators| then l0.operators[k] else []) {
      if k < |l0.operators| {
        assert padded[..|l0.operators|][k] == padded[k];
      }
    }
  }

  /** Once the parts are grouped, every later operand has an operator before it exactly when no two operands touch. */
  lemma GroupGapped(parts: seq<Part>, vars: map<string, real>, lib: Library, rev: Revision)
    requires Group(parts, vars, lib, rev).Ok? && |Group(parts, vars, lib, rev).value.evaluated| >= 1
    ensures Gapped(Group(parts, vars, lib, rev).value) <==> NoAdjacentOperands(parts)
  {
    GroupKeepsShape(parts, vars, lib, rev);
  }

  /**
   * evaluate on a grouped parts list: the usual order of operations on the signed operands
   * when no two operands are side by side and there is at least one, an index out of bounds
   * otherwise, and the grouping's own error when grouping fails.
   */
  lemma ValueMeaning(parts: seq<Part>, vars: map<string, real>, lib: Library)
    requires parts != []
    ensures Group(parts, vars, lib, Corrected).Err? ==> Value(parts, vars, lib, Corrected) == Err(Group(parts, vars, lib, Corrected).error)
    ensures Group(parts, vars, lib, Corrected).Ok? ==>
      var l := Group(parts, vars, lib, Corrected).value;
      && (|l.evaluated| >= 1 ==> (Gapped(l) <==> NoAdjacentOperands(parts)))
      && (Gapped(l) ==> Value(parts, vars, lib, Corrected) == Ok(Precedence(ChainOf(l), lib)))
      && (!Gapped(l) ==> Value(parts, vars, lib, Corrected) == Err(IndexOutOfBounds))
  {
    if Group(parts, vars, lib, Corrected).Ok? {
      var l := Group(parts, vars, lib, Corrected).value;
      if |l.evaluated| >= 1 {
        GroupGapped(parts, vars, lib, Corrected);
        ReduceCorrected(l, lib);
      }
    }
  }

  /**
   * A parts list that passes isValid, with an operand and an operator at least, never reads
   * past the lists: once grouped, it evaluates by the order of operations.
   */
  lemma ValidValue(parts: seq<Part>, vars: map<string, real>, lib: Library)
    requires Alternating(parts) && |parts| >= 2 && Group(parts, vars, lib, Corrected).Ok?
    ensures Gapped(Group(parts, vars, lib, Corrected).value)
    ensures Value(parts, vars, lib, Corrected) == Ok(Precedence(ChainOf(Group(parts, vars, lib, Corrected).value), lib))
  {
    GroupKeepsShape(parts, vars, lib, Corrected);
    var k := if IsEvaluable(parts[0]) then 0 else 1;
    assert IsEvaluable(parts[k]);
    ValueMeaning(parts, vars, lib);
  }

  /**
   * The same holds of evaluate as written whenever no minus sign stands before the first
   * operand of the parts or of any sub-expression or argument.
   */
  lemma WrittenMeaning(parts: seq<Part>, vars: map<string, real>, lib: Library)
    requires parts != [] && NoLeadingMinus(parts)
    ensures Group(parts, vars, lib, AsWritten).Err? ==> Value(parts, vars, lib, AsWritten) == Err(Group(parts, vars, lib, AsWritten).error)
    ensures Group(parts, vars, lib, AsWritten).Ok? ==>
      var l := Group(parts, vars, lib, AsWritten).value;
      && (|l.evaluated| >= 1 ==> (Gapped(l) <==> NoAdjacentOperands(parts)))
      && (Gapped(l) ==> Value(parts, vars, lib, AsWritten) == Ok(Precedence(ChainOf(l), lib)))
      && (!Gapped(l) ==> Value(parts, vars, lib, AsWritten) == Err(IndexOutOfBounds))
  {
    ValueRevisions(parts, vars, lib);
    GroupRevisions(parts, vars, lib);
    ValueMeaning(parts, vars, lib);
  }
}
