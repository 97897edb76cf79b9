/**
 * The grouping loop of evaluate stated on the parts themselves: the values it collects are
 * those of the evaluable parts in order, the run it files at gap k is the operators written
 * between operands k - 1 and k, and the part that makes it throw is the first comma, the
 * first evaluable part whose evaluate throws, or the first operator other than a sign that
 * opens the expression or follows another operator.
 */
module Grouping {
  import opened Results
  import opened Parts
  import opened Evaluator

  /** The evaluable parts, in order. */
  function EvaluableParts(parts: seq<Part>): (r: seq<Part>)
    ensures |r| <= |parts|
    ensures forall j :: 0 <= j < |r| ==> IsEvaluable(r[j])
  {
    if parts == [] then []
    else
      var p := parts[|parts| - 1];
      EvaluableParts(parts[..|parts| - 1]) + (if IsEvaluable(p) then [p] else [])
  }

  /** The operators written after exactly k evaluable parts: gap k, before operand k. */
  function RunAt(parts: seq<Part>, k: nat): seq<OperatorType> {
    if parts == [] then []
    else
      var front := parts[..|parts| - 1];
      var p := parts[|parts| - 1];
      RunAt(front, k) + (if p.Operator? && |EvaluableParts(front)| == k then [p.op] else [])
  }

  /** No operator is written past the last operand's gap. */
  lemma {:induction false} RunBeyond(parts: seq<Part>, k: nat)
    requires k > |EvaluableParts(parts)|
    ensures RunAt(parts, k) == []
  {
    if parts != [] {
      RunBeyond(parts[..|parts| - 1], k);
    }
  }

  /** Without commas, the gap after the last operand holds an operator exactly when the parts end in one. */
  lemma LastRun(parts: seq<Part>)
    requires parts != [] && forall j :: 0 <= j < |parts| ==> !parts[j].Comma?
    ensures RunAt(parts, |EvaluableParts(parts)|) != [] <==> parts[|parts| - 1].Operator?
  {
    var front := parts[..|parts| - 1];
    if IsEvaluable(parts[|parts| - 1]) {
      RunBeyond(front, |EvaluableParts(parts)|);
    }
  }

  /** The two lists hold the values of the evaluable parts and the runs of operators between them. */
  predicate Collects(parts: seq<Part>, l: Lists, vars: map<string, real>, lib: Library, rev: Revision) {
    && |l.evaluated| == |EvaluableParts(parts)|
    && (forall j :: 0 <= j < |l.evaluated| ==>
          PartValue(EvaluableParts(parts)[j], vars, lib, rev) == Ok(l.evaluated[j]))
    && |l.operators| <= |l.evaluated| + 1
    && (forall k :: 0 <= k < |l.operators| ==> l.operators[k] == RunAt(parts, k))
    && (forall k :: |l.operators| <= k <= |l.evaluated| ==> RunAt(parts, k) == [])
    && (l.operators != [] ==> l.operators[|l.operators| - 1] != [])
  }

  /**
   * What the grouping loop collects: `evaluated[j]` is the value of the j-th evaluable part,
   * `operators[k]` the operators written between operands k - 1 and k, and the operator list
   * stops at the last gap that holds an operator.
   */
  lemma {:induction false} GroupContents(parts: seq<Part>, vars: map<string, real>, lib: Library, rev: Revision)
    requires Group(parts, vars, lib, rev).Ok?
    ensures Collects(parts, Group(parts, vars, lib, rev).value, vars, lib, rev)
  {
    if parts != [] {
      var front := parts[..|parts| - 1];
      var p := parts[|parts| - 1];
      GroupContents(front, vars, lib, rev);
      var l0 := Group(front, vars, lib, rev).value;
      var l := Group(parts, vars, lib, rev).value;
      var n := |l0.evaluated|;
      assert parts == front + [p];
      if IsEvaluable(p) {
        EvaluableCollects(front, p, l0, l.evaluated[n], vars, lib, rev);
      } else {
        assert p.Operator?;
        EvaluableOperator(front, p);
        OperatorCollects(front, p.op, l0, l, vars, lib, rev);
      }
    }
  }

  lemma EvaluableCollects(front: seq<Part>, p: Part, l0: Lists, v: real,
                          vars: map<string, real>, lib: Library, rev: Revision)
    requires IsEvaluable(p) && PartValue(p, vars, lib, rev) == Ok(v) && Collects(front, l0, vars, lib, rev)
    ensures Collects(front + [p], Lists(l0.evaluated + [v], l0.operators), vars, lib, rev)
  {
    var parts := front + [p];
    var l := Lists(l0.evaluated + [v], l0.operators);
    assert parts[..|parts| - 1] == front;
    assert EvaluableParts(parts) == EvaluableParts(front) + [p];
    assert forall k :: RunAt(parts, k) == RunAt(front, k);
    forall k | |l.operators| <= k <= |l.evaluated| ensures RunAt(parts, k) == [] {
      if k == |l0.evaluated| + 1 {
        RunBeyond(front, k);
      }
    }
  }

  lemma EvaluableOperator(front: seq<Part>, p: Part)
    requires p.Operator?
    ensures EvaluableParts(front + [p]) == EvaluableParts(front)
    ensures forall k :: RunAt(front + [p], k) == RunAt(front, k) + (if |EvaluableParts(front)| == k then [p.op] else [])
  {
    assert (front + [p])[..|front + [p]| - 1] == front;
  }

  lemma OperatorCollects(front: seq<Part>, op: OperatorType, l0: Lists, l: Lists,
                         vars: map<string, real>, lib: Library, rev: Revision)
    requires SignsValid(l0.operators) && Collects(front, l0, vars, lib, rev) && AddOperator(l0, op) == Ok(l)
    requires EvaluableParts(front + [Operator(op)]) == EvaluableParts(front)
    requires forall k :: RunAt(front + [Operator(op)], k) == RunAt(front, k) + (if |EvaluableParts(front)| == k then [op] else [])
    ensures Collects(front + [Operator(op)], l, vars, lib, rev)
  {
    var n := |l0.evaluated|;
    OperatorRuns(l0.operators, n, op, l.operators, RunAt(front, n));
    forall k | 0 <= k < |l.operators| ensures l.operators[k] == RunAt(front + [Operator(op)], k) {
      if k < n {
        assert k < |l0.operators| ==> l0.operators[k] == RunAt(front, k);
      }
    }
  }

  /** The runs after an operator at gap n: the run of gap n grows by it, the earlier ones stay. */
  lemma OperatorRuns(ops: seq<seq<OperatorType>>, n: nat, op: OperatorType, next: seq<seq<OperatorType>>, current: seq<OperatorType>)
    requires |ops| <= n + 1 && next == Pad(ops, n + 1)[n := Pad(ops, n + 1)[n] + [op]]
    requires current == if n < |ops| then ops[n] else []
    ensures |next| == n + 1 && next[n] == current + [op]
    ensures forall k :: 0 <= k < n ==> next[k] == if k < |ops| then ops[k] else []
  {
    var padded := Pad(ops, n + 1);
    if n < |ops| {
      assert padded[..|ops|][n] == padded[n];
    }
    forall k | 0 <= k < n ensures next[k] == if k < |ops| then ops[k] else [] {
      if k < |ops| {
        assert padded[..|ops|][k] == padded[k];
      }
    }
  }

  // ---------------------------------------------------------------------------------------
  // Which part makes the grouping loop throw

  /** Part j is an operator other than a sign, opening the parts or following another operator. */
  predicate Misplaced(parts: seq<Part>, j: nat) {
    j < |parts| && parts[j].Operator? && Modifier(parts[j].op).None? && (j == 0 || parts[j - 1].Operator?)
  }

  /** Part j stops the grouping loop: a comma, a misplaced operator, or a part whose evaluate throws. */
  predicate Fails(parts: seq<Part>, j: nat, vars: map<string, real>, lib: Library, rev: Revision) {
    j < |parts| &&
    (parts[j].Comma? || Misplaced(parts, j) || (IsEvaluable(parts[j]) && PartValue(parts[j], vars, lib, rev).Err?))
  }

  /** Part j fails and no part before it does. */
  predicate FirstFailure(parts: seq<Part>, j: nat, vars: map<string, real>, lib: Library, rev: Revision) {
    Fails(parts, j, vars, lib, rev) && forall i :: 0 <= i < j ==> !Fails(parts, i, vars, lib, rev)
  }

  /** The exception a failing part throws. */
  function FailureAt(parts: seq<Part>, j: nat, vars: map<string, real>, lib: Library, rev: Revision): EvalError
    requires Fails(parts, j, vars, lib, rev)
  {
    if parts[j].Comma? then NotAnOperator
    else if IsEvaluable(parts[j]) then PartValue(parts[j], vars, lib, rev).error
    else if j == 0 then CannotStartWith(parts[j].op)
    else DuplicateOperators
  }

  /** No part fails. */
  predicate NoFailure(parts: seq<Part>, vars: map<string, real>, lib: Library, rev: Revision) {
    forall j :: 0 <= j < |parts| ==> !Fails(parts, j, vars, lib, rev)
  }

  /**
   * The grouping loop succeeds exactly when no part fails, and otherwise throws what the first
   * failing part throws: "Not an operator" for a comma, the part's own exception, "Cannot start
   * expression with" for an operator other than a sign at the start, and "Duplicate operators"
   * for one that follows another operator.
   */
  lemma {:induction false} GroupFailure(parts: seq<Part>, vars: map<string, real>, lib: Library, rev: Revision)
    ensures Group(parts, vars, lib, rev).Ok? <==> NoFailure(parts, vars, lib, rev)
    ensures forall j :: FirstFailure(parts, j, vars, lib, rev) ==>
      Group(parts, vars, lib, rev) == Err(FailureAt(parts, j, vars, lib, rev))
  {
    if parts != [] {
      var front := parts[..|parts| - 1];
      var p := parts[|parts| - 1];
      GroupFailure(front, vars, lib, rev);
      FailsPrefix(parts, vars, lib, rev);
      if Group(front, vars, lib, rev).Ok? {
        FailureLast(front, p, vars, lib, rev);
        assert parts == front + [p];
      }
      forall j: nat | FirstFailure(parts, j, vars, lib, rev)
        ensures Group(parts, vars, lib, rev) == Err(FailureAt(parts, j, vars, lib, rev))
      {
        if j < |front| {
          assert FirstFailure(front, j, vars, lib, rev);
        } else {
          assert NoFailure(front, vars, lib, rev);
        }
      }
    }
  }

  /** A part fails in the parts exactly when it fails in any prefix holding it, with the same exception. */
  lemma FailsPrefix(parts: seq<Part>, vars: map<string, real>, lib: Library, rev: Revision)
    requires parts != []
    ensures var front := parts[..|parts| - 1];
      && (NoFailure(parts, vars, lib, rev) <==> NoFailure(front, vars, lib, rev) && !Fails(parts, |front|, vars, lib, rev))
      && (forall j :: 0 <= j < |front| ==> (Fails(parts, j, vars, lib, rev) <==> Fails(front, j, vars, lib, rev)))
      && (forall j :: 0 <= j < |front| && Fails(front, j, vars, lib, rev) ==>
            FailureAt(parts, j, vars, lib, rev) == FailureAt(front, j, vars, lib, rev))
  {
    var front := parts[..|parts| - 1];
    assert forall j :: 0 <= j < |front| ==> front[j] == parts[j];
    assert forall j :: 0 <= j < |front| ==> (Fails(parts, j, vars, lib, rev) <==> Fails(front, j, vars, lib, rev));
  }

  /** The last part read after parts that do not fail: the loop goes on exactly when it does not fail. */
  lemma FailureLast(front: seq<Part>, p: Part, vars: map<string, real>, lib: Library, rev: Revision)
    requires Group(front, vars, lib, rev).Ok? && NoFailure(front, vars, lib, rev)
    ensures Group(front + [p], vars, lib, rev).Ok? <==> !Fails(front + [p], |front|, vars, lib, rev)
    ensures Group(front + [p], vars, lib, rev).Err? ==>
      Group(front + [p], vars, lib, rev).error == FailureAt(front + [p], |front|, vars, lib, rev)
  {
    var parts := front + [p];
    assert parts[..|parts| - 1] == front;
    if p.Operator? {
      LastStep(front, p.op, vars, lib, rev);
      assert parts == front + [Operator(p.op)];
    }
  }

  /** An operator read after parts that do not fail is filed exactly when it is not misplaced. */
  lemma LastStep(front: seq<Part>, op: OperatorType, vars: map<string, real>, lib: Library, rev: Revision)
    requires Group(front, vars, lib, rev).Ok?
    requires forall j :: 0 <= j < |front| ==> !Fails(front, j, vars, lib, rev)
    ensures var parts := front + [Operator(op)];
      && (AddOperator(Group(front, vars, lib, rev).value, op).Ok? <==> !Misplaced(parts, |front|))
      && (AddOperator(Group(front, vars, lib, rev).value, op).Err? ==>
            AddOperator(Group(front, vars, lib, rev).value, op).error ==
              if |front| == 0 then CannotStartWith(op) else DuplicateOperators)
  {
    var l := Group(front, vars, lib, rev).value;
    GroupContents(front, vars, lib, rev);
    var n := |l.evaluated|;
    var current := Pad(l.operators, n + 1)[n];
    assert current == RunAt(front, n) by {
      if n < |l.operators| {
        assert Pad(l.operators, n + 1)[..|l.operators|][n] == current;
      }
    }
    if front != [] {
      assert forall j :: 0 <= j < |front| ==> !front[j].Comma? by {
        forall j | 0 <= j < |front| ensures !front[j].Comma? {
          assert !Fails(front, j, vars, lib, rev);
        }
      }
      LastRun(front);
      if n == 0 {
        assert !IsEvaluable(front[|front| - 1]);
      }
    }
  }

  /**
   * Without commas, and with every evaluable part evaluating, the grouping loop throws exactly
   * when some operator other than a sign opens the parts or follows another operator.
   */
  lemma GroupRejectsOperator(parts: seq<Part>, vars: map<string, real>, lib: Library, rev: Revision)
    requires forall j :: 0 <= j < |parts| ==> !parts[j].Comma?
    requires forall j :: 0 <= j < |parts| && IsEvaluable(parts[j]) ==> PartValue(parts[j], vars, lib, rev).Ok?
    ensures Group(parts, vars, lib, rev).Err? <==> exists j :: 0 <= j < |parts| && Misplaced(parts, j)
  {
    GroupFailure(parts, vars, lib, rev);
    assert forall j :: 0 <= j < |parts| ==> (Fails(parts, j, vars, lib, rev) <==> Misplaced(parts, j));
  }

  /** The grouping loop on the parts themselves: what it collects, or where and how it throws. */
  lemma GroupMeaning(parts: seq<Part>, vars: map<string, real>, lib: Library, rev: Revision)
    ensures Group(parts, vars, lib, rev).Ok? <==> NoFailure(parts, vars, lib, rev)
    ensures Group(parts, vars, lib, rev).Ok? ==> Collects(parts, Group(parts, vars, lib, rev).value, vars, lib, rev)
    ensures forall j :: FirstFailure(parts, j, vars, lib, rev) ==>
      Group(parts, vars, lib, rev) == Err(FailureAt(parts, j, vars, lib, rev))
  {
    GroupFailure(parts, vars, lib, rev);
    if Group(parts, vars, lib, rev).Ok? {
      GroupContents(parts, vars, lib, rev);
    }
  }
}
