/**
 * The two readings of evaluate agree on every expression that has no minus sign before its
 * first operand, itself or in any sub-expression or argument: the defects in the handling of
 * leading signs only show on a leading minus.
 */
module Revisions {
  import opened Results
  import opened Parts
  import opened Evaluator
  import opened Grouping

  /** The run holds no minus sign. */
  predicate NoMinus(run: seq<OperatorType>) {
    forall k :: 0 <= k < |run| ==> run[k] != Subtract
  }

  /** Signs without a minus do not change a value. */
  lemma {:induction false} PlusSign(run: seq<OperatorType>)
    requires AllSigns(run) && NoMinus(run)
    ensures SignOf(run) == 1
  {
    if run != [] {
      PlusSign(run[..|run| - 1]);
    }
  }

  // ---------------------------------------------------------------------------------------
  // The reduction under both readings

  /** The lists agree but for their leading runs, which both hold no minus sign. */
  predicate SameButLeading(a: Lists, b: Lists) {
    && a.evaluated == b.evaluated
    && |a.operators| == |b.operators|
    && (forall k :: 0 < k < |a.operators| ==> a.operators[k] == b.operators[k])
    && (|a.operators| > 0 ==> NoMinus(a.operators[0]) && NoMinus(b.operators[0]))
  }

  /** The lists one reduction leaves: position i combined, the rest shifted down by one. */
  lemma ReduceAtLists(l: Lists, i: nat, lib: Library, rev: Revision)
    requires i + 1 < |l.evaluated| && i + 1 < |l.operators| && l.operators[i + 1] != []
    requires SignsValid(l.operators)
    ensures var r := ReduceAt(l, i, lib, rev);
      && AllSigns(Signs(i, l.operators[i])) && AllSigns(Signs(i + 1, l.operators[i + 1]))
      && r.evaluated == l.evaluated[..i]
           + [Combine(l.operators[i + 1][0], ApplyModifiers(l.evaluated[i], Signs(i, l.operators[i])),
                      ApplyModifiers(l.evaluated[i + 1], Signs(i + 1, l.operators[i + 1])), lib)]
           + l.evaluated[i + 2..]
      && r.operators[i] == Trimmed(i, l.operators[i], rev)
      && forall k :: 0 <= k < |r.operators| && k != i ==> r.operators[k] == (if k < i then l.operators[k] else l.operators[k + 1])
  {
    SignsAreSigns(l.operators, i);
    SignsAreSigns(l.operators, i + 1);
  }

  lemma ReduceAtRevisions(a: Lists, b: Lists, i: nat, lib: Library)
    requires SignsValid(a.operators) && SignsValid(b.operators) && SameButLeading(a, b)
    requires i + 1 < |a.evaluated| && i + 1 < |a.operators| && a.operators[i + 1] != []
    ensures SameButLeading(ReduceAt(a, i, lib, AsWritten), ReduceAt(b, i, lib, Corrected))
  {
    ReduceAtLists(a, i, lib, AsWritten);
    ReduceAtLists(b, i, lib, Corrected);
    var ra := ReduceAt(a, i, lib, AsWritten);
    var rb := ReduceAt(b, i, lib, Corrected);
    if i == 0 {
      PlusSign(a.operators[0]);
      PlusSign(b.operators[0]);
    }
    assert ApplyModifiers(a.evaluated[i], Signs(i, a.operators[i])) == ApplyModifiers(b.evaluated[i], Signs(i, b.operators[i]));
    assert ra.evaluated == rb.evaluated;
  }

  /** A pass under both readings, from lists that agree but for their leading runs. */
  lemma {:induction false} PassFromRevisions(types: set<OperatorType>, i: nat, a: Lists, b: Lists, lib: Library)
    requires SignsValid(a.operators) && SignsValid(b.operators) && SameButLeading(a, b)
    ensures var ra := PassFrom(types, i, a, lib, AsWritten);
      var rb := PassFrom(types, i, b, lib, Corrected);
      && ra.Ok? == rb.Ok?
      && (ra.Err? ==> ra.error == rb.error)
      && (ra.Ok? ==> SameButLeading(ra.value, rb.value))
    decreases |a.evaluated| - i
  {
    if i + 1 < |a.evaluated| && (i == 0 || i < |a.operators|) && i + 1 < |a.operators| && a.operators[i + 1] != [] {
      if a.operators[i + 1][0] !in types {
        PassFromRevisions(types, i + 1, a, b, lib);
      } else {
        ReduceAtRevisions(a, b, i, lib);
        PassFromRevisions(types, i, ReduceAt(a, i, lib, AsWritten), ReduceAt(b, i, lib, Corrected), lib);
      }
    }
  }

  lemma {:induction false} TiersRevisions(tiers: seq<set<OperatorType>>, a: Lists, b: Lists, lib: Library)
    requires SignsValid(a.operators) && SignsValid(b.operators) && SameButLeading(a, b)
    ensures var ra := Tiers(tiers, a, lib, AsWritten);
      var rb := Tiers(tiers, b, lib, Corrected);
      && ra.Ok? == rb.Ok?
      && (ra.Err? ==> ra.error == rb.error)
      && (ra.Ok? ==> SameButLeading(ra.value, rb.value))
  {
    if tiers != [] {
      PassFromRevisions(tiers[0], 0, a, b, lib);
      var pa := PassFrom(tiers[0], 0, a, lib, AsWritten);
      var pb := PassFrom(tiers[0], 0, b, lib, Corrected);
      if pa.Ok? {
        TiersRevisions(tiers[1..], pa.value, pb.value, lib);
      }
    }
  }

  /** The second half of evaluate reads the same both ways when the leading run holds no minus. */
  lemma ReduceRevisions(l: Lists, lib: Library)
    requires SignsValid(l.operators) && (|l.operators| > 0 ==> NoMinus(l.operators[0]))
    ensures Reduce(l, lib, AsWritten) == Reduce(l, lib, Corrected)
  {
    if |l.evaluated| == 1 && |l.operators| > 0 {
      var run := l.operators[0];
      PlusSign(run);
      if |run| > 1 {
        assert AllSigns(run[1..]) && NoMinus(run[1..]);
        PlusSign(run[1..]);
      }
    } else if |l.evaluated| > 1 {
      TiersRevisions(GetByOrder(), l, l, lib);
    }
  }

  // ---------------------------------------------------------------------------------------
  // Evaluate under both readings

  /** No minus sign before the first operand of any sub-expression or argument of the part. */
  predicate NoLeadingMinusPart(p: Part)
    decreases PartSize(p), 0
  {
    match p
    case Parenthesis(e) => NoLeadingMinus(e.parts)
    case Function(_, es) => NoLeadingMinusArgs(es)
    case _ => true
  }

  predicate NoLeadingMinusIn(parts: seq<Part>)
    decreases PartsSize(parts), 1
  {
    parts == [] ||
    (assert PartSize(parts[|parts| - 1]) >= 1;
     NoLeadingMinusIn(parts[..|parts| - 1]) && NoLeadingMinusPart(parts[|parts| - 1]))
  }

  /** No minus sign before the first operand, in the parts or in any sub-expression or argument. */
  predicate NoLeadingMinus(parts: seq<Part>)
    decreases PartsSize(parts), 2
  {
    NoMinus(RunAt(parts, 0)) && NoLeadingMinusIn(parts)
  }

  predicate NoLeadingMinusArgs(es: seq<Expression>)
    decreases ExpressionsSize(es), 3
  {
    es == [] || (NoLeadingMinusArgs(es[..|es| - 1]) && NoLeadingMinus(es[|es| - 1].parts))
  }

  /** evaluate as written is the corrected evaluate on parts with no leading minus at any depth. */
  lemma {:induction false} ValueRevisions(parts: seq<Part>, vars: map<string, real>, lib: Library)
    requires NoLeadingMinus(parts)
    ensures Value(parts, vars, lib, AsWritten) == Value(parts, vars, lib, Corrected)
    decreases PartsSize(parts), 2
  {
    if parts != [] {
      GroupRevisions(parts, vars, lib);
      if Group(parts, vars, lib, Corrected).Ok? {
        var l := Group(parts, vars, lib, Corrected).value;
        GroupContents(parts, vars, lib, Corrected);
        ReduceRevisions(l, lib);
      }
    }
  }

  /** The grouping loop collects the same lists under both readings. */
  lemma {:induction false} GroupRevisions(parts: seq<Part>, vars: map<string, real>, lib: Library)
    requires NoLeadingMinusIn(parts)
    ensures Group(parts, vars, lib, AsWritten) == Group(parts, vars, lib, Corrected)
    decreases PartsSize(parts), 1
  {
    if parts != [] {
      var p := parts[|parts| - 1];
      assert PartSize(p) >= 1;
      GroupRevisions(parts[..|parts| - 1], vars, lib);
      if IsEvaluable(p) {
        PartRevisions(p, vars, lib);
      }
    }
  }

  lemma {:induction false} PartRevisions(p: Part, vars: map<string, real>, lib: Library)
    requires IsEvaluable(p) && NoLeadingMinusPart(p)
    ensures PartValue(p, vars, lib, AsWritten) == PartValue(p, vars, lib, Corrected)
    decreases PartSize(p), 0
  {
    match p
    case Number(_) =>
    case Variable(_) =>
    case Parenthesis(e) =>
      ValueRevisions(e.parts, vars, lib);
    case Function(_, es) =>
      ArgsRevisions(es, vars, lib);
  }

  lemma {:induction false} ArgsRevisions(es: seq<Expression>, vars: map<string, real>, lib: Library)
    requires NoLeadingMinusArgs(es)
    ensures ArgValues(es, vars, lib, AsWritten) == ArgValues(es, vars, lib, Corrected)
    decreases ExpressionsSize(es), 3
  {
    if es != [] {
      ArgsRevisions(es[..|es| - 1], vars, lib);
      ValueRevisions(es[|es| - 1].parts, vars, lib);
    }
  }
}
