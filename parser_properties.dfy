/**
 * What `MathExpression.parse` guarantees about the lists it builds: parentheses balance,
 * a closing parenthesis changes only the innermost enclosing list, and every Function it
 * builds has non-empty, comma-free arguments.
 */
module ParserProperties {
  import opened Results
  import opened Parts
  import opened Parser

  function Opens(ts: seq<Token>): nat {
    if ts == [] then 0 else (if ts[0].Open? then 1 else 0) + Opens(ts[1..])
  }

  function Closes(ts: seq<Token>): nat {
    if ts == [] then 0 else (if ts[0].Close? then 1 else 0) + Closes(ts[1..])
  }

  lemma {:induction false} ParseRunDepth(st: Stacked, ts: seq<Token>)
    requires ParseRun(st, ts).Ok?
    ensures |ParseRun(st, ts).value.stack| + Closes(ts) == |st.stack| + Opens(ts)
    ensures forall k :: 0 <= k <= |ts| ==> Closes(ts[..k]) <= |st.stack| + Opens(ts[..k])
    decreases |ts|
  {
    if ts != [] {
      var next := ParseStep(st, ts[0]).value;
      ParseRunDepth(next, ts[1..]);
      forall k | 0 <= k <= |ts| ensures Closes(ts[..k]) <= |st.stack| + Opens(ts[..k]) {
        if k > 0 {
          assert ts[..k][1..] == ts[1..][..k - 1];
        }
      }
    }
  }

  lemma {:induction false} ParenthesisNotBlank(ts: seq<Token>)
    requires Opens(ts) + Closes(ts) > 0
    ensures !IsBlank(Text(ts))
  {
    var head := TokenText(ts[0]);
    var tail := Text(ts[1..]);
    assert Text(ts) == head + tail;
    if ts[0].Open? || ts[0].Close? {
      assert head[0] > ' ';
      assert (head + tail)[0] == head[0];
    } else {
      ParenthesisNotBlank(ts[1..]);
      var i :| 0 <= i < |tail| && tail[i] > ' ';
      assert (head + tail)[|head| + i] == tail[i];
    }
  }

  /** A successful parse of a non-blank text had balanced parentheses, closing none too early. */
  lemma ParsedBalanced(ts: seq<Token>)
    requires Parsed(ts).Ok? && !IsBlank(Text(ts))
    ensures Opens(ts) == Closes(ts)
    ensures forall k :: 0 <= k <= |ts| ==> Closes(ts[..k]) <= Opens(ts[..k])
  {
    ParseRunDepth(ParseStart, ts);
  }

  /** An unmatched parenthesis, opening or closing, makes parse fail. */
  lemma UnbalancedFails(ts: seq<Token>)
    requires Opens(ts) != Closes(ts) || exists k :: 0 <= k <= |ts| && Closes(ts[..k]) > Opens(ts[..k])
    ensures Parsed(ts).Err?
  {
    SomeParenthesis(ts);
    ParenthesisNotBlank(ts);
    if Parsed(ts).Ok? {
      ParsedBalanced(ts);
    }
  }

  lemma SomeParenthesis(ts: seq<Token>)
    requires Opens(ts) != Closes(ts) || exists k :: 0 <= k <= |ts| && Closes(ts[..k]) > Opens(ts[..k])
    ensures Opens(ts) + Closes(ts) > 0
  {
    if Opens(ts) == Closes(ts) {
      var k :| 0 <= k <= |ts| && Closes(ts[..k]) > Opens(ts[..k]);
      assert ts == ts[..k] + ts[k..];
      CountsAppend(ts[..k], ts[k..]);
    }
  }

  lemma {:induction false} CountsAppend(a: seq<Token>, b: seq<Token>)
    ensures Opens(a + b) == Opens(a) + Opens(b)
    ensures Closes(a + b) == Closes(a) + Closes(b)
  {
    if a == [] {
      assert a + b == b;
    } else {
      assert (a + b)[1..] == a[1..] + b;
      CountsAppend(a[1..], b);
    }
  }

  // ---------------------------------------------------------------------------------------
  // The closing parenthesis

  /** The parts of a list of expressions, one after the other. */
  function ArgParts(es: seq<Expression>): seq<Part> {
    if es == [] then [] else es[0].parts + ArgParts(es[1..])
  }

  lemma {:induction false} DropEmptyKeepsParts(es: seq<Expression>)
    ensures ArgParts(DropEmpty(es)) == ArgParts(es)
  {
    if es != [] {
      DropEmptyKeepsParts(es[1..]);
      if es[0].parts != [] {
        assert ([es[0]] + DropEmpty(es[1..]))[1..] == DropEmpty(es[1..]);
      }
    }
  }

  lemma {:induction false} ArgPartsOfLists(lists: seq<seq<Part>>)
    ensures ArgParts(AsExpressions(lists)) == Concat(lists)
  {
    if lists != [] {
      assert AsExpressions(lists)[1..] == AsExpressions(lists[1..]);
      ArgPartsOfLists(lists[1..]);
    }
  }

  /**
   * A closing parenthesis pops the stack and changes only the end of the enclosing list: a
   * trailing Variable is replaced by a Function of that name whose arguments hold the inner
   * parts without their commas, in order; otherwise the inner list is appended as one
   * Parenthesis. With an empty stack it fails.
   */
  lemma CloseParenthesis(st: Stacked)
    ensures st.stack == [] <==> ParseStep(st, Close) == Err(IllegalClosingParenthesis)
    ensures st.stack != [] ==>
      var top := st.stack[|st.stack| - 1];
      var next := ParseStep(st, Close).value;
      && ParseStep(st, Close).Ok?
      && next.stack == st.stack[..|st.stack| - 1]
      && (top != [] && top[|top| - 1].Variable? ==>
            && |next.current| == |top|
            && next.current[..|top| - 1] == top[..|top| - 1]
            && next.current[|top| - 1].Function?
            && next.current[|top| - 1].name == top[|top| - 1].name
            && ArgParts(next.current[|top| - 1].expressions) == WithoutCommas(st.current)
            && |next.current[|top| - 1].expressions| <= CommaCount(st.current) + 1)
      && (!(top != [] && top[|top| - 1].Variable?) ==>
            next.current == top + [Parenthesis(Expression(st.current))])
  {
    if st.stack != [] {
      var top := st.stack[|st.stack| - 1];
      if top != [] && top[|top| - 1].Variable? {
        var args := AsExpressions(Segments(st.current));
        DropEmptyKeepsParts(args);
        ArgPartsOfLists(Segments(st.current));
        SegmentsConcat(st.current);
        var next := ParseStep(st, Close).value;
        assert next.current == top[..|top| - 1] + [NewFunction(top[|top| - 1].name, args)];
        assert next.current[..|top| - 1] == top[..|top| - 1];
      }
    }
  }

  // ---------------------------------------------------------------------------------------
  // Well-formed functions

  /** Every Function inside the part has only non-empty, comma-free arguments. */
  predicate PartWellFormed(p: Part)
    decreases p
  {
    match p
    case Parenthesis(e) => AllWellFormed(e.parts)
    case Function(_, es) =>
      forall k :: 0 <= k < |es| ==> es[k].parts != [] && Comma !in es[k].parts && AllWellFormed(es[k].parts)
    case _ => true
  }

  predicate AllWellFormed(ps: seq<Part>)
    decreases ps
  {
    forall k :: 0 <= k < |ps| ==> PartWellFormed(ps[k])
  }

  predicate StateWellFormed(st: Stacked) {
    (forall k :: 0 <= k < |st.stack| ==> AllWellFormed(st.stack[k])) && AllWellFormed(st.current)
  }

  lemma SublistWellFormed(sub: seq<Part>, ps: seq<Part>)
    requires AllWellFormed(ps)
    requires forall p :: p in sub ==> p in ps
    ensures AllWellFormed(sub)
  {
    forall i | 0 <= i < |sub| ensures PartWellFormed(sub[i]) {
      assert sub[i] in ps;
      var m :| 0 <= m < |ps| && ps[m] == sub[i];
    }
  }

  lemma NewFunctionWellFormed(name: string, inner: seq<Part>)
    requires AllWellFormed(inner)
    ensures PartWellFormed(NewFunction(name, AsExpressions(Segments(inner))))
  {
    var lists := Segments(inner);
    var all := AsExpressions(lists);
    var es := DropEmpty(all);
    SegmentsFromInput(inner);
    DropEmptyMembers(all);
    forall k | 0 <= k < |es|
      ensures es[k].parts != [] && Comma !in es[k].parts && AllWellFormed(es[k].parts)
    {
      assert es[k] in es;
      assert es[k] in all;
      var j :| 0 <= j < |all| && all[j] == es[k];
      assert es[k].parts == lists[j];
      SublistWellFormed(lists[j], inner);
    }
  }

  lemma StepWellFormed(st: Stacked, t: Token)
    requires StateWellFormed(st) && ParseStep(st, t).Ok?
    ensures StateWellFormed(ParseStep(st, t).value)
  {
    var next := ParseStep(st, t).value;
    match t
    case Open =>
      assert next.stack == st.stack + [st.current];
    case Close =>
      var top := st.stack[|st.stack| - 1];
      assert AllWellFormed(top);
      if top != [] && top[|top| - 1].Variable? {
        NewFunctionWellFormed(top[|top| - 1].name, st.current);
      }
    case Segment(_, atoms) =>
      ParseSimpleFlat(atoms);
  }

  lemma {:induction false} RunWellFormed(st: Stacked, ts: seq<Token>)
    requires StateWellFormed(st) && ParseRun(st, ts).Ok?
    ensures StateWellFormed(ParseRun(st, ts).value)
    decreases |ts|
  {
    if ts != [] {
      StepWellFormed(st, ts[0]);
      RunWellFormed(ParseStep(st, ts[0]).value, ts[1..]);
    }
  }

  /** Every Function in a parsed expression, at any depth, has non-empty, comma-free arguments. */
  lemma ParsedWellFormed(ts: seq<Token>)
    requires Parsed(ts).Ok?
    ensures AllWellFormed(Parsed(ts).value)
  {
    if !IsBlank(Text(ts)) {
      RunWellFormed(ParseStart, ts);
    }
  }
}
