/**
 * Variables of an expression: how a name is looked up (the expression's own map first, then
 * the constants of `java.lang.Math` under the lower-cased name), and that evaluate reads the
 * map only at the names the parts mention, at any depth.
 */
module Variables {
  import opened Results
  import opened Parts
  import opened Evaluator

  /** The part mentions the variable `name`, itself or inside a sub-expression or argument. */
  predicate MentionsPart(p: Part, name: string)
    decreases PartSize(p), 0
  {
    match p
    case Variable(n) => n == name
    case Parenthesis(e) => Mentions(e.parts, name)
    case Function(_, es) => MentionsArgs(es, name)
    case _ => false
  }

  predicate Mentions(parts: seq<Part>, name: string)
    decreases PartsSize(parts), 1
  {
    parts != [] &&
    (assert PartSize(parts[|parts| - 1]) >= 1;
     Mentions(parts[..|parts| - 1], name) || MentionsPart(parts[|parts| - 1], name))
  }

  predicate MentionsArgs(es: seq<Expression>, name: string)
    decreases ExpressionsSize(es), 2
  {
    es != [] && (MentionsArgs(es[..|es| - 1], name) || Mentions(es[|es| - 1].parts, name))
  }

  /** Two variable maps give the same value to every name the parts mention. */
  ghost predicate Agree(parts: seq<Part>, v1: map<string, real>, v2: map<string, real>) {
    forall name :: Mentions(parts, name) ==> Lookup(v1, name) == Lookup(v2, name)
  }

  /**
   * A name is the expression's own variable when set; otherwise, removed or never set, it
   * falls back to the constant of the same lower-cased name, and is unknown without one.
   */
  lemma LookupOrder(vars: map<string, real>, name: string, value: real)
    ensures Lookup(vars[name := value], name) == Some(value)
    ensures Lookup(vars - {name}, name) == (if Lower(name) in BuiltIn then Some(BuiltIn[Lower(name)]) else None)
    ensures Lookup(vars, "PI") == (if "PI" in vars then Some(vars["PI"]) else Some(3.141592653589793))
    ensures forall other :: other != name ==> Lookup(vars[name := value], other) == Lookup(vars, other)
  {
    assert Lower("PI") == "pi";
  }

  lemma {:induction false} ValueFrame(parts: seq<Part>, v1: map<string, real>, v2: map<string, real>, lib: Library, rev: Revision)
    requires Agree(parts, v1, v2)
    ensures Value(parts, v1, lib, rev) == Value(parts, v2, lib, rev)
    decreases PartsSize(parts), 2
  {
    if parts != [] {
      GroupFrame(parts, v1, v2, lib, rev);
    }
  }

  lemma {:induction false} GroupFrame(parts: seq<Part>, v1: map<string, real>, v2: map<string, real>, lib: Library, rev: Revision)
    requires Agree(parts, v1, v2)
    ensures Group(parts, v1, lib, rev) == Group(parts, v2, lib, rev)
    decreases PartsSize(parts), 1
  {
    if parts != [] {
      var front := parts[..|parts| - 1];
      var p := parts[|parts| - 1];
      assert PartSize(p) >= 1;
      GroupFrame(front, v1, v2, lib, rev);
      if IsEvaluable(p) {
        PartFrame(p, v1, v2, lib, rev);
      }
    }
  }

  lemma {:induction false} PartFrame(p: Part, v1: map<string, real>, v2: map<string, real>, lib: Library, rev: Revision)
    requires IsEvaluable(p)
    requires forall name :: MentionsPart(p, name) ==> Lookup(v1, name) == Lookup(v2, name)
    ensures PartValue(p, v1, lib, rev) == PartValue(p, v2, lib, rev)
    decreases PartSize(p), 0
  {
    match p
    case Number(_) =>
    case Variable(n) =>
      assert MentionsPart(p, n);
    case Parenthesis(e) =>
      ValueFrame(e.parts, v1, v2, lib, rev);
    case Function(_, es) =>
      ArgsFrame(es, v1, v2, lib, rev);
  }

  lemma {:induction false} ArgsFrame(es: seq<Expression>, v1: map<string, real>, v2: map<string, real>, lib: Library, rev: Revision)
    requires forall name :: MentionsArgs(es, name) ==> Lookup(v1, name) == Lookup(v2, name)
    ensures ArgValues(es, v1, lib, rev) == ArgValues(es, v2, lib, rev)
    decreases ExpressionsSize(es), 3
  {
    if es != [] {
      ArgsFrame(es[..|es| - 1], v1, v2, lib, rev);
      ValueFrame(es[|es| - 1].parts, v1, v2, lib, rev);
    }
  }

  /** Setting a variable the parts do not mention leaves their value unchanged. */
  lemma SetUnmentioned(parts: seq<Part>, vars: map<string, real>, name: string, value: real, lib: Library, rev: Revision)
    requires !Mentions(parts, name)
    ensures Value(parts, vars[name := value], lib, rev) == Value(parts, vars, lib, rev)
  {
    ValueFrame(parts, vars[name := value], vars, lib, rev);
  }

  /** Removing a variable the parts do not mention leaves their value unchanged. */
  lemma RemoveUnmentioned(parts: seq<Part>, vars: map<string, real>, name: string, lib: Library, rev: Revision)
    requires !Mentions(parts, name)
    ensures Value(parts, vars - {name}, lib, rev) == Value(parts, vars, lib, rev)
  {
    ValueFrame(parts, vars - {name}, vars, lib, rev);
  }

  /** A part that mentions no variable at all does not depend on the map. */
  lemma Closed(parts: seq<Part>, v1: map<string, real>, v2: map<string, real>, lib: Library, rev: Revision)
    requires forall name :: !Mentions(parts, name)
    ensures Value(parts, v1, lib, rev) == Value(parts, v2, lib, rev)
  {
    ValueFrame(parts, v1, v2, lib, rev);
  }
}
