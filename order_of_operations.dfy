/**
 * What `evaluate` computes, stated against the textbook reading of an infix expression:
 * POWER binds tighter than MULTIPLY and DIVIDE, which bind tighter than ADD and SUBTRACT,
 * operators of one tier associate to the left, and each operand carries the signs written
 * before it.
 *
 * The proof has two layers. `Chain` is an expression reduced to its signed operands and the
 * operators between them; `Passes` is the tier-by-tier reduction of `pass` on a chain, and
 * `Level` the reference precedence evaluation, with `PassesLevel` equating them. Then
 * `PassFromChain` shows that pass, working on the two lists of evaluate with their runs of
 * signs, is the chain reduction of the signed operands (with the corrected sign
 * bookkeeping), and `ReduceCorrected` puts both together.
 */
module OrderOfOperations {
  import opened Results
  import opened Parts
  import opened Evaluator

  /** Operands and the operators combining neighbours: `combiners[k]` joins operands k and k + 1. */
  datatype Chain = Chain(operands: seq<real>, combiners: seq<OperatorType>)

  predicate Shaped(ch: Chain) {
    |ch.operands| == |ch.combiners| + 1
  }

  /** Two chains joined by one operator. */
  function Join(a: Chain, c: OperatorType, b: Chain): Chain {
    Chain(a.operands + b.operands, a.combiners + [c] + b.combiners)
  }

  // ---------------------------------------------------------------------------------------
  // One pass on a chain

  /**
   * A pass over a chain, left to right, with `acc` the value built so far from the operands
   * already joined by operators of `types`.
   */
  function Scan(types: set<OperatorType>, acc: real, rest: seq<real>, cs: seq<OperatorType>, lib: Library): (r: Chain)
    requires |rest| == |cs|
    ensures Shaped(r)
    decreases |cs|
  {
    if cs == [] then Chain([acc], [])
    else if cs[0] in types then Scan(types, Combine(cs[0], acc, rest[0], lib), rest[1..], cs[1..], lib)
    else
      var tail := Scan(types, rest[0], rest[1..], cs[1..], lib);
      Chain([acc] + tail.operands, [cs[0]] + tail.combiners)
  }

  function PassChain(types: set<OperatorType>, ch: Chain, lib: Library): (r: Chain)
    requires Shaped(ch)
    ensures Shaped(r)
  {
    Scan(types, ch.operands[0], ch.operands[1..], ch.combiners, lib)
  }

  /** A pass does not reach across an operator outside its tier. */
  lemma {:induction false} ScanJoin(types: set<OperatorType>, acc: real, rest1: seq<real>, cs1: seq<OperatorType>,
                                   c: OperatorType, x: real, rest2: seq<real>, cs2: seq<OperatorType>, lib: Library)
    requires |rest1| == |cs1| && |rest2| == |cs2| && c !in types
    ensures Scan(types, acc, rest1 + [x] + rest2, cs1 + [c] + cs2, lib)
         == Join(Scan(types, acc, rest1, cs1, lib), c, Scan(types, x, rest2, cs2, lib))
    decreases |cs1|
  {
    var rest := rest1 + [x] + rest2;
    var cs := cs1 + [c] + cs2;
    if cs1 == [] {
      assert rest[0] == x && rest[1..] == rest2;
      assert cs[0] == c && cs[1..] == cs2;
    } else {
      assert rest[0] == rest1[0] && rest[1..] == rest1[1..] + [x] + rest2;
      assert cs[0] == cs1[0] && cs[1..] == cs1[1..] + [c] + cs2;
      if cs1[0] in types {
        ScanJoin(types, Combine(cs1[0], acc, rest1[0], lib), rest1[1..], cs1[1..], c, x, rest2, cs2, lib);
      } else {
        ScanJoin(types, rest1[0], rest1[1..], cs1[1..], c, x, rest2, cs2, lib);
        var t := Scan(types, rest1[0], rest1[1..], cs1[1..], lib);
        var u := Scan(types, x, rest2, cs2, lib);
        assert [acc] + (t.operands + u.operands) == ([acc] + t.operands) + u.operands;
        assert [cs1[0]] + (t.combiners + [c] + u.combiners) == ([cs1[0]] + t.combiners) + [c] + u.combiners;
      }
    }
  }

  lemma PassJoin(types: set<OperatorType>, a: Chain, c: OperatorType, b: Chain, lib: Library)
    requires Shaped(a) && Shaped(b) && c !in types
    ensures Shaped(Join(a, c, b))
    ensures PassChain(types, Join(a, c, b), lib) == Join(PassChain(types, a, lib), c, PassChain(types, b, lib))
  {
    var j := Join(a, c, b);
    assert j.operands[0] == a.operands[0];
    assert j.operands[1..] == a.operands[1..] + [b.operands[0]] + b.operands[1..];
    ScanJoin(types, a.operands[0], a.operands[1..], a.combiners, c, b.operands[0], b.operands[1..], b.combiners, lib);
  }

  /** The chain with one more operand combined into its last one. */
  function MergeLast(ch: Chain, c: OperatorType, x: real, lib: Library): Chain
    requires Shaped(ch)
  {
    Chain(ch.operands[..|ch.operands| - 1] + [Combine(c, ch.operands[|ch.operands| - 1], x, lib)], ch.combiners)
  }

  /** An operand appended with an operator of the pass's tier is folded into the last value. */
  lemma {:induction false} ScanSnoc(types: set<OperatorType>, acc: real, rest: seq<real>, cs: seq<OperatorType>,
                                   c: OperatorType, x: real, lib: Library)
    requires |rest| == |cs| && c in types
    ensures Scan(types, acc, rest + [x], cs + [c], lib) == MergeLast(Scan(types, acc, rest, cs, lib), c, x, lib)
    decreases |cs|
  {
    if cs == [] {
      assert rest + [x] == [x] && cs + [c] == [c];
    } else {
      assert (rest + [x])[0] == rest[0] && (rest + [x])[1..] == rest[1..] + [x];
      assert (cs + [c])[0] == cs[0] && (cs + [c])[1..] == cs[1..] + [c];
      if cs[0] in types {
        ScanSnoc(types, Combine(cs[0], acc, rest[0], lib), rest[1..], cs[1..], c, x, lib);
      } else {
        ScanSnoc(types, rest[0], rest[1..], cs[1..], c, x, lib);
        var tail := Scan(types, rest[0], rest[1..], cs[1..], lib);
        assert ([acc] + tail.operands)[..|tail.operands|] == [acc] + tail.operands[..|tail.operands| - 1];
      }
    }
  }

  // ---------------------------------------------------------------------------------------
  // The passes of evaluate and the reference evaluation

  /** The chain after the passes for the first n tiers of `getByOrder`. */
  function Passes(n: nat, ch: Chain, lib: Library): (r: Chain)
    requires n <= 3 && Shaped(ch)
    ensures Shaped(r)
  {
    if n == 0 then ch else PassChain(GetByOrder()[n - 1], Passes(n - 1, ch, lib), lib)
  }

  lemma {:induction false} PassesJoin(n: nat, a: Chain, c: OperatorType, b: Chain, lib: Library)
    requires n <= 3 && Shaped(a) && Shaped(b) && ExecutionIndex(c) >= n
    ensures Shaped(Join(a, c, b))
    ensures Passes(n, Join(a, c, b), lib) == Join(Passes(n, a, lib), c, Passes(n, b, lib))
  {
    if n > 0 {
      PassesJoin(n - 1, a, c, b, lib);
      PassJoin(GetByOrder()[n - 1], Passes(n - 1, a, lib), c, Passes(n - 1, b, lib), lib);
    }
  }

  /** Every operator of the list belongs to a tier below n. */
  predicate Below(n: nat, cs: seq<OperatorType>) {
    forall k :: 0 <= k < |cs| ==> ExecutionIndex(cs[k]) < n
  }

  /** The position of the last operator of tier t, if any. */
  function LastOfTier(t: nat, cs: seq<OperatorType>): (r: Option<nat>)
    ensures r.Some? ==> r.value < |cs| && ExecutionIndex(cs[r.value]) == t
    ensures r.Some? ==> forall k :: r.value < k < |cs| ==> ExecutionIndex(cs[k]) != t
    ensures r.None? ==> forall k :: 0 <= k < |cs| ==> ExecutionIndex(cs[k]) != t
  {
    if cs == [] then None
    else if ExecutionIndex(cs[|cs| - 1]) == t then Some(|cs| - 1)
    else LastOfTier(t, cs[..|cs| - 1])
  }

  function Before(ch: Chain, j: nat): Chain
    requires Shaped(ch) && j < |ch.combiners|
  {
    Chain(ch.operands[..j + 1], ch.combiners[..j])
  }

  function After(ch: Chain, j: nat): Chain
    requires Shaped(ch) && j < |ch.combiners|
  {
    Chain(ch.operands[j + 1..], ch.combiners[j + 1..])
  }

  lemma SplitAt(ch: Chain, j: nat)
    requires Shaped(ch) && j < |ch.combiners|
    ensures ch == Join(Before(ch, j), ch.combiners[j], After(ch, j))
  {
    assert ch.operands == ch.operands[..j + 1] + ch.operands[j + 1..];
    assert ch.combiners == ch.combiners[..j] + [ch.combiners[j]] + ch.combiners[j + 1..];
  }

  /**
   * The reference evaluation with tiers 0 .. n - 1: the last operator of the loosest tier
   * present is the root, its left side evaluated the same way and its right side, which holds
   * only tighter operators, one tier down.
   */
  function Level(n: nat, ch: Chain, lib: Library): real
    requires Shaped(ch) && Below(n, ch.combiners)
    decreases n, |ch.combiners|
  {
    if n == 0 then ch.operands[0]
    else
      match LastOfTier(n - 1, ch.combiners)
      case None => Level(n - 1, ch, lib)
      case Some(j) =>
        Combine(ch.combiners[j], Level(n, Before(ch, j), lib), Level(n - 1, After(ch, j), lib), lib)
  }

  /** The value of a chain under the usual order of operations. */
  function Precedence(ch: Chain, lib: Library): real
    requires Shaped(ch)
  {
    Level(3, ch, lib)
  }

  /** The tier passes of evaluate leave exactly the reference value. */
  lemma {:induction false} PassesLevel(n: nat, ch: Chain, lib: Library)
    requires n <= 3 && Shaped(ch) && Below(n, ch.combiners)
    ensures Passes(n, ch, lib) == Chain([Level(n, ch, lib)], [])
    decreases n, |ch.combiners|, 1
  {
    assert |ch.combiners| > 0 ==> ExecutionIndex(ch.combiners[0]) < n;
    if n == 0 {
      assert ch.operands == [ch.operands[0]];
    } else {
      match LastOfTier(n - 1, ch.combiners)
      case None =>
        PassesLevel(n - 1, ch, lib);
      case Some(j) =>
        PassesAtRoot(n, ch, j, lib);
    }
  }

  /** The passes at the last operator of the loosest tier: the left side folds onto the right. */
  lemma {:induction false} PassesAtRoot(n: nat, ch: Chain, j: nat, lib: Library)
    requires 0 < n <= 3 && Shaped(ch) && Below(n, ch.combiners)
    requires LastOfTier(n - 1, ch.combiners) == Some(j)
    ensures Passes(n, ch, lib) == Chain([Level(n, ch, lib)], [])
    decreases n, |ch.combiners|, 0
  {
    var a := Before(ch, j);
    var b := After(ch, j);
    var c := ch.combiners[j];
    PassesLevel(n - 1, b, lib);
    PassesLevel(n, a, lib);
    SplitAt(ch, j);
    PassesJoin(n - 1, a, c, b, lib);
    var front := Passes(n - 1, a, lib);
    var w := Level(n - 1, b, lib);
    var joined := Join(front, c, Chain([w], []));
    assert Passes(n - 1, ch, lib) == joined;
    var tier := GetByOrder()[n - 1];
    assert c in tier;
    PassLast(tier, front, c, w, lib);
    assert Passes(n, ch, lib) == PassChain(tier, joined, lib);
    assert PassChain(tier, front, lib) == Chain([Level(n, a, lib)], []);
    assert Level(n, ch, lib) == Combine(c, Level(n, a, lib), w, lib);
  }

  /** A pass over a chain with one more operand, joined by an operator of the pass's tier. */
  lemma PassLast(tier: set<OperatorType>, front: Chain, c: OperatorType, w: real, lib: Library)
    requires Shaped(front) && c in tier
    ensures Shaped(Join(front, c, Chain([w], [])))
    ensures PassChain(tier, Join(front, c, Chain([w], [])), lib) == MergeLast(PassChain(tier, front, lib), c, w, lib)
  {
    var joined := Join(front, c, Chain([w], []));
    assert joined.operands[0] == front.operands[0];
    assert joined.operands[1..] == front.operands[1..] + [w];
    assert joined.combiners == front.combiners + [c];
    ScanSnoc(tier, front.operands[0], front.operands[1..], front.combiners, c, w, lib);
  }

  /** The three passes of evaluate compute the usual order of operations on any chain. */
  lemma PassesPrecedence(ch: Chain, lib: Library)
    requires Shaped(ch)
    ensures Passes(3, ch, lib) == Chain([Precedence(ch, lib)], [])
  {
    PassesLevel(3, ch, lib);
  }

  // ---------------------------------------------------------------------------------------
  // From the two lists of evaluate to a chain

  /** Every operand after the first has at least one operator before it. */
  predicate Gapped(l: Lists) {
    && |l.evaluated| >= 1
    && (|l.evaluated| > 1 ==> |l.evaluated| <= |l.operators|)
    && forall k :: 0 < k < |l.evaluated| ==> l.operators[k] != []
  }

  /** Operand k with the signs written before it applied. */
  function OperandAt(l: Lists, k: nat): real
    requires SignsValid(l.operators) && k < |l.evaluated|
  {
    if k < |l.operators| then
      SignsAreSigns(l.operators, k);
      ApplyModifiers(l.evaluated[k], Signs(k, l.operators[k]))
    else l.evaluated[k]
  }

  /** The signed operands and the combining operators of the two lists. */
  function ChainOf(l: Lists): (r: Chain)
    requires SignsValid(l.operators) && Gapped(l)
    ensures Shaped(r)
  {
    var n := |l.evaluated|;
    Chain(seq(n, k requires 0 <= k < n => OperandAt(l, k)),
          seq(n - 1, k requires 0 <= k < n - 1 => l.operators[k + 1][0]))
  }

  /** Once a single operand is left, its signs have all been applied. */
  predicate Settled(l: Lists)
    requires SignsValid(l.operators)
  {
    |l.evaluated| == 1 ==> OperandAt(l, 0) == l.evaluated[0]
  }

  /** Where the lists of a corrected reduction come from. */
  lemma ReducedLists(l: Lists, i: nat, lib: Library)
    requires SignsValid(l.operators) && Gapped(l) && i + 1 < |l.evaluated|
    ensures var r := ReduceAt(l, i, lib, Corrected);
            && |r.evaluated| == |l.evaluated| - 1
            && (forall k :: 0 <= k < |r.operators| && k != i ==> r.operators[k] == if k < i then l.operators[k] else l.operators[k + 1])
            && r.operators[i] == (if i == 0 then [] else [l.operators[i][0]])
            && (forall k :: 0 <= k < |r.evaluated| && k != i ==> r.evaluated[k] == if k < i then l.evaluated[k] else l.evaluated[k + 1])
            && Gapped(r) && Settled(r)
  {
    var r := ReduceAt(l, i, lib, Corrected);
    var ops := l.operators;
    var rest := ops[..i + 1] + ops[i + 2..];
    assert r.operators == rest[i := Trimmed(i, ops[i], Corrected)];
    forall k | 0 < k < |r.evaluated| ensures r.operators[k] != [] {
      if k != i {
        assert r.operators[k] == if k < i then ops[k] else ops[k + 1];
      }
    }
    if |r.evaluated| == 1 {
      assert i == 0 && r.operators[0] == [];
      assert OperandAt(r, 0) == r.evaluated[0] * SignOf([]) as real;
    }
  }

  lemma ReducedOperands(l: Lists, i: nat, lib: Library)
    requires SignsValid(l.operators) && Gapped(l) && i + 1 < |l.evaluated|
    ensures var ch := ChainOf(l);
            var r := ReduceAt(l, i, lib, Corrected);
            Gapped(r) &&
            ChainOf(r).operands == ch.operands[..i] + [Combine(ch.combiners[i], ch.operands[i], ch.operands[i + 1], lib)] + ch.operands[i + 2..]
  {
    var r := ReduceAt(l, i, lib, Corrected);
    var ch := ChainOf(l);
    var ops := l.operators;
    ReducedLists(l, i, lib);
    var rc := ChainOf(r);
    var operands := ch.operands[..i] + [Combine(ch.combiners[i], ch.operands[i], ch.operands[i + 1], lib)] + ch.operands[i + 2..];
    forall k | 0 <= k < |r.evaluated| ensures rc.operands[k] == operands[k] {
      ReducedOperand(l, i, lib, k);
    }
  }

  lemma ReducedOperand(l: Lists, i: nat, lib: Library, k: nat)
    requires SignsValid(l.operators) && Gapped(l) && i + 1 < |l.evaluated| && k + 1 < |l.evaluated|
    ensures var r := ReduceAt(l, i, lib, Corrected);
            var ch := ChainOf(l);
            OperandAt(r, k) == if k < i then ch.operands[k]
                               else if k == i then Combine(ch.combiners[i], ch.operands[i], ch.operands[i + 1], lib)
                               else ch.operands[k + 1]
  {
    var r := ReduceAt(l, i, lib, Corrected);
    var ops := l.operators;
    ReducedLists(l, i, lib);
    if k == i {
      SignsAreSigns(ops, i);
      SignsAreSigns(ops, i + 1);
      assert OperandAt(r, i) == r.evaluated[i] * SignOf([]) as real;
    } else if k > i {
      assert Signs(k, r.operators[k]) == Signs(k + 1, ops[k + 1]);
    }
  }

  /** A corrected reduction combines two signed operands and leaves no sign behind. */
  lemma ReduceAtChain(l: Lists, i: nat, lib: Library)
    requires SignsValid(l.operators) && Gapped(l) && i + 1 < |l.evaluated|
    ensures var r := ReduceAt(l, i, lib, Corrected);
            var ch := ChainOf(l);
            && Gapped(r)
            && ChainOf(r) == Chain(ch.operands[..i] + [Combine(ch.combiners[i], ch.operands[i], ch.operands[i + 1], lib)] + ch.operands[i + 2..],
                                   ch.combiners[..i] + ch.combiners[i + 1..])
            && Settled(r)
  {
    ReducedLists(l, i, lib);
    ReducedOperands(l, i, lib);
    var r := ReduceAt(l, i, lib, Corrected);
    var ch := ChainOf(l);
    assert ChainOf(r).combiners == ch.combiners[..i] + ch.combiners[i + 1..];
  }

  /** The lists `r` are the chain of `l` with operands i onwards passed over `types`. */
  predicate PassedAsChain(types: set<OperatorType>, i: nat, l: Lists, r: Lists, lib: Library)
    requires SignsValid(l.operators) && Gapped(l) && i < |l.evaluated| && SignsValid(r.operators)
  {
    var ch := ChainOf(l);
    var s := Scan(types, ch.operands[i], ch.operands[i + 1..], ch.combiners[i..], lib);
    && Gapped(r)
    && ChainOf(r) == Chain(ch.operands[..i] + s.operands, ch.combiners[..i] + s.combiners)
    && (Settled(l) ==> Settled(r))
  }

  /** pass from index i on the two lists is a chain pass from operand i of the signed chain. */
  lemma {:induction false} PassFromChain(types: set<OperatorType>, i: nat, l: Lists, lib: Library)
    requires SignsValid(l.operators) && Gapped(l) && i < |l.evaluated|
    ensures PassFrom(types, i, l, lib, Corrected).Ok?
    ensures PassedAsChain(types, i, l, PassFrom(types, i, l, lib, Corrected).value, lib)
    decreases |l.evaluated| - i, 1
  {
    var ch := ChainOf(l);
    if i + 1 >= |l.evaluated| {
      assert ch.operands[..i] + [ch.operands[i]] == ch.operands;
      assert ch.combiners[i..] == [];
    } else if l.operators[i + 1][0] !in types {
      PassSkips(types, i, l, lib);
    } else {
      PassReduces(types, i, l, lib);
    }
  }

  lemma {:induction false} PassSkips(types: set<OperatorType>, i: nat, l: Lists, lib: Library)
    requires SignsValid(l.operators) && Gapped(l) && i + 1 < |l.evaluated|
    requires l.operators[i + 1][0] !in types
    ensures PassFrom(types, i, l, lib, Corrected).Ok?
    ensures PassedAsChain(types, i, l, PassFrom(types, i, l, lib, Corrected).value, lib)
    decreases |l.evaluated| - i, 0
  {
    var ch := ChainOf(l);
    var c := l.operators[i + 1][0];
    PassFromChain(types, i + 1, l, lib);
    var r := PassFrom(types, i + 1, l, lib, Corrected).value;
    assert PassFrom(types, i, l, lib, Corrected) == Ok(r);
    var tail := Scan(types, ch.operands[i + 1], ch.operands[i + 2..], ch.combiners[i + 1..], lib);
    var s := Scan(types, ch.operands[i], ch.operands[i + 1..], ch.combiners[i..], lib);
    assert s == Chain([ch.operands[i]] + tail.operands, [c] + tail.combiners) by {
      assert ch.combiners[i] == c;
      Unfold(ch.operands, i + 1);
      Unfold(ch.combiners, i);
    }
    Shift(ch.operands, i, tail.operands);
    Shift(ch.combiners, i, tail.combiners);
  }

  lemma Unfold<T>(xs: seq<T>, i: nat)
    requires i < |xs|
    ensures xs[i..][0] == xs[i] && xs[i..][1..] == xs[i + 1..]
  {
  }

  lemma Shift<T>(xs: seq<T>, i: nat, ys: seq<T>)
    requires i < |xs|
    ensures xs[..i + 1] + ys == xs[..i] + ([xs[i]] + ys)
  {
    assert xs[..i + 1] == xs[..i] + [xs[i]];
  }

  lemma {:induction false} PassReduces(types: set<OperatorType>, i: nat, l: Lists, lib: Library)
    requires SignsValid(l.operators) && Gapped(l) && i + 1 < |l.evaluated|
    requires l.operators[i + 1][0] in types
    ensures PassFrom(types, i, l, lib, Corrected).Ok?
    ensures PassedAsChain(types, i, l, PassFrom(types, i, l, lib, Corrected).value, lib)
    decreases |l.evaluated| - i, 0
  {
    var ch := ChainOf(l);
    var c := l.operators[i + 1][0];
    assert ch.combiners[i] == c;
    assert ch.operands[i + 1..][0] == ch.operands[i + 1] && ch.operands[i + 1..][1..] == ch.operands[i + 2..];
    assert ch.combiners[i..][0] == c && ch.combiners[i..][1..] == ch.combiners[i + 1..];
    var next := ReduceAt(l, i, lib, Corrected);
    ReduceAtChain(l, i, lib);
    PassFromChain(types, i, next, lib);
    assert PassFrom(types, i, l, lib, Corrected) == PassFrom(types, i, next, lib, Corrected);
    var nc := ChainOf(next);
    assert nc.operands[..i] == ch.operands[..i];
    assert nc.operands[i] == Combine(c, ch.operands[i], ch.operands[i + 1], lib);
    assert nc.operands[i + 1..] == ch.operands[i + 2..];
    assert nc.combiners[..i] == ch.combiners[..i];
    assert nc.combiners[i..] == ch.combiners[i + 1..];
  }

  lemma {:induction false} TiersChain(m: nat, l: Lists, ch: Chain, lib: Library)
    requires m <= 3 && SignsValid(l.operators) && Gapped(l) && Settled(l) && Shaped(ch)
    requires ChainOf(l) == Passes(m, ch, lib)
    ensures Tiers(GetByOrder()[m..], l, lib, Corrected).Ok?
    ensures var r := Tiers(GetByOrder()[m..], l, lib, Corrected).value;
            Gapped(r) && Settled(r) && ChainOf(r) == Passes(3, ch, lib)
    decreases 3 - m
  {
    var tiers := GetByOrder()[m..];
    if m < 3 {
      assert tiers[0] == GetByOrder()[m] && tiers[1..] == GetByOrder()[m + 1..];
      TierPass(m, l, ch, lib);
      var next := PassFrom(GetByOrder()[m], 0, l, lib, Corrected).value;
      TiersChain(m + 1, next, ch, lib);
    }
  }

  /** One tier of pass on the lists is the same tier passed over the chain. */
  lemma TierPass(m: nat, l: Lists, ch: Chain, lib: Library)
    requires m < 3 && SignsValid(l.operators) && Gapped(l) && Settled(l) && Shaped(ch)
    requires ChainOf(l) == Passes(m, ch, lib)
    ensures PassFrom(GetByOrder()[m], 0, l, lib, Corrected).Ok?
    ensures var next := PassFrom(GetByOrder()[m], 0, l, lib, Corrected).value;
            Gapped(next) && Settled(next) && ChainOf(next) == Passes(m + 1, ch, lib)
  {
    PassFromChain(GetByOrder()[m], 0, l, lib);
  }

  /**
   * The corrected evaluate, once the operands are grouped, yields the usual order of
   * operations on the signed operands when every operand after the first has an operator
   * before it, and fails with an index out of bounds otherwise.
   */
  lemma ReduceCorrected(l: Lists, lib: Library)
    requires SignsValid(l.operators) && |l.evaluated| >= 1
    ensures Gapped(l) ==> Reduce(l, lib, Corrected) == Ok(Precedence(ChainOf(l), lib))
    ensures !Gapped(l) ==> Reduce(l, lib, Corrected) == Err(IndexOutOfBounds)
  {
    if Gapped(l) {
      var ch := ChainOf(l);
      if |l.evaluated| == 1 {
        assert ch == Chain([OperandAt(l, 0)], []);
        assert Level(3, ch, lib) == Level(2, ch, lib) == Level(1, ch, lib) == Level(0, ch, lib);
      } else {
        assert GetByOrder()[0..] == GetByOrder();
        TiersChain(0, l, ch, lib);
        PassesPrecedence(ch, lib);
        var r := Tiers(GetByOrder(), l, lib, Corrected).value;
        assert ChainOf(r).operands == [Precedence(ch, lib)];
        assert |r.evaluated| == 1;
        assert r.evaluated[0] == ChainOf(r).operands[0];
      }
    } else {
      var g :| 0 < g < |l.evaluated| && !(g < |l.operators| && l.operators[g] != []);
      PassFromGap(GetByOrder()[0], 0, l, lib, Corrected, g);
    }
  }

  /** With an operand that has no operator before it, pass fails before reaching it. */
  lemma {:induction false} PassFromGap(types: set<OperatorType>, i: nat, l: Lists, lib: Library, rev: Revision, g: nat)
    requires SignsValid(l.operators)
    requires i < g < |l.evaluated| && !(g < |l.operators| && l.operators[g] != [])
    requires i == 0 || i < |l.operators|
    ensures PassFrom(types, i, l, lib, rev) == Err(IndexOutOfBounds)
    decreases |l.evaluated| - i
  {
    if i + 1 < |l.operators| && l.operators[i + 1] != [] {
      if l.operators[i + 1][0] !in types {
        PassFromGap(types, i + 1, l, lib, rev, g);
      } else {
        var next := ReduceAt(l, i, lib, rev);
        assert forall k :: 0 <= k < |next.operators| && k != i ==> next.operators[k] == l.operators[k + (if k < i then 0 else 1)];
        PassFromGap(types, i, next, lib, rev, g - 1);
      }
    }
  }
}
