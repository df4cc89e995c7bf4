/** An atomic loop over a simple target is compiled to take the longest run (regcomp.c:1359-1376).  That is the first
    way of the loop inside, so what an atomic group means can be read off the parse tree alone. */
module AtomicRuns {
  import opened Common
  import opened Tree
  import opened Semantics
  import opened Lengths
  import opened Yielding
  import opened Order
  import opened SetupTree
  import opened Preference
  import opened LengthFacts
  import Codegen
  import M = Matches

  /** In the states of D the body has one way at most, which consumes something and stays in D. */
  ghost predicate Single(f: Body, t: Subject, D: St -> bool) {
    forall x: St :: D(x) ==> |f(x)| <= 1 && forall y: St :: y in f(x) ==> D(y) && Left(t, y) < Left(t, x)
  }

  /** The first way of a greedy loop is its longest run. */
  lemma {:induction false} LongestFirst(q: Node, f: Body, t: Subject, D: St -> bool, x: St)
    requires q.Quant? && q.greedy && q.emptyInfo.NotEmpty? && Single(f, t, D) && D(x)
    ensures var ys := Forever(q, f, t, x); ys != [] && ys[0] == Longest(f, t, x)
    decreases Left(t, x)
  {
    ForeverIs(q, f, t, x);
    if f(x) != [] {
      var y := f(x)[0];
      assert f(x) == [y] && y in f(x);
      FlatOne(y, (z: St) => ForeverTurn(q, f, t, x, z));
      LongestFirst(q, f, t, D, y);
    }
  }

  /** All but the previous position. */
  predicate Same(a: St, b: St) { a == b.(prev := a.prev) }

  /** The dedicated opcode for `.*` also reports the longest run first, up to the previous position at the end. */
  lemma {:induction false} StarFirst(t: Subject, ml: bool, f: Body, x: St, begin: nat)
    requires forall z: St :: f(z) == Meaning(Any(ml), t, z)
    ensures var ys := StarMeaning(t, ml, None, x, begin); ys != [] && Same(ys[0], Longest(f, t, x))
    decreases Left(t, x)
  {
    if x.s < t.End() && (ml || !t.IsNewline(x.s)) { StarFirst(t, ml, f, Advance(x, 1), begin); }
  }

  /** A simple target has one way at most, which consumes something. */
  lemma SimpleWay(c: Node, t: Subject, e: Env, x: St)
    requires SimpleType(c) && WellFormed(c, e) && 0 < MinLen(c, e) && Ok(t, e, x)
    ensures var ys := Meaning(c, t, x); |ys| <= 1 && forall y: St :: y in ys ==> Left(t, y) < Left(t, x)
  {
    hide Ok;
    forall y: St | y in Meaning(c, t, x) ensures Left(t, y) < Left(t, x) {
      assert NoneOpen(Groups(c), x);
      SimpleMoves(c, t, e, x, y);
    }
  }

  lemma SimpleMoves(c: Node, t: Subject, e: Env, x: St, y: St)
    requires WellFormed(c, e) && 0 < MinLen(c, e) && Ok(t, e, x) && NoneOpen(Groups(c), x) && y in Meaning(c, t, x)
    ensures Left(t, y) < Left(t, x)
  {
    hide Meaning, WellFormed, Groups, MinLen, MaxLen, CharLen;
    WellFormedProper(c, e);
    M.Sound(c, t, x, y);
    MatchFacts(c, t, e, x, y);
  }

  /** The prepared tree takes the longest run only of a simple target that is never empty. */
  lemma RunParts(n: Node, e: Env)
    requires n.Atomic? && n.target.Quant? && Parsed(n, e) && LongestRun(n, e)
    ensures var q := n.target;
      Parsed(q.target, e) && q.lower <= 1 && q.greedy && Infinite(q.upper) && SimpleType(Setup(q.target, e, true))
      && 0 < MinLen(q.target, e)
  {
    var q := n.target;
    AtomicShape(n, e, false);
    RunLoop(n, e);
    LoopIs(q, e);
    hide Setup, LongestRun, MinLen, MaySimple;
    SimpleFrom(q.target, e, true);
    TargetMoves(n, e);
  }

  lemma RunLoop(n: Node, e: Env)
    requires n.Atomic? && Parsed(n, e) && Parsed(n.target, e) && LongestRun(n, e)
    ensures var c := Setup(n.target, e, false); c.Quant? && Infinite(c.upper) && c.greedy && SimpleType(c.target)
  {
    hide Parsed;
  }

  lemma LoopIs(q: Node, e: Env)
    requires q.Quant? && Parsed(q, e) && Parsed(q.target, e) && q.lower <= 1
    ensures var c := Setup(q, e, false); c.Quant? ==> c.upper == q.upper && c.greedy == q.greedy
  {
    hide Parsed, EmptyInfoOf, HeadByte;
  }

  lemma TargetMoves(n: Node, e: Env)
    requires n.Atomic? && n.target.Quant? && Parsed(n, e) && MaySimple(n.target.target)
    ensures 0 < MinLen(n.target.target, e)
  {
    hide MaySimple, MinLen;
  }

  /** The body of such a loop. */
  lemma BodySingle(n: Node, e: Env, t: Subject)
    requires n.Atomic? && n.target.Quant? && Parsed(n, e) && LongestRun(n, e) && Parsed(n.target.target, e)
    requires t.End() < Codegen.INFINITE_COUNT
    ensures var k := n.target.target; Single((z: St) => Pref(k, e, t, z), t, (z: St) => Live(t, e, Groups(k), z))
  {
    var k := n.target.target;
    var c := Setup(k, e, true);
    RunParts(n, e);
    SetupGood(k, e, true);
    GoodParts(c, e, true);
    assert HeadsFine(c) && Kept(k, c, e) && WellFormed(c, e);
    KeptMin(k, c, e);
    forall x: St | Live(t, e, Groups(k), x)
      ensures |Pref(k, e, t, x)| <= 1
      ensures forall y: St :: y in Pref(k, e, t, x) ==> Live(t, e, Groups(k), y) && Left(t, y) < Left(t, x)
    {
      SingleAt(k, c, e, t, x);
    }
  }

  lemma KeptMin(n: Node, m: Node, e: Env)
    requires Kept(n, m, e)
    ensures MinLen(m, e) == MinLen(n, e) && Groups(m) == Groups(n)
  {
    hide MinLen, MaxLen, CharLen, HasMem, NoMemInLook, Refs, Groups;
  }

  lemma SingleAt(k: Node, c: Node, e: Env, t: Subject, x: St)
    requires Parsed(k, e) && c == Setup(k, e, true) && SimpleType(c) && HeadsFine(c) && WellFormed(c, e)
    requires 0 < MinLen(c, e) && Groups(c) == Groups(k) && Live(t, e, Groups(k), x) && t.End() < Codegen.INFINITE_COUNT
    ensures |Pref(k, e, t, x)| <= 1
    ensures forall y: St :: y in Pref(k, e, t, x) ==> Live(t, e, Groups(k), y) && Left(t, y) < Left(t, x)
  {
    assert Ok(t, e, x);
    hide Meaning, Pref, Setup, Parsed, WellFormed, MinLen, HeadsFine, Groups, Live, SimpleType, Ok;
    SetupMeans(k, e, true, t, x);
    SimpleWay(c, t, e, x);
    forall y | y in Pref(k, e, t, x) ensures Live(t, e, Groups(k), y) { StaysLive(c, t, e, Groups(k), x, y); }
  }

  /** What a run from x leaves, and what the loop inside does first from there. */
  lemma RunIsFirst(q: Node, f: Body, t: Subject, D: St -> bool, x: St)
    requires q.Quant? && q.greedy && q.emptyInfo.NotEmpty? && Single(f, t, D) && D(x)
    requires q.target.Any? ==> forall z: St :: f(z) == Meaning(q.target, t, z)
    ensures var ys := Iter(q, f, t, 0, -1, x); ys != [] && Same(ys[0], Longest(f, t, x))
  {
    hide Single, Forever, Longest;
    if q.target.Any? { StarFirst(t, q.target.multiline, f, x, x.s); } else { LongestFirst(q, f, t, D, x); }
  }

  /** The first of the ways of an atomic group, as its parse tree has them. */
  lemma LoopFirst(q: Node, f: Body, t: Subject, D: St -> bool, x: St)
    requires q.Quant? && q.greedy && q.emptyInfo.NotEmpty? && q.lower <= 1 && Infinite(q.upper)
    requires Single(f, t, D) && D(x) && (q.target.Any? ==> forall z: St :: f(z) == Meaning(q.target, t, z))
    ensures var a := FlatMap(if q.lower == 0 then [x] else f(x), (y: St) => [Longest(f, t, y)]);
      var b := First(Ordered(q, f, t, Free, x));
      |a| == |b| <= 1 && (a != [] ==> Same(b[0], a[0]))
  {
    var F, G := (y: St) => [Longest(f, t, y)], (y: St) => Iter(q, f, t, 0, -1, y);
    if q.lower == 0 {
      FlatOne(x, F);
      RunIsFirst(q, f, t, D, x);
    } else {
      assert Ordered(q, f, t, Free, x) == FlatMap(f(x), (y: St) => Iter(q, f, t, 0, -1, y));
      if f(x) != [] {
        var y := f(x)[0];
        assert f(x) == [y] && y in f(x);
        FlatOne(y, F);
        FlatOne(y, G);
        RunIsFirst(q, f, t, D, y);
      }
    }
  }

  lemma AtomicWays(n: Node, e: Env, t: Subject, x: St)
    requires n.Atomic? && n.target.Quant? && Parsed(n, e) && Parsed(n.target, e) && Parsed(n.target.target, e)
    requires LongestRun(n, e) && n.target.lower <= 1 && 0 < MinLen(n.target.target, e)
    ensures var q := n.target;
      var f: Body := (y: St) => Pref(q.target, e, t, y);
      Pref(n, e, t, x) == FlatMap(if q.lower == 0 then [x] else f(x), (y: St) => [Longest(f, t, y)])
      && Pref(q, e, t, x) == Ordered(q.(emptyInfo := NotEmpty), f, t, Free, x)
      && (q.target.Any? ==> forall z: St :: f(z) == Meaning(q.target, t, z))
  {
    RemainingWays(n.target, e, t, x);
    FreePolicy(n.target, e);
    assert Remaining(n.target) == n.target && EmptyInfoOf(n.target, e) == NotEmpty;
    hide Ordered, PolicyIn, EmptyInfoOf, Longest, MinLen, LongestRun;
  }

  /** An atomic group has the first way of what it contains, however it is compiled; only the previous position that
      `.*` remembers at the end of the text is another one. */
  lemma AtomicIsFirst(n: Node, e: Env, t: Subject, x: St)
    requires n.Atomic? && Parsed(n, e) && Parsed(n.target, e) && Live(t, e, Groups(n), x)
    requires t.End() < Codegen.INFINITE_COUNT
    ensures var a, b := Pref(n, e, t, x), First(Pref(n.target, e, t, x));
      |a| == |b| <= 1 && (a != [] ==> Same(b[0], a[0]))
  {
    if n.target.Quant? && LongestRun(n, e) {
      var q := n.target;
      var f: Body := (y: St) => Pref(q.target, e, t, y);
      RunParts(n, e);
      AtomicWays(n, e, t, x);
      assert Groups(n) == Groups(q.target);
      hide *;
      BodySingle(n, e, t);
      LoopFirst(q.(emptyInfo := NotEmpty), f, t, (z: St) => Live(t, e, Groups(q.target), z), x);
    }
  }
}
