/** Two patterns for which the code loses a match, from the parse tree to the answer. */
module Counterexamples {
  import opened Common
  import opened Tree
  import opened Semantics
  import opened Lengths
  import opened Correctness
  import opened NextNode
  import opened Scan
  import opened LineStarts
  import opened Search
  import opened SetupTree
  import opened Preference
  import opened WrongHeads
  import opened Finder
  import O = Optimizer
  import OptimizerFacts

  // ---------------------------------------------------------------- (?!a).*y

  const Y := Str([0x79])
  const NOT_A := Guard(0x61)
  const DOTS := Quant(Any(false), 0, REPEAT_INFINITE, true, NotEmpty, false, None, None)
  /** (?!a).*y as parsed, and as setup_tree leaves it. */
  const PARSED := Guarded(0x61, DOTS, 0x79)
  const PEEKING := DOTS.(nextHead := Some(0x79))
  const GUARDED := Guarded(0x61, PEEKING, 0x79)
  const ABY := Subject([0x61, 0x62, 0x79], 0, 0, false, false)

  /** (?!a).*b for any two bytes. */
  function Guard(a: byte): Node { Look(AheadNot, Str([a]), 0) }

  function Guarded(a: byte, q: Node, b: byte): Node { List(Link(Guard(a), Link(q, Last(Str([b]))))) }

  lemma DotsParsed()
    ensures Parsed(DOTS, NO_GROUPS) && Setup(DOTS, NO_GROUPS, false) == DOTS
  {
    assert Parsed(Any(false), NO_GROUPS) && EmptyInfoOf(DOTS, NO_GROUPS) == NotEmpty;
    QuantUnfolds(DOTS, NO_GROUPS, false);
  }

  lemma LeavesParsed(a: byte, b: byte, e: Env)
    ensures Parsed(Str([b]), e) && Setup(Str([b]), e, false) == Str([b])
    ensures Parsed(Guard(a), e) && Setup(Guard(a), e, false) == SetupRoot(Guard(a), e) == Guard(a)
  {
    assert Parsed(Str([a]), e);
  }

  /** What setup_tree makes of it: only the peek is added, and no implicit anchor. */
  lemma GuardedTree(a: byte, q: Node, b: byte, e: Env)
    requires StarQuant(q) && q.nextHead.None? && b != 0 && Parsed(q, e) && Setup(q, e, false) == q
    ensures Parsed(Guarded(a, q, b), e)
    ensures SetupRoot(Guarded(a, q, b), e) == Guarded(a, q.(nextHead := Some(b)), b)
  {
    var last := Last(Str([b]));
    LeavesParsed(a, b, e);
    assert NextSetup(q, Str([b])) == q.(nextHead := Some(b)) && NextSetup(Guard(a), q) == Guard(a);
    hide Setup, NextSetup, Parsed, StarQuant;
    assert ParsedAll(last, e) && ParsedAll(Link(q, last), e) && ParsedAll(Link(Guard(a), Link(q, last)), e);
    assert SetupList(last, e, false) == last;
    assert SetupList(Link(q, last), e, false) == Link(q.(nextHead := Some(b)), last);
    assert NextRoot(Guard(a), q) == Guard(a) by { NotStar(a); }
    assert RootList(Link(Guard(a), Link(q, last)), e) == Link(Guard(a), Link(q.(nextHead := Some(b)), last));
    ListParsed(Link(Guard(a), Link(q, last)), e);
  }

  lemma NotStar(a: byte)
    ensures !StarQuant(Guard(a))
  {
  }

  lemma ListParsed(ns: Nodes, e: Env)
    requires ParsedAll(ns, e)
    ensures Parsed(List(ns), e) && SetupRoot(List(ns), e) == List(RootList(ns, e))
  {
    hide RootList, ParsedAll;
  }

  lemma GuardedFits(a: byte, q: Node, b: byte, e: Env)
    requires StarQuant(q) && WellFormed(q, e)
    ensures var n := Guarded(a, q, b); WellFormed(n, e) && O.NoAhead(n) && Refs(n) == {}
    ensures var last := Last(Str([b]));
      WellFormed(Guard(a), e) && WellFormedAll(last, e) && WellFormedAll(Link(q, last), e)
      && O.NoAheadAll(last) && O.NoAheadAll(Link(q, last))
  {
    var last := Last(Str([b]));
    assert WellFormed(Str([a]), e) && WellFormed(Str([b]), e) && WellFormed(Guard(a), e);
    assert Refs(q.target) == {} && Refs(q) == {} && Refs(Str([a])) == {} && Refs(Guard(a)) == {} && RefsOf(last) == {};
    assert RefsOf(Link(q, last)) == {} && RefsOf(Link(Guard(a), Link(q, last))) == {};
    assert O.NoAhead(q.target) && O.NoAhead(q) && O.NoAhead(Guard(a)) && O.NoAheadAll(last)
        && O.NoAheadAll(Link(q, last));
    assert O.NoAheadAll(Link(Guard(a), Link(q, last)));
    assert WellFormedAll(last, e) && WellFormedAll(Link(q, last), e) && WellFormedAll(Link(Guard(a), Link(q, last)), e);
  }

  const START := O.Window(0, 0)
  const FAR := O.Window(0, INFINITE_DISTANCE)
  const STARRED := O.Fresh(START).(anc := O.Anchors({O.AnyCharStarBit}, {}), len := FAR)

  lemma PartsInfo(a: byte, q: Node, e: Env)
    requires StarQuant(q) && q.lower == 0 && WellFormed(q, e) && WellFormed(Guard(a), e)
    ensures O.OptimizeLeft(Guard(a), e, {}, START) == O.Fresh(START) && O.OptimizeLeft(q, e, {}, START) == STARRED
    ensures O.ConcatLeft(O.Fresh(START), O.Fresh(START)) == O.Fresh(START)
    ensures O.ConcatLeft(O.Fresh(START), STARRED) == STARRED
    ensures O.AddWindow(START, O.Fresh(START).len) == START && O.AddWindow(START, FAR) == FAR
  {
  }

  /** What the optimizer finds out: the last byte, anywhere behind the start, and the anchor of `.*`. */
  lemma GuardedHint(a: byte, q: Node, b: byte, e: Env)
    requires StarQuant(q) && q.lower == 0 && WellFormed(q, e) && 0 < O.ByteValue(b)
    ensures var n := Guarded(a, q, b);
      WellFormed(n, e) && O.NoAhead(n)
      && O.HintOf(n, e) == O.SearchInfo(O.ExactHint([b]), 0, INFINITE_DISTANCE, 1, {O.AnyCharStarBit}, {}, START)
  {
    var last := Last(Str([b]));
    GuardedFits(a, q, b, e);
    PartsInfo(a, q, e);
    assert WellFormed(Str([b]), e);
    var c := O.OptimizeLeft(Str([b]), e, {}, FAR);
    LastInfo(b, c, e);
    hide O.ConcatLeft, O.ChooseHint, WellFormed, O.NoAhead, Refs;
    var opt := O.ConcatLeft(STARRED, c);
    assert O.OptimizeList(last, e, {}, FAR, STARRED) == opt;
    assert O.OptimizeList(Link(q, last), e, {}, START, O.Fresh(START)) == opt;
    assert O.OptimizeList(Link(Guard(a), Link(q, last)), e, {}, START, O.Fresh(START)) == opt;
    assert O.OptimizeLeft(Guarded(a, q, b), e, {}, START) == opt;
  }

  lemma LastInfo(b: byte, add: O.Info, e: Env)
    requires WellFormed(Str([b]), e) && add == O.OptimizeLeft(Str([b]), e, {}, FAR) && 0 < O.ByteValue(b)
    ensures O.ChooseHint(O.ConcatLeft(STARRED, add))
            == O.SearchInfo(O.ExactHint([b]), 0, INFINITE_DISTANCE, 1, {O.AnyCharStarBit}, {}, START)
  {
    var exact, chars := O.Exact(FAR, O.NO_ANCHORS, true, [b]), O.ByteMap(FAR, O.NO_ANCHORS, O.ByteValue(b), {b});
    LastParts(b, add, e);
    var r := O.ConcatLeft(STARRED, add);
    assert r.exb.s == [] && r.exm == exact && r.chars == chars && r.anc == O.Anchors({O.AnyCharStarBit}, {}) by {
      hide O.ByteValue;
      assert O.SelectExact(O.CLEAR_EXACT, exact) == exact;
    }
    hide O.ConcatLeft;
    assert O.SelectExact(r.exb, r.exm) == exact && O.CompareExactMap(exact, chars) <= 0;
  }

  lemma LastParts(b: byte, add: O.Info, e: Env)
    requires WellFormed(Str([b]), e) && add == O.OptimizeLeft(Str([b]), e, {}, FAR)
    ensures add.exb == O.Exact(FAR, O.NO_ANCHORS, true, [b]) && add.exm == O.CLEAR_EXACT && add.anc == O.NO_ANCHORS
    ensures add.chars == O.ByteMap(FAR, O.NO_ANCHORS, O.ByteValue(b), {b})
  {
  }

  lemma GuardHolds(i: nat)
    requires i <= 1
    ensures MatchesAt(NOT_A, ABY, i) <==> i == 1
  {
    if i == 0 { assert ABY.data[0..1] == [0x61]; } else { assert ABY.data[1..2][0] == 0x62; }
  }

  lemma TailMatches()
    ensures MatchesAt(List(Link(PEEKING, Last(Y))), ABY, 1)
  {
    var x := Initial(1, 0);
    var z := Advance(x, 1);
    assert Meaning(Y, ABY, z) == [Advance(z, 1)] by { assert ABY.data[2..3] == [0x79]; }
    assert ListMeaning(Last(Y), ABY, z) == Meaning(Y, ABY, z);
    StarIs(PEEKING, ABY, x);
    assert StarMeaning(ABY, false, Some(0x79), x, 1) == StarMeaning(ABY, false, Some(0x79), z, 1) + [];
    assert StarMeaning(ABY, false, Some(0x79), z, 1) == StarMeaning(ABY, false, Some(0x79), Advance(z, 1), 1) + [z];
    assert z in Meaning(PEEKING, ABY, x);
    hide Meaning;
    ListWays(Link(PEEKING, Last(Y)), ABY, x);
    LineStarts.ListUnfolds(Link(PEEKING, Last(Y)), ABY, x);
    ListAllHas(Last(Y), ABY, Meaning(PEEKING, ABY, x), z, Advance(z, 1));
  }

  lemma NoHitless()
    ensures !NoHit(ABY, O.ExactHint([0x79]), 0, 3)
  {
    assert ABY.data[2..3] == [0x79];
    assert OptimizerFacts.Hit(ABY, O.ExactHint([0x79]), 2);
  }

  /** (?!a).*y matches "by" in "aby", but the search goes line by line and finds nothing. */
  lemma GuardedFails()
    ensures Parsed(PARSED, NO_GROUPS) && SetupRoot(PARSED, NO_GROUPS) == GUARDED
    ensures WellFormed(GUARDED, NO_GROUPS) && O.NoAhead(GUARDED) && LineByLine(O.HintOf(GUARDED, NO_GROUPS), ABY, 0)
    ensures FirstStart(GUARDED, ABY, 0) == 1 && FirstLine(GUARDED, ABY, 0) == -1
  {
    hide *;
    DotsParsed();
    DotsStar();
    GuardedTree(0x61, DOTS, 0x79, NO_GROUPS);
    GuardedHint(0x61, PEEKING, 0x79, NO_GROUPS);
    GoesByLine();
    GuardedMatches();
  }

  lemma DotsStar()
    ensures StarQuant(DOTS) && DOTS.nextHead.None? && DOTS.lower == 0 && StarQuant(PEEKING) && PEEKING.lower == 0
    ensures O.ByteValue(0x79) > 0 && WellFormed(PEEKING, NO_GROUPS) && PEEKING == DOTS.(nextHead := Some(0x79))
    ensures PARSED == Guarded(0x61, DOTS, 0x79) && GUARDED == Guarded(0x61, PEEKING, 0x79)
  {
  }

  lemma GoesByLine()
    ensures LineByLine(O.SearchInfo(O.ExactHint([0x79]), 0, INFINITE_DISTANCE, 1, {O.AnyCharStarBit}, {}, START), ABY,
        0)
  {
    hide NoHit;
    NoHitless();
  }

  lemma GuardedMatches()
    ensures FirstStart(GUARDED, ABY, 0) == 1 && FirstLine(GUARDED, ABY, 0) == -1
  {
    var tail := Link(PEEKING, Last(Y));
    assert ABY.(gpos := 0) == ABY && NextLine(ABY, 1) == 3 && NextLine(ABY, 0) == 3;
    TestsAre(NOT_A, ABY);
    hide Meaning, MatchesAt;
    GuardHolds(0);
    GuardHolds(1);
    TailMatches();
    TestThen(NOT_A, tail, ABY, 0);
    TestThen(NOT_A, tail, ABY, 1);
    StartIs(GUARDED, ABY, 0, 1);
  }

  // ---------------------------------------------------------------- c*(?:(?=a)*){2}c

  const AHEAD := Look(Ahead, Str([0x61]), 0)
  const INSIDE := Quant(AHEAD, 0, REPEAT_INFINITE, true, NotEmpty, false, None, None)
  const TWICE := Quant(INSIDE, 2, 2, true, NotEmpty, false, None, None)
  /** (?=a)* after its head byte was moved to the quantifier around it. */
  const INNER := Quant(AHEAD, 0, REPEAT_INFINITE, true, Empty, true, None, None)
  /** (?:(?=a)*){2}, which says that it begins with an a. */
  const OUTER := Quant(INNER, 2, 2, true, Empty, false, Some(0x61), None)

  lemma InsideTree()
    ensures Parsed(INSIDE, NO_GROUPS) && EmptyInfoOf(INSIDE, NO_GROUPS) == Empty
    ensures Setup(INSIDE, NO_GROUPS, true) == INNER.(headExact := Some(0x61))
  {
    assert Parsed(Str([0x61]), NO_GROUPS) && Setup(Str([0x61]), NO_GROUPS, true) == Str([0x61]);
    assert Parsed(AHEAD, NO_GROUPS) && Setup(AHEAD, NO_GROUPS, true) == AHEAD;
    assert EmptyInfoOf(INSIDE, NO_GROUPS) == Empty;
    assert HeadValue(Str([0x61]), true) == Some(Str([0x61])) && HeadByte(AHEAD) == Some(0x61);
    hide Parsed, Setup, EmptyInfoOf, HeadByte, HeadValue;
    QuantUnfolds(INSIDE, NO_GROUPS, true);
  }

  /** The head byte of the inner loop is moved to the outer one. */
  lemma TwiceTree()
    ensures Parsed(TWICE, NO_GROUPS) && Setup(TWICE, NO_GROUPS, false) == OUTER
  {
    InsideTree();
    assert EmptyInfoOf(TWICE, NO_GROUPS) == Empty by { assert MinLen(INSIDE, NO_GROUPS) == 0 && !HasMem(INSIDE); }
    assert INNER.Quant? && TWICE.target == INSIDE && ProperCounts(TWICE.lower, TWICE.upper, TWICE.greedy);
    assert WithHead(INNER.(headExact := Some(0x61)), 2, 2, true, Empty, false) == OUTER;
    hide Parsed, Setup, WithHead, EmptyInfoOf, MinLen, HasMem;
    QuantUnfolds(TWICE, NO_GROUPS, false);
  }

  lemma OuterWrong()
    ensures WrongHead(OUTER) && OUTER.headExact != Some(0x63)
  {
    var a := Str([0x61]);
    assert HeadValue(a, true) == Some(a) && HeadsRight(a) && HeadsFine(AHEAD) && HeadsRight(AHEAD);
    assert HeadOrigin(INNER) == Some(a) && InnermostRight(INNER) && HeadsFine(INNER);
    assert HeadOrigin(OUTER) == Some(a) && InnermostRight(OUTER) && !OriginRight(OUTER);
  }

  /** c*(?:(?=a)*){2}c matches "c", but the tree setup_tree leaves does not: it relies on a head that is none. */
  lemma MovedHeadLoses()
    ensures Parsed(TWICE, NO_GROUPS) && Setup(TWICE, NO_GROUPS, false) == OUTER
    ensures var tree, t := List(Around(TWICE, 0x63)), Only(0x63);
      Parsed(tree, NO_GROUPS) && Ways(tree, NO_GROUPS, t, 0) != []
      && !MatchesAt(Setup(tree, NO_GROUPS, false), t, 0)
  {
    hide *;
    TwiceTree();
    OuterWrong();
    WrongHeadLoses(TWICE, NO_GROUPS, 0x63);
    TreeWays(TWICE, NO_GROUPS, 0x63);
  }

  lemma TreeWays(n: Node, e: Env, c: byte)
    requires Parsed(List(Around(n, c)), e) && Pref(List(Around(n, c)), e, Only(c), Initial(0, -1)) != []
    ensures Ways(List(Around(n, c)), e, Only(c), 0) != []
  {
    hide Pref;
  }
}
