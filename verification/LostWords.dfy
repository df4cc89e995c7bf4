/** Words that counted loops miss, from the parse tree to the prepared one. */
module LostWords {
  import opened Common
  import opened Tree
  import opened Semantics
  import opened Lengths
  import opened Correctness
  import opened Order
  import opened SetupTree
  import opened Preference
  import opened LoopWords
  import opened CountWords
  import opened Visits
  import opened Language
  import opened RegularTrees
  import opened Remembered
  import opened WordWays
  import opened NextNode
  import opened Yielding
  import Codegen

  // ---------------------------------------------------------------- where the code goes wrong

  const A := Str([0x61])
  /** (?:a|\A){3}: large enough for the counter loop, whose body may be empty. */
  const COUNTED := Quant(Alt(Link(A, Last(Anchor(BeginBuf)))), 3, 3, true, Empty, false, None, None)
  const AA := Subject([0x61, 0x61], 0, 0, false, false)

  lemma BodyParsed()
    ensures var b := COUNTED.target; Parsed(b, NO_GROUPS) && MinLen(b, NO_GROUPS) == 0 && !HasMem(b)
  {
    var last := Last(Anchor(BeginBuf));
    assert ParsedAll(last, NO_GROUPS) && ParsedAll(Link(A, last), NO_GROUPS);
    assert MinLenAlt(last, NO_GROUPS) == 0 && MinLenAlt(Link(A, last), NO_GROUPS) == 0;
    assert !HasMemIn(last) && !HasMemIn(Link(A, last));
  }

  lemma BodySetup()
    requires Parsed(COUNTED.target, NO_GROUPS)
    ensures var b := COUNTED.target; Setup(b, NO_GROUPS, true) == b && HeadsFine(b)
  {
    var last := Last(Anchor(BeginBuf));
    assert SetupAlt(last, NO_GROUPS, true) == last && SetupAlt(Link(A, last), NO_GROUPS, true) == Link(A, last);
    assert HeadsFineAlt(last) && HeadsFineAlt(Link(A, last));
  }

  lemma BodyRegular()
    requires Parsed(COUNTED.target, NO_GROUPS)
    ensures Regular(COUNTED.target, NO_GROUPS)
  {
    var last := Last(Anchor(BeginBuf));
    assert RegularAll(last, NO_GROUPS) && RegularAll(Link(A, last), NO_GROUPS);
  }

  lemma CountedShape()
    ensures Codegen.ShapeOf(COUNTED).Counter?
  {
    assert Codegen.Length(A) == 2 && Codegen.Length(Anchor(BeginBuf)) == 1;
    assert Codegen.AltLength(Last(Anchor(BeginBuf))) == 1;
    assert Codegen.Length(COUNTED.target) == 13;
  }

  lemma CountedTree()
    ensures Parsed(COUNTED, NO_GROUPS) && EmptyInfoOf(COUNTED, NO_GROUPS) == Empty && HeadsFine(COUNTED)
    ensures Setup(COUNTED, NO_GROUPS, false) == COUNTED && PolicyIn(COUNTED, NO_GROUPS) == Checked
  {
    var b := COUNTED.target;
    BodyParsed();
    BodySetup();
    CountedShape();
    assert EmptyInfoOf(COUNTED, NO_GROUPS) == Empty && WithHead(b, 3, 3, true, Empty, false) == COUNTED;
    assert ProperCounts(COUNTED.lower, COUNTED.upper, COUNTED.greedy) && COUNTED.target.Alt? && !b.Str?;
    assert HeadsFine(b) ==> HeadsFine(COUNTED);
    hide *;
    QuantUnfolds(COUNTED, NO_GROUPS, false);
    CountedPolicy();
  }

  lemma CountedPolicy()
    requires Parsed(COUNTED.target, NO_GROUPS) && EmptyInfoOf(COUNTED, NO_GROUPS) == Empty
        && Codegen.ShapeOf(COUNTED).Counter?
    requires WithHead(Setup(COUNTED.target, NO_GROUPS, true), 3, 3, true, Empty, false) == COUNTED
    ensures PolicyIn(COUNTED, NO_GROUPS) == Checked
  {
    hide Setup, WithHead, Codegen.ShapeOf, EmptyInfoOf, Parsed;
  }

  lemma BodyWords(i: nat, j: nat)
    requires i <= 1
    ensures In(COUNTED.target, AA, i, j) <==> j == i + 1 || i == j == 0
  {
    assert AA.data[i..i + 1] == [0x61];
    assert In(A, AA, i, j) <==> j == i + 1;
    assert InAlt(Last(Anchor(BeginBuf)), AA, i, j) <==> i == j == 0;
  }

  /** An empty turn ends a counter loop before its lower bound: (?:a|\A){3} cannot match the first a, though \A, \A, a
      are three turns. */
  lemma CountedFails()
    ensures Setup(COUNTED, NO_GROUPS, false) == COUNTED
    ensures In(COUNTED, AA, 0, 1) && !Ends(Meaning(COUNTED, AA, Initial(0, -1)), 1)
  {
    hide *;
    ThreeTurns();
    BodyParsed();
    BodyRegular();
    CountedTree();
    CountedFine();
    BodyRel();
    InitialLive(AA, NO_GROUPS, Groups(COUNTED), 0);
    InitialPoised(COUNTED, 0);
    MissesOne(COUNTED, NO_GROUPS, AA, Initial(0, -1));
  }

  lemma CountedFine()
    requires Parsed(COUNTED, NO_GROUPS) && Parsed(COUNTED.target, NO_GROUPS) && Regular(COUNTED.target, NO_GROUPS)
    requires EmptyInfoOf(COUNTED, NO_GROUPS).Empty? && PolicyIn(COUNTED, NO_GROUPS).Checked?
    ensures CheckedCount(COUNTED, NO_GROUPS) && Plain(COUNTED, NO_GROUPS)
  {
    NothingPushed(COUNTED.target, NO_GROUPS);
    hide Parsed, Regular, PolicyIn, EmptyInfoOf, Loners;
  }

  lemma ThreeTurns()
    ensures COUNTED.Quant? && COUNTED.lower == COUNTED.upper == 3
    ensures Initial(0, -1).s == 0 && AA.End() == 2 < Codegen.INFINITE_COUNT
  {
  }

  /** Three turns of a body that is empty only in front of the first character. */
  lemma MissesOne(n: Node, e: Env, t: Subject, x: St)
    requires Parsed(n, e) && CheckedCount(n, e) && Plain(n, e) && n.lower == n.upper == 3 && Setup(n, e, false) == n
    requires HeadsFine(n) && Live(t, e, Groups(n), x) && Poised(n, x) && x.s == 0 && t.End() < Codegen.INFINITE_COUNT
    requires var R := Words(n.target, t); R(0, 0) && R(0, 1) && !R(1, 1)
    ensures In(n, t, 0, 1) && !Ends(Meaning(n, t, x), 1)
  {
    CountedParts(n, e);
    hide *;
    OnlyOne(n, Words(n.target, t));
    assert Pauses(Words(n.target, t), 1, x.s, 1) && 1 < n.lower && !Words(n.target, t)(1, 1);
    CountedExact(n, e, t, x, 1);
    SetupMeans(n, e, false, t, x);
  }

  lemma BodyRel()
    ensures var R := Words(COUNTED.target, AA); R(0, 0) && R(0, 1) && !R(1, 1)
  {
    hide In;
    BodyWords(0, 0);
    BodyWords(0, 1);
    BodyWords(1, 1);
  }

  lemma OnlyOne(n: Node, R: Rel)
    requires n.Quant? && n.lower == 3 && R(0, 0) && R(0, 1)
    ensures Pauses(R, 1, 0, 1) && forall c: nat :: Allowed(n, c) ==> !Steps(R, c, 0, 1)
  {
    assert Steps(R, 0, 1, 1) && Steps(R, 1, 0, 1);
    forall c: nat | 3 <= c ensures !Steps(R, c, 0, 1) { if Steps(R, c, 0, 1) { NotInOne(R, c, 0); } }
  }

  lemma NotInOne(R: Rel, c: nat, i: nat)
    requires Steps(R, c, i, 1) && i <= 1
    ensures c + i <= 1
  {
    if c > 0 {
      var m: nat :| i < m && R(i, m) && Steps(R, c - 1, m, 1);
      StepsTurn(R, c - 1, m, 1);
      NotInOne(R, c - 1, m);
    }
  }

  // ---------------------------------------------------------------- (?:()a?){5,}

  const BLANK := Group(1, true, false, Str([]))
  const MAYBE := Quant(A, 0, 1, true, NotEmpty, true, None, None)
  const PAIR := List(Link(BLANK, Last(MAYBE)))
  /** (?:()a?){5,}: a counter loop that reads the capture of the empty group. */
  const READING := Quant(PAIR, 5, REPEAT_INFINITE, true, EmptyMem, false, None, None)
  const ONE_GROUP := Env(map[], map[], 1, {1}, {})
  const JUST_A := Subject([0x61], 0, 0, false, false)

  lemma MaybeTree()
    ensures Parsed(A, ONE_GROUP) && Parsed(MAYBE, ONE_GROUP) && EmptyInfoOf(MAYBE, ONE_GROUP) == NotEmpty
    ensures Setup(MAYBE, ONE_GROUP, true) == MAYBE && HeadsFine(MAYBE) && Regular(MAYBE, ONE_GROUP)
  {
    assert Parsed(A, ONE_GROUP) && EmptyInfoOf(MAYBE, ONE_GROUP) == NotEmpty;
    QuantUnfolds(MAYBE, ONE_GROUP, true);
    assert HeadsFine(A) && Regular(A, ONE_GROUP) && Loners(A, ONE_GROUP) == {} && !Reading(MAYBE, ONE_GROUP);
  }

  lemma BlankTree()
    ensures Parsed(BLANK, ONE_GROUP) && Setup(BLANK, ONE_GROUP, true) == BLANK && LoneGroup(BLANK, ONE_GROUP)
    ensures NextSetup(BLANK, MAYBE) == BLANK && HeadsFine(BLANK) && HeadsRight(MAYBE) && Regular(BLANK, ONE_GROUP)
    ensures HeadValue(BLANK, true).None?
  {
    assert Parsed(Str([]), ONE_GROUP) && Setup(Str([]), ONE_GROUP, true) == Str([]);
    assert NextSetup(Str([]), MAYBE) == Str([]) && HeadValue(Str([]), true).None?;
  }

  lemma PairList(a: Node, b: Node, e: Env)
    requires Parsed(a, e) && Parsed(b, e) && Setup(a, e, true) == a && Setup(b, e, true) == b && NextSetup(a, b) == a
    requires HeadsFine(a) && HeadsFine(b) && HeadsRight(b) && Regular(a, e) && Regular(b, e)
    requires Loners(a, e) == {} && Loners(b, e) == {}
    ensures var ns := Link(a, Last(b)); ParsedAll(ns, e) && SetupList(ns, e, true) == ns && HeadsFineList(ns)
    ensures var ns := Link(a, Last(b)); RegularAll(ns, e) && Apart(ns, e) && LonersOf(ns, e) == {}
  {
    hide Parsed, Setup, NextSetup, HeadsFine, HeadsRight, Regular, Loners;
    assert ParsedAll(Last(b), e) && SetupList(Last(b), e, true) == Last(b) && HeadsFineList(Last(b));
    assert RegularAll(Last(b), e) && Apart(Last(b), e) && LonersOf(Last(b), e) == {};
  }

  lemma PairNodes()
    requires Parsed(BLANK, ONE_GROUP)
    ensures Loners(BLANK, ONE_GROUP) == {} && PAIR.List? && PAIR.elems == Link(BLANK, Last(MAYBE))
  {
  }

  lemma PairTree()
    ensures Parsed(PAIR, ONE_GROUP) && Setup(PAIR, ONE_GROUP, true) == PAIR && HeadsFine(PAIR)
    ensures Regular(PAIR, ONE_GROUP) && Loners(PAIR, ONE_GROUP) == {}
    ensures HeadByte(PAIR).None?
  {
    hide *;
    MaybeTree();
    BlankTree();
    NoGroup();
    PairNodes();
    PairList(BLANK, MAYBE, ONE_GROUP);
    PairIs();
  }

  lemma PairIs()
    requires ParsedAll(PAIR.elems, ONE_GROUP) && SetupList(PAIR.elems, ONE_GROUP, true) == PAIR.elems
    requires HeadsFineList(PAIR.elems) && RegularAll(PAIR.elems, ONE_GROUP) && Apart(PAIR.elems, ONE_GROUP)
    requires LonersOf(PAIR.elems, ONE_GROUP) == {} && HeadValue(BLANK, true).None?
    ensures Parsed(PAIR, ONE_GROUP) && Setup(PAIR, ONE_GROUP, true) == PAIR && HeadsFine(PAIR)
    ensures Regular(PAIR, ONE_GROUP) && Loners(PAIR, ONE_GROUP) == {} && HeadByte(PAIR).None?
  {
    hide ParsedAll, SetupList, HeadsFineList, RegularAll, Apart, LonersOf;
  }

  lemma ReadingShape()
    ensures Codegen.ShapeOf(READING).Counter?
  {
    assert Codegen.Length(A) == 2 && Codegen.Length(Str([])) == 0;
    assert Codegen.ShapeOf(MAYBE).Expand?;
    assert Scaled(2, 0) == 0 && Scaled(7, 1) == 7 by { assert Scaled(7, 0) == 0; }
    assert Codegen.Length(MAYBE) == 7;
    assert Codegen.ListLength(Last(MAYBE)) == 7;
  }

  lemma ReadingInfo()
    ensures EmptyInfoOf(READING, ONE_GROUP) == EmptyMem && NoMemInLook(PAIR)
  {
    assert MinLen(MAYBE, ONE_GROUP) == 0 && MinLen(BLANK, ONE_GROUP) == 0 && HasMem(BLANK);
    assert MinLenList(Last(MAYBE), ONE_GROUP, 0) == 0;
    assert HasMemIn(Link(BLANK, Last(MAYBE)));
    assert NoMemInLook(MAYBE) && NoMemInLook(BLANK) && NoMemInLookAll(Last(MAYBE));
  }

  lemma ReadingHead()
    requires HeadByte(PAIR).None? && HeadsFine(PAIR)
    ensures WithHead(PAIR, 5, REPEAT_INFINITE, true, EmptyMem, false) == READING && HeadsFine(READING)
    ensures ProperCounts(READING.lower, READING.upper, READING.greedy) && READING.target == PAIR
    ensures READING.Quant? && READING.lower == 5 && READING.upper == REPEAT_INFINITE && READING.greedy && !PAIR.Str?
        && !EmptyString(PAIR)
  {
    hide HeadByte;
  }

  lemma NoLine()
    ensures !LineFirst(PAIR) && !LineFirst(MAYBE)
  {
    assert !LineFirstIn(Last(MAYBE));
  }

  lemma ReadingTree()
    ensures Parsed(READING, ONE_GROUP) && HeadsFine(READING) && Setup(READING, ONE_GROUP, false) == READING
    ensures CheckedCount(READING, ONE_GROUP) && EmptyInfoOf(READING, ONE_GROUP) == EmptyMem && READING.lower == 5
  {
    hide *;
    PairTree();
    ReadingHead();
    ReadingInfo();
    ReadingShape();
    QuantUnfolds(READING, ONE_GROUP, false);
    NoLine();
    ReadingChecked(READING, PAIR, ONE_GROUP);
  }

  lemma ReadingChecked(n: Node, b: Node, e: Env)
    requires n.Quant? && n.target == b && Parsed(n, e) && Parsed(b, e) && Regular(b, e) && Loners(b, e) == {}
    requires Setup(b, e, true) == b && EmptyInfoOf(n, e) == EmptyMem && Codegen.ShapeOf(n).Counter? && !EmptyString(b)
    requires WithHead(b, n.lower, n.upper, n.greedy, EmptyMem, false) == n && !LineFirst(b)
    ensures CheckedCount(n, e)
  {
    hide Parsed, Regular, Loners, Setup, WithHead, EmptyInfoOf, Codegen.ShapeOf, EmptyString, LineFirst, Keeping;
  }

  /** A pushed group that matched nothing, and a node without groups. */
  lemma TurnNotes(a: Node, b: Node, e: Env, t: Subject, x: St, z: St, y: St)
    requires Parsed(a, e) && Parsed(b, e) && LoneGroup(a, e) && Regular(b, e) && Loners(b, e) == {} && Groups(b) == {}
    requires !LineFirst(b)
    requires z in Pref(a, e, t, x) && z.s == x.s <= t.End() < Codegen.INFINITE_COUNT && y in Pref(b, e, t, z)
    ensures y.log == x.log + [Visit(a.num, Get(x.caps, a.num))] && Get(y.caps, a.num) == Closed(x.s, x.s)
    ensures x.s <= y.s <= t.End()
  {
    hide Parsed, Pref, Regular, Loners, LoneGroup, LineFirst;
    LoneWay(a, e, t, x, z);
    PrefTouches(b, e, t, z, y);
    WayWord(b, e, t, z, y);
  }

  /** A turn of the body notes what the empty group held, and leaves it empty where the turn began. */
  lemma PairTurn(x: St, y: St)
    requires Parsed(PAIR, ONE_GROUP) && y in Pref(PAIR, ONE_GROUP, JUST_A, x) && x.s <= 1
    ensures y.log == x.log + [Visit(1, Get(x.caps, 1))] && Get(y.caps, 1) == Closed(x.s, x.s)
    ensures x.s <= y.s <= 1
  {
    hide *;
    MaybeTree();
    BlankTree();
    NoGroup();
    var z := PairParts(x, y);
    BlankStays(x, z);
    NoLine();
    TurnNotes(BLANK, MAYBE, ONE_GROUP, JUST_A, x, z, y);
  }

  lemma NoGroup()
    requires Parsed(MAYBE, ONE_GROUP)
    ensures Groups(MAYBE) == {} && Loners(MAYBE, ONE_GROUP) == {} && BLANK.Group? && BLANK.num == 1
        && JUST_A.End() == 1 < Codegen.INFINITE_COUNT
  {
    NothingPushed(MAYBE, ONE_GROUP);
  }

  lemma PairParts(x: St, y: St) returns (z: St)
    requires Parsed(PAIR, ONE_GROUP) && Parsed(BLANK, ONE_GROUP) && Parsed(MAYBE, ONE_GROUP)
    requires y in Pref(PAIR, ONE_GROUP, JUST_A, x)
    ensures z in Pref(BLANK, ONE_GROUP, JUST_A, x) && y in Pref(MAYBE, ONE_GROUP, JUST_A, z)
  {
    var F := (z: St) => PrefList(Last(MAYBE), ONE_GROUP, JUST_A, z);
    assert Pref(PAIR, ONE_GROUP, JUST_A, x) == FlatMap(Pref(BLANK, ONE_GROUP, JUST_A, x), F);
    z := InFlat(Pref(BLANK, ONE_GROUP, JUST_A, x), F, y);
  }

  lemma BlankStays(x: St, z: St)
    requires Parsed(BLANK, ONE_GROUP) && z in Pref(BLANK, ONE_GROUP, JUST_A, x)
    ensures z.s == x.s
  {
    var x1 := OpenGroup(1, true, x);
    assert Pref(Str([]), ONE_GROUP, JUST_A, x1) == Meaning(Str([]), JUST_A, x1);
    var y := InCloseAll(1, Pref(Str([]), ONE_GROUP, JUST_A, x1), z);
  }

  ghost function PairWays(): Body
    requires Parsed(PAIR, ONE_GROUP)
  {
    (y: St) => Pref(PAIR, ONE_GROUP, JUST_A, y)
  }

  /** Behind the a, with the empty group left in front of it, every turn is rejected. */
  lemma Behind(c: nat, x: St)
    requires Parsed(PAIR, ONE_GROUP) && x.s == 1 && Get(x.caps, 1) == Closed(0, 0) && c < 5
    ensures !Finds(READING, PairWays(), c, x, 1)
  {
    hide Pref, Parsed, TurnOf, Finds;
    forall y | y in PairWays()(x) ensures TurnOf(READING, x, y).Reject? {
      PairTurn(x, y);
      OneVisit(x, y, Closed(0, 0));
    }
    FindsMore(READING, PairWays(), c, x, 1);
  }

  lemma OneVisit(x: St, y: St, was: Cap)
    requires y.log == x.log + [Visit(1, was)] && y.s == x.s
    ensures was == Closed(0, 0) && x.s == 1 ==> TurnOf(READING, x, y).Reject?
    ensures was == Closed(0, 0) && x.s == 0 ==> TurnOf(READING, x, y).Leave?
    ensures was == Unset ==> TurnOf(READING, x, y).Again?
  {
    assert y.log[|x.log|..] == [Visit(1, was)];
    RejectExact(READING, x, y);
    assert Visit(1, was) in y.log[|x.log|..];
  }

  /** In front of the a, after an empty turn. */
  lemma InFront(c: nat, x: St)
    requires Parsed(PAIR, ONE_GROUP) && x.s == 0 && Get(x.caps, 1) == Closed(0, 0) && c < 4
    ensures !Finds(READING, PairWays(), c, x, 1)
  {
    hide Pref, Parsed, TurnOf, Finds;
    FindsMore(READING, PairWays(), c, x, 1);
    forall y | y in PairWays()(x)
      ensures !(Leaving(READING, PairWays(), x, y) && y.s == 1)
      ensures !(Counting(READING, PairWays(), x, y) && Finds(READING, PairWays(), c + 1, y, 1))
    {
      PairTurn(x, y);
      if y.s == 0 { OneVisit(x, y, Closed(0, 0)); } else { Moved(x, y); Behind(c + 1, y); }
    }
  }

  lemma Moved(x: St, y: St)
    requires x.s != y.s
    ensures TurnOf(READING, x, y).Again?
  {
  }

  lemma AtStart(x: St)
    requires Parsed(PAIR, ONE_GROUP) && x.s == 0 && Get(x.caps, 1) == Unset
    ensures !Finds(READING, PairWays(), 0, x, 1)
  {
    hide Pref, Parsed, TurnOf, Finds;
    FindsMore(READING, PairWays(), 0, x, 1);
    forall y | y in PairWays()(x)
      ensures !(Leaving(READING, PairWays(), x, y) && y.s == 1)
      ensures !(Counting(READING, PairWays(), x, y) && Finds(READING, PairWays(), 0 + 1, y, 1))
    {
      PairTurn(x, y);
      if y.s == 0 { OneVisit(x, y, Unset); InFront(1, y); } else { Moved(x, y); Behind(1, y); }
    }
  }

  lemma ReadingWords()
    ensures In(READING, JUST_A, 0, 1) && In(PAIR, JUST_A, 1, 1)
  {
    hide *;
    BlankWord(0);
    BlankWord(1);
    MaybeWords();
    AtFirst();
    TwoIn(BLANK, MAYBE, JUST_A, 0, 1);
    TwoIn(BLANK, MAYBE, JUST_A, 1, 1);
    FiveTurns(READING, JUST_A, 0, 1);
  }

  lemma BlankWord(i: nat)
    requires i <= 1
    ensures In(BLANK, JUST_A, i, i) && PAIR == List(Link(BLANK, Last(MAYBE)))
  {
    assert JUST_A.data[i..i] == [];
    assert In(Str([]), JUST_A, i, i);
  }

  lemma TwoIn(a: Node, b: Node, t: Subject, i: nat, j: nat)
    requires In(a, t, i, i) && In(b, t, i, j)
    ensures In(List(Link(a, Last(b))), t, i, j)
  {
    assert InList(Last(b), t, i, j);
  }

  lemma FiveTurns(q: Node, t: Subject, i: nat, j: nat)
    requires q.Quant? && q.lower == 5 && Infinite(q.upper) && In(q.target, t, i, j) && In(q.target, t, j, j)
    ensures In(q, t, i, j)
  {
    hide In, Turns;
    var R := Words(q.target, t);
    LoopWords.IdleTurns(R, 4, j);
    OneTurn(R, 4, i, j, j);
    QuantIn(q, t, i, j);
    assert Allowed(q, 5);
  }

  lemma OneTurn(R: Rel, k: nat, i: nat, m: nat, j: nat)
    requires R(i, m) && Turns(R, k, m, j)
    ensures Turns(R, k + 1, i, j)
  {
  }

  lemma MaybeWords()
    ensures In(MAYBE, JUST_A, 0, 1) && In(MAYBE, JUST_A, 1, 1)
  {
    var R := Words(A, JUST_A);
    assert JUST_A.data[0..1] == [0x61];
    assert R(0, 1) && Turns(R, 0, 1, 1) && Turns(R, 1, 0, 1);
    assert Allowed(MAYBE, 0) && Allowed(MAYBE, 1);
  }

  lemma AtFirst()
    ensures Initial(0, -1).s == 0 && Get(Initial(0, -1).caps, 1) == Unset && JUST_A.End() == 1 < Codegen.INFINITE_COUNT
    ensures READING.Quant? && READING.target == PAIR
    ensures READING.lower == 5 <= Codegen.UpperCount(READING.upper) && READING.upper == REPEAT_INFINITE
    ensures Infinite(READING.upper) && READING.upper != 0
  {
  }

  /** An empty turn that leaves an empty capture behind is rejected: (?:()a?){5,} does not match the a, although its
      body can be empty behind it. */
  lemma CaptureFails()
    ensures Parsed(READING, ONE_GROUP) && Setup(READING, ONE_GROUP, false) == READING
    ensures In(READING, JUST_A, 0, 1) && In(READING.target, JUST_A, 1, 1)
    ensures !Ends(Meaning(READING, JUST_A, Initial(0, -1)), 1)
  {
    hide *;
    var x := Initial(0, -1);
    PairTree();
    ReadingTree();
    ReadingWords();
    AtFirst();
    InitialLive(JUST_A, ONE_GROUP, Groups(READING), 0);
    SetupMeans(READING, ONE_GROUP, false, JUST_A, x);
    ReadingOrdered(x);
    AtStart(x);
    CountRuns(READING, PairWays(), JUST_A, x, 1);
  }

  lemma ReadingOrdered(x: St)
    requires Parsed(READING, ONE_GROUP) && Parsed(PAIR, ONE_GROUP) && CheckedCount(READING, ONE_GROUP)
    requires EmptyInfoOf(READING, ONE_GROUP) == EmptyMem
    ensures Pref(READING, ONE_GROUP, JUST_A, x) == Ordered(READING, PairWays(), JUST_A, Checked, x)
  {
    CountedPref(READING, ONE_GROUP, JUST_A, x);
    assert READING.(emptyInfo := EmptyMem) == READING && READING.target == PAIR;
    hide Pref, Parsed, Ordered;
  }
}
