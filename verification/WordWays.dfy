/** The ways of a regular parse tree lead exactly where its words lead, so match_at finds a match exactly when there is
    one; and exactly where counted loops over other bodies lead. */
module WordWays {
  import opened Common
  import opened Tree
  import opened Semantics
  import opened Lengths
  import opened Correctness
  import opened Order
  import opened SetupTree
  import opened Preference
  import opened LoopWords
  import opened CountWords
  import opened Visits
  import opened Language
  import opened RegularTrees
  import opened Remembered
  import Codegen
  import L = LookBehind

  // ---------------------------------------------------------------- the ways are the words

  /** The ways of a parse tree lead exactly where its words lead. */
  lemma {:induction false} PrefIsLanguage(n: Node, e: Env, t: Subject, x: St, j: nat)
    requires Parsed(n, e) && Regular(n, e) && x.s <= t.End() < Codegen.INFINITE_COUNT
    requires Fresh(Loners(n, e), x) && Poised(n, x)
    ensures Ends(Pref(n, e, t, x), j) <==> In(n, t, x.s, j)
    decreases n, 2
  {
    match n
    case Str(s) => EndsOne(Advance(x, |s|), j); NoEnd(j);
    case CClass(_, _) => EndsOne(Advance(x, 1), j); NoEnd(j);
    case Any(_) => EndsOne(Advance(x, 1), j); NoEnd(j);
    case Anchor(kind) => AnchorWays(kind, t, x, j);
    case Quant(_, _, _, _, _, _, _, _) => QuantWords(n, e, t, x, j);
    case Group(num, _, _, target) =>
      var x1 := OpenGroup(num, num in e.btStart, x);
      PrefIsLanguage(target, e, t, x1, j);
      ClosedEnds(num, Pref(target, e, t, x1), j);
    case Look(_, _, _) => LookWords(n, e, t, x, j);
    case List(elems) => ListWords(elems, e, t, x, j);
    case Alt(elems) => AltWords(elems, e, t, x, j);
  }

  lemma AnchorWays(kind: AnchorKind, t: Subject, x: St, j: nat)
    requires x.s <= t.End() && (kind.BeginLine? || kind.AnyCharStar? ==> Tight(x))
    ensures Ends(AnchorMeaning(kind, t, x), j) <==> HoldsAt(kind, t, x.s) && x.s == j
  {
    EndsOne(x, j);
    EndsOne(x.(keep := x.s), j);
    NoEnd(j);
  }

  lemma {:induction false} ClosedEnds(num: nat, ys: seq<St>, j: nat)
    ensures Ends(CloseAll(num, ys), j) <==> Ends(ys, j)
    decreases |ys|
  {
    hide Ends;
    if ys != [] {
      ClosedEnds(num, ys[1..], j);
      EndsOne(ys[0], j);
      EndsOne(CloseGroup(num, ys[0]), j);
      EndsSum([ys[0]], ys[1..], j);
      EndsSum([CloseGroup(num, ys[0])], CloseAll(num, ys[1..]), j);
      assert ys == [ys[0]] + ys[1..];
    }
  }

  /** The body of a loop leads where its words lead. */
  lemma {:induction false} BodySpeaks(n: Node, e: Env, t: Subject)
    requires Parsed(n, e) && Regular(n, e) && Loners(n, e) == {} && t.End() < Codegen.INFINITE_COUNT
    ensures Speaks(BodyOf(n, e, t), Words(n, t), t)
    decreases n, 3
  {
    hide In, Pref, Ends, LineFirst;
    var f: Body := BodyOf(n, e, t);
    forall x: St, j: nat | x.s <= t.End() ensures Ends(f(x), j) <==> Words(n, t)(x.s, j) {
      PrefIsLanguage(n, e, t, Enter(n, x), j);
    }
  }

  lemma {:induction false} QuantWords(n: Node, e: Env, t: Subject, x: St, j: nat)
    requires n.Quant? && Parsed(n, e) && Regular(n, e) && x.s <= t.End() < Codegen.INFINITE_COUNT
    requires Fresh(Loners(n, e), x) && Poised(n, x)
    ensures Ends(Pref(n, e, t, x), j) <==> In(n, t, x.s, j)
    decreases n, 1
  {
    QuantFacts(n, e, t, x, j);
    hide *;
    var R, q := Words(n.target, t), Remaining(n);
    var r, policy := q.(emptyInfo := EmptyInfoOf(q, e)), PolicyIn(q, e);
    var f: Body := BodyOf(n.target, e, t);
    BodySpeaks(n.target, e, t);
    WordsForward(n.target, t);
    var I: Inv := (_: St) => true;
    if !policy.Free? && 1 <= q.lower { I := LoopLasts(n, e, t, x); }
    OrderedEnds(r, f, R, t, I, policy, x, j);
  }

  lemma QuantFacts(n: Node, e: Env, t: Subject, x: St, j: nat)
    requires n.Quant? && Parsed(n, e) && Regular(n, e) && Poised(n, x) && x.s <= t.End()
    ensures Parsed(n.target, e) && Regular(n.target, e) && Loners(n.target, e) == {}
    ensures var R, q := Words(n.target, t), Remaining(n);
      var r, policy := q.(emptyInfo := EmptyInfoOf(q, e)), PolicyIn(q, e);
      Pref(n, e, t, x) == Ordered(r, BodyOf(n.target, e, t), t, policy, x)
      && (In(n, t, x.s, j) <==> exists k: nat :: Allowed(r, k) && Turns(R, k, x.s, j))
      && Bounded(r) && StarIsAny(r, R, t)
      && (policy.Entered? ==> r.lower == 1 && Infinite(r.upper))
      && (policy.Checked? ==> r.upper != 0 && Even(r, R, t))
  {
    QuantParsed(n, e);
    RegularParts(n, e);
    PoisedLoop(n, e, t, x);
    RemainingBounded(n);
    LoopPolicy(Remaining(n), e);
    StarWords(n.target, t);
    WordsEven(n, e, t);
    RemainingTurns(n, e, t, x.s, j);
    QuantIn(n, t, x.s, j);
    hide *;
    SameAllowed(Remaining(n), EmptyInfoOf(Remaining(n), e), Words(n.target, t), t);
  }

  lemma RegularParts(n: Node, e: Env)
    requires n.Quant? && Parsed(n, e) && Parsed(n.target, e) && Regular(n, e)
    ensures Regular(n.target, e) && EvenTurns(n, e) && Loners(n.target, e) == {}
    ensures Keeping(n.target) || !LineFirst(n.target)
  {
    hide Parsed, EvenTurns, Loners;
  }

  lemma RemainingBounded(n: Node)
    requires n.Quant? && ProperCounts(n.lower, n.upper, n.greedy)
    ensures Bounded(Remaining(n))
  {
  }

  lemma QuantIn(n: Node, t: Subject, i: nat, j: nat)
    requires n.Quant?
    ensures In(n, t, i, j) <==> exists k: nat :: Allowed(n, k) && Turns(Words(n.target, t), k, i, j)
  {
    hide Words;
  }

  /** What the null check is makes no difference to the words. */
  lemma SameAllowed(q: Node, info: EmptyInfo, R: Rel, t: Subject)
    requires q.Quant?
    ensures var r := q.(emptyInfo := info);
      (forall k: nat :: Allowed(r, k) <==> Allowed(q, k)) && (Bounded(r) <==> Bounded(q))
          && (Even(r, R, t) <==> Even(q, R, t))
      && (StarIsAny(r, R, t) <==> (q.target.Any? ==> AnyRel(R, t, q.target.multiline)))
  {
    hide AnyRel;
  }

  // ---------------------------------------------------------------- empty turns

  /** The plain null check: every empty turn leaves. */
  lemma PlainLasts(q: Node, f: Body, R: Rel, t: Subject)
    requires q.Quant? && q.emptyInfo.Empty? && Speaks(f, R, t)
    ensures Lasting(q, f, R, t, (_: St) => true)
  {
    hide Speaks;
    forall x: St | x.s <= t.End() && R(x.s, x.s) ensures Idles(q, f, (_: St) => true, x) {
      var y := WayTo(f, R, t, x, x.s);
    }
  }

  lemma {:induction false} QuietLasts(q: Node, n: Node, e: Env, t: Subject)
    requires q.Quant? && Parsed(n, e) && Regular(n, e) && Loners(n, e) == {} && Quiet(n, e)
    requires q.emptyInfo.EmptyMem? && t.End() < Codegen.INFINITE_COUNT
    ensures Lasting(q, BodyOf(n, e, t), Words(n, t), t, (_: St) => true)
    decreases n, 6
  {
    hide Parsed, Regular, In, Pref, Quiet, Loners, LineFirst, Fresh;
    var f: Body := BodyOf(n, e, t);
    forall x: St | x.s <= t.End() && Words(n, t)(x.s, x.s) ensures Idles(q, f, (_: St) => true, x) {
      var z := Enter(n, x);
      EnterSame(n, q, x);
      NoneFresh(n, e, z);
      var y := WordWay(n, e, t, z, x.s);
      QuietWay(n, e, t, z, y);
      NoVisit(q, x, y);
      assert y in f(x);
    }
  }

  /** An empty turn without a visit leaves. */
  lemma NoVisit(q: Node, x: St, y: St)
    requires q.Quant? && !q.emptyInfo.NotEmpty? && y.s == x.s && y.log == x.log
    ensures TurnOf(q, x, y).Leave?
  {
    assert y.log[|x.log|..] == [];
  }

  lemma IdleLasts(q: Node, n: Node, e: Env, t: Subject)
    requires q.Quant? && Parsed(n, e) && Idle(n, e) && q.emptyInfo.EmptyMem?
    ensures Lasting(q, BodyOf(n, e, t), Words(n, t), t, (_: St) => true)
  {
    hide Parsed, In, Pref, Idle;
    var f: Body := BodyOf(n, e, t);
    forall x: St | x.s <= t.End() ensures Idles(q, f, (_: St) => true, x) {
      EnterSame(n, q, x);
      var y := IdleWay(n, e, t, Enter(n, x));
      NoVisit(q, x, y);
      assert y in f(x);
    }
  }

  ghost function NotStale(g: nat): Inv { (x: St) => !Stale(g, x) }

  lemma StaleSame(g: nat, x: St, y: St)
    requires x.s == y.s && x.caps == y.caps
    ensures Stale(g, x) == Stale(g, y)
  {
  }

  lemma LoneKeeps(n: Node, e: Env, t: Subject, x: St, y: St)
    requires Parsed(n, e) && LoneGroup(n, e) && y in Pref(n, e, t, x)
    ensures !Stale(n.num, y)
  {
    hide Parsed, Pref;
    LoneWay(n, e, t, x, y);
  }

  lemma {:induction false} LoneLasts(q: Node, n: Node, e: Env, t: Subject)
    requires q.Quant? && Parsed(n, e) && Regular(n, e) && Loners(n, e) == {} && LoneGroup(n, e)
    requires q.emptyInfo.EmptyMem? && t.End() < Codegen.INFINITE_COUNT
    ensures Lasting(q, BodyOf(n, e, t), Words(n, t), t, NotStale(n.num))
    decreases n, 6
  {
    var g := n.num;
    hide Parsed, Regular, In, Pref, LoneGroup, Loners, Stale;
    var f: Body := BodyOf(n, e, t);
    forall x: St, y: St | y in f(x) ensures !Stale(g, y) { LoneKeeps(n, e, t, Enter(n, x), y); }
    forall x: St | x.s <= t.End() && !Stale(g, x) && Words(n, t)(x.s, x.s) ensures Idles(q, f, NotStale(g), x) {
      var z := Enter(n, x);
      EnterSame(n, q, x);
      var y := WordWay(n, e, t, z, x.s);
      LoneTurn(q, n, e, t, z, y);
      assert Stale(g, z) == Stale(g, x) by { StaleSame(g, z, x); }
      assert y in f(x);
    }
  }

  /** Where a regular loop has to turn, its empty turns can be made. */
  lemma {:induction false} LoopLasts(n: Node, e: Env, t: Subject, x: St) returns (I: Inv)
    requires n.Quant? && Parsed(n, e) && Regular(n, e) && Fresh(Loners(n, e), x) && t.End() < Codegen.INFINITE_COUNT
    requires Parsed(n.target, e) && 1 <= Remaining(n).lower && !PolicyIn(Remaining(n), e).Free?
    ensures var q := Remaining(n);
      Lasting(q.(emptyInfo := EmptyInfoOf(q, e)), BodyOf(n.target, e, t), Words(n.target, t), t, I) && I(x)
    decreases n, 0
  {
    var q, b := Remaining(n), n.target;
    var r := q.(emptyInfo := EmptyInfoOf(q, e));
    assert Regular(b, e) && EvenTurns(n, e) && Loners(b, e) == {};
    LoopPolicy(q, e);
    I := (_: St) => true;
    if r.emptyInfo.Empty? {
      BodySpeaks(b, e, t);
      PlainLasts(r, BodyOf(b, e, t), Words(b, t), t);
    } else if Quiet(b, e) {
      QuietLasts(r, b, e, t);
    } else if Idle(b, e) {
      IdleLasts(r, b, e, t);
    } else {
      assert Reading(n, e) && LoneGroup(b, e) && b.num in Loners(n, e);
      LoneLasts(r, b, e, t);
      I := NotStale(b.num);
    }
  }

  /** An empty match of a quiet node visits nothing. */
  lemma {:induction false} QuietWay(n: Node, e: Env, t: Subject, x: St, y: St)
    requires Parsed(n, e) && Regular(n, e) && x.s <= t.End() < Codegen.INFINITE_COUNT && Fresh(Loners(n, e), x)
    requires Quiet(n, e) && Poised(n, x) && y in Pref(n, e, t, x) && y.s == x.s
    ensures y.log == x.log
    decreases n, 5
  {
    if Groups(n) !! e.btStart {
      PrefTouches(n, e, t, x, y);
    } else if Solid(n) {
      SolidWay(n, e, t, x, y);
    } else {
      match n
      case Quant(_, _, _, _, _, _, _, _) => QuietLoop(n, e, t, x, y);
      case Group(num, _, _, target) =>
        var x1 := OpenGroup(num, false, x);
        var z := InCloseAll(num, Pref(target, e, t, x1), y);
        QuietWay(target, e, t, x1, z);
      case List(elems) => QuietList(elems, e, t, x, y);
      case Alt(elems) => QuietAlt(elems, e, t, x, y);
    }
  }

  lemma {:induction false} SolidWay(n: Node, e: Env, t: Subject, x: St, y: St)
    requires Parsed(n, e) && Regular(n, e) && x.s <= t.End() < Codegen.INFINITE_COUNT && Fresh(Loners(n, e), x)
    requires Solid(n) && Poised(n, x) && y in Pref(n, e, t, x)
    ensures x.s < y.s
    decreases n, 4
  {
    hide *;
    WayWord(n, e, t, x, y);
    WordWithin(n, t, x.s, y.s);
  }

  /** Forwards, and no visit without a step. */
  ghost predicate Quietly(x: St, y: St) { x.s <= y.s && (x.s == y.s ==> y.log == x.log) }

  lemma QuietlyLasts()
    ensures Lasts((x: St, y: St) => Quietly(x, y)) && Shifts((x: St, y: St) => Quietly(x, y))
  {
  }

  lemma NoneFresh(n: Node, e: Env, x: St)
    requires Parsed(n, e) && Loners(n, e) == {}
    ensures Fresh(Loners(n, e), x)
  {
    hide Parsed, Loners;
  }

  lemma QuietlyIs(x: St, y: St)
    ensures Quietly(x, y) <==> x.s <= y.s && (x.s == y.s ==> y.log == x.log)
  {
  }

  lemma {:induction false} QuietStep(n: Node, e: Env, t: Subject, x: St, y: St)
    requires Parsed(n, e) && Regular(n, e) && Loners(n, e) == {} && Quiet(n, e) && t.End() < Codegen.INFINITE_COUNT
    requires x.s <= t.End() && y in BodyOf(n, e, t)(x)
    ensures Quietly(x, y) && y.s <= t.End()
    decreases n, 6
  {
    hide *;
    var z := Enter(n, x);
    EnteredBody(n, e, t, x);
    NoneFresh(n, e, z);
    WayWord(n, e, t, z, y);
    if y.s == x.s { QuietWay(n, e, t, z, y); }
    QuietlyIs(x, y);
  }

  lemma {:induction false} QuietBody(n: Node, e: Env, t: Subject)
    requires Parsed(n, e) && Regular(n, e) && Loners(n, e) == {} && Quiet(n, e) && t.End() < Codegen.INFINITE_COUNT
    ensures Carries(BodyOf(n, e, t), (x: St) => x.s <= t.End(), (x: St, y: St) => Quietly(x, y))
    decreases n, 7
  {
    hide Parsed, Regular, Pref, Quiet, Loners, In, BodyOf, Quietly;
    forall x: St, y: St | x.s <= t.End() && y in BodyOf(n, e, t)(x) ensures Quietly(x, y) && y.s <= t.End() {
      QuietStep(n, e, t, x, y);
    }
  }

  lemma {:induction false} QuietLoop(n: Node, e: Env, t: Subject, x: St, y: St)
    requires n.Quant? && Parsed(n, e) && Regular(n, e) && x.s <= t.End() < Codegen.INFINITE_COUNT
    requires Quiet(n.target, e) && Poised(n, x) && y in Pref(n, e, t, x) && y.s == x.s
    ensures y.log == x.log
    decreases n, 3
  {
    QuantParsed(n, e);
    var q := Remaining(n);
    RegularParts(n, e);
    PoisedLoop(n, e, t, x);
    hide Parsed, Regular, Pref, Quiet, Loners, Ordered, PolicyIn, EmptyInfoOf, Lasts;
    QuietBody(n.target, e, t);
    QuietlyLasts();
    OrderedKeeps(q.(emptyInfo := EmptyInfoOf(q, e)), BodyOf(n.target, e, t), t, PolicyIn(q, e),
      (z: St) => z.s <= t.End(), (z: St, w: St) => Quietly(z, w), x, y);
  }

  lemma {:induction false} QuietList(ns: Nodes, e: Env, t: Subject, x: St, y: St)
    requires ParsedAll(ns, e) && RegularAll(ns, e) && Apart(ns, e) && Settled(ns)
        && x.s <= t.End() < Codegen.INFINITE_COUNT
    requires Fresh(LonersOf(ns, e), x) && QuietAll(ns, e) && y in PrefList(ns, e, t, x) && y.s == x.s
    requires LineFirstIn(ns) ==> Tight(x)
    ensures y.log == x.log
    decreases ns, 4
  {
    hide Pref, Regular, Parsed, Quiet, Loners, Groups, Fresh;
    FreshParts(ns, e, x);
    if ns.Last? {
      QuietWay(ns.car, e, t, x, y);
    } else {
      var z := InFlat(Pref(ns.car, e, t, x), (z: St) => PrefList(ns.cdr, e, t, z), y);
      WayWord(ns.car, e, t, x, z);
      FreshOn(ns, e, t, x, z);
      SolidCar(ns, t, x.s, z.s);
      PoisedOn(ns, e, t, x, z);
      ListForward(ns.cdr, e, t, z, y);
      QuietWay(ns.car, e, t, x, z);
      QuietList(ns.cdr, e, t, z, y);
    }
  }

  lemma SolidCar(ns: Nodes, t: Subject, i: nat, j: nat)
    requires In(ns.car, t, i, j) && i <= t.End()
    ensures Solid(ns.car) ==> i < j
  {
    WordWithin(ns.car, t, i, j);
  }

  lemma {:induction false} ListForward(ns: Nodes, e: Env, t: Subject, x: St, y: St)
    requires ParsedAll(ns, e) && RegularAll(ns, e) && Apart(ns, e) && Settled(ns)
        && x.s <= t.End() < Codegen.INFINITE_COUNT
    requires Fresh(LonersOf(ns, e), x) && y in PrefList(ns, e, t, x)
    requires LineFirstIn(ns) ==> Tight(x)
    ensures x.s <= y.s <= t.End()
    decreases ns, 3
  {
    hide *;
    assert Ends(PrefList(ns, e, t, x), y.s) by { EndIs(PrefList(ns, e, t, x), y); }
    ListWords(ns, e, t, x, y.s);
    ListWithin(ns, t, x.s, y.s);
  }

  lemma EndIs(ys: seq<St>, y: St)
    requires y in ys
    ensures Ends(ys, y.s)
  {
  }

  lemma {:induction false} QuietAlt(ns: Nodes, e: Env, t: Subject, x: St, y: St)
    requires ParsedAll(ns, e) && RegularAll(ns, e) && x.s <= t.End() < Codegen.INFINITE_COUNT
    requires Fresh(LonersOf(ns, e), x) && QuietAll(ns, e) && y in PrefAlt(ns, e, t, x) && y.s == x.s
    requires LineFirstSome(ns) ==> Tight(x)
    ensures y.log == x.log
    decreases ns, 4
  {
    hide Pref, Regular, Parsed, Quiet, Loners, Fresh;
    FreshParts(ns, e, x);
    if ns.Last? || y in Pref(ns.car, e, t, x) {
      QuietWay(ns.car, e, t, x, y);
    } else {
      QuietAlt(ns.cdr, e, t, x, y);
    }
  }

  lemma FreshParts(ns: Nodes, e: Env, x: St)
    requires ParsedAll(ns, e) && Fresh(LonersOf(ns, e), x)
    ensures Parsed(ns.car, e) && Fresh(Loners(ns.car, e), x)
    ensures ns.Link? ==> ParsedAll(ns.cdr, e) && Fresh(LonersOf(ns.cdr, e), x)
  {
    hide Parsed, Loners;
  }

  /** What a loop further on reads is still fresh when it starts. */
  /** The rest of the list meets the right remembered position. */
  lemma PoisedOn(ns: Nodes, e: Env, t: Subject, x: St, y: St)
    requires ns.Link? && ParsedAll(ns, e) && Settled(ns) && (LineFirstIn(ns) ==> Tight(x))
    requires Parsed(ns.car, e) && y in Pref(ns.car, e, t, x) && (Solid(ns.car) ==> x.s < y.s)
    ensures (LineFirstIn(ns.cdr) ==> Tight(y)) && Settled(ns.cdr)
  {
    hide Parsed, Pref, LineFirst, Keeping;
    if LineFirstIn(ns.cdr) { WayAlong(ns.car, e, t, x, y); }
  }

  lemma FreshOn(ns: Nodes, e: Env, t: Subject, x: St, y: St)
    requires ns.Link? && ParsedAll(ns, e) && Apart(ns, e) && Fresh(LonersOf(ns, e), x)
    requires Parsed(ns.car, e) && ParsedAll(ns.cdr, e) && y in Pref(ns.car, e, t, x)
    ensures Fresh(LonersOf(ns.cdr, e), y) && Apart(ns.cdr, e)
  {
    FreshParts(ns, e, x);
    hide Parsed, Loners, Pref;
    PrefTouches(ns.car, e, t, x, y);
  }

  // ---------------------------------------------------------------- parts

  lemma StarWords(n: Node, t: Subject)
    ensures n.Any? ==> AnyRel(Words(n, t), t, n.multiline)
  {
  }

  lemma WordsEven(n: Node, e: Env, t: Subject)
    requires n.Quant? && Parsed(n, e) && EvenTurns(n, e) && Parsed(n.target, e)
    ensures PolicyIn(Remaining(n), e).Checked? ==> Even(Remaining(n), Words(n.target, t), t)
  {
    hide In, PolicyIn, Setup;
    var R, q := Words(n.target, t), Remaining(n);
    if PolicyIn(q, e).Checked? && 2 <= q.lower {
      if Nullable(n.target) {
        forall p: nat | p <= t.End() ensures R(p, p) { NullableIn(n.target, e, t, p); }
      } else {
        forall p: nat | p <= t.End() ensures !R(p, p) { if R(p, p) { WordWithin(n.target, t, p, p); } }
      }
    }
  }

  /** The only word of an empty string. */
  lemma {:induction false} EmptyWord(n: Node, t: Subject, i: nat, j: nat)
    requires EmptyString(n) && i <= t.End()
    ensures In(n, t, i, j) <==> i == j
    decreases n, 0
  {
    if n.Str? {
      assert t.data[i..i] == [];
    } else {
      EmptyRel(n.target, t, i);
      forall k: nat ensures Turns(Words(n.target, t), k, i, j) <==> i == j { EmptyTurns(Words(n.target, t), k, i, j); }
      assert Allowed(n, n.lower);
    }
  }

  lemma {:induction false} EmptyRel(n: Node, t: Subject, i: nat)
    requires EmptyString(n) && i <= t.End()
    ensures Words(n, t)(i, i) && forall m: nat :: Words(n, t)(i, m) ==> m == i
    decreases n, 1
  {
    hide In;
    forall m: nat ensures Words(n, t)(i, m) <==> i == m { EmptyWord(n, t, i, m); }
  }

  /** Repeated empty strings are one. */
  lemma RemainingTurns(n: Node, e: Env, t: Subject, i: nat, j: nat)
    requires n.Quant? && Parsed(n, e) && i <= t.End()
    ensures var R, q := Words(n.target, t), Remaining(n);
      (exists k: nat :: Allowed(q, k) && Turns(R, k, i, j)) <==> exists k: nat :: Allowed(n, k) && Turns(R, k, i, j)
  {
    var R, q := Words(n.target, t), Remaining(n);
    if q != n {
      EmptyRel(n.target, t, i);
      forall k: nat ensures Turns(R, k, i, j) <==> i == j { EmptyTurns(R, k, i, j); }
      assert Allowed(q, 0) && Allowed(n, n.lower);
    }
  }

  lemma {:induction false} EmptyTurns(R: Rel, k: nat, i: nat, j: nat)
    requires R(i, i) && forall m: nat :: R(i, m) ==> m == i
    ensures Turns(R, k, i, j) <==> i == j
    decreases k
  {
    if k > 0 { EmptyTurns(R, k - 1, i, j); }
  }

  lemma {:induction false} ListWords(ns: Nodes, e: Env, t: Subject, x: St, j: nat)
    requires ParsedAll(ns, e) && RegularAll(ns, e) && x.s <= t.End() < Codegen.INFINITE_COUNT
    requires Fresh(LonersOf(ns, e), x) && Apart(ns, e) && Settled(ns)
    requires LineFirstIn(ns) ==> Tight(x)
    ensures Ends(PrefList(ns, e, t, x), j) <==> InList(ns, t, x.s, j)
    decreases ns, 2
  {
    hide In, Pref, Ends, Regular, Parsed, Fresh, Loners, Groups;
    FreshParts(ns, e, x);
    if ns.Last? {
      PrefIsLanguage(ns.car, e, t, x, j);
    } else {
      var ys, F := Pref(ns.car, e, t, x), (y: St) => PrefList(ns.cdr, e, t, y);
      FlatEnds(ys, F, j);
      if y: St :| y in ys && Ends(F(y), j) {
        WayWord(ns.car, e, t, x, y);
        FreshOn(ns, e, t, x, y);
        SolidCar(ns, t, x.s, y.s);
        PoisedOn(ns, e, t, x, y);
        ListWords(ns.cdr, e, t, y, j);
      }
      if m: nat :| In(ns.car, t, x.s, m) && InList(ns.cdr, t, m, j) {
        var y := WordWay(ns.car, e, t, x, m);
        WordWithin(ns.car, t, x.s, m);
        FreshOn(ns, e, t, x, y);
        PoisedOn(ns, e, t, x, y);
        ListWords(ns.cdr, e, t, y, j);
        assert F(y) == PrefList(ns.cdr, e, t, y);
      }
    }
  }

  lemma {:induction false} WayWord(n: Node, e: Env, t: Subject, x: St, y: St)
    requires Parsed(n, e) && Regular(n, e) && x.s <= t.End() < Codegen.INFINITE_COUNT && y in Pref(n, e, t, x)
    requires Fresh(Loners(n, e), x)
    requires Poised(n, x)
    ensures In(n, t, x.s, y.s) && x.s <= y.s <= t.End()
    decreases n, 3
  {
    hide In, Pref, Regular, Parsed;
    assert Ends(Pref(n, e, t, x), y.s);
    PrefIsLanguage(n, e, t, x, y.s);
    WordWithin(n, t, x.s, y.s);
  }

  lemma {:induction false} WordWay(n: Node, e: Env, t: Subject, x: St, m: nat) returns (y: St)
    requires Parsed(n, e) && Regular(n, e) && x.s <= t.End() < Codegen.INFINITE_COUNT && In(n, t, x.s, m)
    requires Fresh(Loners(n, e), x)
    requires Poised(n, x)
    ensures y in Pref(n, e, t, x) && y.s == m
    decreases n, 3
  {
    hide In, Pref, Regular, Parsed;
    PrefIsLanguage(n, e, t, x, m);
    y :| y in Pref(n, e, t, x) && y.s == m;
  }

  lemma {:induction false} AltWords(ns: Nodes, e: Env, t: Subject, x: St, j: nat)
    requires ParsedAll(ns, e) && RegularAll(ns, e) && x.s <= t.End() < Codegen.INFINITE_COUNT
    requires Fresh(LonersOf(ns, e), x)
    requires LineFirstSome(ns) ==> Tight(x)
    ensures Ends(PrefAlt(ns, e, t, x), j) <==> InAlt(ns, t, x.s, j)
    decreases ns, 2
  {
    hide In, Pref, Ends, Regular, Parsed, Fresh, Loners;
    FreshParts(ns, e, x);
    PrefIsLanguage(ns.car, e, t, x, j);
    if ns.Link? {
      AltWords(ns.cdr, e, t, x, j);
      EndsSum(Pref(ns.car, e, t, x), PrefAlt(ns.cdr, e, t, x), j);
    }
  }

  // ---------------------------------------------------------------- look-around

  lemma LookIs(n: Node, t: Subject, i: nat, j: nat)
    requires n.Look?
    ensures var some := if n.look.Ahead? || n.look.AheadNot? then Starting(Words(n.target, t), i)
        else Ending(Words(n.target, t), i);
      In(n, t, i, j) <==> j == i && some == (n.look.Ahead? || n.look.Behind?)
  {
    hide Starting, Ending;
  }

  lemma {:induction false} LookWords(n: Node, e: Env, t: Subject, x: St, j: nat)
    requires n.Look? && Parsed(n, e) && Regular(n, e) && x.s <= t.End() < Codegen.INFINITE_COUNT
    requires Fresh(Loners(n, e), x)
    requires Poised(n, x)
    ensures Ends(Pref(n, e, t, x), j) <==> In(n, t, x.s, j)
    decreases n, 1
  {
    EndsOne(x, j);
    NoEnd(j);
    if n.look.Ahead? || n.look.AheadNot? {
      var ys := Pref(n.target, e, t, x);
      assert n.look.Ahead? ==> Pref(n, e, t, x) == Returned(x, ys);
      assert n.look.AheadNot? ==> Pref(n, e, t, x) == if ys == [] then [x] else [];
      AheadWords(n.target, e, t, x);
      LookIs(n, t, x.s, j);
      hide In, Pref, Ends, Regular, Parsed;
      if ys != [] { EndsOne(ys[0].(s := x.s, prev := x.prev), j); }
    } else {
      var ys := PrefBehind(n.target, e, t, x);
      assert n.look.Behind? ==> Pref(n, e, t, x) == ys;
      assert n.look.BehindNot? ==> Pref(n, e, t, x) == if ys == [] then [x] else [];
      BehindParsed(n, e);
      LookIs(n, t, x.s, j);
      hide In, Pref, Regular, Parsed;
      forall k: nat ensures Ends(ys, k) <==> k == x.s && Ending(Words(n.target, t), x.s) {
        BehindWords(n.target, e, t, x, k);
      }
      if ys != [] { assert Ends(ys, ys[0].s); }
    }
  }

  lemma {:induction false} AheadWords(n: Node, e: Env, t: Subject, x: St)
    requires Parsed(n, e) && Regular(n, e) && x.s <= t.End() < Codegen.INFINITE_COUNT
    requires Fresh(Loners(n, e), x)
    requires Poised(n, x)
    ensures Pref(n, e, t, x) != [] <==> Starting(Words(n, t), x.s)
    decreases n, 4
  {
    hide In, Pref, Ends, Regular, Parsed;
    var ys := Pref(n, e, t, x);
    if ys != [] {
      WayWord(n, e, t, x, ys[0]);
      assert Words(n, t)(x.s, ys[0].s);
    }
    if m: nat :| Words(n, t)(x.s, m) { var y := WordWay(n, e, t, x, m); }
  }

  /** setup_look_behind accepts the body. */
  predicate Steppable(n: Node) { CharLen(n).Some? || (n.Alt? && L.AllFixed(n.elems)) }

  lemma BehindParsed(n: Node, e: Env)
    requires n.Look? && (n.look.Behind? || n.look.BehindNot?) && Parsed(n, e)
    ensures Parsed(n.target, e) && Steppable(n.target)
  {
  }

  /** Stepping back finds exactly the words that end here. */
  lemma {:induction false} BehindWords(n: Node, e: Env, t: Subject, x: St, j: nat)
    requires Parsed(n, e) && Regular(n, e) && Steppable(n) && x.s <= t.End() < Codegen.INFINITE_COUNT
    requires Fresh(Loners(n, e), x)
    ensures Ends(PrefBehind(n, e, t, x), j) <==> j == x.s && Ending(Words(n, t), x.s)
    decreases n, 5
  {
    if CharLen(n).Some? {
      StepWords(n, e, t, x, j);
    } else {
      AltParsed(n, e);
      assert PrefBehind(n, e, t, x) == PrefBehindAlt(n.elems, e, t, x);
      BehindAltWords(n.elems, e, t, x, j);
      AltEnds(n, t, x.s);
    }
  }

  lemma {:induction false} StepWords(n: Node, e: Env, t: Subject, x: St, j: nat)
    requires Parsed(n, e) && Regular(n, e) && CharLen(n).Some? && x.s <= t.End() < Codegen.INFINITE_COUNT
    requires Fresh(Loners(n, e), x)
    ensures Ends(PrefBehind(n, e, t, x), j) <==> j == x.s && Ending(Words(n, t), x.s)
    decreases n, 4
  {
    var len, R := CharLen(n).value, Words(n, t);
    StepIs(n, e, t, x);
    hide *;
    NoEnd(j);
    if len <= x.s {
      PrefIsLanguage(n, e, t, StepBack(x, len), j);
      FixedEnd(n, t, x.s, x.s - len, j);
    }
    if Ending(R, x.s) { FixedStart(n, t, x.s); }
  }

  lemma StepIs(n: Node, e: Env, t: Subject, x: St)
    requires Parsed(n, e) && CharLen(n).Some?
    ensures PrefBehind(n, e, t, x) == if x.s < CharLen(n).value then []
        else Pref(n, e, t, StepBack(x, CharLen(n).value))
    ensures CharLen(n).value <= x.s ==> StepBack(x, CharLen(n).value).s == x.s - CharLen(n).value
  {
  }

  lemma FixedEnd(n: Node, t: Subject, s: nat, p: nat, j: nat)
    requires CharLen(n).Some? && p + CharLen(n).value == s
    ensures In(n, t, p, j) <==> j == s && In(n, t, p, s)
    ensures In(n, t, p, s) ==> Ending(Words(n, t), s)
  {
    hide In, CharLen;
    if In(n, t, p, j) { FixedWord(n, t, p, j); }
    if In(n, t, p, s) { assert Words(n, t)(p, s); }
  }

  lemma FixedStart(n: Node, t: Subject, s: nat)
    requires CharLen(n).Some? && Ending(Words(n, t), s)
    ensures CharLen(n).value <= s && In(n, t, s - CharLen(n).value, s)
  {
    hide In, CharLen;
    var p: nat :| p <= s && Words(n, t)(p, s);
    FixedWord(n, t, p, s);
  }

  lemma {:induction false} AlternativeEnds(ns: Nodes, t: Subject, i: nat, j: nat)
    requires i <= j && InAlt(ns, t, i, j)
    ensures AltEndsAt(ns, t, j)
    decreases ns
  {
    hide In;
    if In(ns.car, t, i, j) { assert Words(ns.car, t)(i, j); } else { AlternativeEnds(ns.cdr, t, i, j); }
  }

  lemma {:induction false} EndsAlternative(ns: Nodes, t: Subject, j: nat) returns (i: nat)
    requires AltEndsAt(ns, t, j)
    ensures i <= j && InAlt(ns, t, i, j)
    decreases ns
  {
    if Ending(Words(ns.car, t), j) {
      i :| i <= j && Words(ns.car, t)(i, j);
    } else {
      i := EndsAlternative(ns.cdr, t, j);
    }
  }

  lemma AltEnds(n: Node, t: Subject, j: nat)
    requires n.Alt?
    ensures AltEndsAt(n.elems, t, j) <==> Ending(Words(n, t), j)
  {
    if Ending(Words(n, t), j) {
      var i: nat :| i <= j && Words(n, t)(i, j);
      assert In(n, t, i, j);
      AlternativeEnds(n.elems, t, i, j);
    }
    if AltEndsAt(n.elems, t, j) {
      var i := EndsAlternative(n.elems, t, j);
      assert Words(n, t)(i, j);
    }
  }

  lemma {:induction false} BehindAltWords(ns: Nodes, e: Env, t: Subject, x: St, j: nat)
    requires ParsedAll(ns, e) && RegularAll(ns, e) && L.AllFixed(ns) && x.s <= t.End() < Codegen.INFINITE_COUNT
    requires Fresh(LonersOf(ns, e), x)
    ensures Ends(PrefBehindAlt(ns, e, t, x), j) <==> j == x.s && AltEndsAt(ns, t, x.s)
    decreases ns, 2
  {
    hide In, PrefBehind, Ends, Regular, Parsed, CharLen, Fresh, Loners;
    FreshParts(ns, e, x);
    StepWords(ns.car, e, t, x, j);
    if ns.Link? {
      BehindAltWords(ns.cdr, e, t, x, j);
      EndsSum(PrefBehind(ns.car, e, t, x), PrefBehindAlt(ns.cdr, e, t, x), j);
    }
  }

  // ---------------------------------------------------------------- the theorems

  lemma InitialLive(t: Subject, e: Env, gs: set<nat>, i: nat)
    requires i <= t.End() < Codegen.INFINITE_COUNT
    ensures Live(t, e, gs, Initial(i, i - 1)) && Fresh(gs, Initial(i, i - 1))
  {
  }

  /** An attempt starts with the right position remembered. */
  lemma InitialPoised(n: Node, i: nat)
    ensures Poised(n, Initial(i, i - 1))
  {
    hide LineFirst;
  }

  /** match_at tries exactly the words of the language of the parse tree, in the tree setup_tree made of it. */
  lemma MeaningIsLanguage(n: Node, e: Env, inRep: bool, t: Subject, x: St, j: nat)
    requires Parsed(n, e) && Regular(n, e) && HeadsFine(Setup(n, e, inRep)) && Fresh(Loners(n, e), x)
    requires Live(t, e, Groups(n), x) && t.End() < Codegen.INFINITE_COUNT
    requires Poised(n, x)
    ensures Ends(Meaning(Setup(n, e, inRep), t, x), j) <==> In(n, t, x.s, j)
  {
    hide Meaning, Pref, In, Setup, Regular, Parsed, HeadsFine, Groups, Fresh, Loners;
    SetupMeans(n, e, inRep, t, x);
    PrefIsLanguage(n, e, t, x, j);
  }

  /** Every empty turn of the repetition leaves it: its null check reads no captures, or finds no visits to read. */
  predicate Plain(n: Node, e: Env)
    requires n.Quant?
  {
    EmptyInfoOf(n, e).Empty? || (EmptyInfoOf(n, e).EmptyMem? && Quiet(n.target, e))
  }

  lemma QuietTurn(q: Node, n: Node, e: Env, t: Subject, x: St, y: St)
    requires q.Quant? && q.emptyInfo.EmptyMem? && Parsed(n, e) && Regular(n, e) && Loners(n, e) == {} && Quiet(n, e)
    requires x.s <= t.End() < Codegen.INFINITE_COUNT && y in BodyOf(n, e, t)(x) && y.s == x.s
    ensures TurnOf(q, x, y).Leave? && y.log == x.log
  {
    hide Parsed, Regular, Pref, Quiet, Loners, TurnOf, LineFirst, Fresh;
    EnterSame(n, q, x);
    NoneFresh(n, e, Enter(n, x));
    QuietWay(n, e, t, Enter(n, x), y);
    NoVisit(q, x, y);
  }

  lemma PlainTurn(q: Node, x: St, y: St)
    requires q.Quant? && q.emptyInfo.Empty? && x.s == y.s
    ensures TurnOf(q, x, y).Leave?
  {
  }

  lemma PlainBreaks(q: Node, n: Node, e: Env, t: Subject)
    requires q.Quant? && Parsed(n, e) && Regular(n, e) && Loners(n, e) == {} && t.End() < Codegen.INFINITE_COUNT
    requires q.emptyInfo.Empty? || (q.emptyInfo.EmptyMem? && Quiet(n, e))
    ensures Breaking(q, BodyOf(n, e, t), t)
  {
    hide Parsed, Regular, Pref, Quiet, Loners, BodyOf, TurnOf;
    forall x: St, y: St | x.s <= t.End() && y in BodyOf(n, e, t)(x) && y.s == x.s ensures TurnOf(q, x, y).Leave? {
      if q.emptyInfo.EmptyMem? {
        QuietTurn(q, n, e, t, x, y);
      } else {
        PlainTurn(q, x, y);
      }
    }
  }

  /** The repetition is a count whose turns are checked, over a regular body that no string expansion swallows. */
  predicate CheckedCount(n: Node, e: Env)
    requires Parsed(n, e)
  {
    n.Quant? && !EmptyString(n.target) && (QuantParsed(n, e); PolicyIn(n, e).Checked?)
    && Regular(n.target, e) && Loners(n.target, e) == {} && (Keeping(n.target) || !LineFirst(n.target))
  }

  lemma CountedPref(n: Node, e: Env, t: Subject, x: St)
    requires Parsed(n, e) && CheckedCount(n, e) && Parsed(n.target, e)
    ensures Pref(n, e, t, x)
        == Ordered(n.(emptyInfo := EmptyInfoOf(n, e)), (y: St) => Pref(n.target, e, t, y), t, Checked, x)
  {
    hide Regular, PolicyIn, In, BodyOf, EmptyInfoOf, Keeping, LineFirst;
    RemainingWays(n, e, t, x);
    assert Remaining(n) == n;
  }

  lemma CountedIs(n: Node, e: Env, t: Subject, x: St, j: nat)
    requires Parsed(n, e) && CheckedCount(n, e)
    requires Poised(n, x)
    ensures Parsed(n.target, e) && ProperCounts(n.lower, n.upper, n.greedy) && n.upper != 0
    ensures !EmptyInfoOf(n, e).NotEmpty?
    ensures Pref(n, e, t, x)
        == Ordered(n.(emptyInfo := EmptyInfoOf(n, e)), BodyOf(n.target, e, t), t, Checked, x)
    ensures In(n, t, x.s, j) <==> exists k: nat :: Allowed(n, k) && Turns(Words(n.target, t), k, x.s, j)
  {
    QuantParsed(n, e);
    LoopPolicy(n, e);
    PoisedLoop(n, e, t, x);
    QuantIn(n, t, x.s, j);
    assert Remaining(n) == n;
    hide Parsed, Regular, Ordered, PolicyIn, In, Pref, BodyOf;
  }

  lemma CountedEnds(n: Node, e: Env, t: Subject, x: St, j: nat)
    requires Parsed(n, e) && CheckedCount(n, e) && Plain(n, e) && x.s <= t.End() < Codegen.INFINITE_COUNT
    requires Poised(n, x)
    ensures Ends(Pref(n, e, t, x), j) <==> Counts(n, Words(n.target, t), x.s, j)
  {
    CountedIs(n, e, t, x, j);
    CountedParts(n, e);
    hide *;
    var R, q := Words(n.target, t), n.(emptyInfo := EmptyInfoOf(n, e));
    var f: Body := BodyOf(n.target, e, t);
    BodySpeaks(n.target, e, t);
    WordsForward(n.target, t);
    PlainBreaks(q, n.target, e, t);
    CountEnds(q, f, R, t, x, j);
    SameCounts(q, n, R, x.s, j);
  }

  lemma CountedParts(n: Node, e: Env)
    requires Parsed(n, e) && CheckedCount(n, e)
    ensures n.Quant? && Parsed(n.target, e) && Regular(n.target, e) && Loners(n.target, e) == {}
    ensures Plain(n, e) ==> EmptyInfoOf(n, e).Empty? || (EmptyInfoOf(n, e).EmptyMem? && Quiet(n.target, e))
  {
    QuantParsed(n, e);
    hide Parsed, Regular, Loners, PolicyIn;
  }

  lemma SameCounts(q: Node, r: Node, R: Rel, i: nat, j: nat)
    requires q.Quant? && r.Quant? && q.lower == r.lower && q.upper == r.upper
    ensures Counts(q, R, i, j) <==> Counts(r, R, i, j)
  {
  }

  /** A checked count whose empty turns leave: what it finds, and exactly which words it misses. */
  lemma CountedExact(n: Node, e: Env, t: Subject, x: St, j: nat)
    requires Parsed(n, e) && CheckedCount(n, e) && Plain(n, e) && x.s <= t.End() < Codegen.INFINITE_COUNT
    requires Poised(n, x)
    ensures Ends(Pref(n, e, t, x), j) <==> Counts(n, Words(n.target, t), x.s, j)
    ensures var R := Words(n.target, t);
      In(n, t, x.s, j) && !Ends(Pref(n, e, t, x), j)
      <==> !R(j, j) && (forall c: nat :: Allowed(n, c) ==> !Steps(R, c, x.s, j))
           && exists c: nat :: c < n.lower && Pauses(R, c, x.s, j)
  {
    CountedEnds(n, e, t, x, j);
    CountedIs(n, e, t, x, j);
    hide Parsed, CheckedCount, Plain, In, Pref, Ends, Forward, Ordered, PolicyIn, EmptyInfoOf, Words, Counts;
    WordsForward(n.target, t);
    CountMisses(n, Words(n.target, t), t, x.s, j);
  }

  /** A checked count, whatever its null check reads: it finds nothing but words, and if it misses one at whose end the
      body can be empty, one of its runs gets there with too few turns and has an empty turn rejected. */
  lemma CountedRejects(n: Node, e: Env, t: Subject, x: St, j: nat)
    requires Parsed(n, e) && CheckedCount(n, e) && x.s <= t.End() < Codegen.INFINITE_COUNT
    requires Poised(n, x)
    ensures Ends(Pref(n, e, t, x), j) ==> In(n, t, x.s, j)
    ensures var q, f := n.(emptyInfo := EmptyInfoOf(n, e)), BodyOf(n.target, e, t);
      In(n, t, x.s, j) && !Ends(Pref(n, e, t, x), j) && In(n.target, t, j, j) ==>
        exists c: nat, y: St, z: St :: c < n.lower && Run(q, f, c, x, y) && Rejected(q, f, y, z) && z.s == y.s == j
  {
    var R, q := Words(n.target, t), n.(emptyInfo := EmptyInfoOf(n, e));
    var f: Body := BodyOf(n.target, e, t);
    CountedIs(n, e, t, x, j);
    assert R(j, j) <==> In(n.target, t, j, j);
    hide Parsed, Regular, In, Pref, Ends, Speaks, Forward, Ordered, PolicyIn, EmptyInfoOf, Words, Loners;
    hide Run, Rejected;
    BodySpeaks(n.target, e, t);
    WordsForward(n.target, t);
    assert forall k: nat :: Allowed(n, k) <==> Allowed(q, k);
    if Ends(Pref(n, e, t, x), j) { CountSound(q, f, R, t, x, j); }
    if In(n, t, x.s, j) && !Ends(Pref(n, e, t, x), j) && R(j, j) {
      var k: nat :| Allowed(n, k) && Turns(R, k, x.s, j);
      var c, y, z := LostByReject(q, f, R, t, k, x, j);
    }
  }

  // ---------------------------------------------------------------- loops over one group

  /** A repetition that reads the capture of the one group it repeats. */
  predicate OverOne(n: Node, e: Env)
    requires n.Quant?
  {
    EmptyInfoOf(n, e).EmptyMem? && LoneGroup(n.target, e)
  }

  /** The group does not hold the empty capture of the current position. */
  ghost function NotHere(g: nat): Inv { (x: St) => Get(x.caps, g) != Closed(x.s, x.s) }

  lemma LoneStep(q: Node, n: Node, e: Env, t: Subject, x: St, y: St)
    requires q.Quant? && q.emptyInfo.EmptyMem? && Parsed(n, e) && LoneGroup(n, e)
    requires !Stale(n.num, x) && y in BodyOf(n, e, t)(x)
    ensures !Stale(n.num, y)
    ensures if x.s != y.s then NotHere(n.num)(y)
            else !NotHere(n.num)(y) && TurnOf(q, x, y) == if NotHere(n.num)(x) then Again else Leave
  {
    hide Parsed, Pref, TurnOf, Stale, LineFirst;
    var z := Enter(n, x);
    EnterSame(n, q, x);
    StaleSame(n.num, z, x);
    LoneKeeps(n, e, t, z, y);
    LoneWay(n, e, t, z, y);
    if x.s == y.s { LoneTurn(q, n, e, t, z, y); }
  }

  lemma LoneRests(q: Node, n: Node, e: Env, t: Subject)
    requires q.Quant? && q.emptyInfo.EmptyMem? && Parsed(n, e) && LoneGroup(n, e)
    ensures Resting(q, BodyOf(n, e, t), t, NotStale(n.num), NotHere(n.num))
  {
    hide Parsed, Pref, TurnOf, Stale, BodyOf;
    forall x: St, y: St | !Stale(n.num, x) && y in BodyOf(n, e, t)(x)
      ensures !Stale(n.num, y)
      ensures if x.s != y.s then NotHere(n.num)(y)
              else !NotHere(n.num)(y) && TurnOf(q, x, y) == if NotHere(n.num)(x) then Again else Leave
    {
      LoneStep(q, n, e, t, x, y);
    }
  }

  /** A checked count over one group that holds no empty capture of another position: exactly where it leads. */
  lemma LoneCounts(n: Node, e: Env, t: Subject, x: St, j: nat)
    requires Parsed(n, e) && CheckedCount(n, e) && OverOne(n, e) && x.s <= t.End() < Codegen.INFINITE_COUNT
    requires !Stale(n.target.num, x)
    requires Poised(n, x)
    ensures var R := Words(n.target, t);
      Ends(Pref(n, e, t, x), j)
      <==> exists c: nat ::
          c <= Codegen.UpperCount(n.upper) && Rests(R, c, NotHere(n.target.num)(x), x.s, j) && (n.lower <= c || R(j, j))
  {
    var R, q := Words(n.target, t), n.(emptyInfo := EmptyInfoOf(n, e));
    var f: Body := BodyOf(n.target, e, t);
    CountedIs(n, e, t, x, j);
    hide Parsed, Regular, In, Pref, Ends, Speaks, Forward, Ordered, PolicyIn, EmptyInfoOf, Words, Loners;
    hide Resting, LoneGroup;
    BodySpeaks(n.target, e, t);
    WordsForward(n.target, t);
    LoneRests(q, n.target, e, t);
    RestEnds(q, f, R, t, NotStale(n.target.num), NotHere(n.target.num), x, j);
  }

  /** A regular loop over one group that has to turn finds all its words but the empty one, and misses that one exactly
      if the group holds an empty capture of another position. */
  lemma LoneExact(n: Node, e: Env, t: Subject, x: St, j: nat)
    requires n.Quant? && Parsed(n, e) && Regular(n, e) && OverOne(n, e) && Parsed(n.target, e)
    requires 1 <= n.lower && !PolicyIn(n, e).Free? && x.s <= j && x.s <= t.End() < Codegen.INFINITE_COUNT
    requires Poised(n, x)
    ensures Ends(Pref(n, e, t, x), j) <==> In(n, t, x.s, j) && (j == x.s ==> !Stale(n.target.num, x))
  {
    var b, g := n.target, n.target.num;
    QuantFacts(n, e, t, x, j);
    LoneParts(n, e);
    hide *;
    var r, policy := n.(emptyInfo := EmptyInfoOf(n, e)), PolicyIn(n, e);
    var f: Body := BodyOf(b, e, t);
    BodySpeaks(b, e, t);
    WordsForward(b, t);
    if j == x.s && Stale(g, x) {
      forall y: St | y in f(x) && y.s == x.s ensures TurnOf(r, x, y).Reject? { LoneTurn(r, b, e, t, x, y); }
      RejectsEmpty(r, f, Words(b, t), t, policy, x);
    } else {
      LoneLasts(r, b, e, t);
      assert NotStale(g)(x) || x.s < j by { StaleOr(g, x, j); }
      OrderedEnds(r, f, Words(b, t), t, NotStale(g), policy, x, j);
    }
  }

  lemma LoneParts(n: Node, e: Env)
    requires n.Quant? && Parsed(n, e) && Parsed(n.target, e) && OverOne(n, e) && !PolicyIn(n, e).Free?
    ensures EmptyInfoOf(n, e).EmptyMem? && LoneGroup(n.target, e) && Remaining(n) == n && n.upper != 0
  {
    LoopPolicy(n, e);
    hide PolicyIn;
  }

  lemma StaleOr(g: nat, x: St, j: nat)
    requires x.s <= j && !(j == x.s && Stale(g, x))
    ensures NotStale(g)(x) || x.s < j
  {
  }
}
