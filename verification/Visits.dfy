/** What the ways of a tree change besides the position: only the captures of its own groups, and the visits to pushed
    groups that the capture-aware null check reads. */
module Visits {
  import opened Common
  import opened Tree
  import opened Semantics
  import opened Lengths
  import opened Order
  import opened SetupTree
  import opened Preference
  import opened LoopWords
  import opened Yielding
  import Codegen
  import CountWords

  /** From one state to another. */
  type Move = (St, St) -> bool

  /** A relation that holds over any number of moves. */
  ghost predicate Lasts(P: Move) {
    (forall x: St :: P(x, x)) && forall x: St, y: St, z: St :: P(x, y) && P(y, z) ==> P(x, z)
  }

  /** It holds over moves that only change the position, whatever position is remembered. */
  ghost predicate Shifts(P: Move) {
    forall x: St, s: nat, p: int :: x.s <= s ==> P(x, x.(s := s, prev := p))
  }

  /** A greedy unbounded `.`, for which there is an opcode of its own. */
  predicate DotStar(q: Node) { q.Quant? && q.target.Any? && q.greedy && Infinite(q.upper) }

  /** Every way of the body from a state of D is such a move, into D. */
  ghost predicate Carries(f: Body, D: Inv, P: Move) {
    forall x: St, y: St :: D(x) && y in f(x) ==> P(x, y) && D(y)
  }

  lemma {:induction false} InFlat(xs: seq<St>, F: Body, y: St) returns (z: St)
    requires y in FlatMap(xs, F)
    ensures z in xs && y in F(z)
    decreases |xs|
  {
    if y in F(xs[0]) {
      z := xs[0];
    } else {
      z := InFlat(xs[1..], F, y);
    }
  }

  lemma {:induction false} FlatIn(xs: seq<St>, F: Body, z: St, y: St)
    requires z in xs && y in F(z)
    ensures y in FlatMap(xs, F)
    decreases |xs|
  {
    if z != xs[0] { FlatIn(xs[1..], F, z, y); }
  }

  lemma {:induction false} ForeverKeeps(q: Node, f: Body, t: Subject, D: Inv, P: Move, x: St, y: St)
    requires q.Quant? && Lasts(P) && Carries(f, D, P) && D(x) && y in Forever(q, f, t, x)
    ensures P(x, y)
    decreases Left(t, x), |Dirty(Groups(q.target), x)|, 1
  {
    hide Lasts, Groups;
    ForeverIs(q, f, t, x);
    if y in FlatMap(f(x), (z: St) => ForeverTurn(q, f, t, x, z)) {
      ForeverTurnKeeps(q, f, t, D, P, x, y);
    } else {
      assert y == x && P(x, x) by { Still(P, x); }
    }
  }

  lemma Still(P: Move, x: St)
    requires Lasts(P)
    ensures P(x, x)
  {
  }

  lemma Onward(P: Move, x: St, y: St, z: St)
    requires Lasts(P) && P(x, y) && P(y, z)
    ensures P(x, z)
  {
  }

  lemma Shifted(P: Move, x: St, s: nat, p: int)
    requires Shifts(P) && x.s <= s
    ensures P(x, x.(s := s, prev := p))
  {
  }

  lemma {:induction false} ForeverTurnKeeps(q: Node, f: Body, t: Subject, D: Inv, P: Move, x: St, y: St)
    requires q.Quant? && Lasts(P) && Carries(f, D, P) && D(x)
    requires y in FlatMap(f(x), (z: St) => ForeverTurn(q, f, t, x, z))
    ensures P(x, y)
    decreases Left(t, x), |Dirty(Groups(q.target), x)|, 0
  {
    hide Lasts, Groups, Forever;
    var z := InFlat(f(x), (z: St) => ForeverTurn(q, f, t, x, z), y);
    if TurnOf(q, x, z).Again? && Progress(q, t, x, z) {
      ForeverKeeps(q, f, t, D, P, z, y);
      Onward(P, x, z, y);
    }
  }

  lemma {:induction false} StarKeeps(t: Subject, ml: bool, P: Move, x: St, begin: nat, y: St)
    requires Lasts(P) && Shifts(P) && y in StarMeaning(t, ml, None, x, begin)
    ensures P(x, y)
    decreases Left(t, x)
  {
    hide Lasts, Shifts;
    Still(P, x);
    Shifted(P, x, x.s, begin);
    if x.s < t.End() {
      Shifted(P, x, x.s + 1, x.s);
      if y in StarMeaning(t, ml, None, Advance(x, 1), begin) && (ml || !t.IsNewline(x.s)) {
        StarKeeps(t, ml, P, Advance(x, 1), begin, y);
        Onward(P, x, Advance(x, 1), y);
      }
    }
  }

  lemma {:induction false} IterKeeps(q: Node, f: Body, t: Subject, D: Inv, P: Move, l: nat, m: int, x: St, y: St)
    requires q.Quant? && Lasts(P) && Carries(f, D, P) && D(x) && y in Iter(q, f, t, l, m, x)
    requires m < 0 && q.target.Any? && q.greedy ==> Shifts(P)
    ensures P(x, y)
    decreases l, if m < 0 then 0 else m
  {
    hide Lasts, Shifts, Forever;
    Still(P, x);
    if l > 0 {
      var z := InFlat(f(x), (z: St) => Iter(q, f, t, l - 1, m, z), y);
      IterKeeps(q, f, t, D, P, l - 1, m, z, y);
      Onward(P, x, z, y);
    } else if m < 0 {
      if q.target.Any? && q.greedy {
        StarKeeps(t, q.target.multiline, P, x, x.s, y);
      } else {
        ForeverKeeps(q, f, t, D, P, x, y);
      }
    } else if m > 0 && y in FlatMap(f(x), (z: St) => Iter(q, f, t, 0, m - 1, z)) {
      var z := InFlat(f(x), (z: St) => Iter(q, f, t, 0, m - 1, z), y);
      IterKeeps(q, f, t, D, P, 0, m - 1, z, y);
      Onward(P, x, z, y);
    }
  }

  lemma {:induction false} CheckKeeps(q: Node, f: Body, t: Subject, D: Inv, P: Move, x: St, c: nat, y: St)
    requires q.Quant? && (c == 0 || c < Codegen.UpperCount(q.upper)) && Lasts(P) && Carries(f, D, P) && D(x)
    requires y in FlatMap(f(x), (z: St) => CheckTurn(q, f, t, x, c, z))
    ensures P(x, y)
    decreases Codegen.UpperCount(q.upper) - c
  {
    hide Lasts, CheckAt;
    var z := InFlat(f(x), (z: St) => CheckTurn(q, f, t, x, c, z), y);
    if TurnOf(q, x, z).Again? && y != z {
      CountGoesOn(q, f, t, c + 1, z, y);
      CheckKeeps(q, f, t, D, P, z, c + 1, y);
      Onward(P, x, z, y);
    }
  }

  /** A count that does not stop at z makes one more turn. */
  lemma CountGoesOn(q: Node, f: Body, t: Subject, c: nat, z: St, y: St)
    requires q.Quant? && 0 < c && y in CheckAt(q, f, t, c, z) && y != z
    ensures c < Codegen.UpperCount(q.upper) && y in FlatMap(f(z), (w: St) => CheckTurn(q, f, t, z, c, w))
  {
    hide CheckTurn;
  }

  /** What every way of the body does, every way of the repetition does. */
  lemma OrderedKeeps(q: Node, f: Body, t: Subject, policy: Policy, D: Inv, P: Move, x: St, y: St)
    requires q.Quant? && Lasts(P) && Carries(f, D, P) && D(x) && y in Ordered(q, f, t, policy, x)
    requires DotStar(q) ==> Shifts(P)
    ensures P(x, y)
  {
    hide Lasts, Shifts, Iter, CheckTurn, Forever;
    Still(P, x);
    match policy
    case Free => IterKeeps(q, f, t, D, P, q.lower, Rest(q), x, y);
    case Entered => ForeverTurnKeeps(q, f, t, D, P, x, y);
    case Checked =>
      if y in FlatMap(f(x), (z: St) => CheckTurn(q, f, t, x, 0, z)) { CheckKeeps(q, f, t, D, P, x, 0, y); }
  }

  // ---------------------------------------------------------------- the groups a tree touches

  /** Only captures in gs change, and no visit is noted if none of these groups is pushed. */
  ghost predicate Touch(gs: set<nat>, pushed: set<nat>, x: St, y: St) {
    (forall g: nat :: g !in gs ==> Get(y.caps, g) == Get(x.caps, g)) && (gs !! pushed ==> y.log == x.log)
  }

  ghost function Touching(gs: set<nat>, pushed: set<nat>): Move { (x: St, y: St) => Touch(gs, pushed, x, y) }

  lemma TouchLasts(gs: set<nat>, pushed: set<nat>)
    ensures Lasts(Touching(gs, pushed)) && Shifts(Touching(gs, pushed))
  {
  }

  lemma TouchMore(gs: set<nat>, hs: set<nat>, pushed: set<nat>, x: St, y: St)
    requires Touch(gs, pushed, x, y) && gs <= hs
    ensures Touch(hs, pushed, x, y)
  {
  }

  lemma TouchThen(gs: set<nat>, pushed: set<nat>, x: St, y: St, z: St)
    requires Touch(gs, pushed, x, y) && Touch(gs, pushed, y, z)
    ensures Touch(gs, pushed, x, z)
  {
  }

  lemma {:induction false} InCloseAll(num: nat, ys: seq<St>, z: St) returns (y: St)
    requires z in CloseAll(num, ys)
    ensures y in ys && z == CloseGroup(num, y)
    decreases |ys|
  {
    if z == CloseGroup(num, ys[0]) {
      y := ys[0];
    } else {
      y := InCloseAll(num, ys[1..], z);
    }
  }

  lemma {:induction false} LongestKeeps(f: Body, t: Subject, P: Move, x: St)
    requires Lasts(P) && Carries(f, (_: St) => true, P)
    ensures P(x, Longest(f, t, x))
    decreases Left(t, x)
  {
    Still(P, x);
    var ys := f(x);
    hide Lasts;
    if ys != [] && Left(t, ys[0]) < Left(t, x) {
      LongestKeeps(f, t, P, ys[0]);
      Onward(P, x, ys[0], Longest(f, t, ys[0]));
    }
  }

  /** Every way of a tree changes no captures but those of its groups. */
  lemma {:induction false} PrefTouches(n: Node, e: Env, t: Subject, x: St, y: St)
    requires Parsed(n, e) && y in Pref(n, e, t, x)
    ensures Touch(Groups(n), e.btStart, x, y)
    decreases n, 1
  {
    hide Touch;
    match n
    case Quant(target, _, _, _, _, _, _, _) =>
      var q := Remaining(n);
      var f: Body := (z: St) => Pref(target, e, t, z);
      BodyTouches(target, e, t);
      TouchLasts(Groups(target), e.btStart);
      OrderedKeeps(q.(emptyInfo := EmptyInfoOf(q, e)), f, t, PolicyIn(q, e), (_: St) => true,
        Touching(Groups(target), e.btStart), x, y);
    case Group(num, _, _, target) =>
      var x1 := OpenGroup(num, num in e.btStart, x);
      var z := InCloseAll(num, Pref(target, e, t, x1), y);
      PrefTouches(target, e, t, x1, z);
      GroupTouches(num, Groups(target), e.btStart, x, z);
    case Atomic(target, _) =>
      if target.Quant? && LongestRun(n, e) { RunTouches(n, e, t, x, y); } else { PrefTouches(target, e, t, x, y); }
    case Look(_, target, _) => LookTouches(n, e, t, x, y);
    case List(elems) => ListTouches(elems, e, t, x, y);
    case Alt(elems) => AltTouches(elems, e, t, x, y);
    case _ => LeafTouches(n, t, x, y, e.btStart);
  }

  lemma {:induction false} BodyTouches(n: Node, e: Env, t: Subject)
    requires Parsed(n, e)
    ensures Carries((z: St) => Pref(n, e, t, z), (_: St) => true, Touching(Groups(n), e.btStart))
    decreases n, 2
  {
    hide Pref, Parsed, Touch;
    forall x: St, y: St | y in Pref(n, e, t, x) ensures Touch(Groups(n), e.btStart, x, y) {
      PrefTouches(n, e, t, x, y);
    }
  }

  lemma GroupTouches(num: nat, gs: set<nat>, pushed: set<nat>, x: St, z: St)
    requires Touch(gs, pushed, OpenGroup(num, num in pushed, x), z)
    ensures Touch({num} + gs, pushed, x, CloseGroup(num, z))
  {
    if {num} + gs !! pushed {
      assert num in {num} + gs;
      assert forall g: nat :: g in gs ==> g in {num} + gs;
    }
  }

  lemma LeafTouches(n: Node, t: Subject, x: St, y: St, pushed: set<nat>)
    requires (n.Str? || n.CClass? || n.Any? || n.Backref? || n.Anchor?) && y in Meaning(n, t, x)
    ensures Touch({}, pushed, x, y)
  {
  }

  lemma {:induction false} RunTouches(n: Node, e: Env, t: Subject, x: St, y: St)
    requires n.Atomic? && n.target.Quant? && Parsed(n, e) && LongestRun(n, e) && y in Pref(n, e, t, x)
    ensures Touch(Groups(n), e.btStart, x, y)
    decreases n, 0
  {
    hide Touch;
    QuantParsed(n.target, e);
    var k, P := n.target.target, Touching(Groups(n), e.btStart);
    var f: Body := (z: St) => Pref(k, e, t, z);
    var xs := if n.target.lower == 0 then [x] else f(x);
    assert Pref(n, e, t, x) == FlatMap(xs, (z: St) => [Longest(f, t, z)]);
    assert Groups(n) == Groups(k);
    BodyTouches(k, e, t);
    TouchLasts(Groups(k), e.btStart);
    hide Longest, Lasts;
    var z := InFlat(xs, (z: St) => [Longest(f, t, z)], y);
    Still(P, x);
    LongestKeeps(f, t, P, z);
    Onward(P, x, z, y);
  }

  lemma {:induction false} LookTouches(n: Node, e: Env, t: Subject, x: St, y: St)
    requires n.Look? && Parsed(n, e) && y in Pref(n, e, t, x)
    ensures Touch(Groups(n), e.btStart, x, y)
    decreases n, 0
  {
    var gs := Groups(n.target);
    assert Touch(gs, e.btStart, x, x);
    match n.look
    case Ahead =>
      var ys := Pref(n.target, e, t, x);
      PrefTouches(n.target, e, t, x, ys[0]);
    case AheadNot =>
    case Behind => BehindTouches(n.target, e, t, x, y);
    case BehindNot =>
  }

  lemma {:induction false} BehindTouches(n: Node, e: Env, t: Subject, x: St, y: St)
    requires Parsed(n, e) && y in PrefBehind(n, e, t, x)
    ensures Touch(Groups(n), e.btStart, x, y)
    decreases n, 2
  {
    if CharLen(n).Some? {
      var z := StepBack(x, CharLen(n).value);
      PrefTouches(n, e, t, z, y);
      assert Touch(Groups(n), e.btStart, x, z);
      TouchThen(Groups(n), e.btStart, x, z, y);
    } else {
      BehindAltTouches(n.elems, e, t, x, y);
    }
  }

  lemma {:induction false} BehindAltTouches(ns: Nodes, e: Env, t: Subject, x: St, y: St)
    requires ParsedAll(ns, e) && y in PrefBehindAlt(ns, e, t, x)
    ensures Touch(GroupsOf(ns), e.btStart, x, y)
    decreases ns
  {
    hide Touch, Parsed, Pref, PrefBehind;
    if ns.Last? || y in PrefBehind(ns.car, e, t, x) {
      BehindTouches(ns.car, e, t, x, y);
      TouchMore(Groups(ns.car), GroupsOf(ns), e.btStart, x, y);
    } else {
      BehindAltTouches(ns.cdr, e, t, x, y);
      TouchMore(GroupsOf(ns.cdr), GroupsOf(ns), e.btStart, x, y);
    }
  }

  lemma {:induction false} ListTouches(ns: Nodes, e: Env, t: Subject, x: St, y: St)
    requires ParsedAll(ns, e) && y in PrefList(ns, e, t, x)
    ensures Touch(GroupsOf(ns), e.btStart, x, y)
    decreases ns
  {
    hide Touch, Parsed, Pref;
    if ns.Last? {
      PrefTouches(ns.car, e, t, x, y);
    } else {
      var z := InFlat(Pref(ns.car, e, t, x), (z: St) => PrefList(ns.cdr, e, t, z), y);
      PrefTouches(ns.car, e, t, x, z);
      ListTouches(ns.cdr, e, t, z, y);
      TouchMore(Groups(ns.car), GroupsOf(ns), e.btStart, x, z);
      TouchMore(GroupsOf(ns.cdr), GroupsOf(ns), e.btStart, z, y);
      TouchThen(GroupsOf(ns), e.btStart, x, z, y);
    }
  }

  lemma {:induction false} AltTouches(ns: Nodes, e: Env, t: Subject, x: St, y: St)
    requires ParsedAll(ns, e) && y in PrefAlt(ns, e, t, x)
    ensures Touch(GroupsOf(ns), e.btStart, x, y)
    decreases ns
  {
    hide Touch, Parsed, Pref;
    if ns.Last? || y in Pref(ns.car, e, t, x) {
      PrefTouches(ns.car, e, t, x, y);
      TouchMore(Groups(ns.car), GroupsOf(ns), e.btStart, x, y);
    } else {
      AltTouches(ns.cdr, e, t, x, y);
      TouchMore(GroupsOf(ns.cdr), GroupsOf(ns), e.btStart, x, y);
    }
  }

  // ---------------------------------------------------------------- empty ways that visit no pushed group

  /** The tree can match the empty string everywhere without visiting a pushed group. */
  predicate Idle(n: Node, e: Env) {
    match n
    case Str(s) => s == []
    case Quant(target, lower, _, _, _, _, _, _) => lower == 0 || Idle(target, e)
    case Group(num, _, _, target) => num !in e.btStart && Idle(target, e)
    case Anchor(kind) => kind.Keep?
    case List(elems) => IdleAll(elems, e)
    case Alt(elems) => IdleSome(elems, e)
    case _ => false
  }

  predicate IdleAll(ns: Nodes, e: Env) {
    match ns
    case Last(car) => Idle(car, e)
    case Link(car, cdr) => Idle(car, e) && IdleAll(cdr, e)
  }

  predicate IdleSome(ns: Nodes, e: Env) {
    match ns
    case Last(car) => Idle(car, e)
    case Link(car, cdr) => Idle(car, e) || IdleSome(cdr, e)
  }

  /** Nothing consumed and nothing visited. */
  ghost predicate Rested(x: St, y: St) { y.s == x.s && y.log == x.log }

  ghost predicate CanRest(f: Body, x: St) { exists y: St :: y in f(x) && Rested(x, y) }

  lemma {:induction false} StarRests(t: Subject, ml: bool, x: St, begin: nat) returns (y: St)
    requires x.s <= t.End()
    ensures y in StarMeaning(t, ml, None, x, begin) && Rested(x, y)
  {
    y := if x.s < t.End() then x else x.(prev := begin);
    if x.s < t.End() { assert x in [x]; }
  }

  /** A repetition can rest if its body can or it need not turn. */
  lemma {:induction false} IterRests(q: Node, f: Body, t: Subject, l: nat, m: int, x: St) returns (y: St)
    requires q.Quant? && x.s <= t.End()
    requires l == 0 || forall z: St :: z.s <= t.End() ==> CanRest(f, z)
    ensures y in Iter(q, f, t, l, m, x) && Rested(x, y)
    decreases l
  {
    if l > 0 {
      assert CanRest(f, x);
      var z: St :| z in f(x) && Rested(x, z);
      y := IterRests(q, f, t, l - 1, m, z);
      FlatIn(f(x), (z: St) => Iter(q, f, t, l - 1, m, z), z, y);
    } else if m < 0 && q.target.Any? && q.greedy {
      y := StarRests(t, q.target.multiline, x, x.s);
    } else {
      y := x;
      if m < 0 { ForeverIs(q, f, t, x); }
    }
  }

  lemma OrderedRests(q: Node, f: Body, t: Subject, policy: Policy, x: St) returns (y: St)
    requires q.Quant? && x.s <= t.End() && (policy.Free? || !q.emptyInfo.NotEmpty?)
    requires (q.lower == 0 && !policy.Entered?) || forall z: St :: z.s <= t.End() ==> CanRest(f, z)
    ensures y in Ordered(q, f, t, policy, x) && Rested(x, y)
  {
    hide Iter, Forever, CheckAt;
    match policy
    case Free => y := IterRests(q, f, t, q.lower, Rest(q), x);
    case Entered =>
      assert CanRest(f, x);
      y :| y in f(x) && Rested(x, y);
      FlatIn(f(x), (z: St) => ForeverTurn(q, f, t, x, z), y, y);
    case Checked =>
      if q.lower == 0 {
        y := x;
      } else {
        assert CanRest(f, x);
        y :| y in f(x) && Rested(x, y);
        FlatIn(f(x), (z: St) => CheckTurn(q, f, t, x, 0, z), y, y);
      }
  }

  lemma {:induction false} IdleWay(n: Node, e: Env, t: Subject, x: St) returns (y: St)
    requires Parsed(n, e) && Idle(n, e) && x.s <= t.End()
    ensures y in Pref(n, e, t, x) && Rested(x, y)
    decreases n, 1
  {
    match n
    case Str(_) =>
      y := x;
      assert t.data[x.s..x.s] == [];
    case Quant(target, _, _, _, _, _, _, _) => y := IdleLoop(n, e, t, x);
    case Group(num, _, _, target) =>
      var z := IdleWay(target, e, t, OpenGroup(num, false, x));
      ClosedIn(num, Pref(target, e, t, OpenGroup(num, false, x)), z);
      y := CloseGroup(num, z);
    case Anchor(_) => y := x.(keep := x.s);
    case List(elems) => y := IdleList(elems, e, t, x);
    case Alt(elems) => y := IdleAlt(elems, e, t, x);
  }

  lemma {:induction false} ClosedIn(num: nat, ys: seq<St>, y: St)
    requires y in ys
    ensures CloseGroup(num, y) in CloseAll(num, ys)
    decreases |ys|
  {
    if y != ys[0] { ClosedIn(num, ys[1..], y); }
  }

  lemma LoopPolicy(n: Node, e: Env)
    requires n.Quant? && Parsed(n.target, e)
    ensures !PolicyIn(n, e).Free? ==> !EmptyInfoOf(n, e).NotEmpty? && n.upper != 0
    ensures PolicyIn(n, e).Entered? ==> n.lower == 1 && Infinite(n.upper)
  {
    hide Setup, Codegen.Length;
  }

  lemma {:induction false} IdleLoop(n: Node, e: Env, t: Subject, x: St) returns (y: St)
    requires n.Quant? && Parsed(n, e) && Idle(n, e) && x.s <= t.End()
    ensures y in Pref(n, e, t, x) && Rested(x, y)
    decreases n, 0
  {
    var q := Remaining(n);
    var r, policy := q.(emptyInfo := EmptyInfoOf(q, e)), PolicyIn(q, e);
    var f: Body := (z: St) => Pref(n.target, e, t, z);
    assert Pref(n, e, t, x) == Ordered(r, f, t, policy, x);
    LoopPolicy(q, e);
    hide Ordered, PolicyIn, EmptyInfoOf;
    if q.lower != 0 {
      forall z: St | z.s <= t.End() ensures CanRest(f, z) {
        var w := IdleWay(n.target, e, t, z);
        assert w in f(z);
      }
    }
    y := OrderedRests(r, f, t, policy, x);
  }

  lemma {:induction false} IdleList(ns: Nodes, e: Env, t: Subject, x: St) returns (y: St)
    requires ParsedAll(ns, e) && IdleAll(ns, e) && x.s <= t.End()
    ensures y in PrefList(ns, e, t, x) && Rested(x, y)
    decreases ns
  {
    hide Pref, Parsed, Idle;
    y := IdleWay(ns.car, e, t, x);
    if ns.Link? {
      var z := y;
      y := IdleList(ns.cdr, e, t, z);
      FlatIn(Pref(ns.car, e, t, x), (z: St) => PrefList(ns.cdr, e, t, z), z, y);
    }
  }

  lemma {:induction false} IdleAlt(ns: Nodes, e: Env, t: Subject, x: St) returns (y: St)
    requires ParsedAll(ns, e) && IdleSome(ns, e) && x.s <= t.End()
    ensures y in PrefAlt(ns, e, t, x) && Rested(x, y)
    decreases ns
  {
    hide Pref, Parsed, Idle;
    if Idle(ns.car, e) { y := IdleWay(ns.car, e, t, x); } else { y := IdleAlt(ns.cdr, e, t, x); }
  }

  // ---------------------------------------------------------------- a loop over one group

  /** A pushed group with no other pushed group inside. */
  predicate LoneGroup(n: Node, e: Env) { n.Group? && n.num in e.btStart && Groups(n.target) !! e.btStart }

  /** Each of its ways notes one visit, and leaves the capture of what it matched. */
  lemma LoneWay(n: Node, e: Env, t: Subject, x: St, y: St)
    requires Parsed(n, e) && LoneGroup(n, e) && y in Pref(n, e, t, x)
    ensures y.log == x.log + [Visit(n.num, Get(x.caps, n.num))] && Get(y.caps, n.num) == Closed(x.s, y.s)
  {
    var x1 := OpenGroup(n.num, true, x);
    assert Pref(n, e, t, x) == CloseAll(n.num, Pref(n.target, e, t, x1)) && Parsed(n.target, e);
    assert n.num !in Groups(n.target);
    hide Pref, Parsed;
    var z := InCloseAll(n.num, Pref(n.target, e, t, x1), y);
    PrefTouches(n.target, e, t, x1, z);
    assert Get(z.caps, n.num) == Open(x.s);
  }

  /** The group holds an empty capture of another position. */
  predicate Stale(g: nat, x: St) { CountWords.Blank(Get(x.caps, g)) && Get(x.caps, g) != Closed(x.s, x.s) }

  /** An empty turn over one group is rejected exactly if it held an empty capture of another position, and leaves
      exactly if it held the empty capture of this one. */
  lemma LoneTurn(q: Node, n: Node, e: Env, t: Subject, x: St, y: St)
    requires q.Quant? && q.emptyInfo.EmptyMem? && Parsed(n, e) && LoneGroup(n, e) && y in Pref(n, e, t, x) && y.s == x.s
    ensures TurnOf(q, x, y).Reject? <==> Stale(n.num, x)
    ensures TurnOf(q, x, y).Leave? <==> Get(x.caps, n.num) == Closed(x.s, x.s)
  {
    hide Pref, Parsed;
    LoneWay(n, e, t, x, y);
    assert y.log[|x.log|..] == [Visit(n.num, Get(x.caps, n.num))];
    CountWords.RejectExact(q, x, y);
    assert Visit(n.num, Get(x.caps, n.num)) in y.log[|x.log|..];
  }
}
