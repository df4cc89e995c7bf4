/** What a parse tree means, with no opcodes, no code sizes (but where a body may be empty) and none of the rewritings
    of setup_tree: all ways to match, in order of preference.  The tree setup_tree leaves means the same. */
module Preference {
  import opened Common
  import opened Tree
  import opened Semantics
  import opened Lengths
  import opened LengthFacts
  import opened Yielding
  import opened Placing
  import opened Order
  import opened NextNode
  import opened SetupTree
  import StringExpand
  import Codegen
  import M = Matches
  import L = LookBehind

  // ---------------------------------------------------------------- the ways of a parse tree

  /** An empty string, or one repeated a fixed number of times. */
  predicate EmptyString(n: Node) {
    n == Str([]) || (n.Quant? && EmptyString(n.target) && 1 < n.lower == n.upper)
  }

  /** The copies of a repeated empty string are joined to one, which adds nothing. */
  function Remaining(n: Node): (r: Node)
    requires n.Quant?
    ensures r.Quant? && r.target == n.target && r.greedy == n.greedy
  {
    if EmptyString(n.target) && 1 < n.lower then
      n.(lower := 0, upper := if Infinite(n.upper) then n.upper else Max(n.upper - n.lower, 0))
    else n
  }

  /** How a repetition treats empty turns.  Its code size decides, but only if its body may be empty. */
  function PolicyIn(n: Node, e: Env): Policy
    requires n.Quant? && Parsed(n.target, e)
  {
    var info := EmptyInfoOf(n, e);
    if info.NotEmpty? then Free
    else PolicyOf(Codegen.ShapeOf(WithHead(Setup(n.target, e, true), n.lower, n.upper, n.greedy, info, false)))
  }

  /** An atomic loop over a simple target takes the longest run. */
  function Longest(f: Body, t: Subject, x: St): St
    decreases Left(t, x)
  {
    var ys := f(x);
    if ys == [] || Left(t, ys[0]) >= Left(t, x) then x else Longest(f, t, ys[0])
  }

  predicate LongestRun(n: Node, e: Env)
    requires n.Atomic? && Parsed(n, e)
  {
    Setup(n, e, false).simple
  }

  lemma QuantParsed(q: Node, e: Env)
    requires q.Quant? && Parsed(q, e)
    ensures Parsed(q.target, e) && ProperCounts(q.lower, q.upper, q.greedy)
  {
  }

  /** All ways of a parse tree, best first. */
  function Pref(n: Node, e: Env, t: Subject, x: St): seq<St>
    requires Parsed(n, e)
    decreases n, 0
  {
    match n
    case Quant(target, _, _, _, _, _, _, _) =>
      var f: Body := (y: St) => Pref(target, e, t, y);
      var q := Remaining(n);
      Ordered(q.(emptyInfo := EmptyInfoOf(q, e)), f, t, PolicyIn(q, e), x)
    case Group(num, _, _, target) => CloseAll(num, Pref(target, e, t, OpenGroup(num, num in e.btStart, x)))
    case Atomic(target, _) =>
      if target.Quant? && LongestRun(n, e) then
        QuantParsed(target, e);
        var f: Body := (y: St) => Pref(target.target, e, t, y);
        FlatMap(if target.lower == 0 then [x] else f(x), (y: St) => [Longest(f, t, y)])
      else First(Pref(target, e, t, x))
    case Look(look, target, _) =>
      (match look
       case Ahead => Returned(x, Pref(target, e, t, x))
       case AheadNot => if Pref(target, e, t, x) == [] then [x] else []
       case Behind => PrefBehind(target, e, t, x)
       case BehindNot => if PrefBehind(target, e, t, x) == [] then [x] else [])
    case List(elems) => PrefList(elems, e, t, x)
    case Alt(elems) => PrefAlt(elems, e, t, x)
    case _ => Meaning(n, t, x)
  }

  function PrefList(ns: Nodes, e: Env, t: Subject, x: St): seq<St>
    requires ParsedAll(ns, e)
    decreases ns
  {
    match ns
    case Last(car) => Pref(car, e, t, x)
    case Link(car, cdr) => FlatMap(Pref(car, e, t, x), (y: St) => PrefList(cdr, e, t, y))
  }

  function PrefAlt(ns: Nodes, e: Env, t: Subject, x: St): seq<St>
    requires ParsedAll(ns, e)
    decreases ns
  {
    match ns
    case Last(car) => Pref(car, e, t, x)
    case Link(car, cdr) => Pref(car, e, t, x) + PrefAlt(cdr, e, t, x)
  }

  /** The body of a look-behind from as far back as it is long; alternatives of different lengths one by one. */
  function PrefBehind(body: Node, e: Env, t: Subject, x: St): seq<St>
    requires Parsed(body, e)
    decreases body, 1
  {
    match CharLen(body)
    case Some(len) => if x.s < len then [] else Pref(body, e, t, StepBack(x, len))
    case None => if body.Alt? then PrefBehindAlt(body.elems, e, t, x) else []
  }

  function PrefBehindAlt(ns: Nodes, e: Env, t: Subject, x: St): seq<St>
    requires ParsedAll(ns, e)
    decreases ns
  {
    match ns
    case Last(car) => PrefBehind(car, e, t, x)
    case Link(car, cdr) => PrefBehind(car, e, t, x) + PrefBehindAlt(cdr, e, t, x)
  }

  // ---------------------------------------------------------------- the same turns

  /** The states of a match. */
  ghost predicate Live(t: Subject, e: Env, gs: set<nat>, y: St) { Ok(t, e, y) && NoneOpen(gs, y) }

  /** The two bodies do the same from every state of some kind, and stay among these states. */
  ghost predicate Agree(f: Body, g: Body, I: St -> bool) {
    forall y: St :: I(y) ==> f(y) == g(y) && forall z :: z in f(y) ==> I(z)
  }

  ghost function Living(t: Subject, e: Env, gs: set<nat>): St -> bool { (y: St) => Live(t, e, gs, y) }

  /** The two loops differ only in their bodies. */
  predicate SameLoop(q: Node, r: Node) {
    q.Quant? && r.Quant? && q.greedy == r.greedy && q.emptyInfo == r.emptyInfo && Groups(q.target) == Groups(r.target)
    && (q.target.Any? == r.target.Any?) && (q.target.Any? ==> q.target == r.target)
  }

  lemma {:induction false} ForeverSame(q: Node, r: Node, f: Body, g: Body, t: Subject, I: St -> bool, x: St)
    requires SameLoop(q, r) && Agree(f, g, I) && I(x)
    ensures Forever(q, f, t, x) == Forever(r, g, t, x)
    decreases Left(t, x), |Dirty(Groups(q.target), x)|
  {
    forall y | y in f(x) ensures ForeverTurn(q, f, t, x, y) == ForeverTurn(r, g, t, x, y) {
      if TurnOf(q, x, y).Again? && Progress(q, t, x, y) { ForeverSame(q, r, f, g, t, I, y); }
    }
    FlatSame(f(x), (y: St) => ForeverTurn(q, f, t, x, y), (y: St) => ForeverTurn(r, g, t, x, y));
  }

  lemma {:induction false} IterSame(q: Node, r: Node, f: Body, g: Body, t: Subject, I: St -> bool,
                                    l: nat, m: int, x: St)
    requires SameLoop(q, r) && Agree(f, g, I) && I(x)
    ensures Iter(q, f, t, l, m, x) == Iter(r, g, t, l, m, x)
    decreases l, if m < 0 then 0 else m
  {
    hide Forever;
    if l > 0 {
      forall y | y in f(x) ensures Iter(q, f, t, l - 1, m, y) == Iter(r, g, t, l - 1, m, y) {
        IterSame(q, r, f, g, t, I, l - 1, m, y);
      }
      FlatSame(f(x), (y: St) => Iter(q, f, t, l - 1, m, y), (y: St) => Iter(r, g, t, l - 1, m, y));
    } else if m < 0 {
      ForeverSame(q, r, f, g, t, I, x);
    } else if m > 0 {
      forall y | y in f(x) ensures Iter(q, f, t, 0, m - 1, y) == Iter(r, g, t, 0, m - 1, y) {
        IterSame(q, r, f, g, t, I, 0, m - 1, y);
      }
      FlatSame(f(x), (y: St) => Iter(q, f, t, 0, m - 1, y), (y: St) => Iter(r, g, t, 0, m - 1, y));
    }
  }

  lemma {:induction false} CheckSame(q: Node, r: Node, f: Body, g: Body, t: Subject, I: St -> bool, c: nat,
      x: St)
    requires SameLoop(q, r) && q.lower == r.lower && q.upper == r.upper && Agree(f, g, I) && I(x)
    requires c == 0 || c < Codegen.UpperCount(q.upper)
    ensures FlatMap(f(x), (y: St) => CheckTurn(q, f, t, x, c, y))
        == FlatMap(g(x), (y: St) => CheckTurn(r, g, t, x, c, y))
    decreases Codegen.UpperCount(q.upper) - c
  {
    forall y | y in f(x) ensures CheckTurn(q, f, t, x, c, y) == CheckTurn(r, g, t, x, c, y) {
      if TurnOf(q, x, y).Again? && c + 1 < Codegen.UpperCount(q.upper) { CheckSame(q, r, f, g, t, I, c + 1, y); }
    }
    FlatSame(f(x), (y: St) => CheckTurn(q, f, t, x, c, y), (y: St) => CheckTurn(r, g, t, x, c, y));
  }

  /** The same turns in the same order. */
  lemma OrderedSame(q: Node, r: Node, f: Body, g: Body, t: Subject, I: St -> bool, policy: Policy, x: St)
    requires SameLoop(q, r) && q.lower == r.lower && q.upper == r.upper && Agree(f, g, I) && I(x)
    ensures Ordered(q, f, t, policy, x) == Ordered(r, g, t, policy, x)
  {
    hide Iter, CheckTurn, Forever;
    match policy
    case Free => IterSame(q, r, f, g, t, I, q.lower, Rest(q), x);
    case Entered =>
      forall y | y in f(x) ensures ForeverTurn(q, f, t, x, y) == ForeverTurn(r, g, t, x, y) {
        if TurnOf(q, x, y).Again? && Progress(q, t, x, y) { ForeverSame(q, r, f, g, t, I, y); }
      }
      FlatSame(f(x), (y: St) => ForeverTurn(q, f, t, x, y), (y: St) => ForeverTurn(r, g, t, x, y));
    case Checked => CheckSame(q, r, f, g, t, I, 0, x);
  }

  // ---------------------------------------------------------------- heads

  /** The head byte of a loop is the first byte of the head it was taken from, and that one is right. */
  predicate HeadByteRight(q: Node)
    requires q.Quant?
  {
    q.headExact.Some? ==>
      HeadOrigin(q).Some? && OriginRight(q)
      && (OriginKind(q); q.headExact.value == HeadOrigin(q).value.s[0])
  }

  /** All heads a prepared tree relies on are right: those of loops and those of the nodes behind a node. */
  predicate HeadsFine(m: Node) {
    match m
    case Quant(target, _, _, _, _, _, _, _) => HeadsFine(target) && HeadByteRight(m)
    case Group(_, _, _, target) => HeadsFine(target)
    case Atomic(target, _) => HeadsFine(target)
    case Look(_, target, _) => HeadsFine(target)
    case List(elems) => HeadsFineList(elems)
    case Alt(elems) => HeadsFineAlt(elems)
    case _ => true
  }

  predicate HeadsFineList(ms: Nodes) {
    match ms
    case Last(car) => HeadsFine(car)
    case Link(car, cdr) => HeadsFine(car) && HeadsRight(cdr.car) && HeadsFineList(cdr)
  }

  predicate HeadsFineAlt(ms: Nodes) {
    match ms
    case Last(car) => HeadsFine(car)
    case Link(car, cdr) => HeadsFine(car) && HeadsFineAlt(cdr)
  }

  /** next_setup changes no head. */
  lemma {:induction false} HeadUnchanged(m: Node, next: Node, exact: bool)
    ensures HeadValue(NextSetup(m, next), exact) == HeadValue(m, exact)
    ensures HeadsRight(NextSetup(m, next)) == HeadsRight(m)
    decreases m
  {
    match m
    case Quant(target, _, _, _, _, _, _, _) => SameOrigin(m, m.(nextHead := PeekOf(next)));
    case Group(_, _, _, target) => HeadUnchanged(target, next, exact);
    case _ =>
  }

  lemma SameOrigin(q: Node, r: Node)
    requires q.Quant? && r.Quant? && r.target == q.target
    ensures HeadOrigin(r) == HeadOrigin(q) && OriginRight(r) == OriginRight(q)
  {
  }

  lemma NextIs(m: Node, next: Node)
    ensures m.Group? ==> NextSetup(m, next) == Group(m.num, m.pushStart, m.pushEnd, NextSetup(m.target, next))
    ensures !m.Group? && !m.Quant? ==> NextSetup(m, next) == m
  {
    hide HeadValue, PeekOf, Possessive;
  }

  /** next_setup looks at the next node only through its head. */
  lemma {:induction false} NextByHead(m: Node, a: Node, b: Node)
    requires HeadValue(a, true) == HeadValue(b, true) && HeadValue(a, false) == HeadValue(b, false)
    ensures NextSetup(m, a) == NextSetup(m, b)
    decreases m
  {
    hide *;
    NextIs(m, a);
    NextIs(m, b);
    match m
    case Quant(_, _, _, _, _, _, _, _) => QuantByHead(m, a, b);
    case Group(_, _, _, target) => NextByHead(target, a, b);
    case _ =>
  }

  lemma QuantByHead(q: Node, a: Node, b: Node)
    requires q.Quant? && HeadValue(a, true) == HeadValue(b, true) && HeadValue(a, false) == HeadValue(b, false)
    ensures NextSetup(q, a) == NextSetup(q, b)
  {
    ByHead(q, a, b);
    hide HeadValue, PeekOf, Possessive;
    assert NextSetup(q, a) == NextWith(q, PeekOf(a), Possessive(q, a));
    assert NextSetup(q, b) == NextWith(q, PeekOf(b), Possessive(q, b));
  }

  function NextWith(q: Node, peek: Option<byte>, possessive: bool): Node
    requires q.Quant?
  {
    if q.greedy && Infinite(q.upper) then
      var r := if peek.Some? then q.(nextHead := peek) else q;
      if possessive then Atomic(r, true) else r
    else q
  }

  lemma ByHead(q: Node, a: Node, b: Node)
    requires q.Quant? && HeadValue(a, true) == HeadValue(b, true) && HeadValue(a, false) == HeadValue(b, false)
    ensures PeekOf(a) == PeekOf(b) && Possessive(q, a) == Possessive(q, b)
  {
    hide HeadValue, IsNotIncluded, SimpleType;
    HeadKinds(a, true);
  }

  lemma {:induction false} FineBefore(m: Node, next: Node)
    requires HeadsFine(NextSetup(m, next))
    ensures HeadsFine(m)
    decreases m
  {
    match m
    case Quant(target, _, _, _, _, _, _, _) => SameOrigin(m, m.(nextHead := PeekOf(next)));
    case Group(_, _, _, target) => FineBefore(target, next);
    case _ =>
  }

  /** A right head byte guards its loop. */
  lemma HeadGuards(q: Node, t: Subject)
    requires q.Quant? && q.nextHead.None? && HeadByteRight(q) && Proper(q)
    ensures Guarded(q, t)
  {
    if q.headExact.Some? {
      var v := HeadOrigin(q).value;
      OriginKind(q);
      assert Proper(q.target);
      hide Meaning, Proper, HeadOrigin, OriginRight, M.CanMatch;
      forall y: St | !(y.s < t.End() && t.At(y.s) == q.headExact.value) ensures Meaning(q.target, t, y) == [] {
        var zs := Meaning(q.target, t, y);
        if zs != [] {
          M.Sound(q.target, t, y, zs[0]);
          OriginNeeded(q, t, y, zs[0]);
          ByteThere(t, y.s, v.s, 0);
        }
      }
    }
  }

  // ---------------------------------------------------------------- setup_tree keeps the ways

  /** The ways of a node lead to states of a match again. */
  lemma StaysLive(m: Node, t: Subject, e: Env, gs: set<nat>, x: St, y: St)
    requires WellFormed(m, e) && Groups(m) <= gs && Live(t, e, gs, x) && y in Meaning(m, t, x)
    ensures Live(t, e, gs, y)
  {
    hide Meaning, WellFormed, Groups, Ok, MinLen, MaxLen, CharLen;
    WellFormedProper(m, e);
    M.Sound(m, t, x, y);
    MatchFacts(m, t, e, x, y);
    WidenExtends(Groups(m), gs, x, y);
  }

  /** The body of a prepared loop does what the body of the parsed one does. */
  ghost predicate SameBodies(m: Node, n: Node, e: Env, t: Subject)
    requires Parsed(n, e)
  {
    WellFormed(m, e) && Groups(m) == Groups(n)
    && forall y: St :: Live(t, e, Groups(n), y) ==> Meaning(m, t, y) == Pref(n, e, t, y)
  }

  lemma BodiesAgree(m: Node, n: Node, e: Env, t: Subject)
    requires Parsed(n, e) && SameBodies(m, n, e, t)
    ensures Agree(MeaningOf(m, t), (y: St) => Pref(n, e, t, y), Living(t, e, Groups(n)))
  {
    hide Meaning, Pref, Live, WellFormed, Groups;
    var f, g: Body := MeaningOf(m, t), (y: St) => Pref(n, e, t, y);
    forall y: St | Live(t, e, Groups(n), y) ensures f(y) == g(y) && forall z :: z in f(y) ==> Live(t, e, Groups(n), z) {
      forall z | z in f(y) ensures Live(t, e, Groups(n), z) { StaysLive(m, t, e, Groups(n), y, z); }
    }
  }

  /** A prepared loop over such a body has the ways of the parsed one. */
  lemma LoopMeans(n: Node, m: Node, e: Env, t: Subject, x: St)
    requires n.Quant? && m.Quant? && Parsed(n.target, e) && SameBodies(m.target, n.target, e, t) && WellFormed(m, e)
    requires SameLoop(m, n.(emptyInfo := EmptyInfoOf(n, e))) && m.lower == n.lower && m.upper == n.upper
    requires m.nextHead.None? && HeadByteRight(m) && Live(t, e, Groups(n), x) && t.End() < Codegen.INFINITE_COUNT
    requires PolicyIn(n, e) == if m.emptyInfo.NotEmpty? then Free else PolicyOf(Codegen.ShapeOf(m))
    ensures Meaning(m, t, x)
            == Ordered(n.(emptyInfo := EmptyInfoOf(n, e)), (y: St) => Pref(n.target, e, t, y), t, PolicyIn(n, e), x)
  {
    var q, policy := n.(emptyInfo := EmptyInfoOf(n, e)), PolicyIn(n, e);
    var f, g: Body := MeaningOf(m.target, t), (y: St) => Pref(n.target, e, t, y);
    assert Meaning(m, t, x) == QuantMeaning(m, t, x);
    assert Groups(n) == Groups(n.target) && Groups(m) == Groups(n);
    WellFormedProper(m, e);
    assert ProperCounts(m.lower, m.upper, m.greedy);
    hide Meaning, Pref, QuantMeaning, Ordered, Groups, WellFormed, Guarded, PolicyIn, HeadByteRight, Proper, Parsed;
    hide Codegen.ShapeOf;
    HeadGuards(m, t);
    if m.emptyInfo.NotEmpty? { PlainOrder(m, t, e, x); } else { QuantOrdered(m, t, x); }
    BodiesAgree(m.target, n.target, e, t);
    OrderedSame(m, q, f, g, t, Living(t, e, Groups(n.target)), policy, x);
  }

  /** A right head byte changes nothing. */
  lemma Unheaded(m: Node, t: Subject, e: Env, y: St)
    requires m.Quant? && WellFormed(m, e) && m.nextHead.None? && HeadByteRight(m) && Live(t, e, Groups(m), y)
    ensures Meaning(m.(headExact := None), t, y) == Meaning(m, t, y)
  {
    var r, f := m.(headExact := None), MeaningOf(m.target, t);
    var policy := PolicyOf(Codegen.ShapeOf(m));
    assert Codegen.ShapeOf(r) == Codegen.ShapeOf(m) && HeadByteRight(r);
    WellFormedProper(m, e);
    assert Meaning(m, t, y) == QuantMeaning(m, t, y) && Meaning(r, t, y) == QuantMeaning(r, t, y);
    assert Proper(r) && WellFormed(m.target, e) && Groups(m) == Groups(m.target)
        && ProperCounts(m.lower, m.upper, m.greedy);
    hide Meaning, QuantMeaning, Ordered, Groups, WellFormed, Guarded, HeadByteRight, Proper, Codegen.ShapeOf, Live;
    HeadGuards(m, t);
    HeadGuards(r, t);
    QuantOrdered(m, t, y);
    QuantOrdered(r, t, y);
    forall z: St | Live(t, e, Groups(m), z) ensures forall w :: w in f(z) ==> Live(t, e, Groups(m), w) {
      forall w | w in f(z) ensures Live(t, e, Groups(m), w) { StaysLive(m.target, t, e, Groups(m), z, w); }
    }
    OrderedSame(m, r, f, f, t, Living(t, e, Groups(m)), policy, y);
  }

  // ---------------------------------------------------------------- every tree

  /** setup_tree keeps the ways and their order: in the tree it leaves, from every state of a match. */
  lemma {:induction false} SetupMeans(n: Node, e: Env, inRep: bool, t: Subject, x: St)
    requires Parsed(n, e) && HeadsFine(Setup(n, e, inRep))
    requires Live(t, e, Groups(n), x) && t.End() < Codegen.INFINITE_COUNT
    ensures Meaning(Setup(n, e, inRep), t, x) == Pref(n, e, t, x)
    decreases n, 2
  {
    match n
    case Quant(_, _, _, _, _, _, _, _) => QuantMeans(n, e, inRep, t, x);
    case Group(_, _, _, _) => GroupMeans(n, e, inRep, t, x);
    case Atomic(_, _) => AtomicMeans(n, e, inRep, t, x);
    case Look(_, _, _) => LookMeans(n, e, inRep, t, x);
    case List(elems) =>
      ListMeans(elems, e, inRep, t, x);
      ListUnfolds(SetupList(elems, e, inRep), t, x);
    case Alt(elems) => AltMeans(elems, e, inRep, t, x);
    case _ =>
  }

  lemma ListUnfolds(ms: Nodes, t: Subject, x: St)
    ensures Meaning(List(ms), t, x) == ListMeaning(ms, t, x)
  {
  }

  lemma {:induction false} GroupMeans(n: Node, e: Env, inRep: bool, t: Subject, x: St)
    requires n.Group? && Parsed(n, e) && HeadsFine(Setup(n, e, inRep))
    requires Live(t, e, Groups(n), x) && t.End() < Codegen.INFINITE_COUNT
    ensures Meaning(Setup(n, e, inRep), t, x) == Pref(n, e, t, x)
    decreases n, 1
  {
    var x1 := OpenGroup(n.num, n.num in e.btStart, x);
    assert Live(t, e, Groups(n.target), x1) by { OpenOk(n.(pushStart := n.num in e.btStart), t, e, x); }
    SetupMeans(n.target, e, inRep, t, x1);
  }

  lemma {:induction false} AltMeans(ns: Nodes, e: Env, inRep: bool, t: Subject, x: St)
    requires ParsedAll(ns, e) && HeadsFineAlt(SetupAlt(ns, e, inRep))
    requires Live(t, e, GroupsOf(ns), x) && t.End() < Codegen.INFINITE_COUNT
    ensures AltMeaning(SetupAlt(ns, e, inRep), t, x) == PrefAlt(ns, e, t, x)
    decreases ns, 2
  {
    hide Meaning, Pref, Setup, Ok, HeadsFine;
    SetupMeans(ns.car, e, inRep, t, x);
    if ns.Link? { AltMeans(ns.cdr, e, inRep, t, x); }
  }

  lemma {:induction false} ListMeans(ns: Nodes, e: Env, inRep: bool, t: Subject, x: St)
    requires ParsedAll(ns, e) && HeadsFineList(SetupList(ns, e, inRep))
    requires Live(t, e, GroupsOf(ns), x) && t.End() < Codegen.INFINITE_COUNT
    ensures ListMeaning(SetupList(ns, e, inRep), t, x) == PrefList(ns, e, t, x)
    decreases ns, 2
  {
    var c := Setup(ns.car, e, inRep);
    if ns.Last? {
      SetupMeans(ns.car, e, inRep, t, x);
    } else {
      var rest := SetupList(ns.cdr, e, inRep);
      FirstParsed(ns.cdr, e);
      var next := Setup(ns.cdr.car, e, inRep);
      assert SetupList(ns, e, inRep) == Link(NextSetup(c, next), rest) && HeadsRight(rest.car) && HeadsFineList(rest);
      assert HeadsFine(NextSetup(c, next)) && Live(t, e, Groups(ns.car), x);
      assert PrefList(ns, e, t, x) == FlatMap(Pref(ns.car, e, t, x), (y: St) => PrefList(ns.cdr, e, t, y));
      SameNext(ns.cdr, e, inRep, c);
      hide Setup, SetupList, NextSetup, Pref, PrefList, Meaning, Ok, HeadsFine, HeadsRight, HeadsFineList, Parsed;
      FineBefore(c, next);
      SetupMeans(ns.car, e, inRep, t, x);
      SetupGood(ns.car, e, inRep);
      ListGood(ns.cdr, e, inRep);
      GoodParts(c, e, inRep);
      NextSetupKeeps(c, rest, t, e, x);
      ListAllFlat(rest, t, Meaning(c, t, x));
      RestMeans(ns, e, inRep, t, x);
    }
  }

  lemma SameNext(ns: Nodes, e: Env, inRep: bool, c: Node)
    requires ParsedAll(ns, e) && Parsed(ns.car, e)
    ensures NextSetup(c, Setup(ns.car, e, inRep)) == NextSetup(c, SetupList(ns, e, inRep).car)
  {
    var a, b := Setup(ns.car, e, inRep), SetupList(ns, e, inRep).car;
    if ns.Link? {
      FirstParsed(ns.cdr, e);
      HeadUnchanged(a, Setup(ns.cdr.car, e, inRep), true);
      HeadUnchanged(a, Setup(ns.cdr.car, e, inRep), false);
    }
    hide HeadValue, Setup;
    NextByHead(c, a, b);
  }

  /** The rest of the list after every way of its first node. */
  lemma {:induction false} RestMeans(ns: Nodes, e: Env, inRep: bool, t: Subject, x: St)
    requires ns.Link? && ParsedAll(ns, e) && HeadsFineList(SetupList(ns.cdr, e, inRep))
    requires Live(t, e, GroupsOf(ns), x) && t.End() < Codegen.INFINITE_COUNT
    ensures var xs := Meaning(Setup(ns.car, e, inRep), t, x);
      FlatMap(xs, ListOf(SetupList(ns.cdr, e, inRep), t)) == FlatMap(xs, (y: St) => PrefList(ns.cdr, e, t, y))
    decreases ns, 0
  {
    var c := Setup(ns.car, e, inRep);
    var xs := Meaning(c, t, x);
    SetupGood(ns.car, e, inRep);
    GoodParts(c, e, inRep);
    hide Setup, SetupList, PrefList, Meaning, Ok, HeadsFineList, Parsed, WellFormed;
    forall y | y in xs ensures ListOf(SetupList(ns.cdr, e, inRep), t)(y) == PrefList(ns.cdr, e, t, y) {
      StaysLive(c, t, e, GroupsOf(ns), x, y);
      ListMeans(ns.cdr, e, inRep, t, y);
    }
    FlatSame(xs, ListOf(SetupList(ns.cdr, e, inRep), t), (y: St) => PrefList(ns.cdr, e, t, y));
  }

  /** Repeated strings are joined, other loops get their head byte. */
  lemma {:induction false} QuantMeans(n: Node, e: Env, inRep: bool, t: Subject, x: St)
    requires n.Quant? && Parsed(n, e) && HeadsFine(Setup(n, e, inRep))
    requires Live(t, e, Groups(n), x) && t.End() < Codegen.INFINITE_COUNT
    ensures Meaning(Setup(n, e, inRep), t, x) == Pref(n, e, t, x)
    decreases n, 1
  {
    QuantParsed(n, e);
    var c, m := Setup(n.target, e, true), Setup(n, e, inRep);
    SetupGood(n, e, inRep);
    SetupGood(n.target, e, true);
    if c.Str? && 1 < n.lower {
      var q := Quant(c, n.lower, n.upper, n.greedy, EmptyInfoOf(n, e), inRep, None, None);
      assert WellFormed(c, e) && HeadsFine(c) && Groups(c) == Groups(n.target) by { GoodParts(c, e, true); }
      hide Setup, Pref, Meaning, HeadsFine, Ok, Parsed, WellFormed, Groups, EmptyInfoOf, Good, Kept;
      BodyMeans(n, c, q, e, t);
      if c == Str([]) { EmptyMeans(n, c, e, inRep, t, x); } else { StringMeans(n, c, e, inRep, t, x); }
    } else {
      assert m == WithHead(c, n.lower, n.upper, n.greedy, EmptyInfoOf(n, e), inRep);
      assert HeadsFine(c) && HeadByteRight(m) by {
        HeadBefore(c, n.lower, n.upper, n.greedy, EmptyInfoOf(n, e), inRep);
      }
      assert WellFormed(m, e) && WellFormed(c, e) && Unlinked(c) && Unlinked(m) by {
        GoodParts(c, e, true);
        GoodParts(m, e, inRep);
      }
      assert Groups(c) == Groups(n.target) && WellFormed(m.target, e) && Groups(m.target) == Groups(c);
      assert SameLoop(m, n.(emptyInfo := EmptyInfoOf(n, e))) by { StillAny(n.target, e, true); }
      assert PolicyIn(n, e) == if m.emptyInfo.NotEmpty? then Free else PolicyOf(Codegen.ShapeOf(m)) by {
        SamePolicy(n, e, inRep);
      }
      LoopRemains(n, e);
      hide Setup, Pref, Meaning, HeadsFine, Ok, Parsed, WellFormed, Groups, SameLoop, PolicyIn, EmptyString;
      BodyMeans(n, c, m, e, t);
      LoopMeans(n, m, e, t, x);
      RemainingWays(n, e, t, x);
    }
  }

  lemma LoopRemains(n: Node, e: Env)
    requires n.Quant? && Parsed(n.target, e) && !(Setup(n.target, e, true) == Str([]) && 1 < n.lower)
    ensures Remaining(n) == n
  {
    EmptySetup(n.target, e, true);
    hide Setup, EmptyString;
  }

  /** Exactly these become the empty string. */
  lemma {:induction false} EmptySetup(n: Node, e: Env, inRep: bool)
    requires Parsed(n, e)
    ensures EmptyString(n) <==> Setup(n, e, inRep) == Str([])
    decreases n
  {
    if n.Quant? {
      QuantParsed(n, e);
      EmptySetup(n.target, e, true);
      var c, info := Setup(n.target, e, true), EmptyInfoOf(n, e);
      if c.Str? && 1 < n.lower {
        ExpandedEmpty(Quant(c, n.lower, n.upper, n.greedy, info, inRep, None, None));
      } else {
        HeadIsLoop(c, n.lower, n.upper, n.greedy, info, inRep);
      }
      hide EmptyInfoOf, WithHead, StringExpand.Expanded, StringExpand.CopyCount;
    }
  }

  lemma ExpandedEmpty(q: Node)
    requires StringExpand.StringLoop(q) && (Infinite(q.upper) || q.lower <= q.upper)
    ensures StringExpand.Expanded(q, StringExpand.CopyCount(q.lower, |q.target.s|, 1)) == Str([])
        <==> q.target.s == [] && q.lower == q.upper
  {
    var i := StringExpand.CopyCount(q.lower, |q.target.s|, 1);
    if q.target.s == [] { AllCopies(q.lower, 1); } else { assert |StringExpand.Copies(q.target.s, i)| > 0; }
  }

  /** The body of the loop, with the head byte it had lost or not. */
  lemma {:induction false} BodyMeans(n: Node, c: Node, m: Node, e: Env, t: Subject)
    requires n.Quant? && Parsed(n, e) && Parsed(n.target, e) && c == Setup(n.target, e, true)
    requires m.Quant? && (m.target == c || (c.Quant? && m.target == c.(headExact := None))) && WellFormed(m.target, e)
    requires HeadsFine(c) && WellFormed(c, e) && Unlinked(c) && Groups(c) == Groups(n.target) == Groups(m.target)
    requires t.End() < Codegen.INFINITE_COUNT
    ensures SameBodies(m.target, n.target, e, t)
    decreases n, 0
  {
    assert c.Quant? ==> HeadByteRight(c) && c.nextHead.None?;
    hide Setup, Pref, Meaning, HeadsFine, Ok, Parsed, WellFormed, Groups, HeadByteRight;
    forall y: St | Live(t, e, Groups(n.target), y) ensures Meaning(m.target, t, y) == Pref(n.target, e, t, y) {
      SetupMeans(n.target, e, true, t, y);
      if m.target != c { Unheaded(c, t, e, y); }
    }
  }

  /** The head byte that was moved out was right where it came from. */
  lemma HeadBefore(c: Node, lower: nat, upper: int, greedy: bool, info: EmptyInfo, inRep: bool)
    requires HeadsFine(WithHead(c, lower, upper, greedy, info, inRep))
    ensures HeadsFine(c) && HeadByteRight(WithHead(c, lower, upper, greedy, info, inRep))
  {
    var m := WithHead(c, lower, upper, greedy, info, inRep);
    if c.Quant? {
      SameOrigin(c, c.(headExact := None));
      assert HeadsFine(m.target) ==> HeadsFine(c.target);
    }
  }

  lemma StillAny(n: Node, e: Env, inRep: bool)
    requires Parsed(n, e)
    ensures var m := Setup(n, e, inRep); (m.Any? <==> n.Any?) && (n.Any? ==> m == n)
  {
  }

  lemma SamePolicy(n: Node, e: Env, inRep: bool)
    requires n.Quant? && Parsed(n, e) && Parsed(n.target, e)
    ensures var m := WithHead(Setup(n.target, e, true), n.lower, n.upper, n.greedy, EmptyInfoOf(n, e), inRep);
      PolicyIn(n, e) == if m.emptyInfo.NotEmpty? then Free else PolicyOf(Codegen.ShapeOf(m))
  {
    hide Setup, Codegen.Length;
    var c, info := Setup(n.target, e, true), EmptyInfoOf(n, e);
    var m, k := WithHead(c, n.lower, n.upper, n.greedy, info, inRep),
        WithHead(c, n.lower, n.upper, n.greedy, info, false);
    assert k == m.(inRepeat := false) && Codegen.ShapeOf(k) == Codegen.ShapeOf(m);
  }

  lemma RemainingWays(n: Node, e: Env, t: Subject, x: St)
    requires n.Quant? && Parsed(n, e) && Parsed(n.target, e)
    ensures var q := Remaining(n);
      Pref(n, e, t, x)
      == Ordered(q.(emptyInfo := EmptyInfoOf(q, e)), (y: St) => Pref(q.target, e, t, y), t, PolicyIn(q, e), x)
  {
    hide Ordered, PolicyIn, EmptyInfoOf;
  }

  lemma FreePolicy(n: Node, e: Env)
    requires n.Quant? && Parsed(n.target, e) && EmptyInfoOf(n, e).NotEmpty?
    ensures PolicyIn(n, e) == Free
  {
    hide EmptyInfoOf, Setup;
  }

  /** A repeated string. */
  lemma StringMeans(n: Node, c: Node, e: Env, inRep: bool, t: Subject, x: St)
    requires n.Quant? && Parsed(n, e) && Parsed(n.target, e) && c == Setup(n.target, e, true)
    requires c.Str? && c != Str([]) && 1 < n.lower && SameBodies(c, n.target, e, t)
    requires Live(t, e, Groups(n), x) && t.End() < Codegen.INFINITE_COUNT
    ensures Meaning(Setup(n, e, inRep), t, x) == Pref(n, e, t, x)
  {
    var info, s := EmptyInfoOf(n, e), c.s;
    var m := Quant(c, n.lower, n.upper, n.greedy, info, inRep, None, None);
    SetupGood(n.target, e, true);
    StringLoopGood(n, c, e, inRep);
    assert info.NotEmpty? && ProperCounts(n.lower, n.upper, n.greedy) && s != [] by { SolidString(n, c, e); }
    assert Setup(n, e, inRep) == StringExpand.Expanded(m, StringExpand.CopyCount(n.lower, |s|, 1));
    StringExpand.ExpandKeeps(m, StringExpand.CopyCount(n.lower, |s|, 1), t, x);
    StillAny(n.target, e, true);
    LoopRemains(n, e);
    hide *;
    StringLoopFacts(n, m, e, t);
    FreePolicy(n, e);
    LoopMeans(n, m, e, t, x);
    RemainingWays(n, e, t, x);
  }

  lemma SolidString(n: Node, c: Node, e: Env)
    requires n.Quant? && Parsed(n, e) && c.Str? && c.s != [] && 1 < n.lower && Kept(n.target, c, e)
    ensures EmptyInfoOf(n, e).NotEmpty? && ProperCounts(n.lower, n.upper, n.greedy)
  {
  }

  /** A loop over a string, as it stands. */
  lemma StringLoopFacts(n: Node, m: Node, e: Env, t: Subject)
    requires n.Quant? && Parsed(n.target, e) && !n.target.Any? && m.Quant? && m.target.Str? && m.greedy == n.greedy
    requires m.emptyInfo == EmptyInfoOf(n, e) && m.headExact.None? && SameBodies(m.target, n.target, e, t)
    ensures HeadByteRight(m) && SameLoop(m, n.(emptyInfo := EmptyInfoOf(n, e)))
  {
    hide EmptyInfoOf;
  }

  lemma {:induction false} AllCopies(n: nat, i: nat)
    requires 1 <= i <= n
    ensures StringExpand.CopyCount(n, 0, i) == n && StringExpand.Copies([], n) == []
    decreases n - i, n
  {
    if i < n { AllCopies(n, i + 1); } else { NoCopies(n); }
  }

  lemma {:induction false} NoCopies(n: nat)
    ensures StringExpand.Copies([], n) == []
    decreases n
  {
    if n > 0 { NoCopies(n - 1); }
  }

  /** A repeated empty string. */
  lemma EmptyMeans(n: Node, c: Node, e: Env, inRep: bool, t: Subject, x: St)
    requires n.Quant? && Parsed(n, e) && Parsed(n.target, e) && c == Str([]) == Setup(n.target, e, true)
    requires 1 < n.lower && SameBodies(c, n.target, e, t)
    requires Live(t, e, Groups(n), x) && t.End() < Codegen.INFINITE_COUNT
    ensures Meaning(Setup(n, e, inRep), t, x) == Pref(n, e, t, x)
  {
    var info, q := EmptyInfoOf(n, e), Remaining(n);
    var m := Quant(c, n.lower, n.upper, n.greedy, info, inRep, None, None);
    SetupGood(n.target, e, true);
    StringLoopGood(n, c, e, inRep);
    EmptySetup(n.target, e, true);
    AllCopies(n.lower, 1);
    StillAny(n.target, e, true);
    assert Setup(n, e, inRep) == StringExpand.Expanded(m, n.lower);
    assert MinLen(n.target, e) == 0 && !HasMem(n.target) && x.s <= t.End();
    assert EmptyInfoOf(n, e) == Empty && (q.upper != 0 ==> EmptyInfoOf(q, e) == Empty) && Groups(q) == Groups(n);
    hide Setup, Pref, Meaning, HeadsFine, Parsed, WellFormed, Groups, Good, Kept, Live, MinLen, HasMem, Ordered;
    hide StringExpand.Expanded, StringExpand.CopyCount;
    RemainingWays(n, e, t, x);
    EmptyUnfolds(m, t, x);
    if n.lower < n.upper || Infinite(n.upper) {
      var r := m.(lower := 0, upper := q.upper);
      RestGood(m, r, info, e, inRep);
      EmptyPolicy(n, r, e, inRep);
      hide *;
      EmptyRest(q, r, e, t, x);
    } else {
      NoTurns(q, e, t, x);
    }
  }

  lemma EmptyRest(q: Node, r: Node, e: Env, t: Subject, x: St)
    requires q.Quant? && r.Quant? && r.target == Str([]) && Parsed(q.target, e) && !q.target.Any?
        && r.greedy == q.greedy
    requires r.emptyInfo == EmptyInfoOf(q, e) && r.headExact.None? && r.nextHead.None? && WellFormed(r, e)
    requires SameBodies(r.target, q.target, e, t) && r.lower == q.lower && r.upper == q.upper
    requires Live(t, e, Groups(q), x) && t.End() < Codegen.INFINITE_COUNT
    requires PolicyIn(q, e) == if r.emptyInfo.NotEmpty? then Free else PolicyOf(Codegen.ShapeOf(r))
    ensures Meaning(r, t, x)
            == Ordered(q.(emptyInfo := EmptyInfoOf(q, e)), (y: St) => Pref(q.target, e, t, y), t, PolicyIn(q, e), x)
  {
    hide *;
    StringLoopFacts(q, r, e, t);
    LoopMeans(q, r, e, t, x);
  }

  /** No turn at all. */
  lemma NoTurns(q: Node, e: Env, t: Subject, x: St)
    requires q.Quant? && q.lower == q.upper == 0 && Parsed(q.target, e)
    ensures Ordered(q.(emptyInfo := EmptyInfoOf(q, e)), (y: St) => Pref(q.target, e, t, y), t, PolicyIn(q, e), x) == [x]
  {
    hide Pref, Setup;
  }

  /** The joined empty strings and what may follow. */
  lemma EmptyUnfolds(m: Node, t: Subject, x: St)
    requires m.Quant? && m.target == Str([]) && 1 < m.lower && x.s <= t.End()
    requires Infinite(m.upper) || m.lower <= m.upper
    ensures Meaning(StringExpand.Expanded(m, m.lower), t, x)
            == if m.lower < m.upper then Meaning(m.(lower := 0, upper := m.upper - m.lower), t, x)
               else if Infinite(m.upper) then Meaning(m.(lower := 0), t, x) else [x]
  {
    NoCopies(m.lower);
    assert Meaning(Str([]), t, x) == [x] by { assert t.data[x.s..x.s] == []; }
    hide Meaning;
    if m.lower < m.upper { RestMeaning(m.(lower := 0, upper := m.upper - m.lower), t, x); }
    if Infinite(m.upper) { RestMeaning(m.(lower := 0), t, x); }
  }

  lemma RestMeaning(r: Node, t: Subject, x: St)
    requires Meaning(Str([]), t, x) == [x]
    ensures Meaning(List(Link(Str([]), Last(r))), t, x) == Meaning(r, t, x)
  {
    assert ListMeaningAll(Last(r), t, [x][1..]) == [];
    assert ListMeaning(Last(r), t, x) == Meaning(r, t, x);
    assert ListMeaningAll(Last(r), t, [x]) == Meaning(r, t, x) + [];
  }

  lemma EmptyPolicy(n: Node, r: Node, e: Env, inRep: bool)
    requires n.Quant? && 1 < n.lower && (n.lower < n.upper || Infinite(n.upper)) && EmptyString(n.target)
    requires Parsed(n, e) && Parsed(n.target, e) && Setup(n.target, e, true) == Str([]) && MinLen(n.target, e) == 0
    requires r == Quant(Str([]), 0, Remaining(n).upper, n.greedy, EmptyInfoOf(n, e), inRep, None, None)
    ensures PolicyIn(Remaining(n), e) == if r.emptyInfo.NotEmpty? then Free else PolicyOf(Codegen.ShapeOf(r))
  {
    hide Codegen.Length;
    var k := WithHead(Str([]), 0, r.upper, n.greedy, r.emptyInfo, false);
    assert k == r.(inRepeat := false) && Codegen.ShapeOf(k) == Codegen.ShapeOf(r);
  }

  // ---------------------------------------------------------------- atomic groups

  lemma AtomicShape(n: Node, e: Env, inRep: bool)
    requires n.Atomic? && Parsed(n, e)
    ensures var m, c := Setup(n, e, inRep), Setup(n.target, e, inRep);
      m.Atomic? && m.target == c && (m.simple <==> n.target.Quant? && LongestRun(n, e))
      && (m.simple ==>
            c.Quant? && Parsed(n.target.target, e) && c.lower == n.target.lower <= 1
            && c.target == Setup(n.target.target, e, true))
  {
  }

  /** The longest run of a simple target. */
  lemma {:induction false} LongestMeans(k: Node, e: Env, t: Subject, y: St)
    requires Parsed(k, e) && HeadsFine(Setup(k, e, true))
    requires Live(t, e, Groups(k), y) && t.End() < Codegen.INFINITE_COUNT
    ensures AtomicLoop(Setup(k, e, true), t, y) == Longest((z: St) => Pref(k, e, t, z), t, y)
    decreases k, 3, Left(t, y)
  {
    var c := Setup(k, e, true);
    SetupGood(k, e, true);
    GoodParts(c, e, true);
    SetupMeans(k, e, true, t, y);
    hide Meaning, Pref, Setup, Live, WellFormed, Groups, HeadsFine, Parsed, RepeatMarks, Unlinked;
    hide MinLen, MaxLen, CharLen, HasMem, NoMemInLook, Refs;
    var ys := Meaning(c, t, y);
    if ys != [] && Left(t, ys[0]) < Left(t, y) {
      StaysLive(c, t, e, Groups(k), y, ys[0]);
      LongestMeans(k, e, t, ys[0]);
    }
  }

  lemma {:induction false} AtomicMeans(n: Node, e: Env, inRep: bool, t: Subject, x: St)
    requires n.Atomic? && Parsed(n, e) && HeadsFine(Setup(n, e, inRep))
    requires Live(t, e, Groups(n), x) && t.End() < Codegen.INFINITE_COUNT
    ensures Meaning(Setup(n, e, inRep), t, x) == Pref(n, e, t, x)
    decreases n, 1
  {
    AtomicShape(n, e, inRep);
    var m, c := Setup(n, e, inRep), Setup(n.target, e, inRep);
    assert Groups(n) == Groups(n.target);
    if m.simple {
      SimpleMeans(n, c, e, t, x);
    } else {
      SetupMeans(n.target, e, inRep, t, x);
    }
  }

  lemma {:induction false} SimpleMeans(n: Node, c: Node, e: Env, t: Subject, x: St)
    requires n.Atomic? && n.target.Quant? && Parsed(n, e) && LongestRun(n, e)
    requires c.Quant? && c.lower == n.target.lower <= 1 && Parsed(n.target.target, e)
        && c.target == Setup(n.target.target, e, true)
    requires HeadsFine(c) && Live(t, e, Groups(n), x) && t.End() < Codegen.INFINITE_COUNT
    ensures Meaning(Atomic(c, true), t, x) == Pref(n, e, t, x)
    decreases n, 0
  {
    var k, b := n.target.target, c.target;
    var f: Body := (y: St) => Pref(k, e, t, y);
    var xs := if c.lower == 0 then [x] else f(x);
    assert Groups(n) == Groups(k) && HeadsFine(b);
    assert Meaning(Atomic(c, true), t, x) == AtomicLoopAll(b, t, TimesMeaning(b, t, c.lower, [x]));
    assert Pref(n, e, t, x) == FlatMap(xs, (y: St) => [Longest(f, t, y)]);
    SetupGood(k, e, true);
    GoodParts(b, e, true);
    hide Meaning, Pref, Setup, Live, WellFormed, Groups, HeadsFine, Parsed, RepeatMarks, Unlinked;
    hide MinLen, MaxLen, CharLen, HasMem, NoMemInLook, Refs, Longest, AtomicLoop;
    SetupMeans(k, e, true, t, x);
    assert TimesMeaning(b, t, c.lower, [x]) == xs by { OneCopy(b, t, x); }
    AtomicAllFlat(b, t, xs);
    forall y | y in xs ensures AtomicOf(b, t)(y) == [Longest(f, t, y)] {
      if c.lower != 0 { StaysLive(b, t, e, Groups(k), x, y); }
      LongestMeans(k, e, t, y);
    }
    FlatSame(xs, AtomicOf(b, t), (y: St) => [Longest(f, t, y)]);
  }

  lemma OneCopy(n: Node, t: Subject, x: St)
    ensures TimesMeaning(n, t, 0, [x]) == [x] && TimesMeaning(n, t, 1, [x]) == Meaning(n, t, x)
  {
    hide Meaning;
    assert MeaningAll(n, t, [x][1..]) == [];
    assert TimesMeaning(n, t, 0, MeaningAll(n, t, [x])) == MeaningAll(n, t, [x]);
  }

  // ---------------------------------------------------------------- look-around

  lemma BackLive(t: Subject, e: Env, gs: set<nat>, x: St, len: nat)
    requires Live(t, e, gs, x) && len <= x.s
    ensures Live(t, e, gs, StepBack(x, len))
  {
    L.BackOk(t, e, x, x.s - len);
  }

  lemma {:induction false} LookMeans(n: Node, e: Env, inRep: bool, t: Subject, x: St)
    requires n.Look? && Parsed(n, e) && HeadsFine(Setup(n, e, inRep))
    requires Live(t, e, Groups(n), x) && t.End() < Codegen.INFINITE_COUNT
    ensures Meaning(Setup(n, e, inRep), t, x) == Pref(n, e, t, x)
    decreases n, 1
  {
    assert Groups(n) == Groups(n.target);
    if n.look.Ahead? || n.look.AheadNot? {
      SetupMeans(n.target, e, inRep, t, x);
    } else if CharLen(n.target).Some? {
      BehindMeans(n.look, n.target, e, inRep, t, x);
    } else {
      var ns := n.target.elems;
      AltParsed(n.target, e);
      assert Groups(n) == GroupsOf(ns);
      assert Pref(n, e, t, x) == if n.look.Behind? then PrefBehindAlt(ns, e, t, x)
                                 else if PrefBehindAlt(ns, e, t, x) == [] then [x] else [];
      DividedMeans(n.look, ns, e, inRep, t, x);
    }
  }

  /** One step back. */
  lemma {:induction false} BehindMeans(look: LookKind, n: Node, e: Env, inRep: bool, t: Subject, x: St)
    requires (look.Behind? || look.BehindNot?) && CharLen(n).Some?
    requires Parsed(n, e) && HeadsFine(Setup(n, e, inRep))
    requires Live(t, e, Groups(n), x) && t.End() < Codegen.INFINITE_COUNT
    ensures var ys := PrefBehind(n, e, t, x);
      Meaning(Look(look, Setup(n, e, inRep), CharLen(n).value), t, x)
      == if look.Behind? then ys else if ys == [] then [x] else []
    decreases n, 3
  {
    var len := CharLen(n).value;
    if len <= x.s {
      BackLive(t, e, Groups(n), x, len);
      SetupMeans(n, e, inRep, t, StepBack(x, len));
    }
  }

  /** A divided look-behind, with its alternatives in order. */
  lemma {:induction false} DividedMeans(look: LookKind, ns: Nodes, e: Env, inRep: bool, t: Subject, x: St)
    requires (look.Behind? || look.BehindNot?) && L.AllFixed(ns) && ParsedAll(ns, e)
    requires Live(t, e, GroupsOf(ns), x) && t.End() < Codegen.INFINITE_COUNT
    requires var ms := SetupDivided(look, ns, e, inRep); if look.Behind? then HeadsFineAlt(ms) else HeadsFineList(ms)
    ensures var ms, ys := SetupDivided(look, ns, e, inRep), PrefBehindAlt(ns, e, t, x);
      if look.Behind? then AltMeaning(ms, t, x) == ys else ListMeaning(ms, t, x) == if ys == [] then [x] else []
    decreases ns, 2
  {
    var ms := SetupDivided(look, ns, e, inRep);
    assert Parsed(ns.car, e) && Live(t, e, Groups(ns.car), x);
    assert HeadsFine(Setup(ns.car, e, inRep)) && ms.car == Look(look, Setup(ns.car, e, inRep), CharLen(ns.car).value);
    hide Meaning, Pref, PrefBehind, Setup, HeadsFine, Parsed, CharLen, HeadsRight, Ok;
    BehindMeans(look, ns.car, e, inRep, t, x);
    if ns.Link? {
      DividedMeans(look, ns.cdr, e, inRep, t, x);
      assert ListMeaningAll(ms.cdr, t, [x][1..]) == [];
      assert ListMeaningAll(ms.cdr, t, [x]) == ListMeaning(ms.cdr, t, x);
    }
  }

  // ---------------------------------------------------------------- when all heads are right

  /** No repetition that may turn zero times is itself repeated without anything around it. */
  predicate Unnested(n: Node) {
    match n
    case Quant(target, _, _, _, _, _, _, _) => Unnested(target) && (target.Quant? ==> 0 < target.lower)
    case Group(_, _, _, target) => Unnested(target)
    case Atomic(target, _) => Unnested(target)
    case Look(_, target, _) => Unnested(target)
    case List(elems) => UnnestedAll(elems)
    case Alt(elems) => UnnestedAll(elems)
    case _ => true
  }

  predicate UnnestedAll(ns: Nodes) {
    match ns
    case Last(car) => Unnested(car)
    case Link(car, cdr) => Unnested(car) && UnnestedAll(cdr)
  }

  /** All heads in the node are right, and so is its own. */
  predicate AllRight(m: Node) { HeadsFine(m) && HeadsRight(m) }

  /** The heads setup_tree relies on are right in the trees where no such repetition is repeated. */
  lemma {:induction false} UnnestedFine(n: Node, e: Env, inRep: bool)
    requires Parsed(n, e) && Unnested(n)
    ensures AllRight(Setup(n, e, inRep))
    decreases n, 1
  {
    match n
    case Quant(target, _, _, _, _, _, _, _) =>
      UnnestedFine(target, e, true);
      var c, info := Setup(target, e, true), EmptyInfoOf(n, e);
      if c.Str? && 1 < n.lower {
        ExpandedFine(Quant(c, n.lower, n.upper, n.greedy, info, inRep, None, None),
            StringExpand.CopyCount(n.lower, |c.s|, 1));
      } else {
        LoopFine(n, c, info, e, inRep);
      }
    case Group(_, _, _, target) => UnnestedFine(target, e, inRep);
    case Atomic(target, _) => UnnestedFine(target, e, inRep);
    case Look(look, target, _) =>
      if look.Ahead? || look.AheadNot? || CharLen(target).Some? {
        UnnestedFine(target, e, inRep);
      } else {
        AltParsed(target, e);
        DividedFine(look, target.elems, e, inRep);
      }
    case List(elems) => ListFine(elems, e, inRep);
    case Alt(elems) => AltFine(elems, e, inRep);
    case _ =>
  }

  lemma NoHead(q: Node)
    requires q.Quant? && q.headExact.None?
    ensures HeadByteRight(q) && (HeadsFine(q) <==> HeadsFine(q.target))
    ensures HeadsRight(q) <==> q.lower == 0 || HeadsRight(q.target)
  {
  }

  lemma ExpandedFine(m: Node, i: nat)
    requires StringExpand.StringLoop(m) && 1 <= i <= m.lower && m.headExact.None?
    ensures AllRight(StringExpand.Expanded(m, i))
  {
    if i < m.upper || Infinite(m.upper) {
      var np := Str(StringExpand.Copies(m.target.s, i));
      var r := m.(lower := m.lower - i, upper := if Infinite(m.upper) then m.upper else m.upper - i);
      NoHead(r);
      assert HeadsFine(r.target) && HeadsRight(r.target) && HeadsFineList(Last(r)) && HeadsFineList(Link(np, Last(r)));
      assert HeadsRight(List(Link(np, Last(r))));
    }
  }

  /** The head byte of a loop comes from its target, or was right there and the target turns at least once. */
  lemma LoopFine(n: Node, c: Node, info: EmptyInfo, e: Env, inRep: bool)
    requires n.Quant? && Parsed(n, e) && Parsed(n.target, e) && Unnested(n)
    requires c == Setup(n.target, e, true) && AllRight(c)
    ensures AllRight(WithHead(c, n.lower, n.upper, n.greedy, info, inRep))
  {
    QuantStays(n.target, e, true);
    hide Setup, Parsed, HeadByteRight, HeadOrigin, OriginRight, HeadByte, HeadsFine, HeadsRight;
    var m := WithHead(c, n.lower, n.upper, n.greedy, info, inRep);
    if m.headExact.None? {
      NoHead(m);
      if c.Quant? { Unmoved(c); }
    } else if c.Quant? {
      MovedFine(c, m);
    } else {
      FoundFine(c, m);
    }
  }

  lemma FoundFine(c: Node, m: Node)
    requires !c.Quant? && AllRight(c) && m.Quant? && m.target == c && m.headExact.Some? && m.headExact == HeadByte(c)
    ensures AllRight(m)
  {
    HeadKinds(c, true);
    OriginKind(m);
    assert HeadOrigin(m) == HeadValue(c, true) && OriginRight(m) == HeadsRight(c);
    hide HeadValue;
  }

  lemma Unmoved(c: Node)
    requires c.Quant? && HeadsFine(c)
    ensures HeadsFine(c.(headExact := None))
  {
    NoHead(c.(headExact := None));
  }

  lemma MovedFine(c: Node, m: Node)
    requires c.Quant? && HeadsFine(c) && c.headExact.Some? && 0 < c.lower
    requires m.Quant? && m.target == c.(headExact := None) && m.headExact == c.headExact
    ensures AllRight(m)
  {
    var d := c.(headExact := None);
    Unmoved(c);
    SameOrigin(c, d);
    assert HeadByteRight(c);
    OriginKind(c);
    OriginKind(m);
  }

  lemma QuantStays(n: Node, e: Env, inRep: bool)
    requires Parsed(n, e)
    ensures var m := Setup(n, e, inRep); m.Quant? ==> n.Quant? && m.lower == n.lower
  {
  }

  /** next_setup keeps the heads right. */
  lemma {:induction false} NextFine(m: Node, next: Node)
    requires AllRight(m)
    ensures AllRight(NextSetup(m, next))
    decreases m
  {
    HeadUnchanged(m, next, true);
    NextIs(m, next);
    match m
    case Quant(_, _, _, _, _, _, _, _) => NextQuantFine(m, next);
    case Group(_, _, _, target) => NextFine(target, next);
    case _ =>
  }

  lemma NextQuantFine(q: Node, next: Node)
    requires q.Quant? && HeadsFine(q)
    ensures HeadsFine(NextSetup(q, next))
  {
    SameOrigin(q, q.(nextHead := PeekOf(next)));
    hide PeekOf, Possessive, HeadOrigin, OriginRight, HeadValue;
  }

  lemma {:induction false} ListFine(ns: Nodes, e: Env, inRep: bool)
    requires ParsedAll(ns, e) && UnnestedAll(ns)
    ensures HeadsFineList(SetupList(ns, e, inRep)) && HeadsRight(SetupList(ns, e, inRep).car)
    decreases ns, 1
  {
    hide Setup, NextSetup, HeadsFine, HeadsRight, Parsed;
    UnnestedFine(ns.car, e, inRep);
    if ns.Link? {
      FirstParsed(ns.cdr, e);
      NextFine(Setup(ns.car, e, inRep), Setup(ns.cdr.car, e, inRep));
      ListFine(ns.cdr, e, inRep);
    }
  }

  lemma {:induction false} AltFine(ns: Nodes, e: Env, inRep: bool)
    requires ParsedAll(ns, e) && UnnestedAll(ns)
    ensures HeadsFineAlt(SetupAlt(ns, e, inRep))
    decreases ns, 1
  {
    hide Setup, HeadsFine, HeadsRight, Parsed;
    UnnestedFine(ns.car, e, inRep);
    if ns.Link? { AltFine(ns.cdr, e, inRep); }
  }

  lemma {:induction false} DividedFine(look: LookKind, ns: Nodes, e: Env, inRep: bool)
    requires (look.Behind? || look.BehindNot?) && L.AllFixed(ns) && ParsedAll(ns, e) && UnnestedAll(ns)
    ensures var ms := SetupDivided(look, ns, e, inRep);
      HeadsFineAlt(ms) && HeadsFineList(ms) && HeadsRight(ms.car)
    decreases ns, 1
  {
    hide Setup, Parsed;
    UnnestedFine(ns.car, e, inRep);
    if ns.Link? { DividedFine(look, ns.cdr, e, inRep); }
  }
}
