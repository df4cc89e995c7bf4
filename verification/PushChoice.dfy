/** Which captures setup_tree has pushed on the stack (regcomp.c:3872, 3901-3904, 3952-3953, 4035-4042, 4084, 4128):
    those of groups in alternation, negation or variable repetition, and those that are referred to.  The others are
    reported right unless a counted loop around them may leave before its last turn. */
module PushChoice {
  import opened Common
  import opened Tree
  import opened Codegen
  import opened Lengths
  import opened NextNode
  import opened StringExpand
  import opened SetupTree
  import opened LineStarts
  import opened Pending
  import opened Engine
  import opened Finder

  /** The groups setup_tree marks in env->bt_mem_start; `st` is IN_ALT, IN_NOT or IN_VAR_REPEAT. */
  function Marked(n: Node, st: bool): set<nat> {
    match n
    case Backref(num) => {num}
    case Quant(target, lower, upper, _, _, _, _, _) => Marked(target, st || lower != upper)
    case Group(num, _, _, target) => (if st then {num} else {}) + Marked(target, st)
    case Atomic(target, _) => Marked(target, st)
    case Look(look, target, _) =>
      Marked(target, st || look.AheadNot? || look.BehindNot? || (look.Behind? && CharLen(target).None?))
    case List(elems) => MarkedIn(elems, st)
    case Alt(elems) => MarkedIn(elems, true)
    case _ => {}
  }

  function MarkedIn(ns: Nodes, st: bool): set<nat> {
    match ns
    case Last(car) => Marked(car, st)
    case Link(car, cdr) => Marked(car, st) + MarkedIn(cdr, st)
  }

  /** The group stands in a loop that counts a fixed number of turns over a body that may be empty. */
  predicate Early(n: Node, g: nat) {
    g in Groups(n)
    && match n
       case Quant(target, lower, upper, _, emptyInfo, _, _, _) =>
         (lower == upper && ShapeOf(n).Counter? && !emptyInfo.NotEmpty?) || Early(target, g)
       case Group(_, _, _, target) => Early(target, g)
       case Atomic(target, _) => Early(target, g)
       case Look(_, target, _) => Early(target, g)
       case List(elems) => EarlyIn(elems, g)
       case Alt(elems) => EarlyIn(elems, g)
       case _ => false
  }

  predicate EarlyIn(ns: Nodes, g: nat) {
    match ns
    case Last(car) => Early(car, g)
    case Link(car, cdr) => Early(car, g) || EarlyIn(cdr, g)
  }

  /** Such a group is not steady. */
  lemma {:induction false} EarlyUnsteady(n: Node, g: nat)
    requires Early(n, g)
    ensures !Steady(n, Some(g))
    decreases n
  {
    hide ShapeOf;
    match n
    case Quant(target, _, _, _, _, _, _, _) => if Early(target, g) { EarlyUnsteady(target, g); }
    case Group(_, _, _, target) => EarlyUnsteady(target, g);
    case Atomic(target, _) => EarlyUnsteady(target, g);
    case Look(_, target, _) => EarlyUnsteady(target, g);
    case List(elems) => EarlyUnsteadyIn(elems, g);
    case Alt(elems) =>
  }

  lemma {:induction false} EarlyUnsteadyIn(ns: Nodes, g: nat)
    requires EarlyIn(ns, g)
    ensures !SteadyAll(ns, Some(g))
    decreases ns
  {
    if Early(ns.car, g) { EarlyUnsteady(ns.car, g); } else { EarlyUnsteadyIn(ns.cdr, g); }
  }

  lemma {:induction false} AllMarked(n: Node)
    ensures Groups(n) <= Marked(n, true)
  {
    match n
    case Quant(target, _, _, _, _, _, _, _) => AllMarked(target);
    case Group(_, _, _, target) => AllMarked(target);
    case Atomic(target, _) => AllMarked(target);
    case Look(_, target, _) => AllMarked(target);
    case List(elems) => AllMarkedIn(elems);
    case Alt(elems) => AllMarkedIn(elems);
    case _ =>
  }

  lemma {:induction false} AllMarkedIn(ns: Nodes)
    ensures GroupsOf(ns) <= MarkedIn(ns, true)
    decreases ns
  {
    AllMarked(ns.car);
    if ns.Link? { AllMarkedIn(ns.cdr); }
  }

  predicate Sure(n: Node, g: nat) { Steady(n, Some(g)) || Early(n, g) }

  predicate SureAll(ns: Nodes, g: nat) { SteadyAll(ns, Some(g)) || EarlyIn(ns, g) }

  lemma Absent(n: Node, g: nat)
    requires g !in Groups(n)
    ensures Sure(n, g)
  {
  }

  lemma SameGroups(n: Node, e: Env, inRep: bool)
    requires Parsed(n, e)
    ensures Groups(Setup(n, e, inRep)) == Groups(n)
  {
    hide Setup, Parsed, Good, MinLen, MaxLen, CharLen, HasMem, NoMemInLook, Groups, Refs;
    SetupGood(n, e, inRep);
  }

  /** What is not pushed is steady in the prepared tree, or in a loop that may leave early. */
  lemma {:induction false} SetupSure(n: Node, e: Env, inRep: bool, g: nat)
    requires Parsed(n, e) && g !in Marked(n, false)
    ensures Sure(Setup(n, e, inRep), g)
    decreases n, 1
  {
    hide Sure;
    SameGroups(n, e, inRep);
    if g !in Groups(n) {
      Absent(Setup(n, e, inRep), g);
    } else {
      match n
      case Quant(target, lower, upper, _, _, _, _, _) =>
        if lower != upper { AllMarked(target); }
        SetupSure(target, e, true, g);
        SameGroups(target, e, true);
        QuantSure(n, e, inRep, g);
      case Group(_, _, _, target) =>
        SetupSure(target, e, inRep, g);
        SameGroups(target, e, inRep);
        GroupSure(n, Setup(target, e, inRep), e, g);
      case Atomic(target, _) =>
        SetupSure(target, e, inRep, g);
        SameGroups(target, e, inRep);
        AtomicSure(n, Setup(target, e, inRep), g);
      case Look(look, target, _) =>
        AllMarked(target);
        SetupSure(target, e, inRep, g);
        LookSure(n, e, inRep, g);
      case List(elems) => ListSure(elems, e, inRep, g); ListIsSure(SetupList(elems, e, inRep), g);
      case Alt(elems) => AllMarkedIn(elems);
    }
  }

  lemma QuantSure(q: Node, e: Env, inRep: bool, g: nat)
    requires q.Quant? && Parsed(q, e) && q.lower == q.upper && Sure(Setup(q.target, e, true), g)
    requires g in Groups(Setup(q.target, e, true))
    ensures Sure(Setup(q, e, inRep), g)
  {
    hide EmptyInfoOf, Length;
    var c, m := Setup(q.target, e, true), Setup(q, e, inRep);
    assert !c.Str?;
    assert m.Quant? && m.lower == m.upper == q.lower && m.greedy == q.greedy;
    TargetSure(c, m.target, g);
    assert ShapeOf(m).Expand? || (ShapeOf(m).Counter? && 0 < m.lower);
  }

  lemma TargetSure(c: Node, c1: Node, g: nat)
    requires Sure(c, g) && (c1 == c || (c.Quant? && c1 == c.(headExact := None)))
    ensures Sure(c1, g)
  {
    if c1 != c { assert ShapeOf(c1) == ShapeOf(c); }
  }

  lemma GroupSure(n: Node, m: Node, e: Env, g: nat)
    requires n.Group? && Sure(m, g) && Groups(m) == Groups(n.target) && n.num !in Groups(n.target)
    ensures Sure(Group(n.num, n.num in e.btStart, n.num in e.btEnd, m), g)
  {
  }

  lemma AtomicSure(n: Node, m: Node, g: nat)
    requires Sure(m, g)
    ensures Sure(Atomic(m, m.Quant? && Infinite(m.upper) && m.lower <= 1 && m.greedy && SimpleType(m.target)), g)
  {
  }

  lemma LookSure(n: Node, e: Env, inRep: bool, g: nat)
    requires n.Look? && Parsed(n, e) && Sure(Setup(n.target, e, inRep), g)
    requires n.look.Ahead? || (n.look.Behind? && CharLen(n.target).Some?)
    ensures Sure(Setup(n, e, inRep), g)
  {
    hide Parsed, CharLen;
  }

  lemma ListIsSure(ms: Nodes, g: nat)
    requires SureAll(ms, g)
    ensures Sure(List(ms), g)
  {
    if EarlyIn(ms, g) { EarlyHas(ms, g); }
  }

  lemma {:induction false} EarlyHas(ms: Nodes, g: nat)
    requires EarlyIn(ms, g)
    ensures g in GroupsOf(ms)
    decreases ms
  {
    if ms.Link? && !Early(ms.car, g) { EarlyHas(ms.cdr, g); }
  }

  lemma {:induction false} ListSure(ns: Nodes, e: Env, inRep: bool, g: nat)
    requires ParsedAll(ns, e) && g !in MarkedIn(ns, false)
    ensures SureAll(SetupList(ns, e, inRep), g)
    decreases ns, 1
  {
    hide Parsed, Setup, Steady, Early, NextSetup;
    SetupSure(ns.car, e, inRep, g);
    if ns.Link? {
      FirstParsed(ns.cdr, e);
      NextSame(Setup(ns.car, e, inRep), Setup(ns.cdr.car, e, inRep), g);
      ListSure(ns.cdr, e, inRep, g);
    }
  }

  ghost predicate Alike(m: Node, r: Node, g: nat) {
    Groups(r) == Groups(m) && Steady(r, Some(g)) == Steady(m, Some(g)) && Early(r, g) == Early(m, g)
  }

  /** next_setup changes nothing of this. */
  lemma {:induction false} NextSame(m: Node, next: Node, g: nat)
    ensures Alike(m, NextSetup(m, next), g)
    decreases m
  {
    hide PeekOf, Possessive;
    match m
    case Quant(_, _, _, _, _, _, _, _) => PeekSame(m, next, g);
    case Group(num, pushStart, pushEnd, target) => NextSame(target, next, g);
    case _ =>
  }

  lemma PeekSame(q: Node, next: Node, g: nat)
    requires q.Quant?
    ensures Alike(q, NextSetup(q, next), g)
  {
    hide PeekOf, Length, HeadValue;
    var q1 := q.(nextHead := PeekOf(next));
    assert ShapeOf(q1) == ShapeOf(q);
    assert Alike(q, q1, g);
    if SimpleType(q.target) { AtomicAlike(q, g); AtomicAlike(q1, g); }
  }

  lemma AtomicAlike(q: Node, g: nat)
    requires q.Quant? && SimpleType(q.target)
    ensures Alike(q, Atomic(q, true), g)
  {
    hide ShapeOf;
    assert Groups(q) == {};
  }

  // ---------------------------------------------------------------- the root

  lemma {:induction false} RootSure(n: Node, e: Env, g: nat)
    requires Parsed(n, e) && g !in Marked(n, false)
    ensures Sure(SetupRoot(n, e), g)
    decreases n
  {
    hide Sure, Setup;
    if n.List? {
      RootListSure(n.elems, e, g);
      ListIsSure(RootList(n.elems, e), g);
    } else {
      SetupSure(n, e, false, g);
    }
  }

  lemma {:induction false} RootListSure(ns: Nodes, e: Env, g: nat)
    requires ParsedAll(ns, e) && g !in MarkedIn(ns, false)
    ensures SureAll(RootList(ns, e), g)
    decreases ns
  {
    hide Parsed, Setup, SetupRoot, Steady, Early, NextSetup, Marked;
    RootSure(ns.car, e, g);
    if ns.Link? {
      FirstParsed(ns.cdr, e);
      NextSame(SetupRoot(ns.car, e), Setup(ns.cdr.car, e, false), g);
      AnchorSame(NextSetup(SetupRoot(ns.car, e), Setup(ns.cdr.car, e, false)), g);
      ListSure(ns.cdr, e, false, g);
    }
  }

  lemma AnchorSame(r: Node, g: nat)
    requires Sure(r, g)
    ensures Sure(if StarQuant(r) then List(Link(Anchor(AnyCharStar), Last(r))) else r, g)
  {
    hide ShapeOf;
    if StarQuant(r) {
      var ns := Link(Anchor(AnyCharStar), Last(r));
      assert GroupsOf(ns.cdr) == Groups(r) == Groups(r.target) == {} && Groups(ns.car) == {};
      assert Groups(List(ns)) == GroupsOf(ns) == {};
      Absent(List(ns), g);
    }
  }

  /** With setup_tree's choice, match_at is sure to report a group right if and only if it is pushed or no counted loop
      over a body that may be empty stands around it. */
  lemma ToldExact(n: Node, e: Env, g: nat)
    requires Parsed(n, e) && e.btStart == Marked(n, false) && e.btEnd == {}
    ensures Told(SetupRoot(n, e), e, g) <==> g in Marked(n, false) || !Early(SetupRoot(n, e), g)
  {
    hide Parsed, SetupRoot, Steady, Early, Marked;
    if g !in Marked(n, false) {
      RootSure(n, e, g);
      if Early(SetupRoot(n, e), g) { EarlyUnsteady(SetupRoot(n, e), g); }
    }
  }
}
