/** The position of the previous character that match_at remembers (regexec.c:1306-2944): it is the one before the
    current position, except behind a `.*` that ran to the end of the text and behind an empty back-reference.  Line
    anchors look at it. */
module Remembered {
  import opened Common
  import opened Tree
  import opened Semantics
  import opened Lengths
  import opened Order
  import opened SetupTree
  import opened Preference
  import opened Visits
  import opened Language

  /** The remembered position is the one before the current one. */
  predicate Tight(x: St) { x.prev == x.s - 1 }

  /** The tree can look at the remembered position before it has consumed anything. */
  predicate LineFirst(n: Node) {
    match n
    case Quant(target, _, _, _, _, _, _, _) => LineFirst(target)
    case Group(_, _, _, target) => LineFirst(target)
    case Look(look, target, _) => (look.Ahead? || look.AheadNot?) && LineFirst(target)
    case Anchor(kind) => kind.BeginLine? || kind.AnyCharStar?
    case List(elems) => LineFirstIn(elems)
    case Alt(elems) => LineFirstSome(elems)
    case _ => false
  }

  predicate LineFirstIn(ns: Nodes) {
    match ns
    case Last(car) => LineFirst(car)
    case Link(car, cdr) => LineFirst(car) || (!Solid(car) && LineFirstIn(cdr))
  }

  predicate LineFirstSome(ns: Nodes) {
    match ns
    case Last(car) => LineFirst(car)
    case Link(car, cdr) => LineFirst(car) || LineFirstSome(cdr)
  }

  /** Nothing in the tree leaves another position remembered. */
  predicate Keeping(n: Node) {
    match n
    case Quant(target, _, _, _, _, _, _, _) => !DotStar(n) && Keeping(target)
    case Group(_, _, _, target) => Keeping(target)
    case Look(_, target, _) => Keeping(target)
    case List(elems) => KeepingAll(elems)
    case Alt(elems) => KeepingAll(elems)
    case _ => !n.Backref? && !n.Atomic?
  }

  predicate KeepingAll(ns: Nodes) {
    match ns
    case Last(car) => Keeping(car)
    case Link(car, cdr) => Keeping(car) && KeepingAll(cdr)
  }

  /** The state suits a tree that looks at the remembered position. */
  predicate Poised(n: Node, x: St) { LineFirst(n) ==> Tight(x) }

  /** The remembered position is moved along, or nothing moved. */
  ghost predicate Along(x: St, y: St) { Tight(y) || (y.s == x.s && y.prev == x.prev) }

  ghost function Alongside(): Move { (x: St, y: St) => Along(x, y) }

  lemma AlongLasts()
    ensures Lasts(Alongside())
  {
  }

  lemma {:induction false} WayAlong(n: Node, e: Env, t: Subject, x: St, y: St)
    requires Parsed(n, e) && Keeping(n) && y in Pref(n, e, t, x)
    ensures Along(x, y)
    decreases n, 1
  {
    match n
    case Str(s) => assert y == Advance(x, |s|);
    case Quant(target, _, _, _, _, _, _, _) =>
      BodyAlong(target, e, t);
      AlongLasts();
      var q := Remaining(n);
      OrderedKeeps(q.(emptyInfo := EmptyInfoOf(q, e)), (z: St) => Pref(target, e, t, z), t, PolicyIn(q, e),
        (_: St) => true, Alongside(), x, y);
    case Group(num, _, _, target) =>
      var x1 := OpenGroup(num, num in e.btStart, x);
      var z := InCloseAll(num, Pref(target, e, t, x1), y);
      WayAlong(target, e, t, x1, z);
    case Look(look, target, _) =>
      if look.Behind? { BehindAlong(target, e, t, x, y); }
    case List(elems) => ListAlong(elems, e, t, x, y);
    case Alt(elems) => AltAlong(elems, e, t, x, y);
    case _ =>
  }

  lemma {:induction false} BodyAlong(n: Node, e: Env, t: Subject)
    requires Parsed(n, e) && Keeping(n)
    ensures Carries((z: St) => Pref(n, e, t, z), (_: St) => true, Alongside())
    decreases n, 2
  {
    hide Pref, Parsed, Keeping, Along;
    forall x: St, y: St | y in Pref(n, e, t, x) ensures Along(x, y) { WayAlong(n, e, t, x, y); }
  }

  lemma {:induction false} BehindAlong(n: Node, e: Env, t: Subject, x: St, y: St)
    requires Parsed(n, e) && Keeping(n) && y in PrefBehind(n, e, t, x)
    ensures Along(x, y)
    decreases n, 3
  {
    if CharLen(n).Some? {
      WayAlong(n, e, t, StepBack(x, CharLen(n).value), y);
    } else {
      BehindAltAlong(n.elems, e, t, x, y);
    }
  }

  lemma {:induction false} BehindAltAlong(ns: Nodes, e: Env, t: Subject, x: St, y: St)
    requires ParsedAll(ns, e) && KeepingAll(ns) && y in PrefBehindAlt(ns, e, t, x)
    ensures Along(x, y)
    decreases ns, 4
  {
    hide Pref, Keeping, Parsed, Along, CharLen, PrefBehind;
    if ns.Last? || y in PrefBehind(ns.car, e, t, x) {
      BehindAlong(ns.car, e, t, x, y);
    } else {
      BehindAltAlong(ns.cdr, e, t, x, y);
    }
  }

  lemma {:induction false} ListAlong(ns: Nodes, e: Env, t: Subject, x: St, y: St)
    requires ParsedAll(ns, e) && KeepingAll(ns) && y in PrefList(ns, e, t, x)
    ensures Along(x, y)
    decreases ns, 4
  {
    hide Pref, Keeping, Parsed;
    if ns.Last? {
      WayAlong(ns.car, e, t, x, y);
    } else {
      var z := InFlat(Pref(ns.car, e, t, x), (z: St) => PrefList(ns.cdr, e, t, z), y);
      WayAlong(ns.car, e, t, x, z);
      ListAlong(ns.cdr, e, t, z, y);
    }
  }

  lemma {:induction false} AltAlong(ns: Nodes, e: Env, t: Subject, x: St, y: St)
    requires ParsedAll(ns, e) && KeepingAll(ns) && y in PrefAlt(ns, e, t, x)
    ensures Along(x, y)
    decreases ns, 4
  {
    hide Pref, Keeping, Parsed, Along;
    if ns.Last? || y in Pref(ns.car, e, t, x) {
      WayAlong(ns.car, e, t, x, y);
    } else {
      AltAlong(ns.cdr, e, t, x, y);
    }
  }

  // ---------------------------------------------------------------- loops

  /** The state with the right position remembered, if the tree looks at it first. */
  function Enter(n: Node, x: St): St { if LineFirst(n) then x.(prev := x.s - 1) else x }

  lemma EnterSame(n: Node, q: Node, x: St)
    requires q.Quant?
    ensures var z := Enter(n, x);
      Poised(n, z) && z.s == x.s && z.caps == x.caps && z.log == x.log && (Poised(n, x) ==> z == x)
      && forall y: St :: TurnOf(q, z, y) == TurnOf(q, x, y)
  {
    hide LineFirst;
  }

  /** The body of a loop, entered with the right position remembered if it looks at it first. */
  function BodyOf(n: Node, e: Env, t: Subject): Body
    requires Parsed(n, e)
  {
    (y: St) => Pref(n, e, t, Enter(n, y))
  }

  lemma EnteredBody(n: Node, e: Env, t: Subject, x: St)
    requires Parsed(n, e)
    ensures var z := Enter(n, x);
      BodyOf(n, e, t)(x) == Pref(n, e, t, z) && Poised(n, z) && z.s == x.s && z.caps == x.caps && z.log == x.log
  {
    hide Pref, LineFirst, Parsed;
  }

  /** A loop that looks at the remembered position first only meets the right one. */
  lemma PoisedLoop(n: Node, e: Env, t: Subject, x: St)
    requires n.Quant? && Parsed(n, e) && Parsed(n.target, e) && Poised(n.target, x)
    requires Keeping(n.target) || !LineFirst(n.target)
    ensures var q := Remaining(n);
      Pref(n, e, t, x)
      == Ordered(q.(emptyInfo := EmptyInfoOf(q, e)), BodyOf(n.target, e, t), t, PolicyIn(q, e), x)
  {
    var b, q := n.target, Remaining(n);
    var f: Body := (y: St) => Pref(b, e, t, y);
    assert Pref(n, e, t, x) == Ordered(q.(emptyInfo := EmptyInfoOf(q, e)), f, t, PolicyIn(q, e), x);
    BodiesSame(b, e, t);
    var r := q.(emptyInfo := EmptyInfoOf(q, e));
    assert Poised(b, x) == Standing(b)(x) && SameLoop(r, r);
    hide *;
    OrderedSame(r, r, f, BodyOf(b, e, t), t, Standing(b), PolicyIn(q, e), x);
  }

  ghost function Standing(n: Node): St -> bool { (y: St) => Poised(n, y) }

  lemma BodiesSame(n: Node, e: Env, t: Subject)
    requires Parsed(n, e) && (Keeping(n) || !LineFirst(n))
    ensures Agree((y: St) => Pref(n, e, t, y), BodyOf(n, e, t), Standing(n))
  {
    hide Pref, LineFirst, Parsed, Keeping;
    forall y: St | Poised(n, y) ensures Enter(n, y) == y {}
    forall y: St | Standing(n)(y)
      ensures Pref(n, e, t, y) == BodyOf(n, e, t)(y) && forall z :: z in Pref(n, e, t, y) ==> Standing(n)(z)
    {
      forall z | z in Pref(n, e, t, y) ensures Standing(n)(z) {
        if LineFirst(n) { WayAlong(n, e, t, y, z); }
      }
    }
  }
}
