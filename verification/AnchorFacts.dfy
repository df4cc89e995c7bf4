/** The anchors optimize_node_left reports hold of every match: those on the left where it starts, those on the right
    where it ends. */
module AnchorFacts {
  import opened Common
  import opened Tree
  import opened Semantics
  import opened Matches
  import opened Lengths
  import opened LengthFacts
  import opened Optimizer
  import opened OptimizerFacts
  import opened Progress

  /** What the search anchors say of a part of a match that goes from s to end. */
  ghost predicate AnchorsOk(t: Subject, a: Anchors, s: int, end: int) {
    (BeginBufBit in a.left ==> s == 0) && (BeginPositionBit in a.left ==> s == t.gpos)
    && (EndBufBit in a.right ==> end == t.End())
    && (SemiEndBufBit in a.right ==> end == t.End() || (end + 1 == t.End() && t.IsNewline(end)))
  }

  lemma ConcatAnchored(t: Subject, to: Info, add: Info, s: int, mid: int, end: int)
    requires AnchorsOk(t, to.anc, s, mid) && AnchorsOk(t, add.anc, mid, end)
    requires In(to.len, mid - s) && In(add.len, end - mid)
    ensures AnchorsOk(t, ConcatLeft(to, add).anc, s, end)
  {
    hide SelectExact, SelectMap, ConcatExact, AddWindow;
  }

  lemma AltAnchored(t: Subject, a: Info, b: Info, s: int, end: int)
    requires AnchorsOk(t, a.anc, s, end) || AnchorsOk(t, b.anc, s, end)
    ensures AnchorsOk(t, AltMerge(a, b).anc, s, end)
  {
    hide AltExact, AltMap, JoinWindow;
  }

  /** The window of the lengths is right. */
  lemma LengthIn(n: Node, t: Subject, e: Env, refs: set<nat>, mmd: Window, m: nat, x: St, y: St)
    requires WellFormed(n, e) && NoAhead(n) && Ok(t, e, x) && NoneOpen(Groups(n), x) && CanMatch(n, t, x, y)
    requires In(mmd, x.s - m)
    ensures In(OptimizeLeft(n, e, refs, mmd).len, y.s - x.s)
  {
    hide OptimizeLeft, WellFormed, NoAhead, Groups, CanMatch, In, ExbOk, ExmOk, MapOk, Ok;
    Optimized(n, t, e, refs, mmd, m, x, y);
  }

  /** Every match starts and ends where its anchors say. */
  lemma {:induction false} Anchored(n: Node, t: Subject, e: Env, refs: set<nat>, mmd: Window, m: nat, x: St, y: St)
    requires WellFormed(n, e) && NoAhead(n) && Ok(t, e, x) && NoneOpen(Groups(n), x) && CanMatch(n, t, x, y)
    requires In(mmd, x.s - m)
    ensures AnchorsOk(t, OptimizeLeft(n, e, refs, mmd).anc, x.s, y.s)
    decreases n, 2
  {
    hide AnchorsOk, Ok;
    match n
    case Quant(_, _, _, _, _, _, _, _) => QuantAnchored(n, t, e, refs, mmd, m, x, y);
    case Group(_, _, _, _) => GroupAnchored(n, t, e, refs, mmd, m, x, y);
    case Atomic(target, simple) =>
      if simple {
        AtomicIsQuant(n, t, x, y);
        QuantAnchored(target, t, e, refs, mmd, m, x, y);
      } else {
        Anchored(target, t, e, refs, mmd, m, x, y);
      }
    case List(elems) =>
      FreshAnchored(t, mmd, x.s);
      ListAnchored(elems, t, e, refs, mmd, m, x.s, x, y, Fresh(mmd));
    case Alt(elems) => ChoiceAnchored(elems, t, e, refs, mmd, m, x, y);
    case _ => LeafAnchored(n, t, e, refs, mmd, x, y);
  }

  lemma FreshAnchored(t: Subject, mmd: Window, s: int)
    ensures AnchorsOk(t, Fresh(mmd).anc, s, s) && In(Fresh(mmd).len, 0)
  {
  }

  lemma LeafAnchored(n: Node, t: Subject, e: Env, refs: set<nat>, mmd: Window, x: St, y: St)
    requires WellFormed(n, e) && NoAhead(n) && CanMatch(n, t, x, y)
    requires !n.Quant? && !n.Group? && !n.Atomic? && !n.List? && !n.Alt?
    ensures AnchorsOk(t, OptimizeLeft(n, e, refs, mmd).anc, x.s, y.s)
  {
    hide WellFormed, AddChar, AddClass;
    if n.Anchor? {
      AnchorIs(n.kind, t, x, y);
    } else {
      LeafFree(n, e, refs, mmd);
    }
  }

  lemma LeafFree(n: Node, e: Env, refs: set<nat>, mmd: Window)
    requires WellFormed(n, e) && NoAhead(n)
    requires !n.Quant? && !n.Group? && !n.Atomic? && !n.List? && !n.Alt? && !n.Anchor?
    ensures var a := OptimizeLeft(n, e, refs, mmd).anc; a.left <= {LookBehindBit} && a.right == {}
  {
    hide WellFormed, AddChar, AddClass;
  }

  lemma AnchorIs(kind: AnchorKind, t: Subject, x: St, y: St)
    requires AnchorMeaning(kind, t, x) == [y]
    ensures AnchorsOk(t, AnchorInfo(kind), x.s, y.s)
  {
  }

  lemma {:induction false} GroupAnchored(n: Node, t: Subject, e: Env, refs: set<nat>, mmd: Window, m: nat, x: St, y: St)
    requires n.Group? && WellFormed(n, e) && NoAhead(n) && Ok(t, e, x) && NoneOpen(Groups(n), x) && CanMatch(n, t, x, y)
    requires In(mmd, x.s - m)
    ensures AnchorsOk(t, OptimizeLeft(n, e, refs, mmd).anc, x.s, y.s)
    decreases n, 1
  {
    var x1 := OpenGroup(n.num, n.pushStart, x);
    var z :| CanMatch(n.target, t, x1, z) && y == CloseGroup(n.num, z);
    OpenOk(n, t, e, x);
    assert NoneOpen(Groups(n.target), x1);
    hide Ok, CanMatch, WellFormed, NoAhead, Groups;
    Anchored(n.target, t, e, refs, mmd, m, x1, z);
  }

  lemma {:induction false} ListAnchored(ns: Nodes, t: Subject, e: Env, refs: set<nat>, mmd: Window, m: nat, s: int,
      x: St, y: St, opt: Info)
    requires WellFormedAll(ns, e) && NoAheadAll(ns) && Ok(t, e, x) && NoneOpen(GroupsOf(ns), x)
        && CanMatchList(ns, t, x, y)
    requires In(mmd, x.s - m) && 0 <= s && Sized(opt) && AnchorsOk(t, opt.anc, s, x.s) && In(opt.len, x.s - s)
    ensures AnchorsOk(t, OptimizeList(ns, e, refs, mmd, opt).anc, s, y.s)
    decreases ns, 2
  {
    hide AnchorsOk, OptimizeLeft, WellFormed, NoAhead, Groups, CanMatch, Ok, In, ConcatLeft;
    var nopt := OptimizeLeft(ns.car, e, refs, mmd);
    if ns.Last? {
      CarAnchored(ns.car, t, e, refs, mmd, m, s, x, y, opt);
    } else {
      var z :| CanMatch(ns.car, t, x, z) && CanMatchList(ns.cdr, t, z, y);
      CarAnchored(ns.car, t, e, refs, mmd, m, s, x, z, opt);
      StillClosed(Groups(ns.car), GroupsOf(ns.cdr), x, z);
      ListAnchored(ns.cdr, t, e, refs, AddWindow(mmd, nopt.len), m, s, z, y, ConcatLeft(opt, nopt));
    }
  }

  /** One more element of a list. */
  lemma {:induction false} CarAnchored(n: Node, t: Subject, e: Env, refs: set<nat>, mmd: Window, m: nat, s: int,
      x: St, z: St, opt: Info)
    requires WellFormed(n, e) && NoAhead(n) && Ok(t, e, x) && NoneOpen(Groups(n), x) && CanMatch(n, t, x, z)
    requires In(mmd, x.s - m) && 0 <= s && Sized(opt) && AnchorsOk(t, opt.anc, s, x.s) && In(opt.len, x.s - s)
    ensures var nopt := OptimizeLeft(n, e, refs, mmd);
      AnchorsOk(t, ConcatLeft(opt, nopt).anc, s, z.s) && In(AddWindow(mmd, nopt.len), z.s - m)
      && In(ConcatLeft(opt, nopt).len, z.s - s)
    ensures Ok(t, e, z) && Extends(Groups(n), x, z)
    decreases n, 3
  {
    hide *;
    var nopt := OptimizeLeft(n, e, refs, mmd);
    Anchored(n, t, e, refs, mmd, m, x, z);
    LengthIn(n, t, e, refs, mmd, m, x, z);
    MatchFacts(n, t, e, x, z);
    InText(t, e, z);
    ConcatAnchored(t, opt, nopt, s, x.s, z.s);
    AddedIn(mmd, nopt.len, x.s - m, z.s - x.s);
    AddedIn(opt.len, nopt.len, x.s - s, z.s - x.s);
    LengthAdded(opt, nopt);
  }

  lemma InText(t: Subject, e: Env, x: St)
    requires Ok(t, e, x)
    ensures x.s <= t.End() < TWO_63
  {
  }

  lemma LengthAdded(to: Info, add: Info)
    ensures ConcatLeft(to, add).len == AddWindow(to.len, add.len)
  {
    hide SelectExact, SelectMap, ConcatExact, AddWindow;
  }

  lemma AddedIn(a: Window, b: Window, d1: int, d2: int)
    requires In(a, d1) && In(b, d2) && d1 + d2 < TWO_63
    ensures In(AddWindow(a, b), d1 + d2)
  {
    AddedWindow(a, b, d1, d2);
  }

  lemma {:induction false} ChoiceAnchored(ns: Nodes, t: Subject, e: Env, refs: set<nat>, mmd: Window, m: nat, x: St,
      y: St)
    requires WellFormedAll(ns, e) && NoAheadAll(ns) && Ok(t, e, x) && NoneOpen(GroupsOf(ns), x)
        && CanMatchAlt(ns, t, x, y)
    requires In(mmd, x.s - m)
    ensures AnchorsOk(t, OptimizeAlt(ns, e, refs, mmd).anc, x.s, y.s)
    decreases ns, 2
  {
    hide AnchorsOk, OptimizeLeft, WellFormed, NoAhead, AltMerge, CanMatch;
    if CanMatch(ns.car, t, x, y) { Anchored(ns.car, t, e, refs, mmd, m, x, y); }
    if ns.Link? { RestAnchored(ns.cdr, t, e, refs, mmd, m, x, y, OptimizeLeft(ns.car, e, refs, mmd)); }
  }

  lemma {:induction false} RestAnchored(ns: Nodes, t: Subject, e: Env, refs: set<nat>, mmd: Window, m: nat, x: St,
      y: St, opt: Info)
    requires WellFormedAll(ns, e) && NoAheadAll(ns) && Ok(t, e, x) && NoneOpen(GroupsOf(ns), x) && Sized(opt)
    requires AnchorsOk(t, opt.anc, x.s, y.s) || CanMatchAlt(ns, t, x, y)
    requires In(mmd, x.s - m)
    ensures AnchorsOk(t, OptimizeAltRest(ns, e, refs, mmd, opt).anc, x.s, y.s)
    decreases ns, 2
  {
    hide AnchorsOk, OptimizeLeft, WellFormed, NoAhead, AltMerge, CanMatch;
    var nopt := OptimizeLeft(ns.car, e, refs, mmd);
    if CanMatch(ns.car, t, x, y) { Anchored(ns.car, t, e, refs, mmd, m, x, y); }
    if AnchorsOk(t, opt.anc, x.s, y.s) || CanMatch(ns.car, t, x, y) { AltAnchored(t, opt, nopt, x.s, y.s); }
    if ns.Link? { RestAnchored(ns.cdr, t, e, refs, mmd, m, x, y, AltMerge(opt, nopt)); }
  }

  // ---------------------------------------------------------------- repetition

  lemma {:induction false} LastTurn(n: Node, t: Subject, k: nat, x: St, y: St) returns (w: St)
    requires 1 <= k && Chain(n, t, k, x, y)
    ensures Chain(n, t, k - 1, x, w) && CanMatch(n, t, w, y)
    decreases k
  {
    hide CanMatch;
    var z :| CanMatch(n, t, x, z) && Chain(n, t, k - 1, z, y);
    if k == 1 {
      w := x;
    } else {
      w := LastTurn(n, t, k - 1, z, y);
    }
  }

  /** The first turn starts where the repetition starts, and the last one ends where it ends. */
  lemma {:induction false} QuantAnchored(q: Node, t: Subject, e: Env, refs: set<nat>, mmd: Window, m: nat, x: St, y: St)
    requires q.Quant? && WellFormed(q, e) && NoAhead(q) && Ok(t, e, x) && NoneOpen(Groups(q), x) && CanMatch(q, t, x, y)
    requires In(mmd, x.s - m)
    ensures AnchorsOk(t, OptimizeLeft(q, e, refs, mmd).anc, x.s, y.s)
    decreases q, 1
  {
    var n := q.target;
    if !Infinite(q.upper) && q.lower > 0 {
      var k: nat, z: St :|
        Chain(n, t, k, x, z) && y == z.(prev := y.prev)
        && (q.lower <= k || (!q.emptyInfo.NotEmpty? && EndsIdle(n, t, k, x, z)));
      assert 1 <= k && WellFormed(n, e) && NoAhead(n) && NoneOpen(Groups(n), x);
      var nopt := OptimizeLeft(n, e, refs, mmd);
      RepeatedIs(q, e, refs, mmd);
      hide WellFormed, NoAhead, OptimizeLeft, Groups, CanMatch, Ok;
      FirstAnchored(n, t, e, refs, mmd, m, k, x, z);
    }
  }

  lemma RepeatedIs(q: Node, e: Env, refs: set<nat>, mmd: Window)
    requires q.Quant? && WellFormed(q, e) && NoAhead(q) && !Infinite(q.upper) && q.lower > 0
    ensures WellFormed(q.target, e) && NoAhead(q.target)
    ensures OptimizeLeft(q, e, refs, mmd).anc == OptimizeLeft(q.target, e, refs, mmd).anc
  {
    hide RepeatExact;
  }

  lemma {:induction false} FirstAnchored(n: Node, t: Subject, e: Env, refs: set<nat>, mmd: Window, m: nat, k: nat,
      x: St, y: St)
    requires WellFormed(n, e) && NoAhead(n) && Ok(t, e, x) && NoneOpen(Groups(n), x) && In(mmd, x.s - m)
    requires 1 <= k && Chain(n, t, k, x, y)
    ensures AnchorsOk(t, OptimizeLeft(n, e, refs, mmd).anc, x.s, y.s)
    decreases n, 3
  {
    hide OptimizeLeft, WellFormed, NoAhead, Groups, CanMatch, Ok;
    var z :| CanMatch(n, t, x, z) && Chain(n, t, k - 1, z, y);
    var w := LastTurn(n, t, k, x, y);
    ChainFacts(n, t, e, k - 1, x, w);
    Anchored(n, t, e, refs, mmd, m, x, z);
    Anchored(n, t, e, refs, mmd, m + (w.s - x.s), w, y);
  }
}
