/** What a match does not depend on: the remembered previous position matters only in being a newline or not, the start
    to report and the captures nobody refers to not at all, and the \G position only to the anchors that test it. */
module Alike {
  import opened Common
  import opened Tree
  import opened Semantics
  import Codegen

  /** Exact: the same state.  Otherwise the same up to `prev`, `keep` and the captures of `ign`. */
  datatype Mode = Exact | Loose(ign: set<nat>)

  /** The two texts differ at most in \G. */
  predicate SameText(t: Subject, u: Subject) { u == t.(gpos := u.gpos) }

  ghost predicate Sim(m: Mode, t: Subject, x: St, y: St) {
    match m
    case Exact => x == y
    case Loose(ign) =>
      x.s == y.s && x.log == y.log && t.IsNewline(x.prev) == t.IsNewline(y.prev)
      && forall g :: g !in ign ==> Get(x.caps, g) == Get(y.caps, g)
  }

  ghost predicate SimAll(m: Mode, t: Subject, xs: seq<St>, ys: seq<St>) {
    |xs| == |ys| && forall i :: 0 <= i < |xs| ==> Sim(m, t, xs[i], ys[i])
  }

  /** No anchor of n tests \G. */
  predicate NoGpos(n: Node) {
    match n
    case Anchor(kind) => !kind.BeginPosition? && !kind.AnyCharStar?
    case Quant(target, _, _, _, _, _, _, _) => NoGpos(target)
    case Group(_, _, _, target) => NoGpos(target)
    case Atomic(target, _) => NoGpos(target)
    case Look(_, target, _) => NoGpos(target)
    case List(elems) => NoGposAll(elems)
    case Alt(elems) => NoGposAll(elems)
    case _ => true
  }

  predicate NoGposAll(ns: Nodes) {
    match ns
    case Last(car) => NoGpos(car)
    case Link(car, cdr) => NoGpos(car) && NoGposAll(cdr)
  }

  /** n does not tell the two texts and the states apart. */
  ghost predicate Blind(m: Mode, n: Node, t: Subject, u: Subject) {
    SameText(t, u) && (t.gpos == u.gpos || NoGpos(n)) && (m.Loose? ==> m.ign !! (Groups(n) + Refs(n)))
  }

  ghost predicate BlindAll(m: Mode, ns: Nodes, t: Subject, u: Subject) {
    SameText(t, u) && (t.gpos == u.gpos || NoGposAll(ns)) && (m.Loose? ==> m.ign !! (GroupsOf(ns) + RefsOf(ns)))
  }

  lemma SimJoin(m: Mode, t: Subject, xs: seq<St>, ys: seq<St>, xs1: seq<St>, ys1: seq<St>)
    requires SimAll(m, t, xs, ys) && SimAll(m, t, xs1, ys1)
    ensures SimAll(m, t, xs + xs1, ys + ys1)
  {
    hide Sim;
  }

  lemma SimTail(m: Mode, t: Subject, xs: seq<St>, ys: seq<St>)
    requires SimAll(m, t, xs, ys) && xs != []
    ensures Sim(m, t, xs[0], ys[0]) && SimAll(m, t, xs[1..], ys[1..])
  {
    hide Sim;
  }

  lemma SimOne(m: Mode, t: Subject, x: St, y: St)
    requires Sim(m, t, x, y)
    ensures SimAll(m, t, [x], [y]) && x.s == y.s && x.log == y.log
  {
  }

  lemma SimAdvance(m: Mode, t: Subject, x: St, y: St, n: nat)
    requires Sim(m, t, x, y)
    ensures Sim(m, t, Advance(x, n), Advance(y, n))
  {
  }

  lemma SimPrev(m: Mode, t: Subject, x: St, y: St, p: int)
    requires Sim(m, t, x, y)
    ensures Sim(m, t, x.(prev := p), y.(prev := p))
  {
  }

  lemma SimOpen(m: Mode, t: Subject, x: St, y: St, num: nat, push: bool)
    requires Sim(m, t, x, y) && (m.Loose? ==> num !in m.ign)
    ensures Sim(m, t, OpenGroup(num, push, x), OpenGroup(num, push, y))
  {
  }

  lemma {:induction false} SimCloseAll(m: Mode, t: Subject, xs: seq<St>, ys: seq<St>, num: nat)
    requires SimAll(m, t, xs, ys) && (m.Loose? ==> num !in m.ign)
    ensures SimAll(m, t, CloseAll(num, xs), CloseAll(num, ys))
    decreases |xs|
  {
    if xs != [] {
      SimTail(m, t, xs, ys);
      SimCloseAll(m, t, xs[1..], ys[1..], num);
      SimOne(m, t, CloseGroup(num, xs[0]), CloseGroup(num, ys[0]));
      SimJoin(m, t, [CloseGroup(num, xs[0])], [CloseGroup(num, ys[0])], CloseAll(num, xs[1..]), CloseAll(num, ys[1..]));
    }
  }

  /** Loops measure and test the same things. */
  lemma SimTurn(m: Mode, q: Node, t: Subject, u: Subject, x: St, y: St, x1: St, y1: St)
    requires q.Quant? && Blind(m, q.target, t, u) && Sim(m, t, x, y) && Sim(m, t, x1, y1)
    ensures TurnOf(q, x, x1) == TurnOf(q, y, y1) && Progress(q, t, x, x1) == Progress(q, u, y, y1)
    ensures Left(t, x) == Left(u, y) && Dirty(Groups(q.target), x) == Dirty(Groups(q.target), y)
  {
    SimDirty(m, Groups(q.target), t, x, y);
    SimDirty(m, Groups(q.target), t, x1, y1);
  }

  lemma SimDirty(m: Mode, gs: set<nat>, t: Subject, x: St, y: St)
    requires Sim(m, t, x, y) && (m.Loose? ==> m.ign !! gs)
    ensures Dirty(gs, x) == Dirty(gs, y) && x.s == y.s
  {
  }

  // ---------------------------------------------------------------- leaves

  lemma AnchorSim(m: Mode, kind: AnchorKind, t: Subject, u: Subject, x: St, y: St)
    requires Blind(m, Anchor(kind), t, u) && Sim(m, t, x, y)
    ensures SimAll(m, t, AnchorMeaning(kind, t, x), AnchorMeaning(kind, u, y))
  {
  }

  lemma BackrefSim(m: Mode, num: nat, t: Subject, u: Subject, x: St, y: St)
    requires SameText(t, u) && (m.Loose? ==> num !in m.ign) && Sim(m, t, x, y)
    ensures SimAll(m, t, BackrefMeaning(t, num, x), BackrefMeaning(u, num, y))
  {
  }

  lemma {:induction false} StarSim(m: Mode, t: Subject, u: Subject, ml: bool, peek: Option<byte>, x: St, y: St,
      begin: nat)
    requires SameText(t, u) && Sim(m, t, x, y)
    ensures SimAll(m, t, StarMeaning(t, ml, peek, x, begin), StarMeaning(u, ml, peek, y, begin))
    decreases Left(t, x)
  {
    hide Sim, Advance;
    SimOne(m, t, x, y);
    if x.s < t.End() {
      if ml || !t.IsNewline(x.s) {
        SimAdvance(m, t, x, y, 1);
        Forward(x);
        Forward(y);
        StarSim(m, t, u, ml, peek, Advance(x, 1), Advance(y, 1), begin);
        var a, b := StarMeaning(t, ml, peek, Advance(x, 1), begin), StarMeaning(u, ml, peek, Advance(y, 1), begin);
        SimJoin(m, t, a, b, [x], [y]);
        SimJoin(m, t, a, b, [], []);
      }
    } else {
      SimPrev(m, t, x, y, begin);
      SimOne(m, t, x.(prev := begin), y.(prev := begin));
    }
  }

  lemma Forward(x: St)
    ensures Advance(x, 1).s == x.s + 1
  {
  }

  // ---------------------------------------------------------------- every tree

  /** Alike states have alike ways, in the same order. */
  lemma {:induction false} MeaningSim(m: Mode, n: Node, t: Subject, u: Subject, x: St, y: St)
    requires Blind(m, n, t, u) && Sim(m, t, x, y)
    ensures SimAll(m, t, Meaning(n, t, x), Meaning(n, u, y))
    decreases n, 5
  {
    match n
    case Str(s) => SimAdvance(m, t, x, y, |s|);
    case CClass(_, _) => SimAdvance(m, t, x, y, 1);
    case Any(_) => SimAdvance(m, t, x, y, 1);
    case Backref(num) => BackrefSim(m, num, t, u, x, y);
    case Anchor(kind) => AnchorSim(m, kind, t, u, x, y);
    case Quant(_, _, _, _, _, _, _, _) => QuantSim(m, n, t, u, x, y);
    case Group(num, pushStart, _, target) =>
      var x1, y1 := OpenGroup(num, pushStart, x), OpenGroup(num, pushStart, y);
      SimOpen(m, t, x, y, num, pushStart);
      MeaningSim(m, target, t, u, x1, y1);
      SimCloseAll(m, t, Meaning(target, t, x1), Meaning(target, u, y1), num);
    case Atomic(_, _) => AtomicCaseSim(m, n, t, u, x, y);
    case Look(_, _, _) => LookSim(m, n, t, u, x, y);
    case List(elems) => ListSim(m, elems, t, u, x, y);
    case Alt(elems) => AltSim(m, elems, t, u, x, y);
  }

  lemma {:induction false} AtomicCaseSim(m: Mode, n: Node, t: Subject, u: Subject, x: St, y: St)
    requires n.Atomic? && Blind(m, n, t, u) && Sim(m, t, x, y)
    ensures SimAll(m, t, Meaning(n, t, x), Meaning(n, u, y))
    decreases n, 4
  {
    var q := n.target;
    assert Blind(m, q, t, u);
    if n.simple && q.Quant? {
      assert Blind(m, q.target, t, u);
      hide Blind, SimAll, Sim;
      SimOne(m, t, x, y);
      TimesSim(m, q.target, t, u, q.lower, [x], [y]);
      AtomicAllSim(m, q.target, t, u, TimesMeaning(q.target, t, q.lower, [x]), TimesMeaning(q.target, u, q.lower, [y]));
    } else {
      MeaningSim(m, q, t, u, x, y);
    }
  }

  lemma {:induction false} LookSim(m: Mode, n: Node, t: Subject, u: Subject, x: St, y: St)
    requires n.Look? && Blind(m, n, t, u) && Sim(m, t, x, y)
    ensures SimAll(m, t, Meaning(n, t, x), Meaning(n, u, y))
    decreases n, 4
  {
    assert Blind(m, n.target, t, u);
    SimOne(m, t, x, y);
    match n.look
    case Ahead =>
      MeaningSim(m, n.target, t, u, x, y);
      SimReturned(m, t, x, y, Meaning(n.target, t, x), Meaning(n.target, u, y));
    case AheadNot => MeaningSim(m, n.target, t, u, x, y);
    case Behind =>
      if n.charLen <= x.s {
        SimBack(m, t, x, y, n.charLen);
        MeaningSim(m, n.target, t, u, StepBack(x, n.charLen), StepBack(y, n.charLen));
      }
    case BehindNot =>
      if n.charLen <= x.s {
        SimBack(m, t, x, y, n.charLen);
        MeaningSim(m, n.target, t, u, StepBack(x, n.charLen), StepBack(y, n.charLen));
      }
  }

  lemma SimBack(m: Mode, t: Subject, x: St, y: St, n: nat)
    requires Sim(m, t, x, y) && n <= x.s
    ensures y.s == x.s && Sim(m, t, StepBack(x, n), StepBack(y, n))
  {
  }

  lemma SimReturned(m: Mode, t: Subject, x: St, y: St, xs: seq<St>, ys: seq<St>)
    requires Sim(m, t, x, y) && SimAll(m, t, xs, ys)
    ensures SimAll(m, t, Returned(x, xs), Returned(y, ys))
  {
    if xs != [] { SimTail(m, t, xs, ys); }
  }

  lemma {:induction false} ListSim(m: Mode, ns: Nodes, t: Subject, u: Subject, x: St, y: St)
    requires BlindAll(m, ns, t, u) && Sim(m, t, x, y)
    ensures SimAll(m, t, ListMeaning(ns, t, x), ListMeaning(ns, u, y))
    decreases ns, 5
  {
    hide Sim, Meaning, SimAll;
    MeaningSim(m, ns.car, t, u, x, y);
    if ns.Link? { ListAllSim(m, ns.cdr, t, u, Meaning(ns.car, t, x), Meaning(ns.car, u, y)); }
  }

  lemma {:induction false} ListAllSim(m: Mode, ns: Nodes, t: Subject, u: Subject, xs: seq<St>, ys: seq<St>)
    requires BlindAll(m, ns, t, u) && SimAll(m, t, xs, ys)
    ensures SimAll(m, t, ListMeaningAll(ns, t, xs), ListMeaningAll(ns, u, ys))
    decreases ns, 6, |xs|
  {
    hide Sim, ListMeaning;
    if xs != [] {
      SimTail(m, t, xs, ys);
      ListSim(m, ns, t, u, xs[0], ys[0]);
      ListAllSim(m, ns, t, u, xs[1..], ys[1..]);
      SimJoin(m, t, ListMeaning(ns, t, xs[0]), ListMeaning(ns, u, ys[0]), ListMeaningAll(ns, t, xs[1..]),
          ListMeaningAll(ns, u, ys[1..]));
    }
  }

  lemma {:induction false} AltSim(m: Mode, ns: Nodes, t: Subject, u: Subject, x: St, y: St)
    requires BlindAll(m, ns, t, u) && Sim(m, t, x, y)
    ensures SimAll(m, t, AltMeaning(ns, t, x), AltMeaning(ns, u, y))
    decreases ns, 5
  {
    hide Sim, Meaning, SimAll;
    MeaningSim(m, ns.car, t, u, x, y);
    if ns.Link? {
      AltSim(m, ns.cdr, t, u, x, y);
      SimJoin(m, t, Meaning(ns.car, t, x), Meaning(ns.car, u, y), AltMeaning(ns.cdr, t, x), AltMeaning(ns.cdr, u, y));
    }
  }

  lemma {:induction false} AllSim(m: Mode, n: Node, t: Subject, u: Subject, xs: seq<St>, ys: seq<St>)
    requires Blind(m, n, t, u) && SimAll(m, t, xs, ys)
    ensures SimAll(m, t, MeaningAll(n, t, xs), MeaningAll(n, u, ys))
    decreases n, 6, |xs|
  {
    hide Sim, Meaning;
    if xs != [] {
      SimTail(m, t, xs, ys);
      MeaningSim(m, n, t, u, xs[0], ys[0]);
      AllSim(m, n, t, u, xs[1..], ys[1..]);
      SimJoin(m, t, Meaning(n, t, xs[0]), Meaning(n, u, ys[0]), MeaningAll(n, t, xs[1..]), MeaningAll(n, u, ys[1..]));
    }
  }

  lemma {:induction false} TimesSim(m: Mode, n: Node, t: Subject, u: Subject, k: nat, xs: seq<St>, ys: seq<St>)
    requires Blind(m, n, t, u) && SimAll(m, t, xs, ys)
    ensures SimAll(m, t, TimesMeaning(n, t, k, xs), TimesMeaning(n, u, k, ys))
    decreases n, 7, k
  {
    hide Sim, SimAll, MeaningAll;
    if k > 0 {
      AllSim(m, n, t, u, xs, ys);
      TimesSim(m, n, t, u, k - 1, MeaningAll(n, t, xs), MeaningAll(n, u, ys));
    }
  }

  lemma {:induction false} AtomicSim(m: Mode, n: Node, t: Subject, u: Subject, x: St, y: St)
    requires Blind(m, n, t, u) && Sim(m, t, x, y)
    ensures Sim(m, t, AtomicLoop(n, t, x), AtomicLoop(n, u, y))
    decreases n, 7, Left(t, x)
  {
    hide Sim, Meaning;
    MeaningSim(m, n, t, u, x, y);
    SimOne(m, t, x, y);
    var xs, ys := Meaning(n, t, x), Meaning(n, u, y);
    if xs != [] {
      SimTail(m, t, xs, ys);
      SimOne(m, t, xs[0], ys[0]);
      if Left(t, xs[0]) < Left(t, x) { AtomicSim(m, n, t, u, xs[0], ys[0]); }
    }
  }

  lemma {:induction false} AtomicAllSim(m: Mode, n: Node, t: Subject, u: Subject, xs: seq<St>, ys: seq<St>)
    requires Blind(m, n, t, u) && SimAll(m, t, xs, ys)
    ensures SimAll(m, t, AtomicLoopAll(n, t, xs), AtomicLoopAll(n, u, ys))
    decreases n, 8, |xs|
  {
    hide Sim, AtomicLoop;
    if xs != [] {
      SimTail(m, t, xs, ys);
      AtomicSim(m, n, t, u, xs[0], ys[0]);
      AtomicAllSim(m, n, t, u, xs[1..], ys[1..]);
      SimOne(m, t, AtomicLoop(n, t, xs[0]), AtomicLoop(n, u, ys[0]));
      SimJoin(m, t, [AtomicLoop(n, t, xs[0])], [AtomicLoop(n, u, ys[0])], AtomicLoopAll(n, t, xs[1..]),
          AtomicLoopAll(n, u, ys[1..]));
    }
  }

  // ---------------------------------------------------------------- quantifiers

  lemma {:induction false} QuantSim(m: Mode, q: Node, t: Subject, u: Subject, x: St, y: St)
    requires q.Quant? && Blind(m, q, t, u) && Sim(m, t, x, y)
    ensures SimAll(m, t, QuantMeaning(q, t, x), QuantMeaning(q, u, y))
    decreases q, 4
  {
    var n := q.target;
    assert Blind(m, n, t, u);
    hide Sim, Codegen.Length, Blind, SimAll;
    SimOne(m, t, x, y);
    var xs, ys := TimesMeaning(n, t, q.lower, [x]), TimesMeaning(n, u, q.lower, [y]);
    TimesSim(m, n, t, u, q.lower, [x], [y]);
    MeaningSim(m, n, t, u, x, y);
    match Codegen.ShapeOf(q)
    case AnyStar => StarAllSim(m, q, t, u, xs, ys);
    case EnterLoop => TurnsSim(m, q, t, u, x, y, Meaning(n, t, x), Meaning(n, u, y));
    case PushLoop => LoopAllSim(m, q, t, u, xs, ys);
    case Expand => OptionalAllSim(m, n, t, u, Max(q.upper - q.lower, 0), xs, ys);
    case LazyOption => SimJoin(m, t, [x], [y], Meaning(n, t, x), Meaning(n, u, y));
    case Counter =>
      CountSim(m, q, t, u, x, y, 0, Meaning(n, t, x), Meaning(n, u, y));
      var a, b := CountTurns(q, t, x, 0, Meaning(n, t, x)), CountTurns(q, u, y, 0, Meaning(n, u, y));
      SimJoin(m, t, a, b, [x], [y]);
      SimJoin(m, t, [x], [y], a, b);
  }

  lemma {:induction false} StarAllSim(m: Mode, q: Node, t: Subject, u: Subject, xs: seq<St>, ys: seq<St>)
    requires q.Quant? && Blind(m, q.target, t, u) && SimAll(m, t, xs, ys)
    ensures SimAll(m, t, StarAll(q, t, xs), StarAll(q, u, ys))
    decreases |xs|
  {
    hide Sim, StarMeaning;
    if xs != [] {
      SimTail(m, t, xs, ys);
      SimOne(m, t, xs[0], ys[0]);
      var ml := q.target.Any? && q.target.multiline;
      StarSim(m, t, u, ml, q.nextHead, xs[0], ys[0], xs[0].s);
      StarAllSim(m, q, t, u, xs[1..], ys[1..]);
      SimJoin(m, t, StarMeaning(t, ml, q.nextHead, xs[0], xs[0].s), StarMeaning(u, ml, q.nextHead, ys[0], ys[0].s),
              StarAll(q, t, xs[1..]), StarAll(q, u, ys[1..]));
    }
  }

  lemma {:induction false} LoopSim(m: Mode, q: Node, t: Subject, u: Subject, x: St, y: St)
    requires q.Quant? && Blind(m, q.target, t, u) && Sim(m, t, x, y)
    ensures SimAll(m, t, Loop(q, t, x), Loop(q, u, y))
    decreases q, 2, Left(t, x), |Dirty(Groups(q.target), x)|, 2, 0
  {
    hide Sim, Meaning, Blind, SimAll, LoopTurns;
    SimOne(m, t, x, y);
    MeaningSim(m, q.target, t, u, x, y);
    TurnsSim(m, q, t, u, x, y, Meaning(q.target, t, x), Meaning(q.target, u, y));
    var a, b := LoopTurns(q, t, x, Meaning(q.target, t, x)), LoopTurns(q, u, y, Meaning(q.target, u, y));
    SimJoin(m, t, a, b, [x], [y]);
    SimJoin(m, t, [x], [y], a, b);
    assert SameText(t, u) by { BlindText(m, q.target, t, u); }
  }

  lemma BlindText(m: Mode, n: Node, t: Subject, u: Subject)
    requires Blind(m, n, t, u)
    ensures SameText(t, u)
  {
  }

  lemma {:induction false} TurnsSim(m: Mode, q: Node, t: Subject, u: Subject, x: St, y: St, xs: seq<St>, ys: seq<St>)
    requires q.Quant? && Blind(m, q.target, t, u) && Sim(m, t, x, y) && SimAll(m, t, xs, ys)
    ensures SimAll(m, t, LoopTurns(q, t, x, xs), LoopTurns(q, u, y, ys))
    decreases q, 2, Left(t, x), |Dirty(Groups(q.target), x)|, 1, |xs|
  {
    hide Sim, Loop, Meaning, TurnOf, Blind;
    if xs != [] {
      SimTail(m, t, xs, ys);
      SimTurn(m, q, t, u, x, y, xs[0], ys[0]);
      SimOne(m, t, xs[0], ys[0]);
      if TurnOf(q, x, xs[0]).Again? && Progress(q, t, x, xs[0]) { LoopSim(m, q, t, u, xs[0], ys[0]); }
      TurnsSim(m, q, t, u, x, y, xs[1..], ys[1..]);
      SimJoin(m, t, LoopTurn(q, t, x, xs[0]), LoopTurn(q, u, y, ys[0]), LoopTurns(q, t, x, xs[1..]),
          LoopTurns(q, u, y, ys[1..]));
    }
  }

  lemma {:induction false} LoopAllSim(m: Mode, q: Node, t: Subject, u: Subject, xs: seq<St>, ys: seq<St>)
    requires q.Quant? && Blind(m, q.target, t, u) && SimAll(m, t, xs, ys)
    ensures SimAll(m, t, LoopAll(q, t, xs), LoopAll(q, u, ys))
    decreases q, 3, |xs|
  {
    hide Sim, Loop, Blind;
    if xs != [] {
      SimTail(m, t, xs, ys);
      LoopSim(m, q, t, u, xs[0], ys[0]);
      LoopAllSim(m, q, t, u, xs[1..], ys[1..]);
      SimJoin(m, t, Loop(q, t, xs[0]), Loop(q, u, ys[0]), LoopAll(q, t, xs[1..]), LoopAll(q, u, ys[1..]));
    }
  }

  lemma {:induction false} OptionalSim(m: Mode, n: Node, t: Subject, u: Subject, k: nat, x: St, y: St)
    requires Blind(m, n, t, u) && Sim(m, t, x, y)
    ensures SimAll(m, t, Optional(n, t, k, x), Optional(n, u, k, y))
    decreases n, 8, k, 0
  {
    hide Sim, Meaning, Blind, SimAll;
    SimOne(m, t, x, y);
    if k > 0 {
      MeaningSim(m, n, t, u, x, y);
      OptionalAllSim(m, n, t, u, k - 1, Meaning(n, t, x), Meaning(n, u, y));
      SimJoin(m, t, OptionalAll(n, t, k - 1, Meaning(n, t, x)), OptionalAll(n, u, k - 1, Meaning(n, u, y)), [x], [y]);
    }
  }

  lemma {:induction false} OptionalAllSim(m: Mode, n: Node, t: Subject, u: Subject, k: nat, xs: seq<St>, ys: seq<St>)
    requires Blind(m, n, t, u) && SimAll(m, t, xs, ys)
    ensures SimAll(m, t, OptionalAll(n, t, k, xs), OptionalAll(n, u, k, ys))
    decreases n, 8, k, 1, |xs|
  {
    hide Sim, Blind, Meaning;
    if xs != [] {
      SimTail(m, t, xs, ys);
      OptionalSim(m, n, t, u, k, xs[0], ys[0]);
      OptionalAllSim(m, n, t, u, k, xs[1..], ys[1..]);
      SimJoin(m, t, Optional(n, t, k, xs[0]), Optional(n, u, k, ys[0]), OptionalAll(n, t, k, xs[1..]),
          OptionalAll(n, u, k, ys[1..]));
    }
  }

  lemma {:induction false} CountSim(m: Mode, q: Node, t: Subject, u: Subject, x: St, y: St, c: nat, xs: seq<St>,
      ys: seq<St>)
    requires q.Quant? && (c == 0 || c < Codegen.UpperCount(q.upper))
    requires Blind(m, q.target, t, u) && Sim(m, t, x, y) && SimAll(m, t, xs, ys)
    ensures SimAll(m, t, CountTurns(q, t, x, c, xs), CountTurns(q, u, y, c, ys))
    decreases q, 3, Codegen.UpperCount(q.upper) - c, 1, |xs|
  {
    hide Sim, Meaning, TurnOf, Blind;
    if xs != [] {
      SimTail(m, t, xs, ys);
      SimTurn(m, q, t, u, x, y, xs[0], ys[0]);
      SimOne(m, t, xs[0], ys[0]);
      if TurnOf(q, x, xs[0]).Again? { CountedSim(m, q, t, u, c + 1, xs[0], ys[0]); }
      CountSim(m, q, t, u, x, y, c, xs[1..], ys[1..]);
      var a: seq<St> :=
        match TurnOf(q, x, xs[0]) case Again => Counted(q, t, c + 1, xs[0]) case Leave => [xs[0]] case Reject => [];
      var b: seq<St> :=
        match TurnOf(q, y, ys[0]) case Again => Counted(q, u, c + 1, ys[0]) case Leave => [ys[0]] case Reject => [];
      SimJoin(m, t, a, b, CountTurns(q, t, x, c, xs[1..]), CountTurns(q, u, y, c, ys[1..]));
    }
  }

  lemma {:induction false} CountedSim(m: Mode, q: Node, t: Subject, u: Subject, c: nat, x: St, y: St)
    requires q.Quant? && 0 < c && Blind(m, q.target, t, u) && Sim(m, t, x, y)
    ensures SimAll(m, t, Counted(q, t, c, x), Counted(q, u, c, y))
    decreases q, 3, Max(Codegen.UpperCount(q.upper) - c + 1, 0), 0, 0
  {
    hide Sim, Meaning, Blind, SimAll;
    SimOne(m, t, x, y);
    if c < Codegen.UpperCount(q.upper) {
      MeaningSim(m, q.target, t, u, x, y);
      CountSim(m, q, t, u, x, y, c, Meaning(q.target, t, x), Meaning(q.target, u, y));
      var a, b := CountTurns(q, t, x, c, Meaning(q.target, t, x)), CountTurns(q, u, y, c, Meaning(q.target, u, y));
      SimJoin(m, t, a, b, [x], [y]);
      SimJoin(m, t, [x], [y], a, b);
    }
  }
}
