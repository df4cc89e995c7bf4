/** An independent, declarative reading of trees: `CanMatch` says from which state to which state a node can
    go, with no order of preference, no opcode shapes and no code sizes.  For trees without atomic groups it
    is the usual meaning of a regular expression; an atomic group is only over-approximated. */
module Matches {
  import opened Common
  import opened Tree
  import opened Semantics
  import Codegen

  ghost predicate CanMatch(n: Node, t: Subject, x: St, y: St)
    decreases n, 1
  {
    match n
    case Str(s) => t.Has(x.s, s) && y == Advance(x, |s|)
    case CClass(bs, neg) => x.s < t.End() && ClassHas(bs, neg, t.At(x.s)) && y == Advance(x, 1)
    case Any(ml) => AnyMatches(t, ml, x) && y == Advance(x, 1)
    case Backref(num) => BackrefMeaning(t, num, x) == [y]
    case Quant(target, lower, upper, _, emptyInfo, _, _, _) =>
      exists k: nat, z: St ::
        Chain(target, t, k, x, z) && y == z.(prev := y.prev)
        && (lower <= k || (!emptyInfo.NotEmpty? && EndsIdle(target, t, k, x, z)))
        && (Infinite(upper) || k <= Max(lower, upper))
    case Group(num, pushStart, _, target) =>
      exists z :: CanMatch(target, t, OpenGroup(num, pushStart, x), z) && y == CloseGroup(num, z)
    case Atomic(target, simple) =>
      if simple && target.Quant? then exists k: nat :: target.lower <= k && Chain(target.target, t, k, x, y)
      else CanMatch(target, t, x, y)
    case Look(look, target, charLen) =>
      (match look
       case Ahead => exists z :: CanMatch(target, t, x, z) && y == z.(s := x.s, prev := x.prev)
       case Behind => charLen <= x.s && CanMatch(target, t, StepBack(x, charLen), y)
       case _ => y == x)
    case Anchor(kind) => AnchorMeaning(kind, t, x) == [y]
    case List(elems) => CanMatchList(elems, t, x, y)
    case Alt(elems) => CanMatchAlt(elems, t, x, y)
  }

  ghost predicate CanMatchList(ns: Nodes, t: Subject, x: St, y: St)
    decreases ns, 1
  {
    match ns
    case Last(car) => CanMatch(car, t, x, y)
    case Link(car, cdr) => exists z :: CanMatch(car, t, x, z) && CanMatchList(cdr, t, z, y)
  }

  ghost predicate CanMatchAlt(ns: Nodes, t: Subject, x: St, y: St)
    decreases ns, 1
  {
    match ns
    case Last(car) => CanMatch(car, t, x, y)
    case Link(car, cdr) => CanMatch(car, t, x, y) || CanMatchAlt(cdr, t, x, y)
  }

  /** k matches of n in a row. */
  ghost predicate Chain(n: Node, t: Subject, k: nat, x: St, y: St)
    decreases n, 2, k
  {
    if k == 0 then x == y else exists z :: CanMatch(n, t, x, z) && Chain(n, t, k - 1, z, y)
  }

  /** k matches of n in a row, the last of which consumed nothing. */
  ghost predicate EndsIdle(n: Node, t: Subject, k: nat, x: St, y: St)
    decreases n, 3
  {
    1 <= k && exists w :: Chain(n, t, k - 1, x, w) && CanMatch(n, t, w, y) && w.s == y.s
  }

  lemma IdleLater(n: Node, t: Subject, k: nat, x: St, w: St, y: St)
    requires CanMatch(n, t, x, w) && EndsIdle(n, t, k, w, y)
    ensures EndsIdle(n, t, k + 1, x, y)
  {
    var v :| Chain(n, t, k - 1, w, v) && CanMatch(n, t, v, y) && v.s == y.s;
    assert Chain(n, t, k, x, v);
  }

  lemma {:induction false} ChainJoin(n: Node, t: Subject, k: nat, m: nat, x: St, y: St, z: St)
    requires Chain(n, t, k, x, y) && Chain(n, t, m, y, z)
    ensures Chain(n, t, k + m, x, z)
    decreases k
  {
    if k > 0 {
      var w :| CanMatch(n, t, x, w) && Chain(n, t, k - 1, w, y);
      ChainJoin(n, t, k - 1, m, w, y, z);
    }
  }

  lemma ChainOne(n: Node, t: Subject, x: St, y: St)
    requires CanMatch(n, t, x, y)
    ensures Chain(n, t, 1, x, y)
  {
    assert Chain(n, t, 0, y, y);
  }

  // ------------------------------------------------- every listed way is a way to match

  lemma {:induction false} Sound(n: Node, t: Subject, x: St, y: St)
    requires Proper(n) && y in Meaning(n, t, x)
    ensures CanMatch(n, t, x, y)
    decreases n, 5
  {
    match n
    case Str(_) =>
    case CClass(_, _) =>
    case Any(_) =>
    case Backref(_) =>
    case Anchor(_) =>
    case Quant(_, _, _, _, _, _, _, _) => QuantSound(n, t, x, y);
    case Group(num, pushStart, _, target) =>
      var x1 := OpenGroup(num, pushStart, x);
      var z := CloseAllSound(num, Meaning(target, t, x1), y);
      Sound(target, t, x1, z);
    case Atomic(target, simple) =>
      if simple && target.Quant? {
        var w := AtomicAllSound(target.target, t, TimesMeaning(target.target, t, target.lower, [x]), y);
        var _ := TimesSound(target.target, t, target.lower, [x], w);
        var k := AtomicLoopSound(target.target, t, w);
        ChainJoin(target.target, t, target.lower, k, x, w, y);
      } else {
        Sound(target, t, x, y);
      }
    case Look(look, target, charLen) =>
      if look.Ahead? {
        Sound(target, t, x, Meaning(target, t, x)[0]);
      } else if look.Behind? {
        Sound(target, t, StepBack(x, charLen), y);
      }
    case List(elems) => ListSound(elems, t, x, y);
    case Alt(elems) => AltSound(elems, t, x, y);
  }

  lemma {:induction false} ListSound(ns: Nodes, t: Subject, x: St, y: St)
    requires ProperAll(ns) && y in ListMeaning(ns, t, x)
    ensures CanMatchList(ns, t, x, y)
    decreases ns, 5
  {
    match ns
    case Last(car) => Sound(car, t, x, y);
    case Link(car, cdr) =>
      var z := ListAllSound(cdr, t, Meaning(car, t, x), y);
      Sound(car, t, x, z);
  }

  lemma {:induction false} ListAllSound(ns: Nodes, t: Subject, xs: seq<St>, y: St) returns (x: St)
    requires ProperAll(ns) && y in ListMeaningAll(ns, t, xs)
    ensures x in xs && CanMatchList(ns, t, x, y)
    decreases ns, 6, |xs|
  {
    if y in ListMeaning(ns, t, xs[0]) {
      x := xs[0];
      ListSound(ns, t, x, y);
    } else {
      x := ListAllSound(ns, t, xs[1..], y);
    }
  }

  lemma {:induction false} AltSound(ns: Nodes, t: Subject, x: St, y: St)
    requires ProperAll(ns) && y in AltMeaning(ns, t, x)
    ensures CanMatchAlt(ns, t, x, y)
    decreases ns, 5
  {
    match ns
    case Last(car) => Sound(car, t, x, y);
    case Link(car, cdr) =>
      if y in Meaning(car, t, x) { Sound(car, t, x, y); } else { AltSound(cdr, t, x, y); }
  }

  lemma {:induction false} CloseAllSound(num: nat, zs: seq<St>, y: St) returns (z: St)
    requires y in CloseAll(num, zs)
    ensures z in zs && y == CloseGroup(num, z)
    decreases |zs|
  {
    if y == CloseGroup(num, zs[0]) { z := zs[0]; } else { z := CloseAllSound(num, zs[1..], y); }
  }

  lemma {:induction false} MeaningAllSound(n: Node, t: Subject, xs: seq<St>, y: St) returns (x: St)
    requires Proper(n) && y in MeaningAll(n, t, xs)
    ensures x in xs && CanMatch(n, t, x, y)
    decreases n, 6, |xs|
  {
    if y in Meaning(n, t, xs[0]) {
      x := xs[0];
      Sound(n, t, x, y);
    } else {
      x := MeaningAllSound(n, t, xs[1..], y);
    }
  }

  lemma {:induction false} TimesSound(n: Node, t: Subject, k: nat, xs: seq<St>, y: St) returns (x: St)
    requires Proper(n) && y in TimesMeaning(n, t, k, xs)
    ensures x in xs && Chain(n, t, k, x, y)
    decreases n, 7, k
  {
    if k == 0 {
      x := y;
    } else {
      var z := TimesSound(n, t, k - 1, MeaningAll(n, t, xs), y);
      x := MeaningAllSound(n, t, xs, z);
    }
  }

  lemma {:induction false} AtomicLoopSound(n: Node, t: Subject, x: St) returns (k: nat)
    requires Proper(n)
    ensures Chain(n, t, k, x, AtomicLoop(n, t, x))
    decreases n, 7, Left(t, x)
  {
    var ys := Meaning(n, t, x);
    if ys == [] || Left(t, ys[0]) >= Left(t, x) {
      k := 0;
    } else {
      Sound(n, t, x, ys[0]);
      k := AtomicLoopSound(n, t, ys[0]);
      k := k + 1;
    }
  }

  lemma {:induction false} AtomicAllSound(n: Node, t: Subject, xs: seq<St>, y: St) returns (x: St)
    requires y in AtomicLoopAll(n, t, xs)
    ensures x in xs && y == AtomicLoop(n, t, x)
    decreases |xs|
  {
    if y == AtomicLoop(n, t, xs[0]) { x := xs[0]; } else { x := AtomicAllSound(n, t, xs[1..], y); }
  }

  lemma {:induction false} QuantSound(q: Node, t: Subject, x: St, y: St)
    requires q.Quant? && Proper(q) && y in QuantMeaning(q, t, x)
    ensures CanMatch(q, t, x, y)
    decreases q, 4
  {
    var n := q.target;
    match Codegen.ShapeOf(q)
    case AnyStar =>
      var w := StarAllSound(q, t, TimesMeaning(n, t, q.lower, [x]), y);
      var _ := TimesSound(n, t, q.lower, [x], w);
      var k, z := StarSound(n, t, q.nextHead, w, w.s, y);
      ChainJoin(n, t, q.lower, k, x, w, z);
    case EnterLoop =>
      var k := LoopTurnsSound(q, t, x, Meaning(n, t, x), y);
    case PushLoop =>
      var w := LoopAllSound(q, t, TimesMeaning(n, t, q.lower, [x]), y);
      var _ := TimesSound(n, t, q.lower, [x], w);
      var k := LoopSound(q, t, w, y);
      ChainJoin(n, t, q.lower, k, x, w, y);
    case Expand =>
      var m := Max(q.upper - q.lower, 0);
      var w, k := OptionalAllSound(n, t, m, TimesMeaning(n, t, q.lower, [x]), y);
      var _ := TimesSound(n, t, q.lower, [x], w);
      ChainJoin(n, t, q.lower, k, x, w, y);
    case LazyOption =>
      if y == x {
        assert Chain(n, t, 0, x, y);
      } else {
        Sound(n, t, x, y);
        ChainOne(n, t, x, y);
      }
    case Counter => CounterSound(q, t, x, y);
  }

  lemma {:induction false} StarAllSound(q: Node, t: Subject, xs: seq<St>, y: St) returns (x: St)
    requires q.Quant? && q.target.Any? && y in StarAll(q, t, xs)
    ensures x in xs && y in StarMeaning(t, q.target.multiline, q.nextHead, x, x.s)
    decreases |xs|
  {
    if y in StarMeaning(t, q.target.multiline, q.nextHead, xs[0], xs[0].s) { x := xs[0]; }
    else { x := StarAllSound(q, t, xs[1..], y); }
  }

  lemma {:induction false} StarSound(n: Node, t: Subject, peek: Option<byte>, x: St, begin: nat, y: St)
    returns (k: nat, z: St)
    requires n.Any? && y in StarMeaning(t, n.multiline, peek, x, begin)
    ensures Chain(n, t, k, x, z) && y == z.(prev := y.prev)
    decreases Left(t, x)
  {
    if x.s >= t.End() || y == x {
      k, z := 0, x;
    } else {
      k, z := StarSound(n, t, peek, Advance(x, 1), begin, y);
      assert CanMatch(n, t, x, Advance(x, 1));
      k := k + 1;
    }
  }

  lemma {:induction false} LoopSound(q: Node, t: Subject, x: St, y: St) returns (k: nat)
    requires q.Quant? && Proper(q) && y in Loop(q, t, x)
    ensures Chain(q.target, t, k, x, y)
    decreases q, 2, Left(t, x), |Dirty(Groups(q.target), x)|, 2, 0
  {
    if y == x { k := 0; } else { k := LoopTurnsSound(q, t, x, Meaning(q.target, t, x), y); }
  }

  lemma {:induction false} LoopTurnsSound(q: Node, t: Subject, x: St, ys: seq<St>, y: St) returns (k: nat)
    requires q.Quant? && Proper(q) && y in LoopTurns(q, t, x, ys)
    requires forall z :: z in ys ==> z in Meaning(q.target, t, x)
    ensures 1 <= k && Chain(q.target, t, k, x, y)
    decreases q, 2, Left(t, x), |Dirty(Groups(q.target), x)|, 1, |ys|
  {
    if y in LoopTurn(q, t, x, ys[0]) {
      Sound(q.target, t, x, ys[0]);
      if TurnOf(q, x, ys[0]).Again? && Progress(q, t, x, ys[0]) {
        k := LoopSound(q, t, ys[0], y);
        k := k + 1;
      } else {
        ChainOne(q.target, t, x, y);
        k := 1;
      }
    } else {
      k := LoopTurnsSound(q, t, x, ys[1..], y);
    }
  }

  lemma {:induction false} LoopAllSound(q: Node, t: Subject, xs: seq<St>, y: St) returns (x: St)
    requires q.Quant? && y in LoopAll(q, t, xs)
    ensures x in xs && y in Loop(q, t, x)
    decreases |xs|
  {
    if y in Loop(q, t, xs[0]) { x := xs[0]; } else { x := LoopAllSound(q, t, xs[1..], y); }
  }

  lemma {:induction false} OptionalAllSound(n: Node, t: Subject, m: nat, xs: seq<St>, y: St)
    returns (x: St, k: nat)
    requires Proper(n) && y in OptionalAll(n, t, m, xs)
    ensures x in xs && k <= m && Chain(n, t, k, x, y)
    decreases n, 8, m, 1, |xs|
  {
    if y in Optional(n, t, m, xs[0]) {
      x := xs[0];
      if y == x {
        k := 0;
      } else {
        var z;
        z, k := OptionalAllSound(n, t, m - 1, Meaning(n, t, x), y);
        Sound(n, t, x, z);
        k := k + 1;
      }
    } else {
      x, k := OptionalAllSound(n, t, m, xs[1..], y);
    }
  }

  lemma {:induction false} CounterSound(q: Node, t: Subject, x: St, y: St)
    requires q.Quant? && Proper(q) && Codegen.ShapeOf(q).Counter? && y in QuantMeaning(q, t, x)
    ensures CanMatch(q, t, x, y)
    decreases q, 4, 0
  {
    var first := CountTurns(q, t, x, 0, Meaning(q.target, t, x));
    if y in first {
      var k := CountSound(q, t, x, 0, Meaning(q.target, t, x), y);
    } else {
      assert Chain(q.target, t, 0, x, y);
    }
  }

  lemma {:induction false} CountSound(q: Node, t: Subject, x: St, c: nat, ys: seq<St>, y: St) returns (k: nat)
    requires q.Quant? && Proper(q) && (c == 0 || c < Codegen.UpperCount(q.upper))
    requires y in CountTurns(q, t, x, c, ys)
    requires forall z :: z in ys ==> z in Meaning(q.target, t, x)
    ensures 1 <= k && Chain(q.target, t, k, x, y)
    ensures q.lower <= c + k || (!q.emptyInfo.NotEmpty? && EndsIdle(q.target, t, k, x, y))
        || c + k >= Codegen.UpperCount(q.upper)
    ensures c + k <= Max(Codegen.UpperCount(q.upper), 1)
    decreases q, 3, Codegen.UpperCount(q.upper) - c, 1, |ys|
  {
    if y in CountTurns(q, t, x, c, ys[1..]) {
      k := CountSound(q, t, x, c, ys[1..], y);
    } else {
      Sound(q.target, t, x, ys[0]);
      k := 0;
      if TurnOf(q, x, ys[0]).Again? {
        k := CountedSound(q, t, c + 1, ys[0], y);
        if q.lower > c + 1 + k && c + 1 + k < Codegen.UpperCount(q.upper) { IdleLater(q.target, t, k, x, ys[0], y); }
      } else {
        assert Chain(q.target, t, 0, x, x);
        assert EndsIdle(q.target, t, 1, x, y);
      }
      k := k + 1;
    }
  }

  lemma {:induction false} CountedSound(q: Node, t: Subject, c: nat, x: St, y: St) returns (k: nat)
    requires q.Quant? && Proper(q) && 0 < c && y in Counted(q, t, c, x)
    ensures Chain(q.target, t, k, x, y)
    ensures q.lower <= c + k || (!q.emptyInfo.NotEmpty? && EndsIdle(q.target, t, k, x, y))
        || c + k >= Codegen.UpperCount(q.upper)
    ensures c + k <= Max(Codegen.UpperCount(q.upper), c)
    decreases q, 3, Max(Codegen.UpperCount(q.upper) - c + 1, 0), 0, 0
  {
    if y == x && (c >= Codegen.UpperCount(q.upper) || c >= q.lower) {
      k := 0;
    } else {
      k := CountSound(q, t, x, c, Meaning(q.target, t, x), y);
    }
  }
}
