/** next_setup (regcomp.c:2512-2792, 3282-3316): peeking at the next byte and automatic possessivation drop only ways
    that the node behind the loop would have rejected, so the ways of the list stay the same, in the same order. */
module NextNode {
  import opened Common
  import opened Tree
  import opened Semantics
  import opened Matches
  import opened Lengths
  import Codegen

  // ---------------------------------------------------------------- the head of a node

  /** get_head_value_node: the string or class every match of n begins with. */
  function HeadValue(n: Node, exact: bool): Option<Node>
    decreases n, 1
  {
    match n
    case Str(s) => if s == [] then None else Some(n)
    case CClass(_, _) => if exact then None else Some(n)
    case Quant(target, lower, _, _, _, _, headExact, _) =>
      if lower == 0 then None else if headExact.Some? then HeadOrigin(n) else HeadValue(target, exact)
    case Group(_, _, _, target) => HeadValue(target, exact)
    case Atomic(target, _) => HeadValue(target, exact)
    case Look(look, target, _) => if look.Ahead? then HeadValue(target, exact) else None
    case List(elems) => HeadValue(elems.car, exact)
    case _ => None
  }

  /** The node qn->head_exact points at: setup_tree takes it from the target or, if the target is a quantifier that
      holds one itself, moves it outwards. */
  function HeadOrigin(q: Node): Option<Node>
    requires q.Quant?
    decreases q, 0
  {
    if q.target.Quant? then HeadOrigin(q.target) else HeadValue(q.target, true)
  }

  lemma {:induction false} HeadKinds(n: Node, exact: bool)
    ensures var v := HeadValue(n, exact); v.Some? ==> (v.value.Str? && v.value.s != []) || (v.value.CClass? && !exact)
    decreases n, 1
  {
    match n
    case Quant(target, _, _, _, _, _, _, _) => OriginKind(n); HeadKinds(target, exact);
    case Group(_, _, _, target) => HeadKinds(target, exact);
    case Atomic(target, _) => HeadKinds(target, exact);
    case Look(_, target, _) => HeadKinds(target, exact);
    case List(elems) => HeadKinds(elems.car, exact);
    case _ =>
  }

  lemma {:induction false} OriginKind(q: Node)
    requires q.Quant?
    ensures var v := HeadOrigin(q); v.Some? ==> v.value.Str? && v.value.s != []
    decreases q, 0
  {
    if q.target.Quant? { OriginKind(q.target); } else { HeadKinds(q.target, true); }
  }

  /** No head on the way was moved out of a quantifier that may turn zero times. */
  predicate HeadsRight(n: Node)
    decreases n, 1
  {
    match n
    case Quant(target, lower, _, _, _, _, headExact, _) =>
      lower == 0 || if headExact.Some? then OriginRight(n) else HeadsRight(target)
    case Group(_, _, _, target) => HeadsRight(target)
    case Atomic(target, _) => HeadsRight(target)
    case Look(look, target, _) => look.Ahead? ==> HeadsRight(target)
    case List(elems) => HeadsRight(elems.car)
    case _ => true
  }

  predicate OriginRight(q: Node)
    requires q.Quant?
    decreases q, 0
  {
    if q.target.Quant? then 0 < q.target.lower && OriginRight(q.target) else HeadsRight(q.target)
  }

  /** v itself stands at p. */
  predicate HeadHere(v: Node, t: Subject, p: nat) {
    match v
    case Str(s) => t.Has(p, s)
    case CClass(bs, neg) => p < t.End() && ClassHas(bs, neg, t.At(p))
    case _ => true
  }

  lemma FirstTurn(n: Node, t: Subject, k: nat, x: St, y: St) returns (z: St)
    requires 1 <= k && Chain(n, t, k, x, y)
    ensures CanMatch(n, t, x, z)
  {
    z :| CanMatch(n, t, x, z) && Chain(n, t, k - 1, z, y);
  }

  lemma FirstElement(ns: Nodes, t: Subject, x: St, y: St) returns (z: St)
    requires ns.Link? && CanMatchList(ns, t, x, y)
    ensures CanMatch(ns.car, t, x, z)
  {
    z :| CanMatch(ns.car, t, x, z) && CanMatchList(ns.cdr, t, z, y);
  }

  /** Every match of n has its head where it starts. */
  lemma {:induction false} HeadNeeded(n: Node, exact: bool, t: Subject, x: St, y: St)
    requires HeadsRight(n) && HeadValue(n, exact).Some? && CanMatch(n, t, x, y)
    ensures HeadHere(HeadValue(n, exact).value, t, x.s)
    decreases n, 1
  {
    match n
    case Str(_) =>
    case CClass(_, _) =>
    case Quant(target, _, _, _, _, _, _, _) =>
      var k: nat, z :| 1 <= k && Chain(target, t, k, x, z);
      QuantHead(n, exact, t, x, k, z);
    case Group(num, pushStart, _, target) =>
      var x1 := OpenGroup(num, pushStart, x);
      var z :| CanMatch(target, t, x1, z) && y == CloseGroup(num, z);
      HeadNeeded(target, exact, t, x1, z);
    case Atomic(target, simple) =>
      if simple && target.Quant? {
        var k: nat :| target.lower <= k && Chain(target.target, t, k, x, y);
        QuantHead(target, exact, t, x, k, y);
      } else {
        HeadNeeded(target, exact, t, x, y);
      }
    case Look(_, target, _) =>
      var z :| CanMatch(target, t, x, z) && y == z.(s := x.s, prev := x.prev);
      HeadNeeded(target, exact, t, x, z);
    case List(elems) =>
      if elems.Last? {
        HeadNeeded(elems.car, exact, t, x, y);
      } else {
        var z := FirstElement(elems, t, x, y);
        HeadNeeded(elems.car, exact, t, x, z);
      }
  }

  lemma {:induction false} QuantHead(q: Node, exact: bool, t: Subject, x: St, k: nat, y: St)
    requires q.Quant? && HeadsRight(q) && HeadValue(q, exact).Some? && 1 <= k && Chain(q.target, t, k, x, y)
    ensures HeadHere(HeadValue(q, exact).value, t, x.s)
    decreases q, 0, 1
  {
    var z := FirstTurn(q.target, t, k, x, y);
    if q.headExact.Some? { OriginNeeded(q, t, x, z); } else { HeadNeeded(q.target, exact, t, x, z); }
  }

  lemma {:induction false} OriginNeeded(q: Node, t: Subject, x: St, z: St)
    requires q.Quant? && OriginRight(q) && HeadOrigin(q).Some? && CanMatch(q.target, t, x, z)
    ensures HeadHere(HeadOrigin(q).value, t, x.s)
    decreases q, 0, 0
  {
    var n := q.target;
    if n.Quant? {
      var k: nat, y :| 1 <= k && Chain(n.target, t, k, x, y);
      var w := FirstTurn(n.target, t, k, x, y);
      OriginNeeded(n, t, x, w);
    } else {
      HeadNeeded(n, true, t, x, z);
    }
  }

  // ---------------------------------------------------------------- is_not_included

  /** Some byte belongs to both classes. */
  predicate CommonByte(x: Node, y: Node)
    requires x.CClass? && y.CClass?
  {
    exists c: byte :: ClassHas(x.bs, x.neg, c) && ClassHas(y.bs, y.neg, c)
  }

  predicate Differ(a: seq<byte>, b: seq<byte>) {
    exists i :: 0 <= i < |a| && i < |b| && a[i] != b[i]
  }

  /** is_not_included, for the nodes get_head_value_node returns. */
  predicate IsNotIncluded(x: Node, y: Node) {
    match (x, y)
    case (CClass(_, xneg), CClass(_, yneg)) => !CommonByte(x, y) && (!xneg || !yneg)
    case (CClass(bs, neg), Str(s)) => s != [] && !ClassHas(bs, neg, s[0])
    case (Str(s), CClass(bs, neg)) => s != [] && !ClassHas(bs, neg, s[0])
    case (Str(a), Str(b)) => a != [] && Differ(a, b)
    case _ => false
  }

  lemma ByteThere(t: Subject, p: nat, s: seq<byte>, i: nat)
    requires i < |s|
    ensures t.Has(p, s) ==> p + i < t.End() && t.At(p + i) == s[i]
  {
    if t.Has(p, s) { assert t.data[p + i] == t.data[p..p + |s|][i]; }
  }

  lemma NotBoth(x: Node, y: Node, t: Subject, p: nat)
    requires IsNotIncluded(x, y) && HeadHere(x, t, p)
    ensures !HeadHere(y, t, p)
  {
    match (x, y)
    case (CClass(_, _), CClass(_, _)) =>
    case (CClass(_, _), Str(s)) => ByteThere(t, p, s, 0);
    case (Str(s), CClass(_, _)) => ByteThere(t, p, s, 0);
    case (Str(a), Str(b)) =>
      var i :| 0 <= i < |a| && i < |b| && a[i] != b[i];
      ByteThere(t, p, a, i);
      ByteThere(t, p, b, i);
  }

  // ---------------------------------------------------------------- next_setup

  /** The byte an exit of the loop is checked against; byte 0 never is. */
  function PeekOf(next: Node): Option<byte> {
    match HeadValue(next, true)
    case Some(v) => HeadKinds(next, true); if v.s[0] != 0 then Some(v.s[0]) else None
    case None => None
  }

  /** Whether a loop can become atomic: the heads of its target and of the next node exclude each other. */
  predicate Possessive(q: Node, next: Node)
    requires q.Quant?
  {
    q.lower <= 1 && SimpleType(q.target)
    && HeadValue(q.target, false).Some? && HeadValue(next, false).Some?
    && IsNotIncluded(HeadValue(q.target, false).value, HeadValue(next, false).value)
  }

  /** next_setup without the implicit anchor. */
  function NextSetup(node: Node, next: Node): Node {
    match node
    case Quant(_, _, upper, greedy, _, _, _, _) =>
      if greedy && Infinite(upper) then
        var peek := PeekOf(next);
        var q := if peek.Some? then node.(nextHead := peek) else node;
        if Possessive(q, next) then Atomic(q, true) else q
      else node
    case Group(num, pushStart, pushEnd, target) => Group(num, pushStart, pushEnd, NextSetup(target, next))
    case _ => node
  }

  // ---------------------------------------------------------------- what comes after

  /** What happens behind the node: groups to close, innermost first, and the rest of the list. */
  datatype Tail = Tail(groups: seq<nat>, rest: Nodes)

  function CloseThem(groups: seq<nat>, y: St): (r: St)
    ensures r.s == y.s
  {
    if groups == [] then y else CloseThem(groups[1..], CloseGroup(groups[0], y))
  }

  function After(b: Tail, t: Subject, y: St): seq<St> { ListMeaning(b.rest, t, CloseThem(b.groups, y)) }

  function AfterAll(b: Tail, t: Subject, ys: seq<St>): seq<St> {
    if ys == [] then [] else After(b, t, ys[0]) + AfterAll(b, t, ys[1..])
  }

  lemma {:induction false} AfterJoin(b: Tail, t: Subject, xs: seq<St>, ys: seq<St>)
    ensures AfterAll(b, t, xs + ys) == AfterAll(b, t, xs) + AfterAll(b, t, ys)
    decreases |xs|
  {
    hide After;
    if xs == [] {
      assert xs + ys == ys;
    } else {
      assert (xs + ys)[0] == xs[0] && (xs + ys)[1..] == xs[1..] + ys;
      AfterJoin(b, t, xs[1..], ys);
    }
  }

  lemma AfterOne(b: Tail, t: Subject, y: St)
    ensures AfterAll(b, t, [y]) == After(b, t, y)
  {
    hide After;
    assert AfterAll(b, t, [y][1..]) == [];
  }

  lemma {:induction false} AfterClose(b: Tail, t: Subject, num: nat, ys: seq<St>)
    ensures AfterAll(b, t, CloseAll(num, ys)) == AfterAll(Tail([num] + b.groups, b.rest), t, ys)
    decreases |ys|
  {
    if ys != [] {
      AfterClose(b, t, num, ys[1..]);
      var c := Tail([num] + b.groups, b.rest);
      assert c.groups[1..] == b.groups;
      assert CloseThem(c.groups, ys[0]) == CloseThem(b.groups, CloseGroup(num, ys[0]));
      assert CloseAll(num, ys)[1..] == CloseAll(num, ys[1..]);
    }
  }

  lemma {:induction false} AfterNoGroup(rest: Nodes, t: Subject, ys: seq<St>)
    ensures AfterAll(Tail([], rest), t, ys) == ListMeaningAll(rest, t, ys)
    decreases |ys|
  {
    if ys != [] { AfterNoGroup(rest, t, ys[1..]); }
  }

  /** Nothing comes after a state at which the head of the next node does not stand. */
  lemma DeadEnd(b: Tail, exact: bool, t: Subject, y: St)
    requires ProperAll(b.rest) && HeadsRight(b.rest.car) && HeadValue(b.rest.car, exact).Some?
    requires !HeadHere(HeadValue(b.rest.car, exact).value, t, y.s)
    ensures After(b, t, y) == []
  {
    hide HeadHere, CanMatch, HeadValue, HeadsRight;
    var x := CloseThem(b.groups, y);
    var zs := ListMeaning(b.rest, t, x);
    if zs != [] {
      ListSound(b.rest, t, x, zs[0]);
      if b.rest.Last? {
        HeadNeeded(b.rest.car, exact, t, x, zs[0]);
      } else {
        var w := FirstElement(b.rest, t, x, zs[0]);
        HeadNeeded(b.rest.car, exact, t, x, w);
      }
    }
  }

  /** The tail rejects every exit at which the peeked byte does not stand. */
  ghost predicate Needs(b: Tail, t: Subject, c: byte) {
    forall y: St :: t.At(y.s) != c ==> After(b, t, y) == []
  }

  lemma PeekNeeded(b: Tail, t: Subject)
    requires ProperAll(b.rest) && HeadsRight(b.rest.car) && PeekOf(b.rest.car).Some?
    ensures Needs(b, t, PeekOf(b.rest.car).value)
  {
    hide HeadValue, HeadsRight, After;
    HeadKinds(b.rest.car, true);
    var v := HeadValue(b.rest.car, true).value;
    forall y: St | t.At(y.s) != v.s[0] ensures After(b, t, y) == [] {
      ByteThere(t, y.s, v.s, 0);
      DeadEnd(b, true, t, y);
    }
  }

  // ---------------------------------------------------------------- peeking

  lemma {:induction false} StarPeek(b: Tail, t: Subject, ml: bool, c: byte, x: St, begin: nat)
    requires Needs(b, t, c)
    ensures AfterAll(b, t, StarMeaning(t, ml, Some(c), x, begin)) == AfterAll(b, t, StarMeaning(t, ml, None, x, begin))
    decreases Left(t, x)
  {
    hide After;
    if x.s < t.End() {
      var here: seq<St> := if c == t.At(x.s) then [x] else [];
      AfterOne(b, t, x);
      assert AfterAll(b, t, here) == AfterAll(b, t, [x]) by { if c != t.At(x.s) { assert After(b, t, x) == []; } }
      if ml || !t.IsNewline(x.s) {
        StarPeek(b, t, ml, c, Advance(x, 1), begin);
        AfterJoin(b, t, StarMeaning(t, ml, Some(c), Advance(x, 1), begin), here);
        AfterJoin(b, t, StarMeaning(t, ml, None, Advance(x, 1), begin), [x]);
      }
    }
  }

  lemma {:induction false} StarAllPeek(b: Tail, t: Subject, q: Node, q1: Node, c: byte, xs: seq<St>)
    requires q.Quant? && q.nextHead.None? && q1 == q.(nextHead := Some(c)) && Needs(b, t, c)
    ensures AfterAll(b, t, StarAll(q1, t, xs)) == AfterAll(b, t, StarAll(q, t, xs))
    decreases |xs|
  {
    hide After;
    if xs != [] {
      var ml := q.target.Any? && q.target.multiline;
      StarPeek(b, t, ml, c, xs[0], xs[0].s);
      StarAllPeek(b, t, q, q1, c, xs[1..]);
      AfterJoin(b, t, StarMeaning(t, ml, Some(c), xs[0], xs[0].s), StarAll(q1, t, xs[1..]));
      AfterJoin(b, t, StarMeaning(t, ml, None, xs[0], xs[0].s), StarAll(q, t, xs[1..]));
    }
  }

  /** The same loop, with and without the peek. */
  ghost predicate Peeked(q: Node, q1: Node, c: byte) {
    q.Quant? && q.greedy && q.nextHead.None? && q1 == q.(nextHead := Some(c))
  }

  lemma {:induction false} LoopPeek(b: Tail, t: Subject, q: Node, q1: Node, c: byte, x: St)
    requires Peeked(q, q1, c) && Needs(b, t, c)
    ensures AfterAll(b, t, Loop(q1, t, x)) == AfterAll(b, t, Loop(q, t, x))
    decreases Left(t, x), |Dirty(Groups(q.target), x)|, 2, 0
  {
    hide After, Meaning;
    var ys := Meaning(q.target, t, x);
    TurnsPeek(b, t, q, q1, c, x, ys);
    AfterOne(b, t, x);
    AfterJoin(b, t, LoopTurns(q1, t, x, ys), [x]);
    AfterJoin(b, t, LoopTurns(q, t, x, ys), [x]);
    if t.At(x.s) != c { assert After(b, t, x) == []; }
  }

  lemma {:induction false} TurnsPeek(b: Tail, t: Subject, q: Node, q1: Node, c: byte, x: St, ys: seq<St>)
    requires Peeked(q, q1, c) && Needs(b, t, c)
    ensures AfterAll(b, t, LoopTurns(q1, t, x, ys)) == AfterAll(b, t, LoopTurns(q, t, x, ys))
    decreases Left(t, x), |Dirty(Groups(q.target), x)|, 1, |ys|
  {
    hide After, Meaning, Loop;
    if ys != [] {
      if TurnOf(q, x, ys[0]).Again? && Progress(q, t, x, ys[0]) { LoopPeek(b, t, q, q1, c, ys[0]); }
      TurnsPeek(b, t, q, q1, c, x, ys[1..]);
      AfterJoin(b, t, LoopTurn(q1, t, x, ys[0]), LoopTurns(q1, t, x, ys[1..]));
      AfterJoin(b, t, LoopTurn(q, t, x, ys[0]), LoopTurns(q, t, x, ys[1..]));
    }
  }

  lemma {:induction false} LoopAllPeek(b: Tail, t: Subject, q: Node, q1: Node, c: byte, xs: seq<St>)
    requires Peeked(q, q1, c) && Needs(b, t, c)
    ensures AfterAll(b, t, LoopAll(q1, t, xs)) == AfterAll(b, t, LoopAll(q, t, xs))
    decreases |xs|
  {
    hide After, Loop;
    if xs != [] {
      LoopPeek(b, t, q, q1, c, xs[0]);
      LoopAllPeek(b, t, q, q1, c, xs[1..]);
      AfterJoin(b, t, Loop(q1, t, xs[0]), LoopAll(q1, t, xs[1..]));
      AfterJoin(b, t, Loop(q, t, xs[0]), LoopAll(q, t, xs[1..]));
    }
  }

  /** The counter loop does not look at the next byte. */
  lemma {:induction false} CountPeek(t: Subject, q: Node, q1: Node, c: byte, x: St, k: nat, ys: seq<St>)
    requires Peeked(q, q1, c) && (k == 0 || k < Codegen.UpperCount(q.upper))
    ensures CountTurns(q1, t, x, k, ys) == CountTurns(q, t, x, k, ys)
    decreases Codegen.UpperCount(q.upper) - k, 1, |ys|
  {
    hide Meaning;
    if ys != [] {
      if TurnOf(q, x, ys[0]).Again? { CountedPeek(t, q, q1, c, k + 1, ys[0]); }
      CountPeek(t, q, q1, c, x, k, ys[1..]);
    }
  }

  lemma {:induction false} CountedPeek(t: Subject, q: Node, q1: Node, c: byte, k: nat, y: St)
    requires Peeked(q, q1, c) && 0 < k
    ensures Counted(q1, t, k, y) == Counted(q, t, k, y)
    decreases Max(Codegen.UpperCount(q.upper) - k + 1, 0), 0, 0
  {
    hide Meaning;
    if k < Codegen.UpperCount(q.upper) { CountPeek(t, q, q1, c, y, k, Meaning(q.target, t, y)); }
  }

  lemma QuantPeek(b: Tail, t: Subject, q: Node, q1: Node, c: byte, x: St)
    requires Peeked(q, q1, c) && Infinite(q.upper) && Needs(b, t, c)
    ensures AfterAll(b, t, QuantMeaning(q1, t, x)) == AfterAll(b, t, QuantMeaning(q, t, x))
  {
    hide After, Meaning, Loop, LoopTurns, CountTurns, TimesMeaning, StarAll, LoopAll, Codegen.Length, AfterAll;
    assert Codegen.ShapeOf(q1) == Codegen.ShapeOf(q);
    match Codegen.ShapeOf(q)
    case AnyStar => StarAllPeek(b, t, q, q1, c, TimesMeaning(q.target, t, q.lower, [x]));
    case EnterLoop => TurnsPeek(b, t, q, q1, c, x, Meaning(q.target, t, x));
    case PushLoop => LoopAllPeek(b, t, q, q1, c, TimesMeaning(q.target, t, q.lower, [x]));
    case Counter => CountPeek(t, q, q1, c, x, 0, Meaning(q.target, t, x));
    case _ =>
  }

  // ---------------------------------------------------------------- possessivation

  /** The tail rejects every position where n itself stands. */
  ghost predicate Rejects(b: Tail, t: Subject, n: Node) {
    forall y: St :: HeadHere(n, t, y.s) ==> After(b, t, y) == []
  }

  lemma RejectsTarget(b: Tail, t: Subject, q: Node)
    requires q.Quant? && Possessive(q, b.rest.car) && ProperAll(b.rest) && HeadsRight(b.rest.car)
    ensures HeadValue(q.target, false) == Some(q.target) && Rejects(b, t, q.target)
  {
    hide HeadHere, After, HeadsRight, IsNotIncluded;
    var v := HeadValue(b.rest.car, false).value;
    forall y: St | HeadHere(q.target, t, y.s) ensures After(b, t, y) == [] {
      NotBoth(q.target, v, t, y.s);
      DeadEnd(b, false, t, y);
    }
  }

  /** A string or class matches in one way, forwards, exactly where it stands. */
  lemma OneWay(n: Node, t: Subject, x: St)
    requires SimpleType(n) && HeadValue(n, false) == Some(n)
    ensures var ys := Meaning(n, t, x);
      (ys == [] <==> !HeadHere(n, t, x.s)) && (ys != [] ==> |ys| == 1 && x.s < ys[0].s <= t.End())
  {
  }

  /** A loop the possessive rewriting applies to. */
  ghost predicate Runs(q: Node) {
    q.Quant? && q.greedy && q.emptyInfo.NotEmpty? && q.headExact.None? && q.nextHead.None?
    && SimpleType(q.target) && HeadValue(q.target, false) == Some(q.target)
  }

  lemma {:induction false} LoopRuns(b: Tail, t: Subject, q: Node, x: St)
    requires Runs(q) && Rejects(b, t, q.target)
    ensures AfterAll(b, t, Loop(q, t, x)) == After(b, t, AtomicLoop(q.target, t, x))
    decreases Left(t, x)
  {
    hide After, Meaning, HeadHere, HeadValue;
    var ys := Meaning(q.target, t, x);
    OneWay(q.target, t, x);
    AfterOne(b, t, x);
    if ys == [] {
      assert LoopTurns(q, t, x, ys) + [x] == [x];
    } else {
      assert ys[1..] == [];
      assert LoopTurns(q, t, x, ys) == Loop(q, t, ys[0]);
      AfterJoin(b, t, Loop(q, t, ys[0]), [x]);
      LoopRuns(b, t, q, ys[0]);
    }
  }

  lemma {:induction false} LoopAllRuns(b: Tail, t: Subject, q: Node, xs: seq<St>)
    requires Runs(q) && Rejects(b, t, q.target)
    ensures AfterAll(b, t, LoopAll(q, t, xs)) == AfterAll(b, t, AtomicLoopAll(q.target, t, xs))
    decreases |xs|
  {
    hide After, Loop, AtomicLoop, HeadHere, HeadValue;
    if xs != [] {
      LoopRuns(b, t, q, xs[0]);
      LoopAllRuns(b, t, q, xs[1..]);
      AfterJoin(b, t, Loop(q, t, xs[0]), LoopAll(q, t, xs[1..]));
      assert AtomicLoopAll(q.target, t, xs)[1..] == AtomicLoopAll(q.target, t, xs[1..]);
    }
  }

  lemma EnterRuns(b: Tail, t: Subject, q: Node, x: St)
    requires Runs(q) && Rejects(b, t, q.target)
    ensures AfterAll(b, t, LoopTurns(q, t, x, Meaning(q.target, t, x)))
            == AfterAll(b, t, AtomicLoopAll(q.target, t, TimesMeaning(q.target, t, 1, [x])))
  {
    hide After, Meaning, HeadHere, HeadValue;
    var ys := Meaning(q.target, t, x);
    OneWay(q.target, t, x);
    assert TimesMeaning(q.target, t, 1, [x]) == MeaningAll(q.target, t, [x]) == ys by {
      assert TimesMeaning(q.target, t, 0, MeaningAll(q.target, t, [x])) == MeaningAll(q.target, t, [x]);
      assert MeaningAll(q.target, t, [x][1..]) == [];
    }
    if ys != [] {
      assert ys[1..] == [];
      assert LoopTurns(q, t, x, ys) == Loop(q, t, ys[0]);
      LoopRuns(b, t, q, ys[0]);
      AfterOne(b, t, AtomicLoop(q.target, t, ys[0]));
      assert AtomicLoopAll(q.target, t, ys) == [AtomicLoop(q.target, t, ys[0])];
    }
  }

  lemma QuantRuns(b: Tail, t: Subject, q: Node, q1: Node, x: St)
    requires Runs(q) && Infinite(q.upper) && q.lower <= 1 && Rejects(b, t, q.target)
    requires q1.Quant? && q1 == q.(nextHead := q1.nextHead)
    ensures AfterAll(b, t, Meaning(Atomic(q1, true), t, x)) == AfterAll(b, t, QuantMeaning(q, t, x))
  {
    hide After, Loop, LoopTurns, TimesMeaning, LoopAll, AtomicLoopAll, Codegen.Length, AfterAll, HeadHere;
    assert Meaning(Atomic(q1, true), t, x) == AtomicLoopAll(q.target, t, TimesMeaning(q.target, t, q.lower, [x]));
    match Codegen.ShapeOf(q)
    case EnterLoop => EnterRuns(b, t, q, x);
    case PushLoop => LoopAllRuns(b, t, q, TimesMeaning(q.target, t, q.lower, [x]));
  }

  // ---------------------------------------------------------------- the theorem

  /** What setup_tree left of the node before it looks at the next one: no peek yet, and a head byte only on a loop
      whose target may be empty (regcomp.c:3980-3990). */
  predicate Unlinked(n: Node) {
    match n
    case Quant(_, _, _, _, emptyInfo, _, headExact, nextHead) => nextHead.None?
        && (emptyInfo.NotEmpty? ==> headExact.None?)
    case Group(_, _, _, target) => Unlinked(target)
    case _ => true
  }

  lemma QuantSetup(b: Tail, t: Subject, e: Env, q: Node, x: St)
    requires q.Quant? && WellFormed(q, e) && Unlinked(q) && ProperAll(b.rest) && HeadsRight(b.rest.car)
    ensures AfterAll(b, t, Meaning(NextSetup(q, b.rest.car), t, x)) == AfterAll(b, t, Meaning(q, t, x))
  {
    hide After, AfterAll, QuantMeaning, HeadsRight, HeadHere, PeekOf;
    var next := b.rest.car;
    if q.greedy && Infinite(q.upper) {
      var peek := PeekOf(next);
      var q1 := if peek.Some? then q.(nextHead := peek) else q;
      if Possessive(q, next) {
        RejectsTarget(b, t, q);
        HeadKinds(q.target, false);
        QuantRuns(b, t, q, q1, x);
      } else if peek.Some? {
        PeekNeeded(b, t);
        QuantPeek(b, t, q, q1, peek.value, x);
      }
    }
  }

  lemma {:induction false} SetupTail(b: Tail, t: Subject, e: Env, n: Node, x: St)
    requires WellFormed(n, e) && Unlinked(n) && ProperAll(b.rest) && HeadsRight(b.rest.car)
    ensures AfterAll(b, t, Meaning(NextSetup(n, b.rest.car), t, x)) == AfterAll(b, t, Meaning(n, t, x))
    decreases n
  {
    hide After, AfterAll, QuantMeaning, HeadsRight, HeadHere;
    match n
    case Quant(_, _, _, _, _, _, _, _) => QuantSetup(b, t, e, n, x);
    case Group(num, pushStart, _, target) =>
      var x1, n1 := OpenGroup(num, pushStart, x), NextSetup(target, b.rest.car);
      SetupTail(Tail([num] + b.groups, b.rest), t, e, target, x1);
      AfterClose(b, t, num, Meaning(n1, t, x1));
      AfterClose(b, t, num, Meaning(target, t, x1));
    case _ =>
  }

  /** next_setup keeps every way of the list, in order, from every state of every text. */
  lemma NextSetupKeeps(n: Node, rest: Nodes, t: Subject, e: Env, x: St)
    requires WellFormed(n, e) && Unlinked(n) && WellFormedAll(rest, e) && HeadsRight(rest.car)
    ensures ListMeaning(Link(NextSetup(n, rest.car), rest), t, x) == ListMeaning(Link(n, rest), t, x)
  {
    hide Meaning, NextSetup, HeadsRight, ListMeaningAll;
    WellFormedProperAll(rest, e);
    SetupTail(Tail([], rest), t, e, n, x);
    AfterNoGroup(rest, t, Meaning(NextSetup(n, rest.car), t, x));
    AfterNoGroup(rest, t, Meaning(n, t, x));
  }

  // ---------------------------------------------------------------- which heads are right

  /** The node the head was found in is itself all right. */
  predicate InnermostRight(q: Node)
    requires q.Quant?
  {
    if q.target.Quant? then InnermostRight(q.target) else HeadsRight(q.target)
  }

  ghost predicate HeadOfAll(v: Node, n: Node) {
    forall t: Subject, x: St, y: St :: CanMatch(n, t, x, y) ==> HeadHere(v, t, x.s)
  }

  lemma {:induction false} IdleTurns(n: Node, t: Subject, x: St, k: nat)
    requires CanMatch(n, t, x, x)
    ensures Chain(n, t, k, x, x)
    decreases k
  {
    if k > 0 { IdleTurns(n, t, x, k - 1); }
  }

  lemma {:induction false} CanBeEmpty(q: Node, t: Subject, x: St)
    requires q.Quant? && InnermostRight(q) && (q.lower == 0 || !OriginRight(q))
    ensures CanMatch(q, t, x, x)
    decreases q
  {
    if q.lower > 0 { CanBeEmpty(q.target, t, x); }
    if q.lower == 0 { assert Chain(q.target, t, 0, x, x); } else { IdleTurns(q.target, t, x, q.lower); }
    assert x == x.(prev := x.prev);
  }

  /** A moved head is the head of every match exactly when no quantifier it was moved out of may turn zero times. */
  lemma MovedHeadExact(q: Node)
    requires q.Quant? && 0 < q.lower && q.headExact.Some? && HeadOrigin(q).Some? && InnermostRight(q)
    ensures HeadsRight(q) <==> HeadOfAll(HeadOrigin(q).value, q)
  {
    hide CanMatch, OriginRight, HeadOrigin, InnermostRight;
    var v := HeadOrigin(q).value;
    OriginKind(q);
    if HeadsRight(q) {
      forall t: Subject, x: St, y: St | CanMatch(q, t, x, y) ensures HeadHere(v, t, x.s) {
        HeadNeeded(q, true, t, x, y);
      }
    } else {
      var t, x := Subject([], 0, 0, false, false), St(0, -1, 0, map[], []);
      CanBeEmpty(q, t, x);
      assert !HeadHere(v, t, x.s);
    }
  }
}
