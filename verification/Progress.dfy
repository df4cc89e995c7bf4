/** Termination of the loops: a body setup_tree leaves unflagged consumes a byte, and a flagged body that is run
    again without consuming anything has changed a capture for the last time. */
module Progress {
  import opened Common
  import opened Tree
  import S = Semantics
  import opened Matches
  import opened Lengths
  import opened LengthFacts
  type St = S.St

  /** A match that consumed nothing left every group alone or closed it on the empty string here, and each
      visit it logged replaced the capture held at the start, or one it had made itself. */
  ghost predicate Flat(x: St, y: St) {
    y.s == x.s && |x.log| <= |y.log|
    && (forall g :: S.Get(y.caps, g) == S.Get(x.caps, g) || S.Get(y.caps, g) == S.Closed(x.s, x.s))
    && forall k :: |x.log| <= k < |y.log| ==>
         var v := y.log[k];
         (v.was == S.Get(x.caps, v.num) || v.was == S.Closed(x.s, x.s)) && S.Get(y.caps, v.num) == S.Closed(x.s, x.s)
  }

  lemma FlatTrans(x: St, y: St, z: St)
    requires Flat(x, y) && Flat(y, z) && z.log[..|y.log|] == y.log
    ensures Flat(x, z)
  {
    forall k | |x.log| <= k < |z.log|
      ensures (z.log[k].was == S.Get(x.caps, z.log[k].num) || z.log[k].was == S.Closed(x.s, x.s))
      ensures S.Get(z.caps, z.log[k].num) == S.Closed(x.s, x.s)
    {
      if k < |y.log| { assert z.log[k] == z.log[..|y.log|][k] == y.log[k]; }
    }
  }

  lemma {:induction false} FlatFacts(n: Node, t: Subject, e: Env, x: St, y: St)
    requires WellFormed(n, e) && NoMemInLook(n) && Ok(t, e, x) && NoneOpen(Groups(n), x)
    requires CanMatch(n, t, x, y) && y.s == x.s
    ensures Flat(x, y)
    decreases n, 2
  {
    match n
    case Str(_) =>
    case CClass(_, _) =>
    case Any(_) =>
    case Backref(_) =>
    case Anchor(_) =>
    case Quant(target, _, _, _, _, _, _, _) =>
      var k: nat, z: St :| Chain(target, t, k, x, z) && y == z.(prev := y.prev);
      FlatChain(target, t, e, k, x, z);
      assert Flat(x, y);
    case Group(_, _, _, _) => FlatGroup(n, t, e, x, y);
    case Atomic(target, simple) =>
      if simple {
        var k: nat :| Chain(target.target, t, k, x, y);
        FlatChain(target.target, t, e, k, x, y);
      } else {
        FlatFacts(target, t, e, x, y);
      }
    case Look(_, _, _) => MatchFacts(n, t, e, x, y);
    case List(elems) => FlatList(elems, t, e, x, y);
    case Alt(elems) => FlatAlt(elems, t, e, x, y);
  }

  lemma {:induction false} FlatList(ns: Nodes, t: Subject, e: Env, x: St, y: St)
    requires WellFormedAll(ns, e) && NoMemInLookAll(ns) && Ok(t, e, x) && NoneOpen(GroupsOf(ns), x)
    requires CanMatchList(ns, t, x, y) && y.s == x.s
    ensures Flat(x, y)
    decreases ns, 2
  {
    match ns
    case Last(car) => FlatFacts(car, t, e, x, y);
    case Link(car, cdr) =>
      var z :| CanMatch(car, t, x, z) && CanMatchList(cdr, t, z, y);
      MatchFacts(car, t, e, x, z);
      StillClosed(Groups(car), GroupsOf(cdr), x, z);
      ListFacts(cdr, t, e, z, z, y, 0, 0);
      FlatFacts(car, t, e, x, z);
      FlatList(cdr, t, e, z, y);
      FlatTrans(x, z, y);
  }

  lemma StillClosed(g1: set<nat>, g2: set<nat>, x: St, z: St)
    requires Extends(g1, x, z) && NoneOpen(g2, x)
    ensures NoneOpen(g2, z)
  {
    forall g | g in g2 ensures !S.Get(z.caps, g).Open? {
      if g !in g1 { assert S.Get(z.caps, g) == S.Get(x.caps, g); }
    }
  }

  lemma {:induction false} FlatAlt(ns: Nodes, t: Subject, e: Env, x: St, y: St)
    requires WellFormedAll(ns, e) && NoMemInLookAll(ns) && Ok(t, e, x) && NoneOpen(GroupsOf(ns), x)
    requires CanMatchAlt(ns, t, x, y) && y.s == x.s
    ensures Flat(x, y)
    decreases ns, 2
  {
    match ns
    case Last(car) => FlatFacts(car, t, e, x, y);
    case Link(car, cdr) =>
      if CanMatch(car, t, x, y) { FlatFacts(car, t, e, x, y); } else { FlatAlt(cdr, t, e, x, y); }
  }

  lemma {:induction false} FlatGroup(n: Node, t: Subject, e: Env, x: St, y: St)
    requires n.Group? && WellFormed(n, e) && NoMemInLook(n) && Ok(t, e, x) && NoneOpen(Groups(n), x)
    requires CanMatch(n, t, x, y) && y.s == x.s
    ensures Flat(x, y)
    decreases n, 1
  {
    var x1 := S.OpenGroup(n.num, n.pushStart, x);
    var z :| CanMatch(n.target, t, x1, z) && y == S.CloseGroup(n.num, z);
    MatchFacts(n.target, t, e, x1, z);
    FlatFacts(n.target, t, e, x1, z);
    assert S.Get(z.caps, n.num) == S.Open(x.s);
    forall g ensures S.Get(y.caps, g) == S.Get(x.caps, g) || S.Get(y.caps, g) == S.Closed(x.s, x.s) {
      if g != n.num { assert S.Get(y.caps, g) == S.Get(z.caps, g) && S.Get(x1.caps, g) == S.Get(x.caps, g); }
    }
    forall k | |x.log| <= k < |y.log|
      ensures (y.log[k].was == S.Get(x.caps, y.log[k].num) || y.log[k].was == S.Closed(x.s, x.s))
      ensures S.Get(y.caps, y.log[k].num) == S.Closed(x.s, x.s)
    {
      if k < |x1.log| { assert z.log[k] == z.log[..|x1.log|][k] == x1.log[k]; }
    }
  }

  lemma {:induction false} FlatChain(n: Node, t: Subject, e: Env, k: nat, x: St, y: St)
    requires WellFormed(n, e) && NoMemInLook(n) && Ok(t, e, x) && NoneOpen(Groups(n), x)
    requires Chain(n, t, k, x, y) && y.s == x.s
    ensures Flat(x, y)
    decreases n, 3, k
  {
    if k > 0 {
      var z :| CanMatch(n, t, x, z) && Chain(n, t, k - 1, z, y);
      MatchFacts(n, t, e, x, z);
      ChainFacts(n, t, e, k - 1, z, y);
      FlatFacts(n, t, e, x, z);
      FlatChain(n, t, e, k - 1, z, y);
      FlatTrans(x, z, y);
    }
  }

  /** STACK_NULL_CHECK_MEMST lets the loop go on only for a capture that was not the empty one here. */
  lemma {:induction false} AgainNeedsVisit(visits: seq<S.Visit>, s: nat, moved: bool) returns (k: nat)
    requires S.MemTurn(visits, s, moved).Again?
    ensures k < |visits| && visits[k].was != S.Closed(s, s)
    decreases |visits|
  {
    if visits[0].was.Closed? && visits[0].was.start == visits[0].was.end {
      k := AgainNeedsVisit(visits[1..], s, moved || visits[0].was.end != s);
      k := k + 1;
    } else {
      k := 0;
    }
  }

  /** Whenever a loop turns again it has made progress. */
  lemma TurnMakesProgress(q: Node, t: Subject, e: Env, x: St, y: St)
    requires q.Quant? && WellFormed(q, e) && q.upper != 0 && Ok(t, e, x) && NoneOpen(Groups(q), x)
    requires CanMatch(q.target, t, x, y) && S.TurnOf(q, x, y).Again?
    ensures S.Progress(q, t, x, y)
  {
    var n := q.target;
    MatchFacts(n, t, e, x, y);
    if y.s == x.s {
      FlatFacts(n, t, e, x, y);
      var k := AgainNeedsVisit(y.log[|x.log|..], y.s, false);
      var v := y.log[|x.log| + k];
      assert v == y.log[|x.log|..][k];
      var before, after := S.Dirty(Groups(n), x), S.Dirty(Groups(n), y);
      assert v.num in before && v.num !in after;
      assert after <= before - {v.num};
      SubsetSize(after, before - {v.num});
    }
  }

  lemma SubsetSize(a: set<nat>, b: set<nat>)
    requires a <= b
    ensures |a| <= |b|
  {
    assert b == a + (b - a);
  }
}
