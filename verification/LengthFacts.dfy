/** What every match keeps and how long it can be: the bounds of Lengths hold for every text shorter than 2^63
    bytes in spite of wrap-around and saturation, and matches only move forward. */
module LengthFacts {
  import opened Common
  import opened Tree
  import opened Semantics
  import opened Matches
  import opened Lengths

  /** A state of a match over t: in range, with closed captures inside the text and within their bounds. */
  ghost predicate Ok(t: Subject, e: Env, x: St) {
    x.s <= t.End() < TWO_63
    && forall g :: g in x.caps && x.caps[g].Closed? ==>
         x.caps[g].start <= x.caps[g].end <= t.End()
         && e.MinOf(g) <= x.caps[g].end - x.caps[g].start <= e.MaxOf(g)
  }

  ghost predicate NoneOpen(gs: set<nat>, x: St) {
    forall g :: g in gs ==> !Get(x.caps, g).Open?
  }

  /** y comes later than x and differs from it only in the groups gs. */
  ghost predicate Extends(gs: set<nat>, x: St, y: St) {
    x.s <= y.s && |x.log| <= |y.log| && y.log[..|x.log|] == x.log
    && (forall g :: g !in gs ==> Get(y.caps, g) == Get(x.caps, g))
    && (forall k :: |x.log| <= k < |y.log| ==> y.log[k].num in gs)
    && NoneOpen(gs, y)
  }

  lemma ExtendsTrans(g1: set<nat>, g2: set<nat>, gs: set<nat>, x: St, y: St, z: St)
    requires Extends(g1, x, y) && Extends(g2, y, z) && g1 <= gs && g2 <= gs
    requires NoneOpen(gs, x)
    ensures Extends(gs, x, z)
  {
    assert z.log[..|x.log|] == y.log[..|x.log|];
    forall k | |x.log| <= k < |z.log| ensures z.log[k].num in gs {
      if k < |y.log| { assert z.log[k] == z.log[..|y.log|][k] == y.log[k]; }
    }
    forall g | g in gs ensures !Get(z.caps, g).Open? {
      if g !in g2 {
        assert Get(z.caps, g) == Get(y.caps, g);
        if g !in g1 { assert Get(y.caps, g) == Get(x.caps, g); }
      }
    }
  }

  /** The length of a match from x to y: within the bounds, and exact where CharLen is. */
  ghost predicate LengthOk(n: Node, e: Env, x: St, y: St) {
    MinLen(n, e) <= y.s - x.s <= MaxLen(n, e)
    && (CharLen(n).Some? ==> y.s - x.s == CharLen(n).value)
  }

  lemma MultiplyLow(d: nat, m: nat, total: nat)
    requires 0 < m < 0x8000_0000 && d * m <= total < TWO_63
    ensures DistanceMultiply(d, m) <= total
  {
    Quotient(d, m);
  }

  /** A product below 2^63 is computed exactly. */
  lemma Quotient(d: nat, m: nat)
    requires 0 < m < 0x8000_0000 && d * m < TWO_63
    ensures d < INFINITE_DISTANCE / m
  {
    var q := INFINITE_DISTANCE / m;
    assert q * m > INFINITE_DISTANCE - m;
    if q <= d { MulMono(q, d, m); }
  }

  lemma MulMono(a: nat, b: nat, m: nat)
    requires a <= b
    ensures a * m <= b * m
  {
    assert (b - a) * m >= 0;
    assert b * m == a * m + (b - a) * m;
  }

  lemma MultiplyHigh(d: nat, k: nat, m: nat, total: nat)
    requires total <= d * k && k <= m && 0 < m && total < TWO_63
    ensures total <= DistanceMultiply(d, m)
  {
    MulMono(k, m, d);
  }

  /** A fixed character length that fits the text is also the minimal length. */
  lemma {:induction false} CharLenIsMin(n: Node, e: Env)
    requires WellFormed(n, e) && CharLen(n).Some? && CharLen(n).value < TWO_63
    ensures MinLen(n, e) == CharLen(n).value
    decreases n
  {
    match n
    case Str(_) =>
    case CClass(_, _) =>
    case Any(_) =>
    case Backref(_) =>
    case Quant(target, lower, _, _, _, _, _, _) =>
      var c := CharLen(target).value;
      if lower > 0 {
        MulMono(1, lower, c);
        CharLenIsMin(target, e);
        MultiplyLow(c, lower, c * lower);
        Quotient(c, lower);
      }
    case Group(_, _, _, target) => CharLenIsMin(target, e);
    case Atomic(target, _) => CharLenIsMin(target, e);
    case Look(_, _, _) =>
    case Anchor(_) =>
    case List(elems) => CharLenIsMinList(elems, e, 0);
    case Alt(elems) => CharLenIsMinAlt(elems, e);
  }

  lemma {:induction false} CharLenIsMinList(ns: Nodes, e: Env, sum: nat)
    requires WellFormedAll(ns, e) && CharLenList(ns).Some? && sum + CharLenList(ns).value < TWO_63
    ensures MinLenList(ns, e, sum) == sum + CharLenList(ns).value
    decreases ns
  {
    hide CharLen, MinLen, WellFormed, Wrap;
    WrapLess(sum + MinLen(ns.car, e));
    match ns
    case Last(car) => CharLenIsMin(car, e);
    case Link(car, cdr) =>
      CharLenIsMin(car, e);
      CharLenIsMinList(cdr, e, sum + MinLen(car, e));
  }

  lemma {:induction false} CharLenIsMinAlt(ns: Nodes, e: Env)
    requires WellFormedAll(ns, e) && CharLenAlt(ns).Some? && CharLenAlt(ns).value < TWO_63
    ensures MinLenAlt(ns, e) == CharLenAlt(ns).value
    decreases ns
  {
    match ns
    case Last(car) => CharLenIsMin(car, e);
    case Link(car, cdr) =>
      CharLenIsMin(car, e);
      CharLenIsMinAlt(cdr, e);
  }

  /** Every match keeps the state in order, touches only its own groups and has a length within the bounds. */
  lemma {:induction false} MatchFacts(n: Node, t: Subject, e: Env, x: St, y: St)
    requires WellFormed(n, e) && Ok(t, e, x) && NoneOpen(Groups(n), x) && CanMatch(n, t, x, y)
    ensures Ok(t, e, y) && Extends(Groups(n), x, y) && LengthOk(n, e, x, y)
    decreases n, 2
  {
    match n
    case Str(_) =>
    case CClass(_, _) =>
    case Any(_) =>
    case Backref(_) => BackrefFacts(n, t, e, x, y);
    case Anchor(_) =>
    case Quant(_, _, _, _, _, _, _, _) => QuantFacts(n, t, e, x, y);
    case Group(_, _, _, _) => GroupFacts(n, t, e, x, y);
    case Atomic(_, _) => AtomicFacts(n, t, e, x, y);
    case Look(_, _, _) => LookFacts(n, t, e, x, y);
    case List(elems) => ListFacts(elems, t, e, x, x, y, 0, 0);
    case Alt(elems) => AltFacts(elems, t, e, x, y);
  }

  lemma BackrefFacts(n: Node, t: Subject, e: Env, x: St, y: St)
    requires n.Backref? && Ok(t, e, x) && CanMatch(n, t, x, y)
    ensures Ok(t, e, y) && Extends(Groups(n), x, y) && LengthOk(n, e, x, y)
  {
    assert n.num in x.caps;
  }

  lemma {:induction false} ListFacts(ns: Nodes, t: Subject, e: Env, x0: St, x: St, y: St, min: nat, max: nat)
    requires WellFormedAll(ns, e) && Ok(t, e, x) && NoneOpen(GroupsOf(ns), x) && CanMatchList(ns, t, x, y)
    requires x0.s + min <= x.s <= x0.s + max
    ensures Ok(t, e, y) && Extends(GroupsOf(ns), x, y)
    ensures MinLenList(ns, e, min) <= y.s - x0.s <= MaxLenList(ns, e, max)
    ensures CharLenList(ns).Some? ==> y.s - x.s == CharLenList(ns).value
    decreases ns, 2
  {
    hide Wrap;
    WrapLess(min + MinLen(ns.car, e));
    match ns
    case Last(car) => MatchFacts(car, t, e, x, y);
    case Link(car, cdr) =>
      var z :| CanMatch(car, t, x, z) && CanMatchList(cdr, t, z, y);
      MatchFacts(car, t, e, x, z);
      assert NoneOpen(GroupsOf(cdr), z) by {
        forall g | g in GroupsOf(cdr) ensures !Get(z.caps, g).Open? {
          if g !in Groups(car) { assert Get(z.caps, g) == Get(x.caps, g); }
        }
      }
      ListFacts(cdr, t, e, x0, z, y, Wrap(min + MinLen(car, e)), DistanceAdd(max, MaxLen(car, e)));
      ExtendsTrans(Groups(car), GroupsOf(cdr), GroupsOf(ns), x, z, y);
  }

  lemma {:induction false} AltFacts(ns: Nodes, t: Subject, e: Env, x: St, y: St)
    requires WellFormedAll(ns, e) && Ok(t, e, x) && NoneOpen(GroupsOf(ns), x) && CanMatchAlt(ns, t, x, y)
    ensures Ok(t, e, y) && Extends(GroupsOf(ns), x, y)
    ensures MinLenAlt(ns, e) <= y.s - x.s <= MaxLenAlt(ns, e)
    ensures CharLenAlt(ns).Some? ==> y.s - x.s == CharLenAlt(ns).value
    decreases ns, 2
  {
    match ns
    case Last(car) => MatchFacts(car, t, e, x, y);
    case Link(car, cdr) =>
      if CanMatch(car, t, x, y) {
        MatchFacts(car, t, e, x, y);
        assert Extends(Groups(car), x, y);
      } else {
        AltFacts(cdr, t, e, x, y);
      }
      WidenExtends(if CanMatch(car, t, x, y) then Groups(car) else GroupsOf(cdr), GroupsOf(ns), x, y);
  }

  lemma WidenExtends(g1: set<nat>, gs: set<nat>, x: St, y: St)
    requires Extends(g1, x, y) && g1 <= gs && NoneOpen(gs, x)
    ensures Extends(gs, x, y)
  {
    forall g | g in gs ensures !Get(y.caps, g).Open? {
      if g !in g1 { assert Get(y.caps, g) == Get(x.caps, g); }
    }
  }

  lemma {:induction false} GroupFacts(n: Node, t: Subject, e: Env, x: St, y: St)
    requires n.Group? && WellFormed(n, e) && Ok(t, e, x) && NoneOpen(Groups(n), x) && CanMatch(n, t, x, y)
    ensures Ok(t, e, y) && Extends(Groups(n), x, y) && LengthOk(n, e, x, y)
    decreases n, 1
  {
    hide Ok;
    assert Ok(t, e, OpenGroup(n.num, n.pushStart, x)) by { OpenOk(n, t, e, x); }
    var x1 := OpenGroup(n.num, n.pushStart, x);
    var z :| CanMatch(n.target, t, x1, z) && y == CloseGroup(n.num, z);
    MatchFacts(n.target, t, e, x1, z);
    assert Get(z.caps, n.num) == Open(x.s);
    CloseExtends(n.num, n.pushStart, Groups(n.target), x, z);
    CloseOk(n, t, e, x, z);
  }

  lemma OpenOk(n: Node, t: Subject, e: Env, x: St)
    requires n.Group? && Ok(t, e, x)
    ensures Ok(t, e, OpenGroup(n.num, n.pushStart, x))
  {
  }

  lemma CloseOk(n: Node, t: Subject, e: Env, x: St, z: St)
    requires n.Group? && e.MinOf(n.num) <= MinLen(n.target, e) && MaxLen(n.target, e) <= e.MaxOf(n.num)
    requires Ok(t, e, z) && Get(z.caps, n.num) == Open(x.s) && LengthOk(n.target, e, x, z)
    ensures Ok(t, e, CloseGroup(n.num, z))
  {
    hide MinLen, MaxLen, CharLen;
  }

  lemma CloseExtends(num: nat, push: bool, gs: set<nat>, x: St, z: St)
    requires Extends(gs, OpenGroup(num, push, x), z) && num !in gs
    ensures Extends(gs + {num}, x, CloseGroup(num, z))
  {
    var x1, y := OpenGroup(num, push, x), CloseGroup(num, z);
    assert z.log[..|x.log|] == z.log[..|x1.log|][..|x.log|];
    forall k | |x.log| <= k < |y.log| ensures y.log[k].num in gs + {num} {
      if k < |x1.log| { assert z.log[k] == z.log[..|x1.log|][k]; }
    }
    forall g | g !in gs + {num} ensures Get(y.caps, g) == Get(x.caps, g) {
      assert Get(z.caps, g) == Get(x1.caps, g);
    }
  }

  lemma {:induction false} ChainFacts(n: Node, t: Subject, e: Env, k: nat, x: St, y: St)
    requires WellFormed(n, e) && Ok(t, e, x) && NoneOpen(Groups(n), x) && Chain(n, t, k, x, y)
    ensures Ok(t, e, y) && Extends(Groups(n), x, y)
    ensures MinLen(n, e) * k <= y.s - x.s <= MaxLen(n, e) * k
    ensures CharLen(n).Some? ==> y.s - x.s == CharLen(n).value * k
    decreases n, 3, k
  {
    if k > 0 {
      var z :| CanMatch(n, t, x, z) && Chain(n, t, k - 1, z, y);
      MatchFacts(n, t, e, x, z);
      ChainFacts(n, t, e, k - 1, z, y);
      ExtendsTrans(Groups(n), Groups(n), Groups(n), x, z, y);
      MulStep(MinLen(n, e), k);
      MulStep(MaxLen(n, e), k);
      if CharLen(n).Some? { MulStep(CharLen(n).value, k); }
    }
  }

  lemma MulStep(d: nat, k: nat)
    requires k > 0
    ensures d * k == d + d * (k - 1)
  {
  }

  lemma {:induction false} QuantFacts(q: Node, t: Subject, e: Env, x: St, y: St)
    requires q.Quant? && WellFormed(q, e) && Ok(t, e, x) && NoneOpen(Groups(q), x) && CanMatch(q, t, x, y)
    ensures Ok(t, e, y) && Extends(Groups(q), x, y) && LengthOk(q, e, x, y)
    decreases q, 1
  {
    var n := q.target;
    var k: nat, z: St :|
      Chain(n, t, k, x, z) && y == z.(prev := y.prev)
      && (q.lower <= k || (!q.emptyInfo.NotEmpty? && EndsIdle(n, t, k, x, z)))
      && (Infinite(q.upper) || k <= Max(q.lower, q.upper));
    ChainFacts(n, t, e, k, x, z);
    assert Extends(Groups(n), x, y) && Ok(t, e, y);
    QuantBounds(q, e, k, y.s - x.s, t);
  }

  /** The length of k iterations against the bounds of the quantifier. */
  lemma QuantBounds(q: Node, e: Env, k: nat, total: nat, t: Subject)
    requires q.Quant? && WellFormed(q, e) && total <= t.End() < TWO_63
    requires MinLen(q.target, e) * k <= total <= MaxLen(q.target, e) * k
    requires CharLen(q.target).Some? ==> total == CharLen(q.target).value * k
    requires q.lower <= k || (!q.emptyInfo.NotEmpty? && 1 <= k)
    requires Infinite(q.upper) || k <= Max(q.lower, q.upper)
    ensures MinLen(q, e) <= total <= MaxLen(q, e)
    ensures CharLen(q).Some? ==> total == CharLen(q).value
  {
    var min, max := MinLen(q.target, e), MaxLen(q.target, e);
    if q.lower > 0 {
      if q.lower <= k {
        MulMono(q.lower, k, min);
        MultiplyLow(min, q.lower, total);
      } else {
        assert min == 0;
      }
    }
    if !Infinite(q.upper) && q.upper != 0 { MultiplyHigh(max, k, q.upper, total); }
    if CharLen(q).Some? && k != q.lower {
      var c := CharLen(q.target).value;
      assert min == 0 && 1 <= k;
      if c >= TWO_63 {
        MulMono(1, k, c);
        assert false;
      }
      CharLenIsMin(q.target, e);
      assert c == 0;
    }
  }

  lemma {:induction false} AtomicFacts(n: Node, t: Subject, e: Env, x: St, y: St)
    requires n.Atomic? && WellFormed(n, e) && Ok(t, e, x) && NoneOpen(Groups(n), x) && CanMatch(n, t, x, y)
    ensures Ok(t, e, y) && Extends(Groups(n), x, y) && LengthOk(n, e, x, y)
    decreases n, 1
  {
    if n.simple {
      var q := n.target;
      var k: nat :| q.lower <= k && Chain(q.target, t, k, x, y);
      ChainFacts(q.target, t, e, k, x, y);
      QuantBounds(q, e, k, y.s - x.s, t);
    } else {
      MatchFacts(n.target, t, e, x, y);
    }
  }

  lemma {:induction false} LookFacts(n: Node, t: Subject, e: Env, x: St, y: St)
    requires n.Look? && WellFormed(n, e) && Ok(t, e, x) && NoneOpen(Groups(n), x) && CanMatch(n, t, x, y)
    ensures Ok(t, e, y) && Extends(Groups(n), x, y) && LengthOk(n, e, x, y)
    decreases n, 1
  {
    if n.look.Ahead? {
      var z :| CanMatch(n.target, t, x, z) && y == z.(s := x.s, prev := x.prev);
      MatchFacts(n.target, t, e, x, z);
    } else if n.look.Behind? {
      MatchFacts(n.target, t, e, StepBack(x, n.charLen), y);
    }
  }
}
