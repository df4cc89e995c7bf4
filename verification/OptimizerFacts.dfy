/** The optimizer is sound: every match contains the exact string, or one of the bytes, inside the window. */
module OptimizerFacts {
  import opened Common
  import opened Tree
  import opened Semantics
  import opened Matches
  import opened Lengths
  import opened LengthFacts
  import opened Optimizer
  import Opcodes
  import opened Progress

  predicate In(w: Window, d: int) { w.min <= d <= w.max }

  /** The string of ex stands at p, for a match that began at m, in a node that ends at `end`. */
  ghost predicate ExactAt(t: Subject, ex: Exact, m: int, p: int, end: int) {
    In(ex.mmd, p - m) && t.Has(p, ex.s) && |ex.s| <= OPT_EXACT_MAXLEN
    && (ex.reachEnd && |ex.s| < OPT_EXACT_MAXLEN ==> p + |ex.s| == end)
  }

  ghost predicate ByteAt(t: Subject, c: ByteMap, m: int, p: int) {
    In(c.mmd, p - m) && 0 <= p < t.End() && t.data[p] in c.bytes
  }

  ghost predicate ExbOk(t: Subject, ex: Exact, m: int, s: int, end: int) {
    ex.s != [] ==> ExactAt(t, ex, m, s, end)
  }

  ghost predicate ExmOk(t: Subject, ex: Exact, m: int, end: int) {
    ex.s != [] ==> exists p :: ExactAt(t, ex, m, p, end)
  }

  ghost predicate MapOk(t: Subject, c: ByteMap, m: int) {
    c.value > 0 ==> exists p :: ByteAt(t, c, m, p)
  }

  /** The record holds of a part of a match that goes from s to end. */
  ghost predicate InfoOk(t: Subject, i: Info, m: int, s: int, end: int) {
    In(i.len, end - s) && ExbOk(t, i.exb, m, s, end) && ExmOk(t, i.exm, m, end) && MapOk(t, i.chars, m)
  }

  lemma HasPart(t: Subject, p: int, s: seq<byte>, k: nat)
    requires t.Has(p, s) && k <= |s|
    ensures t.Has(p, s[..k])
  {
    assert t.data[p..p + k] == t.data[p..p + |s|][..k];
  }

  lemma HasBoth(t: Subject, p: int, a: seq<byte>, b: seq<byte>)
    requires t.Has(p, a) && t.Has(p + |a|, b)
    ensures t.Has(p, a + b)
  {
    assert t.data[p..p + |a + b|] == t.data[p..p + |a|] + t.data[p + |a|..p + |a| + |b|];
  }

  // ---------------------------------------------------------------- merging

  /** A string that ends where another one stands grows by it. */
  lemma ConcatOk(t: Subject, to: Exact, add: Exact, m: int, m2: int, p: int, mid: int, end: int)
    requires to.s != [] && to.reachEnd && ExactAt(t, to, m, p, mid) && add.s != [] && ExactAt(t, add, m2, mid, end)
    ensures ExactAt(t, ConcatExact(to, add), m, p, end)
  {
    var k := Fitting(add.s, |to.s|);
    HasPart(t, mid, add.s, |k|);
    if |to.s| < OPT_EXACT_MAXLEN { HasBoth(t, p, to.s, k); } else { assert to.s + k == to.s; }
  }

  lemma SelectedExm(t: Subject, now: Exact, alt: Exact, m: int, end: int)
    requires ExmOk(t, now, m, end) && ExmOk(t, alt, m, end)
    ensures ExmOk(t, SelectExact(now, alt), m, end)
  {
  }

  lemma SelectedMap(t: Subject, now: ByteMap, alt: ByteMap, m: int)
    requires MapOk(t, now, m) && MapOk(t, alt, m)
    ensures MapOk(t, SelectMap(now, alt), m)
  {
  }

  lemma AddedWindow(a: Window, b: Window, d1: int, d2: int)
    requires In(a, d1) && In(b, d2) && d1 + d2 < TWO_63
    ensures In(AddWindow(a, b), d1 + d2)
  {
  }

  /** The record of a list so far: no string at its start, and an empty one never claims to reach the end. */
  predicate ListInfo(i: Info) { i.exb.s == [] && !i.exb.reachEnd && (i.exm.reachEnd ==> i.exm.s != []) }

  lemma ConcatKeeps(to: Info, add: Info)
    requires ListInfo(to)
    ensures ListInfo(ConcatLeft(to, add))
  {
    hide CompareDistance, ByteValue;
  }

  /** The string in the middle after one more part. */
  lemma MiddleGrows(t: Subject, to: Info, add: Info, addExb: Exact, m: int, s: int, mid: int, end: int)
    requires ListInfo(to) && InfoOk(t, to, m, s, mid) && InfoOk(t, add, m, mid, end)
    requires addExb == add.exb.(anc := addExb.anc)
    ensures var exm := to.exm.(reachEnd := add.len.max == 0 && to.exm.reachEnd);
      ExmOk(t, if addExb.s != [] && to.exm.reachEnd then ConcatExact(exm, addExb) else exm, m, end)
    ensures ExmOk(t, addExb, m, end)
  {
    var exm := to.exm.(reachEnd := add.len.max == 0 && to.exm.reachEnd);
    if addExb.s != [] { assert ExactAt(t, addExb, m, mid, end); }
    if to.exm.s != [] {
      var p :| ExactAt(t, to.exm, m, p, mid);
      if addExb.s != [] && to.exm.reachEnd {
        ConcatOk(t, to.exm, addExb, m, m, p, mid, end);
        assert ConcatExact(exm, addExb) == ConcatExact(to.exm, addExb);
      } else {
        assert ExactAt(t, exm, m, p, end);
      }
    }
  }

  lemma ConcatLeftOk(t: Subject, to: Info, add: Info, m: int, s: int, mid: int, end: int)
    requires ListInfo(to) && InfoOk(t, to, m, s, mid) && InfoOk(t, add, m, mid, end) && end - s < TWO_63
    ensures InfoOk(t, ConcatLeft(to, add), m, s, end)
  {
    hide SelectExact, SelectMap, ConcatExact, ExactAt, ByteAt, ConcatAnchors, AddWindow, In;
    var r := ConcatLeft(to, add);
    assert In(r.len, (mid - s) + (end - mid)) by { AddedWindow(to.len, add.len, mid - s, end - mid); }
    var anc := ConcatAnchors(to.anc, add.anc, to.len.max, add.len.max);
    var addExb :=
      if add.exb.s != [] && to.len.max == 0
      then add.exb.(anc := ConcatAnchors(anc, add.exb.anc, to.len.max, add.len.max)) else add.exb;
    var addChars :=
      if add.chars.value > 0 && to.len.max == 0 && add.chars.mmd.max == 0
      then add.chars.(anc := add.chars.anc.(left := add.chars.anc.left + anc.left)) else add.chars;
    var exm := to.exm.(reachEnd := add.len.max == 0 && to.exm.reachEnd);
    var join := addExb.s != [] && to.exm.reachEnd;
    var one := if join then ConcatExact(exm, addExb) else exm;
    var two := if join then CLEAR_EXACT else addExb;
    MiddleGrows(t, to, add, addExb, m, s, mid, end);
    SelectedExm(t, one, two, m, end);
    SelectedExm(t, SelectExact(one, two), add.exm, m, end);
    MapAnchors(t, add.chars, addChars, m);
    SelectedMap(t, to.chars, addChars, m);
    assert r.exm == SelectExact(SelectExact(one, two), add.exm);
    assert r.chars == SelectMap(to.chars, addChars);
  }

  lemma MapAnchors(t: Subject, a: ByteMap, b: ByteMap, m: int)
    requires MapOk(t, a, m) && b == a.(anc := b.anc)
    ensures MapOk(t, b, m)
  {
    if b.value > 0 {
      var p :| ByteAt(t, a, m, p);
      assert ByteAt(t, b, m, p);
    }
  }

  /** A string two alternatives share. */
  lemma AltExactAt(t: Subject, a: Exact, b: Exact, m: int, p: int, end: int)
    requires a.s != [] && b.s != [] && a.mmd == b.mmd && (ExactAt(t, a, m, p, end) || ExactAt(t, b, m, p, end))
    ensures ExactAt(t, AltExact(a, b), m, p, end)
  {
    var k := CommonPrefix(a.s, b.s);
    if ExactAt(t, a, m, p, end) { HasPart(t, p, a.s, k); } else { HasPart(t, p, b.s, k); }
    assert k == |a.s| && k == |b.s| ==> a.s == a.s[..k] && b.s == b.s[..k];
  }

  lemma AltMergeOk(t: Subject, a: Info, b: Info, m: int, s: int, end: int)
    requires InfoOk(t, a, m, s, end) || InfoOk(t, b, m, s, end)
    ensures InfoOk(t, AltMerge(a, b), m, s, end)
  {
    hide ExactAt, AltExact, AltMap;
    var r := AltMerge(a, b);
    AltExactEmpty(a.exb, b.exb);
    AltExactEmpty(a.exm, b.exm);
    if r.exb.s != [] { AltExactAt(t, a.exb, b.exb, m, s, end); }
    if r.exm.s != [] {
      var p :| ExactAt(t, a.exm, m, p, end) || ExactAt(t, b.exm, m, p, end);
      AltExactAt(t, a.exm, b.exm, m, p, end);
    }
    AltMapOk(t, a.chars, b.chars, m, InfoOk(t, a, m, s, end));
  }

  lemma AltExactEmpty(a: Exact, b: Exact)
    ensures AltExact(a, b).s != [] ==> a.s != [] && b.s != [] && a.mmd == b.mmd
  {
  }

  lemma AltMapOk(t: Subject, a: ByteMap, b: ByteMap, m: int, first: bool)
    requires if first then MapOk(t, a, m) else MapOk(t, b, m)
    ensures MapOk(t, AltMap(a, b), m)
  {
    hide TotalValue;
    var r := AltMap(a, b);
    if r.value > 0 && a.value > 0 {
      var p :| if first then ByteAt(t, a, m, p) else ByteAt(t, b, m, p);
      assert ByteAt(t, r, m, p);
    }
  }

  // ---------------------------------------------------------------- every tree

  /** What optimize_node_left says of a node holds of every match of it that starts inside the window. */
  lemma {:induction false} Optimized(n: Node, t: Subject, e: Env, refs: set<nat>, mmd: Window, m: nat, x: St, y: St)
    requires WellFormed(n, e) && NoAhead(n) && Ok(t, e, x) && NoneOpen(Groups(n), x) && CanMatch(n, t, x, y)
    requires In(mmd, x.s - m)
    ensures InfoOk(t, OptimizeLeft(n, e, refs, mmd), m, x.s, y.s)
    decreases n, 2
  {
    match n
    case Str(s) => StrOptimized(s, t, e, refs, mmd, m, x.s);
    case CClass(bs, neg) => if !neg { ClassOptimized(bs, t, mmd, m, x.s); }
    case Any(_) =>
    case Backref(_) => BackrefOptimized(n, t, e, x, y);
    case Anchor(_) =>
    case Quant(_, _, _, _, _, _, _, _) => QuantOptimized(n, t, e, refs, mmd, m, x, y);
    case Group(_, _, _, _) => GroupOptimized(n, t, e, refs, mmd, m, x, y);
    case Atomic(target, simple) =>
      if simple {
        AtomicIsQuant(n, t, x, y);
        QuantOptimized(target, t, e, refs, mmd, m, x, y);
      } else {
        Optimized(target, t, e, refs, mmd, m, x, y);
      }
    case Look(_, _, _) => LookFacts(n, t, e, x, y);
    case List(elems) => ListOptimized(elems, t, e, refs, mmd, m, x.s, x, y, Fresh(mmd));
    case Alt(elems) => AltOptimized(elems, t, e, refs, mmd, m, x, y);
  }

  lemma {:induction false} GroupOptimized(n: Node, t: Subject, e: Env, refs: set<nat>, mmd: Window, m: nat, x: St,
      y: St)
    requires n.Group? && WellFormed(n, e) && NoAhead(n) && Ok(t, e, x) && NoneOpen(Groups(n), x) && CanMatch(n, t, x, y)
    requires In(mmd, x.s - m)
    ensures InfoOk(t, OptimizeLeft(n, e, refs, mmd), m, x.s, y.s)
    decreases n, 1
  {
    var x1 := OpenGroup(n.num, n.pushStart, x);
    var z :| CanMatch(n.target, t, x1, z) && y == CloseGroup(n.num, z);
    OpenOk(n, t, e, x);
    assert NoneOpen(Groups(n.target), x1);
    hide Ok, CanMatch, WellFormed, NoAhead, Groups;
    Optimized(n.target, t, e, refs, mmd, m, x1, z);
  }

  lemma StrOptimized(s: seq<byte>, t: Subject, e: Env, refs: set<nat>, mmd: Window, m: int, p: nat)
    requires Opcodes.Fits32(|s|) && t.Has(p, s) && In(mmd, p - m)
    ensures InfoOk(t, OptimizeLeft(Str(s), e, refs, mmd), m, p, p + |s|)
  {
    var i := OptimizeLeft(Str(s), e, refs, mmd);
    HasPart(t, p, s, |Fitting(s, 0)|);
    if s != [] {
      assert t.data[p] == t.data[p..p + |s|][0];
      assert ByteAt(t, i.chars, m, p);
    }
  }

  lemma {:induction false} ClassBytes(c: ByteMap, bs: seq<byte>, i: nat, b: byte)
    requires |bs| == 32
    ensures b in c.bytes || (i <= b && BitAt(bs, b)) ==> b in AddClass(c, bs, i).bytes
    ensures AddClass(c, bs, i).mmd == c.mmd
    decreases 256 - i
  {
    hide BitAt, ByteValue;
    if i < 256 { ClassBytes(if BitAt(bs, i) then AddChar(c, i) else c, bs, i + 1, b); }
  }

  lemma ClassOptimized(bs: seq<byte>, t: Subject, mmd: Window, m: int, p: nat)
    requires |bs| == 32 && p < t.End() && ClassHas(bs, false, t.At(p)) && In(mmd, p - m)
    ensures MapOk(t, AddClass(Fresh(mmd).chars, bs, 0), m)
  {
    hide AddClass, BitAt;
    ClassBytes(Fresh(mmd).chars, bs, 0, t.data[p]);
    assert ByteAt(t, AddClass(Fresh(mmd).chars, bs, 0), m, p);
  }

  lemma BackrefOptimized(n: Node, t: Subject, e: Env, x: St, y: St)
    requires n.Backref? && Ok(t, e, x) && CanMatch(n, t, x, y)
    ensures In(Window(e.MinOf(n.num), e.MaxOf(n.num)), y.s - x.s)
  {
    BackrefFacts(n, t, e, x, y);
  }

  lemma AtomicIsQuant(n: Node, t: Subject, x: St, y: St)
    requires n.Atomic? && n.simple && n.target.Quant? && Infinite(n.target.upper) && CanMatch(n, t, x, y)
    ensures CanMatch(n.target, t, x, y)
  {
    assert y == y.(prev := y.prev);
  }

  lemma {:induction false} ListOptimized(ns: Nodes, t: Subject, e: Env, refs: set<nat>, mmd: Window, m: nat, s: int,
      x: St, y: St, opt: Info)
    requires WellFormedAll(ns, e) && NoAheadAll(ns) && Ok(t, e, x) && NoneOpen(GroupsOf(ns), x)
        && CanMatchList(ns, t, x, y)
    requires In(mmd, x.s - m) && 0 <= s && ListInfo(opt) && Sized(opt) && InfoOk(t, opt, m, s, x.s)
    ensures InfoOk(t, OptimizeList(ns, e, refs, mmd, opt), m, s, y.s)
    decreases ns, 2
  {
    hide ConcatLeft, InfoOk, ListInfo, OptimizeLeft, WellFormed, NoAhead, Groups;
    match ns
    case Last(car) =>
      Optimized(car, t, e, refs, mmd, m, x, y);
      MatchFacts(car, t, e, x, y);
      ConcatLeftOk(t, opt, OptimizeLeft(car, e, refs, mmd), m, s, x.s, y.s);
    case Link(car, cdr) =>
      var z :| CanMatch(car, t, x, z) && CanMatchList(cdr, t, z, y);
      var nopt := OptimizeLeft(car, e, refs, mmd);
      Optimized(car, t, e, refs, mmd, m, x, z);
      MatchFacts(car, t, e, x, z);
      ConcatLeftOk(t, opt, nopt, m, s, x.s, z.s);
      ConcatKeeps(opt, nopt);
      StillClosed(Groups(car), GroupsOf(cdr), x, z);
      WindowMoves(t, nopt, mmd, m, x.s, z.s);
      ListOptimized(cdr, t, e, refs, AddWindow(mmd, nopt.len), m, s, z, y, ConcatLeft(opt, nopt));
  }

  lemma WindowMoves(t: Subject, i: Info, mmd: Window, m: nat, s: int, end: int)
    requires In(mmd, s - m) && InfoOk(t, i, m, s, end) && end < TWO_63
    ensures In(AddWindow(mmd, i.len), end - m)
  {
    AddedWindow(mmd, i.len, s - m, end - s);
  }

  lemma {:induction false} AltOptimized(ns: Nodes, t: Subject, e: Env, refs: set<nat>, mmd: Window, m: nat, x: St,
      y: St)
    requires WellFormedAll(ns, e) && NoAheadAll(ns) && Ok(t, e, x) && NoneOpen(GroupsOf(ns), x)
        && CanMatchAlt(ns, t, x, y)
    requires In(mmd, x.s - m)
    ensures InfoOk(t, OptimizeAlt(ns, e, refs, mmd), m, x.s, y.s)
    decreases ns, 2
  {
    hide InfoOk, OptimizeLeft, WellFormed, NoAhead, AltMerge;
    var opt := OptimizeLeft(ns.car, e, refs, mmd);
    if CanMatch(ns.car, t, x, y) { Optimized(ns.car, t, e, refs, mmd, m, x, y); }
    if ns.Link? { AltRestOptimized(ns.cdr, t, e, refs, mmd, m, x, y, opt); }
  }

  lemma {:induction false} AltRestOptimized(ns: Nodes, t: Subject, e: Env, refs: set<nat>, mmd: Window, m: nat, x: St,
      y: St, opt: Info)
    requires WellFormedAll(ns, e) && NoAheadAll(ns) && Ok(t, e, x) && NoneOpen(GroupsOf(ns), x) && Sized(opt)
    requires InfoOk(t, opt, m, x.s, y.s) || CanMatchAlt(ns, t, x, y)
    requires In(mmd, x.s - m)
    ensures InfoOk(t, OptimizeAltRest(ns, e, refs, mmd, opt), m, x.s, y.s)
    decreases ns, 2
  {
    hide InfoOk, OptimizeLeft, WellFormed, NoAhead, AltMerge;
    var nopt := OptimizeLeft(ns.car, e, refs, mmd);
    if CanMatch(ns.car, t, x, y) { Optimized(ns.car, t, e, refs, mmd, m, x, y); }
    if InfoOk(t, opt, m, x.s, y.s) || CanMatch(ns.car, t, x, y) { AltMergeOk(t, opt, nopt, m, x.s, y.s); }
    if ns.Link? { AltRestOptimized(ns.cdr, t, e, refs, mmd, m, x, y, AltMerge(opt, nopt)); }
  }

  // ---------------------------------------------------------------- repetition

  /** The length of k turns. */
  lemma {:induction false} ChainWindow(n: Node, t: Subject, e: Env, refs: set<nat>, mmd: Window, m: nat, k: nat, x: St,
      y: St)
    requires WellFormed(n, e) && NoAhead(n) && Ok(t, e, x) && NoneOpen(Groups(n), x) && Chain(n, t, k, x, y)
    requires In(mmd, x.s - m)
    ensures var len := OptimizeLeft(n, e, refs, mmd).len; len.min * k <= y.s - x.s <= len.max * k
    decreases n, 3, k
  {
    hide OptimizeLeft, WellFormed, NoAhead, Groups;
    if k > 0 {
      var len := OptimizeLeft(n, e, refs, mmd).len;
      var z :| CanMatch(n, t, x, z) && Chain(n, t, k - 1, z, y);
      Optimized(n, t, e, refs, mmd, m, x, z);
      MatchFacts(n, t, e, x, z);
      ChainWindow(n, t, e, refs, mmd, m + (z.s - x.s), k - 1, z, y);
      MulStep(len.min, k);
      MulStep(len.max, k);
    }
  }

  /** A turn that consumed nothing shows that the shortest match is empty and that no exact string is the whole match.
      */
  lemma {:induction false} IdleWindow(n: Node, t: Subject, e: Env, refs: set<nat>, mmd: Window, m: nat, k: nat, x: St,
      y: St)
    requires WellFormed(n, e) && NoAhead(n) && Ok(t, e, x) && NoneOpen(Groups(n), x) && EndsIdle(n, t, k, x, y)
    requires In(mmd, x.s - m)
    ensures var i := OptimizeLeft(n, e, refs, mmd);
      i.len.min == 0 && !(i.exb.s != [] && i.exb.reachEnd && |i.exb.s| < OPT_EXACT_MAXLEN)
    decreases n, 3, k
  {
    hide OptimizeLeft, WellFormed, NoAhead, Groups;
    var w :| Chain(n, t, k - 1, x, w) && CanMatch(n, t, w, y) && w.s == y.s;
    ChainFacts(n, t, e, k - 1, x, w);
    Optimized(n, t, e, refs, mmd, m + (w.s - x.s), w, y);
  }

  lemma LeastTimes(min: nat, lower: nat, k: nat, total: nat)
    requires min * k <= total < TWO_63 && lower < 0x8000_0000 && (lower <= k || min == 0)
    ensures DistanceMultiply(min, lower) <= total
  {
    if lower > 0 && lower <= k {
      MulMono(lower, k, min);
      MultiplyLow(min, lower, total);
    }
  }

  lemma MostTimes(max: nat, upper: nat, lower: nat, k: nat, total: nat)
    requires total <= max * k && total < TWO_63 && lower <= upper && k <= Max(lower, upper)
    ensures total <= if upper == 0 then 0 else DistanceMultiply(max, upper)
  {
    if upper != 0 { MultiplyHigh(max, k, upper, total); }
  }

  lemma WindowTimes(q: Node, e: Env, len: Window, k: nat, total: nat)
    requires q.Quant? && WellFormed(q, e) && total < TWO_63 && len.min * k <= total <= len.max * k
    requires q.lower <= k || len.min == 0
    requires Infinite(q.upper) || k <= Max(q.lower, q.upper)
    ensures In(QuantWindow(len, q.lower, q.upper), total)
  {
    assert ProperCounts(q.lower, q.upper, q.greedy);
    hide WellFormed, DistanceMultiply;
    LeastTimes(len.min, q.lower, k, total);
    if !Infinite(q.upper) {
      MostTimes(len.max, q.upper, q.lower, k, total);
      NoTimes(len.max);
    }
  }

  lemma NoTimes(d: nat)
    ensures DistanceMultiply(d, 0) == 0
  {
  }

  lemma ConcatShort(to: Exact, add: Exact)
    requires to.s != [] && add.reachEnd
    ensures var r := ConcatExact(to, add); r.s != [] && (|r.s| < OPT_EXACT_MAXLEN ==> r.reachEnd)
  {
  }

  /** The copies of an exact string: `acc` covers the turns before the i-th. */
  lemma {:induction false} RepeatOk(n: Node, t: Subject, e: Env, refs: set<nat>, mmd: Window, m: nat, s: nat,
                                    acc: Exact, i: nat, lower: nat, j: nat, x: St, y: St)
    requires WellFormed(n, e) && NoAhead(n) && Ok(t, e, x) && NoneOpen(Groups(n), x) && Chain(n, t, j, x, y)
    requires 2 <= i && In(mmd, s - m)
    requires var one := OptimizeLeft(n, e, refs, mmd).exb; one.s != [] && one.reachEnd
    requires acc.s != [] && ExactAt(t, acc, m, s, x.s) && (|acc.s| < OPT_EXACT_MAXLEN ==> acc.reachEnd && lower < i + j)
    ensures var r := RepeatExact(acc, OptimizeLeft(n, e, refs, mmd).exb, i, lower);
      r.s != [] && In(r.mmd, s - m) && t.Has(s, r.s) && |r.s| <= OPT_EXACT_MAXLEN
      && (r.reachEnd && |r.s| < OPT_EXACT_MAXLEN && i + j == lower + 1 ==> s + |r.s| == y.s)
    decreases n, 3, lower + 1 - i
  {
    hide OptimizeLeft, WellFormed, NoAhead, Groups, ConcatExact, CanMatch, LengthOk, In;
    var one := OptimizeLeft(n, e, refs, mmd).exb;
    assert In(mmd, s - m) ==> In(mmd, x.s - (m + (x.s - s)));
    if i <= lower && |acc.s| < OPT_EXACT_MAXLEN {
      var z :| CanMatch(n, t, x, z) && Chain(n, t, j - 1, z, y);
      var m2 := m + (x.s - s);
      Optimized(n, t, e, refs, mmd, m2, x, z);
      MatchFacts(n, t, e, x, z);
      ConcatOk(t, acc, one, m, m2, s, x.s, z.s);
      ConcatShort(acc, one);
      RepeatOk(n, t, e, refs, mmd, m, s, ConcatExact(acc, one), i + 1, lower, j - 1, z, y);
    }
  }

  lemma {:induction false} QuantOptimized(q: Node, t: Subject, e: Env, refs: set<nat>, mmd: Window, m: nat, x: St,
      y: St)
    requires q.Quant? && WellFormed(q, e) && NoAhead(q) && Ok(t, e, x) && NoneOpen(Groups(q), x) && CanMatch(q, t, x, y)
    requires In(mmd, x.s - m)
    ensures InfoOk(t, OptimizeLeft(q, e, refs, mmd), m, x.s, y.s)
    decreases q, 1
  {
    var n := q.target;
    var k: nat, z: St :|
      Chain(n, t, k, x, z) && y == z.(prev := y.prev)
      && (q.lower <= k || (!q.emptyInfo.NotEmpty? && EndsIdle(n, t, k, x, z)))
      && (Infinite(q.upper) || k <= Max(q.lower, q.upper));
    ChainFacts(n, t, e, k, x, z);
    ChainWindow(n, t, e, refs, mmd, m, k, x, z);
    if k < q.lower { IdleWindow(n, t, e, refs, mmd, m, k, x, z); }
    var nopt := OptimizeLeft(n, e, refs, mmd);
    WindowTimes(q, e, nopt.len, k, z.s - x.s);
    if !Infinite(q.upper) && q.lower > 0 { RepeatedOk(q, t, e, refs, mmd, m, k, x, z); }
  }

  lemma {:induction false} RepeatedOk(q: Node, t: Subject, e: Env, refs: set<nat>, mmd: Window, m: nat, k: nat, x: St,
      z: St)
    requires q.Quant? && WellFormed(q, e) && NoAhead(q) && Ok(t, e, x) && NoneOpen(Groups(q), x) && In(mmd, x.s - m)
    requires !Infinite(q.upper) && 0 < q.lower && Chain(q.target, t, k, x, z) && k <= q.upper
    requires q.lower <= k || EndsIdle(q.target, t, k, x, z)
    ensures var r := Repeated(OptimizeLeft(q.target, e, refs, mmd), q.lower, q.upper);
      ExbOk(t, r.exb, m, x.s, z.s) && ExmOk(t, r.exm, m, z.s) && MapOk(t, r.chars, m)
    decreases q, 0
  {
    var n := q.target;
    assert WellFormed(n, e) && NoAhead(n) && NoneOpen(Groups(n), x);
    hide OptimizeLeft, NoAhead, Groups, RepeatExact, WellFormed;
    var nopt := OptimizeLeft(n, e, refs, mmd);
    var r := Repeated(nopt, q.lower, q.upper);
    var w :| CanMatch(n, t, x, w) && Chain(n, t, k - 1, w, z);
    Optimized(n, t, e, refs, mmd, m, x, w);
    MatchFacts(n, t, e, x, w);
    if q.lower == q.upper == 1 { assert w == z; }
    if r.exm.s != [] {
      var p :| ExactAt(t, nopt.exm, m, p, w.s);
      assert ExactAt(t, r.exm, m, p, z.s);
    }
    if nopt.exb.s != [] && nopt.exb.reachEnd {
      if k < q.lower { IdleWindow(n, t, e, refs, mmd, m, k, x, z); }
      RepeatOk(n, t, e, refs, mmd, m, x.s, nopt.exb, 2, q.lower, k - 1, w, z);
    }
  }

  // ---------------------------------------------------------------- the theorem

  /** What the search looks for stands at p. */
  predicate Hit(t: Subject, h: Hint, p: int) {
    match h
    case NoHint => true
    case ExactHint(s) => t.Has(p, s)
    case MapHint(bytes) => 0 <= p < t.End() && t.data[p] in bytes
  }

  lemma ChosenIs(opt: Info)
    requires !ChooseHint(opt).hint.NoHint?
    ensures var h, w := ChooseHint(opt), Window(ChooseHint(opt).dmin, ChooseHint(opt).dmax);
      (h.hint.ExactHint? && opt.exb.s != [] && h.hint.s == opt.exb.s && w == opt.exb.mmd)
      || (h.hint.ExactHint? && opt.exm.s != [] && h.hint.s == opt.exm.s && w == opt.exm.mmd)
      || (opt.chars.value > 0 && h.hint == MapHint(opt.chars.bytes) && w == opt.chars.mmd)
  {
    hide CompareDistance, ByteValue, Threshold, SubAnchors, CompareExactMap;
  }

  lemma ChosenHolds(t: Subject, opt: Info, m: int, end: int)
    requires InfoOk(t, opt, m, m, end) && !ChooseHint(opt).hint.NoHint?
    ensures var h := ChooseHint(opt); exists p :: In(Window(h.dmin, h.dmax), p - m) && Hit(t, h.hint, p)
    ensures ChooseHint(opt).hint.ExactHint? ==> 0 < |ChooseHint(opt).hint.s| <= OPT_EXACT_MAXLEN
  {
    hide ChooseHint;
    var h := ChooseHint(opt);
    ChosenIs(opt);
    if h.hint.MapHint? {
      var p :| ByteAt(t, opt.chars, m, p);
      assert Hit(t, h.hint, p);
    } else if opt.exb.s != [] && h.hint.s == opt.exb.s && Window(h.dmin, h.dmax) == opt.exb.mmd {
      assert ExactAt(t, opt.exb, m, m, end) && Hit(t, h.hint, m);
    } else {
      var p :| ExactAt(t, opt.exm, m, p, end);
      assert Hit(t, h.hint, p);
    }
  }

  /** Every match from x contains what the search looks for, no nearer than dmin and no farther than dmax. */
  lemma HintHolds(n: Node, t: Subject, e: Env, x: St, y: St)
    requires WellFormed(n, e) && NoAhead(n) && Ok(t, e, x) && NoneOpen(Groups(n), x) && CanMatch(n, t, x, y)
    requires !HintOf(n, e).hint.NoHint?
    ensures var h := HintOf(n, e); exists p :: In(Window(h.dmin, h.dmax), p - x.s) && Hit(t, h.hint, p)
    ensures HintOf(n, e).hint.ExactHint? ==> 0 < |HintOf(n, e).hint.s| <= OPT_EXACT_MAXLEN
  {
    hide OptimizeLeft, WellFormed, NoAhead, Groups, ChooseHint;
    Optimized(n, t, e, Refs(n), Window(0, 0), x.s, x, y);
    ChosenHolds(t, OptimizeLeft(n, e, Refs(n), Window(0, 0)), x.s, y.s);
  }
}
