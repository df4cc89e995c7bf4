/** Patterns that begin with `.*`: a match that starts inside a line also starts one position earlier, so only line
    starts and \G need to be tried (regcomp.c:3318-3337, 5146-5155; regexec.c:2175-2192, 4182-4199). */
module LineStarts {
  import opened Common
  import opened Tree
  import opened Semantics
  import opened Correctness
  import opened Alike
  import opened Scan
  import Codegen

  /** A greedy unbounded `.` that stops at newlines. */
  predicate StarQuant(q: Node) {
    q.Quant? && q.target.Any? && !q.target.multiline && q.greedy && Infinite(q.upper)
  }

  /** The groups that open before the leading `.*`. */
  function Leads(n: Node): set<nat> {
    match n
    case Group(num, _, _, target) => {num} + Leads(target)
    case List(elems) => Leads(elems.car)
    case Alt(elems) => LeadsAlt(elems)
    case _ => {}
  }

  function LeadsAlt(ns: Nodes): set<nat> {
    match ns
    case Last(car) => Leads(car)
    case Link(car, cdr) => Leads(car) + LeadsAlt(cdr)
  }

  /** n begins with `.*`, or with an anchor that only holds at line starts and \G; what follows does not look at the
      groups around the `.*`. */
  predicate StarLed(n: Node) {
    match n
    case Quant(_, _, _, _, _, _, _, _) => StarQuant(n)
    case Anchor(kind) => kind.AnyCharStar? || kind.BeginLine? || kind.BeginBuf?
    case Group(num, _, _, target) => StarLed(target) && num !in Groups(target) + Refs(target)
    case List(elems) =>
      StarLed(elems.car) && (elems.Link? ==> Leads(elems.car) !! (GroupsOf(elems.cdr) + RefsOf(elems.cdr)))
    case Alt(elems) => StarLedAlt(elems)
    case _ => false
  }

  predicate StarLedAlt(ns: Nodes) {
    match ns
    case Last(car) => StarLed(car)
    case Link(car, cdr) => StarLed(car) && StarLedAlt(cdr)
  }

  /** x is one position later than w, on the same line, and otherwise like it but for the groups `open`. */
  ghost predicate Earlier(open: set<nat>, t: Subject, w: St, x: St) {
    AnyMatches(t, false, w) && Sim(Loose(open), t, x, Advance(w, 1))
  }

  lemma WiderSim(a: set<nat>, b: set<nat>, t: Subject, x: St, y: St)
    requires Sim(Loose(a), t, x, y) && a <= b
    ensures Sim(Loose(b), t, x, y)
  {
  }

  // ---------------------------------------------------------------- `.*` itself

  /** k characters from s on, none of them a newline. */
  predicate Run(t: Subject, s: nat, k: nat) {
    s + k <= t.End() && forall i :: s <= i < s + k ==> !t.IsNewline(i)
  }

  lemma {:induction false} TimesAny(t: Subject, k: nat, x: St)
    ensures TimesMeaning(Any(false), t, k, [x]) == if Run(t, x.s, k) || k == 0 then [Advance(x, k)] else []
    decreases k
  {
    var n := Any(false);
    if k > 0 {
      assert MeaningAll(n, t, [x][1..]) == [];
      assert MeaningAll(n, t, [x]) == Meaning(n, t, x);
      if AnyMatches(t, false, x) {
        assert Meaning(n, t, x) == [Advance(x, 1)];
        TimesAny(t, k - 1, Advance(x, 1));
      } else {
        assert !Run(t, x.s, k);
        NoTimes(n, t, k - 1);
      }
    }
  }

  lemma {:induction false} NoTimes(n: Node, t: Subject, k: nat)
    ensures TimesMeaning(n, t, k, []) == []
    decreases k
  {
    if k > 0 { NoTimes(n, t, k - 1); }
  }

  lemma StarIs(q: Node, t: Subject, x: St)
    requires StarQuant(q)
    ensures Meaning(q, t, x) ==
      if Run(t, x.s, q.lower) || q.lower == 0
      then StarMeaning(t, false, q.nextHead, Advance(x, q.lower), x.s + q.lower) else []
  {
    hide Codegen.Length, TimesMeaning;
    assert q.target == Any(false);
    TimesAny(t, q.lower, x);
    var v := Advance(x, q.lower);
    assert StarAll(q, t, [v][1..]) == [];
    assert StarAll(q, t, [v]) == StarMeaning(t, false, q.nextHead, v, v.s);
  }

  /** Where the run began only shows in `prev`, and not in its being a newline. */
  lemma {:induction false} StarBegins(t: Subject, peek: Option<byte>, x: St, y: St, m: Mode, b: nat, c: nat)
    requires m.Loose? && Sim(m, t, x, y) && !t.IsNewline(b) && (!t.IsNewline(c) || c == x.s)
    ensures SimAll(m, t, StarMeaning(t, false, peek, x, c), StarMeaning(t, false, peek, y, b))
    decreases Left(t, x)
  {
    hide Advance;
    SimOne(m, t, x, y);
    if x.s < t.End() {
      if !t.IsNewline(x.s) {
        SimAdvance(m, t, x, y, 1);
        Forward(x);
        Forward(y);
        StarBegins(t, peek, Advance(x, 1), Advance(y, 1), m, b, c);
        var xs, ys := StarMeaning(t, false, peek, Advance(x, 1), c), StarMeaning(t, false, peek, Advance(y, 1), b);
        SimJoin(m, t, xs, ys, [x], [y]);
        SimJoin(m, t, xs, ys, [], []);
      }
    }
  }

  // ---------------------------------------------------------------- one position earlier

  /** Every way from x has an alike way from one position earlier. */
  lemma {:induction false} Slide(n: Node, open: set<nat>, t: Subject, w: St, x: St, y: St) returns (z: St)
    requires StarLed(n) && open !! (Groups(n) + Refs(n)) && Earlier(open, t, w, x) && x.s != t.gpos
    requires y in Meaning(n, t, x)
    ensures z in Meaning(n, t, w) && Sim(Loose(open + Leads(n)), t, y, z)
    decreases n
  {
    match n
    case Quant(_, _, _, _, _, _, _, _) => z := SlideStar(n, open, t, w, x, y);
    case Anchor(kind) => assert false by { MidLine(kind, open, t, w, x); }
    case Group(num, pushStart, _, target) =>
      var x1, w1 := OpenGroup(num, pushStart, x), OpenGroup(num, pushStart, w);
      OpenEarlier(num, pushStart, open, t, w, x);
      var y1 := InClosed(num, Meaning(target, t, x1), y);
      var z1 := Slide(target, open + {num}, t, w1, x1, y1);
      z := CloseGroup(num, z1);
      ClosedIn(num, Meaning(target, t, w1), z1);
      assert open + {num} + Leads(target) == open + Leads(n);
      CloseSim(num, open + Leads(n), t, y1, z1);
    case List(elems) =>
      if elems.Last? {
        z := Slide(elems.car, open, t, w, x, y);
      } else {
        z := SlideList(elems, open, t, w, x, y);
      }
    case Alt(elems) => z := SlideAlt(elems, open, t, w, x, y);
  }

  lemma RunEarlier(open: set<nat>, t: Subject, w: St, x: St, k: nat)
    requires Earlier(open, t, w, x) && (Run(t, x.s, k) || k == 0)
    ensures x.s == w.s + 1 && !t.IsNewline(w.s + k) && w.s + k < t.End()
    ensures Run(t, w.s, k)
  {
  }

  lemma AdvanceTwice(w: St, k: nat)
    ensures Advance(Advance(w, 1), k) == Advance(w, k + 1) == Advance(Advance(w, k), 1)
    ensures Advance(w, k).s == w.s + k
  {
  }

  lemma SlideStar(q: Node, open: set<nat>, t: Subject, w: St, x: St, y: St) returns (z: St)
    requires StarQuant(q) && Earlier(open, t, w, x) && y in Meaning(q, t, x)
    ensures z in Meaning(q, t, w) && Sim(Loose(open), t, y, z)
  {
    hide Meaning, Sim, Advance, Run;
    var k := q.lower;
    StarIs(q, t, x);
    StarIs(q, t, w);
    RunEarlier(open, t, w, x, k);
    AdvanceTwice(w, k);
    AdvanceTwice(x, k);
    var a, b, c := Advance(x, k), Advance(w, k), Advance(w, k + 1);
    SimAdvance(Loose(open), t, x, Advance(w, 1), k);
    var xs, ys := StarMeaning(t, false, q.nextHead, a, a.s), StarMeaning(t, false, q.nextHead, c, b.s);
    StarBegins(t, q.nextHead, a, c, Loose(open), b.s, a.s);
    var i :| 0 <= i < |xs| && xs[i] == y;
    z := ys[i];
    assert z in StarMeaning(t, false, q.nextHead, b, b.s);
  }

  lemma MidLine(kind: AnchorKind, open: set<nat>, t: Subject, w: St, x: St)
    requires Earlier(open, t, w, x) && x.s != t.gpos && (kind.AnyCharStar? || kind.BeginLine? || kind.BeginBuf?)
    ensures AnchorMeaning(kind, t, x) == []
  {
  }

  lemma OpenEarlier(num: nat, push: bool, open: set<nat>, t: Subject, w: St, x: St)
    requires Earlier(open, t, w, x) && num !in open
    ensures Earlier(open + {num}, t, OpenGroup(num, push, w), OpenGroup(num, push, x))
  {
  }

  lemma {:induction false} InClosed(num: nat, zs: seq<St>, y: St) returns (z: St)
    requires y in CloseAll(num, zs)
    ensures z in zs && y == CloseGroup(num, z)
    decreases |zs|
  {
    if y == CloseGroup(num, zs[0]) { z := zs[0]; } else { z := InClosed(num, zs[1..], y); }
  }

  lemma {:induction false} ClosedIn(num: nat, zs: seq<St>, z: St)
    requires z in zs
    ensures CloseGroup(num, z) in CloseAll(num, zs)
    decreases |zs|
  {
    if z != zs[0] { ClosedIn(num, zs[1..], z); }
  }

  lemma CloseSim(num: nat, open: set<nat>, t: Subject, y: St, z: St)
    requires Sim(Loose(open), t, y, z) && num in open
    ensures Sim(Loose(open), t, CloseGroup(num, y), CloseGroup(num, z))
  {
  }

  lemma {:induction false} SlideList(ns: Nodes, open: set<nat>, t: Subject, w: St, x: St, y: St) returns (z: St)
    requires ns.Link? && StarLed(List(ns)) && open !! (GroupsOf(ns) + RefsOf(ns)) && Earlier(open, t, w, x)
        && x.s != t.gpos
    requires y in ListMeaning(ns, t, x)
    ensures z in ListMeaning(ns, t, w) && Sim(Loose(open + Leads(ns.car)), t, y, z)
    decreases ns
  {
    hide Sim, Earlier, Meaning, ListMeaning;
    ListUnfolds(ns, t, x);
    ListUnfolds(ns, t, w);
    var y1 := ListAllFrom(ns.cdr, t, Meaning(ns.car, t, x), y);
    var z1 := Slide(ns.car, open, t, w, x, y1);
    var m := Loose(open + Leads(ns.car));
    ListSim(m, ns.cdr, t, t, y1, z1);
    var i :| 0 <= i < |ListMeaning(ns.cdr, t, y1)| && ListMeaning(ns.cdr, t, y1)[i] == y;
    z := ListMeaning(ns.cdr, t, z1)[i];
    ListAllHas(ns.cdr, t, Meaning(ns.car, t, w), z1, z);
  }

  lemma ListUnfolds(ns: Nodes, t: Subject, x: St)
    requires ns.Link?
    ensures ListMeaning(ns, t, x) == ListMeaningAll(ns.cdr, t, Meaning(ns.car, t, x))
  {
  }

  lemma {:induction false} ListAllFrom(ns: Nodes, t: Subject, xs: seq<St>, y: St) returns (x: St)
    requires y in ListMeaningAll(ns, t, xs)
    ensures x in xs && y in ListMeaning(ns, t, x)
    decreases |xs|
  {
    if y in ListMeaning(ns, t, xs[0]) { x := xs[0]; } else { x := ListAllFrom(ns, t, xs[1..], y); }
  }

  lemma {:induction false} ListAllHas(ns: Nodes, t: Subject, xs: seq<St>, x: St, y: St)
    requires x in xs && y in ListMeaning(ns, t, x)
    ensures y in ListMeaningAll(ns, t, xs)
    decreases |xs|
  {
    if x != xs[0] { ListAllHas(ns, t, xs[1..], x, y); }
  }

  lemma {:induction false} SlideAlt(ns: Nodes, open: set<nat>, t: Subject, w: St, x: St, y: St) returns (z: St)
    requires StarLedAlt(ns) && open !! (GroupsOf(ns) + RefsOf(ns)) && Earlier(open, t, w, x) && x.s != t.gpos
    requires y in AltMeaning(ns, t, x)
    ensures z in AltMeaning(ns, t, w) && Sim(Loose(open + LeadsAlt(ns)), t, y, z)
    decreases ns
  {
    hide Sim, Earlier, Meaning;
    if y in Meaning(ns.car, t, x) {
      z := Slide(ns.car, open, t, w, x, y);
      WiderSim(open + Leads(ns.car), open + LeadsAlt(ns), t, y, z);
    } else {
      z := SlideAlt(ns.cdr, open, t, w, x, y);
      WiderSim(open + LeadsAlt(ns.cdr), open + LeadsAlt(ns), t, y, z);
    }
  }

  /** A match that starts inside a line also starts one position earlier. */
  lemma SlideBack(n: Node, t: Subject, q: nat)
    requires StarLed(n) && 0 < q <= t.End() && q != t.gpos && !t.IsNewline(q - 1) && MatchesAt(n, t, q)
    ensures MatchesAt(n, t, q - 1)
  {
    hide Meaning;
    var w, x := Initial(q - 1, q - 2), Initial(q, q - 1);
    assert Earlier({}, t, w, x);
    var z := Slide(n, {}, t, w, x, Meaning(n, t, x)[0]);
  }

  /** No match starts on the line of s behind s if none starts at s. */
  lemma {:induction false} NoneOnLine(n: Node, t: Subject, s: nat, q: nat)
    requires StarLed(n) && s <= q <= t.End() && t.gpos <= s && !MatchesAt(n, t, s)
    requires forall i :: s <= i < q ==> !t.IsNewline(i)
    ensures !MatchesAt(n, t, q)
    decreases q
  {
    hide MatchesAt;
    if s < q {
      NoneOnLine(n, t, s, q - 1);
      if MatchesAt(n, t, q) { SlideBack(n, t, q); }
    }
  }

  lemma ListWays(ns: Nodes, t: Subject, x: St)
    ensures Meaning(List(ns), t, x) == ListMeaning(ns, t, x)
  {
  }

  // ---------------------------------------------------------------- moving \G

  /** Only the anchor in front, if any, looks at \G. */
  predicate GposInFront(n: Node) {
    NoGpos(n) || n == Anchor(AnyCharStar)
    || (n.List? && GposInFront(n.elems.car) && (n.elems.Link? ==> NoGposAll(n.elems.cdr)))
  }

  /** At a line start it makes no difference whether \G is moved there. */
  lemma {:induction false} GposMoves(n: Node, t: Subject, x: St)
    requires GposInFront(n) && (if x.s == 0 then !t.notbol else t.IsNewline(x.prev))
    ensures Meaning(n, t.(gpos := x.s), x) == Meaning(n, t, x)
    decreases n
  {
    var u := t.(gpos := x.s);
    if NoGpos(n) {
      MeaningSim(Exact, n, t, u, x, x);
      SameAll(t, Meaning(n, t, x), Meaning(n, u, x));
    } else if n.List? {
      GposMoves(n.elems.car, t, x);
      if n.elems.Link? {
        var xs := Meaning(n.elems.car, t, x);
        ListAllSim(Exact, n.elems.cdr, t, u, xs, xs);
        SameAll(t, ListMeaningAll(n.elems.cdr, t, xs), ListMeaningAll(n.elems.cdr, u, xs));
      }
    }
  }

  lemma SameAll(t: Subject, xs: seq<St>, ys: seq<St>)
    requires SimAll(Exact, t, xs, ys)
    ensures xs == ys
  {
  }

  // ---------------------------------------------------------------- line by line

  /** Where the next line starts, or the end of the text. */
  function NextLine(t: Subject, s: nat): (r: nat)
    requires s < t.End()
    ensures s < r <= t.End() && (r == t.End() || t.IsNewline(r - 1)) && forall i :: s <= i < r - 1 ==> !t.IsNewline(i)
    decreases t.End() - s
  {
    if t.IsNewline(s) || s + 1 == t.End() then s + 1 else NextLine(t, s + 1)
  }

  /** What the search line by line finds: match_at at the start of every line in turn, with \G moved there. */
  function FirstLine(n: Node, t: Subject, s: nat): int
    requires s < t.End()
    decreases t.End() - s
  {
    if MatchesAt(n, t.(gpos := s), s) then s
    else if NextLine(t, s) == t.End() then -1
    else FirstLine(n, t, NextLine(t, s))
  }

  /** Where the search may try: its start, and every line start behind it. */
  predicate LineStart(t: Subject, start: nat, s: nat) { s == start || (start < s && t.IsNewline(s - 1)) }

  lemma SameAtLineStart(n: Node, t: Subject, start: nat, s: nat)
    requires GposInFront(n) && t.gpos == start <= s && LineStart(t, start, s)
    ensures Meaning(n, t.(gpos := s), Initial(s, s - 1)) == Meaning(n, t, Initial(s, s - 1))
    ensures MatchesAt(n, t.(gpos := s), s) <==> MatchesAt(n, t, s)
  {
    hide Meaning, GposInFront;
    if s == start { assert t.(gpos := s) == t; } else { GposMoves(n, t, Initial(s, s - 1)); }
  }

  lemma {:induction false} FirstLineFrom(n: Node, t: Subject, start: nat, s: nat)
    requires GposInFront(n) && t.gpos == start <= s < t.End() && LineStart(t, start, s)
    requires NoMatchIn(n, t, start, s) && !MatchesAt(n, t, t.End())
    ensures var r := FirstStart(n, t, start);
      FirstLine(n, t, s) == r <==> r == -1 || LineStart(t, start, r)
    decreases t.End() - s
  {
    hide MatchesAt, GposInFront, FirstStart;
    SameAtLineStart(n, t, start, s);
    var r := FirstStart(n, t, start);
    if MatchesAt(n, t, s) {
      StartIs(n, t, start, s);
    } else {
      var next := NextLine(t, s);
      if s < r < next { assert !LineStart(t, start, r); }
      LaterLine(n, t, s);
      if next < t.End() && (r == -1 || next <= r) { FirstLineFrom(n, t, start, next); }
    }
  }

  /** The line search never stops inside a line. */
  lemma {:induction false} LaterLine(n: Node, t: Subject, s: nat)
    requires s < t.End()
    ensures var f := FirstLine(n, t, s); f == -1 || f == s || (s < f < t.End() && t.IsNewline(f - 1))
    decreases t.End() - s
  {
    hide MatchesAt;
    if !MatchesAt(n, t.(gpos := s), s) && NextLine(t, s) < t.End() { LaterLine(n, t, NextLine(t, s)); }
  }

  /** The search line by line finds the first match exactly when that one starts at the start of a line. */
  lemma LineExact(n: Node, t: Subject, start: nat)
    requires GposInFront(n) && t.gpos == start < t.End() && !MatchesAt(n, t, t.End())
    ensures var r := FirstStart(n, t, start);
      FirstLine(n, t, start) == r <==> r == -1 || LineStart(t, start, r)
  {
    hide MatchesAt, GposInFront, FirstStart, FirstLine;
    FirstLineFrom(n, t, start, start);
  }

  /** It does so in every text for a tree that begins with `.*`. */
  lemma LinesEnough(n: Node, t: Subject, start: nat)
    requires StarLed(n) && GposInFront(n) && t.gpos == start < t.End() && !MatchesAt(n, t, t.End())
    ensures FirstLine(n, t, start) == FirstStart(n, t, start)
  {
    hide MatchesAt, GposInFront, StarLed, FirstStart, FirstLine;
    LineExact(n, t, start);
    var r := FirstStart(n, t, start);
    if r > start && !t.IsNewline(r - 1) { SlideBack(n, t, r); }
  }

  // ---------------------------------------------------------------- a test in front of `.*`

  /** P consumes nothing and changes nothing. */
  ghost predicate Test(p: Node, t: Subject) {
    forall x: St :: Meaning(p, t, x) == [] || Meaning(p, t, x) == [x]
  }

  lemma TestsAre(p: Node, t: Subject)
    requires (p.Anchor? && !p.kind.Keep?) || (p.Look? && (p.look.AheadNot? || p.look.BehindNot?))
    ensures Test(p, t)
  {
  }

  lemma TestThen(p: Node, rest: Nodes, t: Subject, q: nat)
    requires Test(p, t)
    ensures MatchesAt(List(Link(p, rest)), t, q) <==> MatchesAt(p, t, q) && MatchesAt(List(rest), t, q)
  {
    hide Meaning;
    var x := Initial(q, q - 1);
    ListWays(Link(p, rest), t, x);
    ListWays(rest, t, x);
    ListUnfolds(Link(p, rest), t, x);
    assert ListMeaningAll(rest, t, [x][1..]) == [];
    assert ListMeaningAll(rest, t, [x]) == ListMeaning(rest, t, x);
  }

  /** A search that gives up the line of s although a match starts on it. */
  ghost predicate Misses(n: Node, t: Subject, s: nat) {
    !MatchesAt(n, t, s) && exists q: nat :: OnLine(t, s, q) && MatchesAt(n, t, q)
  }

  predicate OnLine(t: Subject, s: nat, q: nat) { s <= q <= t.End() && forall i :: s <= i < q ==> !t.IsNewline(i) }

  /** For a test in front of `.*`, whatever follows: the line is given up wrongly exactly when the test fails at its
      start and holds further on, where the rest still matches. */
  lemma TestMisses(p: Node, star: Node, rest: Nodes, t: Subject, s: nat)
    requires Test(p, t) && StarQuant(star) && t.gpos <= s
    ensures var tail := Link(star, rest);
      Misses(List(Link(p, tail)), t, s)
      <==> !MatchesAt(p, t, s) && exists q: nat :: OnLine(t, s, q) && MatchesAt(p, t, q) && MatchesAt(List(tail), t, q)
  {
    var tail := Link(star, rest);
    assert StarLed(List(tail));
    hide MatchesAt, StarLed;
    forall q: nat ensures MatchesAt(List(Link(p, tail)), t, q) <==> MatchesAt(p, t, q) && MatchesAt(List(tail), t, q) {
      TestThen(p, tail, t, q);
    }
    forall q: nat | OnLine(t, s, q) && MatchesAt(List(tail), t, q) ensures MatchesAt(List(tail), t, s) {
      if !MatchesAt(List(tail), t, s) { NoneOnLine(List(tail), t, s, q); }
    }
  }
}
