/** Where code and loop ranges stand in a program, single steps, and what results stay well behaved. */
module Placing {
  import opened Common
  import opened Tree
  import opened Opcodes
  import opened Codegen
  import opened Semantics
  import opened Snapshot
  import opened Yielding
  import opened Lengths
  import opened LengthFacts
  import M = Matches

  /** A program run on a text, with what the analyses know about its groups. */
  datatype Ctx = Ctx(pr: Prog, t: Subject, e: Env)

  ghost predicate Linked(k: Ctx) {
    k.pr.numMem == k.e.numMem && k.pr.btStart == k.e.btStart && k.pr.btEnd == k.e.btEnd
    && k.pr.level == PopLevelOf(|k.pr.ranges|, k.pr.btStart, k.pr.btEnd)
  }

  ghost predicate RangesAt(pr: Prog, rep: nat, rs: seq<Range>) {
    rep + |rs| <= |pr.ranges| && pr.ranges[rep..rep + |rs|] == rs
  }

  lemma RangesSplit(pr: Prog, rep: nat, a: seq<Range>, b: seq<Range>)
    requires RangesAt(pr, rep, a + b)
    ensures RangesAt(pr, rep, a) && RangesAt(pr, rep + |a|, b)
  {
    var all := pr.ranges[rep..rep + |a + b|];
    assert pr.ranges[rep..rep + |a|] == all[..|a|] == a;
    assert pr.ranges[rep + |a|..rep + |a| + |b|] == all[|a|..] == b;
  }

  lemma {:induction false} TimesLength(rs: seq<Range>, m: nat)
    ensures |Times(rs, m)| == Scaled(|rs|, m)
    decreases m
  {
    if m > 0 {
      TimesLength(rs, m - 1);
      ScaledStep(|rs|, m);
    }
  }

  lemma TimesUnfold(rs: seq<Range>, m: nat)
    ensures Times(rs, 0) == [] && (m > 0 ==> Times(rs, m) == rs + Times(rs, m - 1))
  {
  }

  lemma {:induction false} TimesSplit(rs: seq<Range>, a: nat, b: nat)
    ensures Times(rs, a + b) == Times(rs, a) + Times(rs, b)
    decreases a
  {
    hide Times;
    TimesUnfold(rs, a);
    if a > 0 {
      TimesUnfold(rs, a + b);
      TimesSplit(rs, a - 1, b);
      Assoc(rs, Times(rs, a - 1), Times(rs, b));
    }
  }

  lemma Assoc(a: seq<Range>, b: seq<Range>, c: seq<Range>)
    ensures a + (b + c) == (a + b) + c
  {
  }

  /** All the given states are good starting points for code that may set or read the groups gs. */
  ghost predicate AllOk(k: Ctx, gs: set<nat>, xs: seq<St>) {
    forall x :: x in xs ==> Ok(k.t, k.e, x) && NoneOpen(gs, x)
  }

  lemma MeaningOk(k: Ctx, n: Node, gs: set<nat>, x: St, y: St)
    requires WellFormed(n, k.e) && Ok(k.t, k.e, x) && NoneOpen(gs, x) && Groups(n) <= gs
    requires y in Meaning(n, k.t, x)
    ensures M.CanMatch(n, k.t, x, y) && Ok(k.t, k.e, y) && NoneOpen(gs, y) && Extends(Groups(n), x, y)
  {
    WellFormedProper(n, k.e);
    M.Sound(n, k.t, x, y);
    MatchFacts(n, k.t, k.e, x, y);
    WidenExtends(Groups(n), gs, x, y);
  }

  lemma {:induction false} MeaningAllOk(k: Ctx, n: Node, gs: set<nat>, xs: seq<St>)
    requires WellFormed(n, k.e) && AllOk(k, gs, xs) && Groups(n) <= gs
    ensures AllOk(k, gs, MeaningAll(n, k.t, xs))
  {
    forall y | y in MeaningAll(n, k.t, xs) ensures Ok(k.t, k.e, y) && NoneOpen(gs, y) {
      WellFormedProper(n, k.e);
      var x := M.MeaningAllSound(n, k.t, xs, y);
      MatchFacts(n, k.t, k.e, x, y);
      WidenExtends(Groups(n), gs, x, y);
    }
  }

  lemma TimesOk(k: Ctx, n: Node, gs: set<nat>, m: nat, xs: seq<St>)
    requires WellFormed(n, k.e) && AllOk(k, gs, xs) && Groups(n) <= gs
    ensures AllOk(k, gs, TimesMeaning(n, k.t, m, xs))
  {
    forall y | y in TimesMeaning(n, k.t, m, xs) ensures Ok(k.t, k.e, y) && NoneOpen(gs, y) {
      WellFormedProper(n, k.e);
      var x := M.TimesSound(n, k.t, m, xs, y);
      ChainFacts(n, k.t, k.e, m, x, y);
      WidenExtends(Groups(n), gs, x, y);
    }
  }

  // ---------------------------------------------------------------- the list functions as FlatMap

  function MeaningOf(n: Node, t: Subject): St -> seq<St> { (x: St) => Meaning(n, t, x) }

  function ListOf(ns: Nodes, t: Subject): St -> seq<St> { (x: St) => ListMeaning(ns, t, x) }

  function LoopOf(q: Node, t: Subject): St -> seq<St>
    requires q.Quant?
  {
    (x: St) => Loop(q, t, x)
  }

  function TurnTo(q: Node, t: Subject, x: St): St -> seq<St>
    requires q.Quant?
  {
    (y: St) => LoopTurn(q, t, x, y)
  }

  function OptionalOf(n: Node, t: Subject, m: nat): St -> seq<St> { (x: St) => Optional(n, t, m, x) }

  function CloseOf(num: nat): St -> seq<St> { (y: St) => [CloseGroup(num, y)] }

  function AtomicOf(n: Node, t: Subject): St -> seq<St> { (x: St) => [AtomicLoop(n, t, x)] }

  function StarOf(q: Node, t: Subject): St -> seq<St>
    requires q.Quant?
  {
    (x: St) => StarMeaning(t, q.target.Any? && q.target.multiline, q.nextHead, x, x.s)
  }

  function CountOf(q: Node, t: Subject, x: St, c: nat): St -> seq<St>
    requires q.Quant?
  {
    (y: St) => match TurnOf(q, x, y)
      case Again => Counted(q, t, c + 1, y)
      case Leave => [y]
      case Reject => []
  }

  lemma {:induction false} MeaningAllFlat(n: Node, t: Subject, xs: seq<St>)
    ensures MeaningAll(n, t, xs) == FlatMap(xs, MeaningOf(n, t))
  {
    if xs != [] { MeaningAllFlat(n, t, xs[1..]); }
  }

  lemma {:induction false} ListAllFlat(ns: Nodes, t: Subject, xs: seq<St>)
    ensures ListMeaningAll(ns, t, xs) == FlatMap(xs, ListOf(ns, t))
  {
    if xs != [] { ListAllFlat(ns, t, xs[1..]); }
  }

  lemma {:induction false} LoopAllFlat(q: Node, t: Subject, xs: seq<St>)
    requires q.Quant?
    ensures LoopAll(q, t, xs) == FlatMap(xs, LoopOf(q, t))
  {
    if xs != [] { LoopAllFlat(q, t, xs[1..]); }
  }

  lemma {:induction false} TurnsFlat(q: Node, t: Subject, x: St, ys: seq<St>)
    requires q.Quant?
    ensures LoopTurns(q, t, x, ys) == FlatMap(ys, TurnTo(q, t, x))
  {
    if ys != [] { TurnsFlat(q, t, x, ys[1..]); }
  }

  lemma {:induction false} OptionalAllFlat(n: Node, t: Subject, m: nat, xs: seq<St>)
    ensures OptionalAll(n, t, m, xs) == FlatMap(xs, OptionalOf(n, t, m))
  {
    if xs != [] { OptionalAllFlat(n, t, m, xs[1..]); }
  }

  lemma {:induction false} CloseAllFlat(num: nat, ys: seq<St>)
    ensures CloseAll(num, ys) == FlatMap(ys, CloseOf(num))
  {
    if ys != [] { CloseAllFlat(num, ys[1..]); }
  }

  lemma {:induction false} AtomicAllFlat(n: Node, t: Subject, xs: seq<St>)
    ensures AtomicLoopAll(n, t, xs) == FlatMap(xs, AtomicOf(n, t))
  {
    if xs != [] { AtomicAllFlat(n, t, xs[1..]); }
  }

  lemma {:induction false} StarAllFlat(q: Node, t: Subject, xs: seq<St>)
    requires q.Quant?
    ensures StarAll(q, t, xs) == FlatMap(xs, StarOf(q, t))
  {
    if xs != [] { StarAllFlat(q, t, xs[1..]); }
  }

  lemma {:induction false} CountFlat(q: Node, t: Subject, x: St, c: nat, ys: seq<St>)
    requires q.Quant? && (c == 0 || c < UpperCount(q.upper))
    ensures CountTurns(q, t, x, c, ys) == FlatMap(ys, CountOf(q, t, x, c))
  {
    if ys != [] { CountFlat(q, t, x, c, ys[1..]); }
  }

  // ---------------------------------------------------------------- single steps

  /** The instruction at c.p is i. */
  ghost predicate Fetches(k: Ctx, c: Config, i: Instr) {
    0 <= c.p && k.pr.fetch(c.p) == Some(i)
  }

  lemma OneStep(k: Ctx, c: Config, i: Instr)
    requires Fetches(k, c, i)
    ensures Step(k.pr, k.t, Run(c)) == Exec(k.pr, k.t, i, c.p + Size(i), c)
    ensures Reaches(k.pr, k.t, Run(c), Exec(k.pr, k.t, i, c.p + Size(i), c))
  {
    ReachesStep(k.pr, k.t, Run(c));
  }

  /** An opcode that goes on with new registers or fails at once. */
  lemma LeafYields(k: Ctx, c: Config, q: int, ys: seq<St>, s: State, f: Frame)
    requires |ys| <= 1 && f.base == c.stack && f.loops == c.loops && f.marks == c.marks
    requires Reaches(k.pr, k.t, Run(c), s)
    requires ys == [] ==> s == Backtrack(c.stack)
    requires ys != [] ==> s.Run? && s.c.p == q && s.c.x == ys[0] && s.c.stack == c.stack
                          && s.c.loops == c.loops && s.c.marks == c.marks
    ensures Yields(k.pr, k.t, q, ys, Run(c), f)
  {
    if ys == [] {
      YieldsNone(k.pr, k.t, q, f);
    } else {
      assert Arrives(q, s.c.x, s.c, f);
      YieldsOne(k.pr, k.t, q, s.c, f);
      assert ys == [s.c.x];
    }
    YieldsFrom(k.pr, k.t, q, ys, Run(c), s, f);
  }

  /** A choice point on top of the stack, resumed. */
  lemma BacktrackTop(stack: seq<Choice>, ch: Choice)
    ensures ch.Resumes() ==> Backtrack(stack + [ch]) == Run(Config(ch.p, ch.x, ch.loops, ch.marks, false, stack))
    ensures !ch.Resumes() ==> Backtrack(stack + [ch]) == Backtrack(stack)
  {
    assert (stack + [ch])[..|stack|] == stack;
  }

  /** The bracket pushed under nothing but alternatives is the one an end opcode finds. */
  lemma {:induction false} BracketFound(stack: seq<Choice>, base: seq<Choice>, m: Choice)
    requires !m.kind.KAlt? && Above(stack, base + [m])
    ensures Bracket(stack, m.kind) == |base| && stack[..|base|] == base && stack[|base|] == m
    decreases |stack|
  {
    assert stack[|base|] == stack[..|base| + 1][|base|] == m;
    assert stack[..|base|] == stack[..|base| + 1][..|base|] == base;
    if |stack| > |base| + 1 {
      var s1 := stack[..|stack| - 1];
      assert stack[|stack| - 1] == stack[|base| + 1..][|stack| - 1 - (|base| + 1)];
      assert s1[..|base| + 1] == stack[..|base| + 1];
      assert Above(s1, base + [m]) by {
        var upper := s1[|base| + 1..];
        forall j | 0 <= j < |upper| ensures upper[j].kind.KAlt? {
          assert upper[j] == stack[|base| + 1..][j];
        }
      }
      BracketFound(s1, base, m);
    }
  }

  /** Pieces of code around a body: where each of them stands. */
  lemma SplitFramed(fetch: Reader, p: int, i: Instr, body: seq<Instr>, j: Instr)
    requires CodeAt(fetch, p, [i] + body + [j])
    ensures fetch(p) == Some(i) && CodeAt(fetch, p + Size(i), body)
    ensures fetch(p + Size(i) + SizeAll(body)) == Some(j)
  {
    hide Size;
    CodeAtConcat(fetch, p, [i] + body, [j]);
    SplitFirst(fetch, p, i, body);
    SizeConcat([i], body);
    SizeSingle(i);
    var q := p + Size(i) + SizeAll(body);
    assert CodeAt(fetch, q, [j]);
  }

  lemma SizeSingle(i: Instr)
    ensures SizeAll([i]) == Size(i)
  {
    hide Size;
    assert [i][1..] == [];
    assert SizeAll([]) == 0;
  }

  lemma SplitFirst(fetch: Reader, p: int, i: Instr, body: seq<Instr>)
    requires CodeAt(fetch, p, [i] + body)
    ensures fetch(p) == Some(i) && CodeAt(fetch, p + Size(i), body)
  {
    hide Size;
    assert ([i] + body)[1..] == body;
  }

  lemma SplitLast(fetch: Reader, p: int, body: seq<Instr>, j: Instr)
    requires CodeAt(fetch, p, body + [j])
    ensures CodeAt(fetch, p, body) && fetch(p + SizeAll(body)) == Some(j)
  {
    CodeAtConcat(fetch, p, body, [j]);
    var q := p + SizeAll(body);
    assert CodeAt(fetch, q, [j]);
  }

  /** A jump after a piece of code moves its results to the target. */
  lemma {:induction false} YieldsJump(k: Ctx, m: int, addr: int, xs: seq<St>, s: State, f: Frame)
    requires 0 <= m && k.pr.fetch(m) == Some(Jump(addr))
    requires Yields(k.pr, k.t, m, xs, s, f)
    ensures Yields(k.pr, k.t, m + SIZE_OP_JUMP + addr, xs, s, f)
    decreases |xs|
  {
    hide Reaches, Backtrack;
    if xs != [] {
      var c :| Reaches(k.pr, k.t, s, Run(c)) && Arrives(m, xs[0], c, f)
               && Yields(k.pr, k.t, m, xs[1..], Backtrack(c.stack), f);
      var d := c.(p := m + SIZE_OP_JUMP + addr);
      OneStep(k, c, Jump(addr));
      ReachesTrans(k.pr, k.t, s, Run(c), Run(d));
      YieldsJump(k, m, addr, xs[1..], Backtrack(c.stack), f);
      YieldsCons(k.pr, k.t, d.p, xs[0], xs[1..], s, d, f);
      assert [xs[0]] + xs[1..] == xs;
    }
  }

  /** Results found above a pushed alternative, followed by those found by resuming it. */
  lemma YieldsAlternative(k: Ctx, q: int, xs: seq<St>, ys: seq<St>, c: Config, ch: Choice, s: State, g: Frame, f: Frame)
    requires ch.kind.KAlt? && g.base == c.stack + [ch] && f.base == c.stack
    requires Reaches(k.pr, k.t, Run(c), s) && Yields(k.pr, k.t, q, xs, s, g)
    requires AgreeOutside(g.loops, f.loops, f.rlo, f.rhi) && AgreeOutside(g.marks, f.marks, f.nlo, f.nhi)
    requires f.rlo <= g.rlo <= g.rhi <= f.rhi && f.nlo <= g.nlo <= g.nhi <= f.nhi
    requires Yields(k.pr, k.t, q, ys, Run(Config(ch.p, ch.x, ch.loops, ch.marks, false, c.stack)), f)
    ensures Yields(k.pr, k.t, q, xs + ys, Run(c), f)
  {
    hide Reaches, Yields;
    BacktrackTop(c.stack, ch);
    assert g.base[..|f.base|] == f.base;
    YieldsChain(k.pr, k.t, q, xs, ys, s, g, f);
    YieldsFrom(k.pr, k.t, q, xs + ys, Run(c), s, f);
  }
}
