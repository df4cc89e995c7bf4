/** Compiler correctness: running the code of a tree on the snapshot machine finds exactly the ways the tree can
    match, in their order of preference, and then fails back into the stack it started from. */
module CompileCorrect {
  import opened Common
  import opened Tree
  import opened Opcodes
  import opened Codegen
  import opened Semantics
  import opened Snapshot
  import opened Yielding
  import opened Lengths
  import opened LengthFacts
  import opened Placing
  import opened CodeParts
  import P = Progress

  lemma {:induction false} NodeYields(k: Ctx, n: Node, rep: nat, nul: nat, inRep: bool, c: Config)
    requires Placed(k, n, rep, nul, inRep, c)
    ensures Correct(k, n, rep, nul, c)
    decreases n, 20
  {
    hide Yields, CodeAt, Placed, Correct;
    match n
    case Str(_) => LeafCorrect(k, n, rep, nul, inRep, c);
    case CClass(_, _) => LeafCorrect(k, n, rep, nul, inRep, c);
    case Any(_) => LeafCorrect(k, n, rep, nul, inRep, c);
    case Backref(_) => BackrefCorrect(k, n, rep, nul, inRep, c);
    case Anchor(_) => AnchorCorrect(k, n, rep, nul, inRep, c);
    case Quant(_, _, _, _, _, _, _, _) => QuantCorrect(k, n, rep, nul, inRep, c);
    case Group(_, _, _, _) => GroupCorrect(k, n, rep, nul, inRep, c);
    case Atomic(_, simple) =>
      if simple { SimpleCorrect(k, n, rep, nul, inRep, c); } else { AtomicCorrect(k, n, rep, nul, inRep, c); }
    case Look(look, _, _) =>
      if look.Ahead? { AheadCorrect(k, n, rep, nul, inRep, c); }
      else if look.AheadNot? { AheadNotCorrect(k, n, rep, nul, inRep, c); }
      else if look.Behind? { BehindCorrect(k, n, rep, nul, inRep, c); }
      else { BehindNotCorrect(k, n, rep, nul, inRep, c); }
    case List(elems) => ListNodeCorrect(k, n, rep, nul, inRep, c);
    case Alt(elems) => AltNodeCorrect(k, n, rep, nul, inRep, c);
  }

  // ---------------------------------------------------------------- leaves

  lemma LeafCorrect(k: Ctx, n: Node, rep: nat, nul: nat, inRep: bool, c: Config)
    requires (n.Str? || n.CClass? || n.Any?) && Placed(k, n, rep, nul, inRep, c)
    ensures Correct(k, n, rep, nul, c)
  {
    hide Yields, Reaches, Backtrack;
    var f := NodeFrame(n, rep, nul, c);
    var ys := Meaning(n, k.t, c.x);
    if n.Str? && n.s == [] {
      assert k.t.data[c.x.s..c.x.s + 0] == [];
      assert ys == [c.x];
      YieldsOne(k.pr, k.t, c.p, c, f);
    } else {
      var i := Code(n, rep, nul)[0];
      OneStep(k, c, i);
      var s := Exec(k.pr, k.t, i, c.p + Size(i), c);
      LeafYields(k, c, c.p + Length(n), ys, s, f);
    }
  }

  lemma BackrefCorrect(k: Ctx, n: Node, rep: nat, nul: nat, inRep: bool, c: Config)
    requires n.Backref? && Placed(k, n, rep, nul, inRep, c)
    ensures Correct(k, n, rep, nul, c)
  {
    hide Yields, Reaches, Backtrack;
    var i := BackrefOp(n.num);
    OneStep(k, c, i);
    assert n.num in Names(n);
    LeafYields(k, c, c.p + Length(n), Meaning(n, k.t, c.x), Exec(k.pr, k.t, i, c.p + Size(i), c),
        NodeFrame(n, rep, nul, c));
  }

  lemma AnchorCorrect(k: Ctx, n: Node, rep: nat, nul: nat, inRep: bool, c: Config)
    requires n.Anchor? && Placed(k, n, rep, nul, inRep, c)
    ensures Correct(k, n, rep, nul, c)
  {
    hide Exec, Backtrack, Yields, Reaches;
    var i := AnchorOp(n.kind);
    OneStep(k, c, i);
    AnchorExec(k, n.kind, c, c.p + 1);
    LeafYields(k, c, c.p + Length(n), Meaning(n, k.t, c.x), Exec(k.pr, k.t, i, c.p + Size(i), c),
        NodeFrame(n, rep, nul, c));
  }

  lemma AnchorExec(k: Ctx, kind: AnchorKind, c: Config, next: int)
    ensures Size(AnchorOp(kind)) == 1
    ensures var ys := AnchorMeaning(kind, k.t, c.x);
      Exec(k.pr, k.t, AnchorOp(kind), next, c)
      == if ys == [] then Backtrack(c.stack) else Run(c.(p := next, x := ys[0]))
  {
    hide Backtrack;
  }

  // ---------------------------------------------------------------- lists and alternatives

  lemma {:induction false} ListNodeCorrect(k: Ctx, n: Node, rep: nat, nul: nat, inRep: bool, c: Config)
    requires n.List? && Placed(k, n, rep, nul, inRep, c)
    ensures Correct(k, n, rep, nul, c)
    decreases n, 19
  {
    hide Yields, CodeAt, Ready;
    ListCorrect(k, n.elems, rep, nul, inRep, c);
  }

  lemma {:induction false} AltNodeCorrect(k: Ctx, n: Node, rep: nat, nul: nat, inRep: bool, c: Config)
    requires n.Alt? && Placed(k, n, rep, nul, inRep, c)
    ensures Correct(k, n, rep, nul, c)
    decreases n, 19
  {
    hide Yields, CodeAt, Ready;
    AltCorrect(k, n.elems, rep, nul, inRep, c);
  }

  lemma {:induction false} ListCorrect(k: Ctx, ns: Nodes, rep: nat, nul: nat, inRep: bool, c: Config)
    requires PlacedList(k, ns, ListCode(ns, rep, nul), rep, inRep, c)
    ensures Yields(k.pr, k.t, c.p + ListLength(ns), ListMeaning(ns, k.t, c.x), Run(c), ListFrame(ns, rep, nul, c))
    decreases ns, 20
  {
    hide Yields, CodeAt, Ready, Length, Meaning, Code, Reaches, Backtrack;
    match ns
    case Last(car) => NodeYields(k, car, rep, nul, inRep, c);
    case Link(car, cdr) => ListFirst(k, ns, rep, nul, inRep, c);
  }

  lemma {:induction false} ListFirst(k: Ctx, ns: Nodes, rep: nat, nul: nat, inRep: bool, c: Config)
    requires ns.Link? && PlacedList(k, ns, ListCode(ns, rep, nul), rep, inRep, c)
    ensures Yields(k.pr, k.t, c.p + ListLength(ns), ListMeaning(ns, k.t, c.x), Run(c), ListFrame(ns, rep, nul, c))
    decreases ns, 19
  {
    hide Yields, CodeAt, Ready, Length, Meaning, Code, Reaches, Backtrack, Placed, PlacedList, ListMeaning, ListLength,
         Ranges, RangesOf, Nuls, NulsOf, Arrives;
    var car, cdr := ns.car, ns.cdr;
    var f, f1 := ListFrame(ns, rep, nul, c), NodeFrame(car, rep, nul, c);
    var mid, q := After(c.p, car), c.p + ListLength(ns);
    var xs := Meaning(car, k.t, c.x);
    ListParts(k, ns, rep, nul, inRep, c);
    NodeYields(k, car, rep, nul, inRep, c);
    forall d: Config | d.x in xs && Arrives(mid, d.x, d, f1)
      ensures Yields(k.pr, k.t, q, ListOf(cdr, k.t)(d.x), Run(d), Then(d, f))
    {
      ListTail(k, ns, rep, nul, inRep, c, d);
    }
    YieldsBind(k.pr, k.t, mid, q, xs, ListOf(cdr, k.t), Run(c), f1, f);
    ListAllFlat(cdr, k.t, xs);
  }

  lemma {:induction false} ListTail(k: Ctx, ns: Nodes, rep: nat, nul: nat, inRep: bool, c: Config, d: Config)
    requires ns.Link? && PlacedList(k, ns, ListCode(ns, rep, nul), rep, inRep, c)
    requires d.x in Meaning(ns.car, k.t, c.x)
    requires Arrives(After(c.p, ns.car), d.x, d, NodeFrame(ns.car, rep, nul, c))
    ensures Yields(k.pr, k.t, c.p + ListLength(ns), ListMeaning(ns.cdr, k.t, d.x), Run(d),
        Then(d, ListFrame(ns, rep, nul, c)))
    decreases ns, 18
  {
    hide Yields, CodeAt, Ready, Length, Meaning, Code, Reaches, Backtrack, Placed, PlacedList, ListMeaning, ListLength,
         Ranges, RangesOf, Nuls, NulsOf;
    var car, cdr := ns.car, ns.cdr;
    var rep1, nul1 := rep + Reps(car), nul + Nuls(car);
    ListParts(k, ns, rep, nul, inRep, c);
    ListRest(k, ns, rep, nul, inRep, c, d);
    ListCorrect(k, cdr, rep1, nul1, inRep, d);
    YieldsWider(k.pr, k.t, c.p + ListLength(ns), ListMeaning(cdr, k.t, d.x), Run(d),
                ListFrame(cdr, rep1, nul1, d), Then(d, ListFrame(ns, rep, nul, c)));
  }

  lemma {:induction false} AltCorrect(k: Ctx, ns: Nodes, rep: nat, nul: nat, inRep: bool, c: Config)
    requires PlacedList(k, ns, AltCode(ns, rep, nul), rep, inRep, c)
    ensures Yields(k.pr, k.t, c.p + AltLength(ns), AltMeaning(ns, k.t, c.x), Run(c), ListFrame(ns, rep, nul, c))
    decreases ns, 20
  {
    hide Yields, CodeAt, Ready, Length, Meaning, Code, Reaches, Backtrack;
    match ns
    case Last(car) => NodeYields(k, car, rep, nul, inRep, c);
    case Link(car, cdr) => AltFirst(k, ns, rep, nul, inRep, c);
  }

  lemma {:induction false} AltFirst(k: Ctx, ns: Nodes, rep: nat, nul: nat, inRep: bool, c: Config)
    requires ns.Link? && PlacedList(k, ns, AltCode(ns, rep, nul), rep, inRep, c)
    ensures Yields(k.pr, k.t, c.p + AltLength(ns), AltMeaning(ns, k.t, c.x), Run(c), ListFrame(ns, rep, nul, c))
    decreases ns, 19
  {
    hide Yields, CodeAt, Ready, Length, Meaning, Code, Reaches, Backtrack, AltMeaning, AltLength, AltCode,
         Ranges, RangesOf, Nuls, NulsOf, WellFormed, WellFormedAll, RepeatMarks, RepeatMarksAll, Groups, Refs;
    var car, cdr := ns.car, ns.cdr;
    var push := Push(Length(car) + SIZE_OP_JUMP);
    var m := c.p + SIZE_OP_PUSH + Length(car);
    var a, q := m + SIZE_OP_JUMP, c.p + AltLength(ns);
    AltParts(k, ns, rep, nul, inRep, c);
    OneStep(k, c, push);
    var ch := Choose(KAlt, a, c);
    var c1 := c.(p := c.p + SIZE_OP_PUSH, clean := true, stack := c.stack + [ch]);
    AltReady(k, ns, rep, nul, inRep, c, c1);
    NodeYields(k, car, rep, nul, inRep, c1);
    YieldsJump(k, m, AltLength(cdr), Meaning(car, k.t, c.x), Run(c1), NodeFrame(car, rep, nul, c1));
    var d := Config(a, c.x, c.loops, c.marks, false, c.stack);
    var f := ListFrame(ns, rep, nul, c);
    AltReady(k, ns, rep, nul, inRep, c, d);
    AltCorrect(k, cdr, rep + Reps(car), nul + Nuls(car), inRep, d);
    YieldsWider(k.pr, k.t, q, AltMeaning(cdr, k.t, c.x), Run(d), ListFrame(cdr, rep + Reps(car), nul + Nuls(car), d),
        f);
    YieldsAlternative(k, q, Meaning(car, k.t, c.x), AltMeaning(cdr, k.t, c.x), c, ch, Run(c1),
        NodeFrame(car, rep, nul, c1), f);
  }

  // ---------------------------------------------------------------- groups

  lemma {:induction false} GroupCorrect(k: Ctx, n: Node, rep: nat, nul: nat, inRep: bool, c: Config)
    requires n.Group? && Placed(k, n, rep, nul, inRep, c)
    ensures Correct(k, n, rep, nul, c)
    decreases n, 19
  {
    hide Yields, CodeAt, Ready, Length, Meaning, Code, Reaches, Backtrack, Placed, Ranges, Nuls, Arrives, Ok, Groups;
    hide Refs;
    var f := NodeFrame(n, rep, nul, c);
    var x1 := OpenGroup(n.num, n.pushStart, c.x);
    var m, q := c.p + SIZE_OP_MEMORY + Length(n.target), c.p + Length(n);
    var c1 := c.(p := c.p + SIZE_OP_MEMORY, x := x1, clean := false);
    GroupParts(k, n, rep, nul, inRep, c);
    OpenStep(k, n, rep, nul, inRep, c);
    NodeYields(k, n.target, rep, nul, inRep, c1);
    var ys := Meaning(n.target, k.t, x1);
    forall d: Config | d.x in ys && Arrives(m, d.x, d, f)
      ensures Yields(k.pr, k.t, q, CloseOf(n.num)(d.x), Run(d), Then(d, f))
    {
      CloseStep(k, n, rep, nul, inRep, c, d, f);
    }
    YieldsBind(k.pr, k.t, m, q, ys, CloseOf(n.num), Run(c1), NodeFrame(n.target, rep, nul, c1), f);
    CloseAllFlat(n.num, ys);
    YieldsFrom(k.pr, k.t, q, CloseAll(n.num, ys), Run(c), Run(c1), f);
  }

  lemma OpenStep(k: Ctx, n: Node, rep: nat, nul: nat, inRep: bool, c: Config)
    requires n.Group? && Placed(k, n, rep, nul, inRep, c)
    ensures Reaches(k.pr, k.t, Run(c),
        Run(c.(p := c.p + SIZE_OP_MEMORY, x := OpenGroup(n.num, n.pushStart, c.x), clean := false)))
  {
    hide Reaches, CodeAt, Code, Length, Meaning, Ranges, Ready, Groups, Refs;
    GroupParts(k, n, rep, nul, inRep, c);
    OneStep(k, c, MemStart(n.num, n.pushStart));
  }

  lemma CloseStep(k: Ctx, n: Node, rep: nat, nul: nat, inRep: bool, c: Config, d: Config, f: Frame)
    requires n.Group? && Placed(k, n, rep, nul, inRep, c)
    requires d.x in Meaning(n.target, k.t, OpenGroup(n.num, n.pushStart, c.x))
    requires Arrives(c.p + SIZE_OP_MEMORY + Length(n.target), d.x, d, f)
    ensures Yields(k.pr, k.t, c.p + Length(n), CloseOf(n.num)(d.x), Run(d), Then(d, f))
  {
    hide Reaches, Yields, CodeAt, Code, Length, Meaning, Ranges, Ok, Backtrack;
    GroupParts(k, n, rep, nul, inRep, c);
    StillOpen(k, n, OpenGroup(n.num, n.pushStart, c.x), d.x);
    var d1 := d.(p := d.p + SIZE_OP_MEMORY, x := CloseGroup(n.num, d.x), clean := false);
    OneStep(k, d, MemEnd(n.num, n.pushEnd));
    YieldsOne(k.pr, k.t, d1.p, d1, Then(d, f));
    YieldsFrom(k.pr, k.t, d1.p, [d1.x], Run(d), Run(d1), Then(d, f));
  }

  lemma StillOpen(k: Ctx, n: Node, x1: St, y: St)
    requires n.Group? && WellFormed(n, k.e) && Ok(k.t, k.e, x1) && NoneOpen(Names(n.target), x1)
    requires Get(x1.caps, n.num).Open? && y in Meaning(n.target, k.t, x1)
    ensures Get(y.caps, n.num).Open?
  {
    hide Meaning, Ok;
    MeaningOk(k, n.target, Names(n.target), x1, y);
  }

  // ---------------------------------------------------------------- look-around and atomic groups

  /** A body above a bracket either fails back below it or reaches its end opcode with its first way. */
  lemma BracketOutcome(k: Ctx, m: int, ys: seq<St>, kind: Kind, alt: int, c: Config, c1: Config,
      g: Frame) returns (d: Config)
    requires !kind.KAlt? && g == FrameOf(c1, g.rlo, g.rhi, g.nlo, g.nhi)
    requires c1.stack == c.stack + [Choose(kind, alt, c)] && Reaches(k.pr, k.t, Run(c), Run(c1))
    requires Yields(k.pr, k.t, m, ys, Run(c1), g)
    ensures ys == [] ==> Reaches(k.pr, k.t, Run(c), Backtrack(c1.stack))
    ensures ys != [] ==>
      Reaches(k.pr, k.t, Run(c), Run(d)) && d.p == m && d.x == ys[0]
      && Bracket(d.stack, kind) == |c.stack| && d.stack[..|c.stack|] == c.stack
          && d.stack[|c.stack|] == Choose(kind, alt, c)
      && AgreeOutside(d.loops, g.loops, g.rlo, g.rhi) && AgreeOutside(d.marks, g.marks, g.nlo, g.nhi)
  {
    hide Reaches, Backtrack, Bracket;
    if ys == [] {
      ReachesTrans(k.pr, k.t, Run(c), Run(c1), Backtrack(c1.stack));
      d := c;
    } else {
      d :| Reaches(k.pr, k.t, Run(c1), Run(d)) && Arrives(m, ys[0], d, g)
           && Yields(k.pr, k.t, m, ys[1..], Backtrack(d.stack), g);
      ReachesTrans(k.pr, k.t, Run(c), Run(c1), Run(d));
      BracketFound(d.stack, c.stack, Choose(kind, alt, c));
    }
  }

  /** The body of an atomic group or look-ahead failed: so does the group. */
  lemma BracketFails(k: Ctx, q: int, kind: Kind, alt: int, c: Config, f: Frame)
    requires (kind.KPos? || kind.KStop?) && f.base == c.stack
    requires Reaches(k.pr, k.t, Run(c), Backtrack(c.stack + [Choose(kind, alt, c)]))
    ensures Yields(k.pr, k.t, q, [], Run(c), f)
  {
    hide Yields, Backtrack, Reaches;
    BacktrackTop(c.stack, Choose(kind, alt, c));
    YieldsNone(k.pr, k.t, q, f);
    YieldsFrom(k.pr, k.t, q, [], Run(c), Backtrack(c.stack), f);
  }

  /** The end opcode of an atomic group or look-ahead found its bracket. */
  lemma BracketEnds(k: Ctx, c: Config, d: Config, d1: Config, f: Frame)
    requires Reaches(k.pr, k.t, Run(c), Run(d)) && Reaches(k.pr, k.t, Run(d), Run(d1))
    requires f == FrameOf(c, f.rlo, f.rhi, f.nlo, f.nhi) && d1.stack == c.stack && d1.marks == c.marks
    requires AgreeOutside(d1.loops, c.loops, f.rlo, f.rhi)
    ensures Yields(k.pr, k.t, d1.p, [d1.x], Run(c), f)
  {
    hide Yields, Backtrack, Reaches;
    ReachesTrans(k.pr, k.t, Run(c), Run(d), Run(d1));
    YieldsOne(k.pr, k.t, d1.p, d1, f);
    YieldsFrom(k.pr, k.t, d1.p, [d1.x], Run(c), Run(d1), f);
  }

  lemma PopPosStep(k: Ctx, d: Config, c: Config) returns (d1: Config)
    requires Fetches(k, d, PopPos) && Bracket(d.stack, KPos) == |c.stack| && d.stack[..|c.stack|] == c.stack
    requires d.stack[|c.stack|].x == c.x && d.stack[|c.stack|].marks == c.marks
    ensures d1 == Config(d.p + 1, d.x.(s := c.x.s, prev := c.x.prev), d.loops, c.marks, false, c.stack)
    ensures Reaches(k.pr, k.t, Run(d), Run(d1))
  {
    hide Reaches, Backtrack, Bracket;
    d1 := Config(d.p + 1, d.x.(s := c.x.s, prev := c.x.prev), d.loops, c.marks, false, c.stack);
    OneStep(k, d, PopPos);
  }

  lemma PopStopStep(k: Ctx, d: Config, c: Config) returns (d1: Config)
    requires Fetches(k, d, PopStopBt) && Bracket(d.stack, KStop) == |c.stack| && d.stack[..|c.stack|] == c.stack
    requires d.stack[|c.stack|].marks == c.marks
    ensures d1 == Config(d.p + 1, d.x, d.loops, c.marks, false, c.stack)
    ensures Reaches(k.pr, k.t, Run(d), Run(d1))
  {
    hide Reaches, Backtrack, Bracket;
    d1 := Config(d.p + 1, d.x, d.loops, c.marks, false, c.stack);
    OneStep(k, d, PopStopBt);
  }

  lemma {:induction false} AheadCorrect(k: Ctx, n: Node, rep: nat, nul: nat, inRep: bool, c: Config)
    requires n.Look? && n.look.Ahead? && Placed(k, n, rep, nul, inRep, c)
    ensures Correct(k, n, rep, nul, c)
    decreases n, 19
  {
    hide Yields, CodeAt, Backtrack, Bracket, Reaches, Length, Meaning, Code, Placed, Ranges, Nuls, AgreeOutside;
    var f := NodeFrame(n, rep, nul, c);
    var m := c.p + SIZE_OP_PUSH_POS + Length(n.target);
    var c1 := c.(p := c.p + 1, clean := false, stack := c.stack + [Choose(KPos, c.p + 1, c)]);
    AheadParts(k, n, rep, nul, inRep, c, c1);
    OneStep(k, c, PushPos);
    NodeYields(k, n.target, rep, nul, inRep, c1);
    var ys := Meaning(n.target, k.t, c.x);
    var d := BracketOutcome(k, m, ys, KPos, c.p + 1, c, c1, NodeFrame(n.target, rep, nul, c1));
    if ys == [] {
      BracketFails(k, c.p + Length(n), KPos, c.p + 1, c, f);
    } else {
      var d1 := PopPosStep(k, d, c);
      BracketEnds(k, c, d, d1, f);
    }
  }

  lemma {:induction false} AtomicCorrect(k: Ctx, n: Node, rep: nat, nul: nat, inRep: bool, c: Config)
    requires n.Atomic? && !n.simple && Placed(k, n, rep, nul, inRep, c)
    ensures Correct(k, n, rep, nul, c)
    decreases n, 19
  {
    hide Yields, CodeAt, Backtrack, Bracket, Reaches, Length, Meaning, Code, Placed, Ranges, Nuls, AgreeOutside;
    var f := NodeFrame(n, rep, nul, c);
    var m := c.p + SIZE_OP_PUSH_STOP_BT + Length(n.target);
    var c1 := c.(p := c.p + 1, clean := false, stack := c.stack + [Choose(KStop, c.p + 1, c)]);
    AtomicParts(k, n, rep, nul, inRep, c, c1);
    OneStep(k, c, PushStopBt);
    NodeYields(k, n.target, rep, nul, inRep, c1);
    var ys := Meaning(n.target, k.t, c.x);
    var d := BracketOutcome(k, m, ys, KStop, c.p + 1, c, c1, NodeFrame(n.target, rep, nul, c1));
    if ys == [] {
      BracketFails(k, c.p + Length(n), KStop, c.p + 1, c, f);
    } else {
      var d1 := PopStopStep(k, d, c);
      BracketEnds(k, c, d, d1, f);
    }
  }

  /** A negative look-around: resumed at its end when the body fails, failing itself when the body matches. */
  lemma NotOutcome(k: Ctx, q: int, m: int, ys: seq<St>, kind: Kind, c: Config, c1: Config, g: Frame, end: Instr,
      f: Frame)
    requires (kind.KPosNot? && end.FailPos?) || (kind.KBehindNot? && end.FailLookBehindNot?)
    requires g == FrameOf(c1, g.rlo, g.rhi, g.nlo, g.nhi) && f == FrameOf(c, f.rlo, f.rhi, f.nlo, f.nhi)
    requires c1.stack == c.stack + [Choose(kind, q, c)] && Reaches(k.pr, k.t, Run(c), Run(c1))
    requires Yields(k.pr, k.t, m, ys, Run(c1), g) && 0 <= m && k.pr.fetch(m) == Some(end)
    ensures Yields(k.pr, k.t, q, if ys == [] then [c.x] else [], Run(c), f)
  {
    hide Yields, Backtrack, Bracket, Reaches;
    var d := BracketOutcome(k, m, ys, kind, q, c, c1, g);
    if ys == [] {
      BacktrackTop(c.stack, Choose(kind, q, c));
      var d1 := Config(q, c.x, c.loops, c.marks, false, c.stack);
      YieldsOne(k.pr, k.t, q, d1, f);
      YieldsFrom(k.pr, k.t, q, [c.x], Run(c), Run(d1), f);
    } else {
      OneStep(k, d, end);
      ReachesTrans(k.pr, k.t, Run(c), Run(d), Backtrack(c.stack));
      YieldsNone(k.pr, k.t, q, f);
      YieldsFrom(k.pr, k.t, q, [], Run(c), Backtrack(c.stack), f);
    }
  }

  lemma {:induction false} AheadNotCorrect(k: Ctx, n: Node, rep: nat, nul: nat, inRep: bool, c: Config)
    requires n.Look? && n.look.AheadNot? && Placed(k, n, rep, nul, inRep, c)
    ensures Correct(k, n, rep, nul, c)
    decreases n, 19
  {
    hide Yields, CodeAt, Backtrack, Bracket, Reaches, Length, Meaning, Code, Placed, Ranges, Nuls;
    var m, q := c.p + SIZE_OP_PUSH_POS_NOT + Length(n.target), c.p + Length(n);
    var c1 := c.(p := c.p + SIZE_OP_PUSH_POS_NOT, clean := false, stack := c.stack + [Choose(KPosNot, q, c)]);
    AheadNotParts(k, n, rep, nul, inRep, c, c1);
    OneStep(k, c, PushPosNot(Length(n.target) + SIZE_OP_FAIL_POS));
    NodeYields(k, n.target, rep, nul, inRep, c1);
    NotOutcome(k, q, m, Meaning(n.target, k.t, c.x), KPosNot, c, c1, NodeFrame(n.target, rep, nul, c1), FailPos,
               NodeFrame(n, rep, nul, c));
  }

  lemma {:induction false} BehindCorrect(k: Ctx, n: Node, rep: nat, nul: nat, inRep: bool, c: Config)
    requires n.Look? && n.look.Behind? && Placed(k, n, rep, nul, inRep, c)
    ensures Correct(k, n, rep, nul, c)
    decreases n, 19
  {
    hide Yields, CodeAt, Backtrack, Reaches, Length, Meaning, Code, Placed, Ranges, Nuls;
    var q := c.p + Length(n);
    var f := NodeFrame(n, rep, nul, c);
    BehindParts(k, n, rep, nul, inRep, c);
    OneStep(k, c, LookBehind(n.charLen));
    if c.x.s < n.charLen {
      YieldsNone(k.pr, k.t, q, f);
      YieldsFrom(k.pr, k.t, q, [], Run(c), Backtrack(c.stack), f);
    } else {
      var c1 := c.(p := c.p + SIZE_OP_LOOK_BEHIND, x := StepBack(c.x, n.charLen));
      NodeYields(k, n.target, rep, nul, inRep, c1);
      YieldsFrom(k.pr, k.t, q, Meaning(n.target, k.t, c1.x), Run(c), Run(c1), f);
    }
  }

  lemma {:induction false} BehindNotCorrect(k: Ctx, n: Node, rep: nat, nul: nat, inRep: bool, c: Config)
    requires n.Look? && n.look.BehindNot? && Placed(k, n, rep, nul, inRep, c)
    ensures Correct(k, n, rep, nul, c)
    decreases n, 19
  {
    hide Yields, CodeAt, Backtrack, Bracket, Reaches, Length, Meaning, Code, Placed, Ranges, Nuls;
    var start := PushLookBehindNot(Length(n.target) + SIZE_OP_FAIL_LOOK_BEHIND_NOT, n.charLen);
    var m, q := c.p + SIZE_OP_PUSH_LOOK_BEHIND_NOT + Length(n.target), c.p + Length(n);
    var f := NodeFrame(n, rep, nul, c);
    var c1 := if c.x.s < n.charLen then c else
      c.(p := c.p + SIZE_OP_PUSH_LOOK_BEHIND_NOT, x := StepBack(c.x, n.charLen), clean := false,
         stack := c.stack + [Choose(KBehindNot, q, c)]);
    BehindNotParts(k, n, rep, nul, inRep, c, c1);
    OneStep(k, c, start);
    if c.x.s < n.charLen {
      var d := c.(p := q);
      YieldsOne(k.pr, k.t, q, d, f);
      YieldsFrom(k.pr, k.t, q, [c.x], Run(c), Run(d), f);
    } else {
      NodeYields(k, n.target, rep, nul, inRep, c1);
      NotOutcome(k, q, m, Meaning(n.target, k.t, c1.x), KBehindNot, c, c1, NodeFrame(n.target, rep, nul, c1),
                 FailLookBehindNot, f);
    }
  }

  // ---------------------------------------------------------------- copies of a repeated target

  lemma {:induction false} CopyContinues(k: Ctx, n: Node, mid: int, rep: nat, nul: nat, gs: set<nat>, xs: seq<St>,
                                         f: Frame, f2: Frame, d: Config)
    requires Repeatable(k, n, gs, xs) && BodyAt(k, n, mid, rep, nul)
    requires f2 == f.(rhi := rep + Reps(n), nhi := nul + Nuls(n)) && f.rlo <= rep && f.nlo <= nul
    requires d.x in xs && Arrives(mid, d.x, d, f)
    ensures Yields(k.pr, k.t, After(mid, n), Meaning(n, k.t, d.x), Run(d), Then(d, f2))
    decreases n, 21
  {
    hide Yields, CodeAt, Code, Meaning, Ranges, Length, Placed, Repeatable, Nuls, Reaches, Backtrack, BodyAt;
    BodyPlaced(k, n, gs, xs, rep, nul, d);
    NodeYields(k, n, rep, nul, true, d);
    YieldsWider(k.pr, k.t, After(mid, n), Meaning(n, k.t, d.x), Run(d), NodeFrame(n, rep, nul, d), Then(d, f2));
  }

  lemma {:induction false} TimesYields(k: Ctx, n: Node, m: nat, mid: int, rep: nat, nul: nat, gs: set<nat>,
                                       xs: seq<St>, s: State, f: Frame)
    requires Repeatable(k, n, gs, xs) && CopiesAt(k, n, m, mid, rep, nul)
    requires Yields(k.pr, k.t, mid, xs, s, f) && f.rlo <= f.rhi == rep && f.nlo <= f.nhi == nul
    ensures Yields(k.pr, k.t, mid + Scaled(Length(n), m), TimesMeaning(n, k.t, m, xs), s,
                   f.(rhi := rep + Scaled(Reps(n), m), nhi := nul + Scaled(Nuls(n), m)))
    decreases n, 22, m
  {
    hide Yields, CodeAt, Code, Ranges, Length, Nuls, Arrives, Repeatable, CopiesAt, BodyAt, Scaled, Meaning, MeaningAll,
         Reaches, Backtrack;
    if m == 0 {
      ScaledZero(Length(n));
      ScaledZero(Reps(n));
      ScaledZero(Nuls(n));
    } else {
      var f2 := f.(rhi := rep + Reps(n), nhi := nul + Nuls(n));
      CopiesParts(k, n, m, mid, rep, nul);
      forall d: Config | d.x in xs && Arrives(mid, d.x, d, f)
        ensures Yields(k.pr, k.t, After(mid, n), MeaningOf(n, k.t)(d.x), Run(d), Then(d, f2))
      {
        CopyContinues(k, n, mid, rep, nul, gs, xs, f, f2, d);
      }
      YieldsBind(k.pr, k.t, mid, After(mid, n), xs, MeaningOf(n, k.t), s, f, f2);
      MeaningAllFlat(n, k.t, xs);
      RepeatableMore(k, n, gs, xs);
      TimesYields(k, n, m - 1, After(mid, n), rep + Reps(n), nul + Nuls(n), gs, MeaningAll(n, k.t, xs), s, f2);
      ScaledStep(Length(n), m);
      ScaledStep(Reps(n), m);
      ScaledStep(Nuls(n), m);
    }
  }

  function CopiesFrame(n: Node, m: nat, rep: nat, nul: nat, c: Config): Frame {
    FrameOf(c, rep, rep + Scaled(Reps(n), m), nul, nul + Scaled(Nuls(n), m))
  }

  /** The copies at the start of a quantifier, from its own starting state. */
  lemma {:induction false} CopiesYield(k: Ctx, n: Node, m: nat, rep: nat, nul: nat, gs: set<nat>, c: Config)
    requires Repeatable(k, n, gs, [c.x]) && CopiesAt(k, n, m, c.p, rep, nul)
    ensures Yields(k.pr, k.t, c.p + Scaled(Length(n), m), TimesMeaning(n, k.t, m, [c.x]), Run(c),
        CopiesFrame(n, m, rep, nul, c))
    decreases n, 23
  {
    hide Yields, Repeatable, CopiesAt, Length, Nuls, Ranges, TimesMeaning, Scaled, Reaches, Backtrack;
    var f := FrameOf(c, rep, rep, nul, nul);
    YieldsOne(k.pr, k.t, c.p, c, f);
    TimesYields(k, n, m, c.p, rep, nul, gs, [c.x], Run(c), f);
  }

  // ---------------------------------------------------------------- .*

  /** OP_ANYCHAR_STAR finds every length, longest first. */
  lemma {:induction false} StarYields(k: Ctx, ml: bool, peek: Option<byte>, q: int, c: Config, begin: nat, f: Frame)
    requires f == FrameOf(c, f.rlo, f.rhi, f.nlo, f.nhi) && f.rlo <= f.rhi && f.nlo <= f.nhi
    ensures Yields(k.pr, k.t, q, StarMeaning(k.t, ml, peek, c.x, begin), ExecStar(k.t, ml, peek, q, c, begin), f)
    decreases Left(k.t, c.x)
  {
    hide Yields, Backtrack, Reaches;
    if c.x.s >= k.t.End() {
      var d := c.(p := q, x := c.x.(prev := begin), clean := false);
      YieldsOne(k.pr, k.t, q, d, f);
    } else {
      var push := peek.None? || peek.value == k.t.At(c.x.s);
      var here := if push then [c.x] else [];
      var pushed := if push then c.stack + [Choose(KAlt, q, c)] else c.stack;
      HereYields(k, q, c, push, f);
      if ml || !k.t.IsNewline(c.x.s) {
        var c1 := c.(x := Advance(c.x, 1), stack := pushed);
        StarYields(k, ml, peek, q, c1, begin, Then(c1, f));
        assert pushed[..|c.stack|] == c.stack;
        YieldsChain(k.pr, k.t, q, StarMeaning(k.t, ml, peek, c1.x, begin), here,
                    ExecStar(k.t, ml, peek, q, c1, begin), Then(c1, f), f);
      }
    }
  }

  lemma HereYields(k: Ctx, q: int, c: Config, push: bool, f: Frame)
    requires f == FrameOf(c, f.rlo, f.rhi, f.nlo, f.nhi)
    ensures Yields(k.pr, k.t, q, if push then [c.x] else [],
                   Backtrack(if push then c.stack + [Choose(KAlt, q, c)] else c.stack), f)
  {
    hide Yields, Backtrack, Reaches;
    if push {
      BacktrackTop(c.stack, Choose(KAlt, q, c));
      YieldsOne(k.pr, k.t, q, Config(q, c.x, c.loops, c.marks, false, c.stack), f);
    } else {
      YieldsNone(k.pr, k.t, q, f);
    }
  }

  lemma {:induction false} StarCorrect(k: Ctx, n: Node, rep: nat, nul: nat, inRep: bool, c: Config)
    requires n.Quant? && ShapeOf(n).AnyStar? && Placed(k, n, rep, nul, inRep, c)
    ensures Correct(k, n, rep, nul, c)
    decreases n, 19, 0
  {
    hide Yields, CodeAt, Arrives, Placed, Repeatable, CopiesAt, Meaning, Length, Nuls, Ranges, Reaches, Backtrack,
         StarAll, TimesMeaning, Scaled;
    var body := n.target;
    var mid, q := c.p + Scaled(Length(body), n.lower), c.p + Length(n);
    var f := CopiesFrame(body, n.lower, rep, nul, c);
    StarParts(k, n, rep, nul, inRep, c);
    QuantBasics(k, n, rep, nul, inRep, c);
    CopiesYield(k, body, n.lower, rep, nul, Names(n), c);
    var xs := TimesMeaning(body, k.t, n.lower, [c.x]);
    forall d: Config | d.x in xs && Arrives(mid, d.x, d, f)
      ensures Yields(k.pr, k.t, q, StarOf(n, k.t)(d.x), Run(d), Then(d, f))
    {
      StarTail(k, n, mid, d, f);
    }
    YieldsBind(k.pr, k.t, mid, q, xs, StarOf(n, k.t), Run(c), f, f);
    StarAllFlat(n, k.t, xs);
  }

  lemma StarTail(k: Ctx, n: Node, mid: int, d: Config, f: Frame)
    requires n.Quant? && n.target.Any? && Arrives(mid, d.x, d, f) && 0 <= mid && k.pr.fetch(mid) == Some(StarOp(n))
    requires f.rlo <= f.rhi && f.nlo <= f.nhi
    ensures Yields(k.pr, k.t, mid + Size(StarOp(n)), StarOf(n, k.t)(d.x), Run(d), Then(d, f))
  {
    hide Yields, Backtrack, Reaches;
    var q := mid + Size(StarOp(n));
    var ml := n.target.multiline;
    OneStep(k, d, StarOp(n));
    StarYields(k, ml, n.nextHead, q, d, d.x.s, Then(d, f));
    YieldsFrom(k.pr, k.t, q, StarMeaning(k.t, ml, n.nextHead, d.x, d.x.s), Run(d),
               ExecStar(k.t, ml, n.nextHead, q, d, d.x.s), Then(d, f));
  }

  // ---------------------------------------------------------------- push/jump loops

  /** What a loop needs to know about its target besides where the code stands. */
  ghost predicate Turnable(k: Ctx, q: Node, x: St)
    requires q.Quant?
  {
    WellFormed(q, k.e) && q.upper != 0 && Repeatable(k, q.target, Names(q.target), [x])
  }

  lemma TurnableNext(k: Ctx, q: Node, x: St, y: St)
    requires q.Quant? && Turnable(k, q, x) && y in Meaning(q.target, k.t, x)
    ensures Turnable(k, q, y) && (TurnOf(q, x, y).Again? ==> Progress(q, k.t, x, y))
    ensures |x.log| <= |y.log|
  {
    hide Meaning, RepeatMarks, Ok, Extends, WellFormed, TurnOf, Progress;
    var n := q.target;
    RepeatableOne(k, n, Names(n), [x], x);
    RepeatableOne(k, n, Names(n), Meaning(n, k.t, x), y);
    assert NoneOpen(Names(n), x) && Ok(k.t, k.e, x);
    TargetWellFormed(q, k.e);
    MeaningOk(k, n, Names(n), x, y);
    LogGrows(Groups(n), x, y);
    if TurnOf(q, x, y).Again? { P.TurnMakesProgress(q, k.t, k.e, x, y); }
  }

  lemma TargetWellFormed(q: Node, e: Env)
    requires q.Quant? && WellFormed(q, e)
    ensures WellFormed(q.target, e) && Groups(q) == Groups(q.target)
  {
  }

  lemma LogGrows(gs: set<nat>, x: St, y: St)
    requires Extends(gs, x, y)
    ensures |x.log| <= |y.log|
  {
  }

  /** The numbers a loop may use, from a configuration inside it. */
  function LoopFrame(q: Node, rep: nat, nul: nat, c: Config): Frame
    requires q.Quant?
  {
    FrameOf(c, rep, rep + Reps(q.target), nul, nul + OwnMark(q) + Nuls(q.target))
  }

  /** The body of q between its null checks: what arrives at the null check end, or at the turning instruction
      if there is no check. */
  function CheckAt(q: Node, b: int): int
    requires q.Quant?
  {
    b + 3 * OwnMark(q) + Length(q.target)
  }

  /** The mark set at the start of the iteration is still there at its end. */
  ghost predicate MarkKept(q: Node, nul: nat, x: St, d: Config)
    requires q.Quant?
  {
    !q.emptyInfo.NotEmpty? ==> nul in d.marks && d.marks[nul] == Mark(x.s, |x.log|)
  }

  /** One run of the body, up to the null check. */
  lemma {:induction false} BodyYields(k: Ctx, q: Node, rep: nat, nul: nat, c: Config) returns (c1: Config, g: Frame)
    requires q.Quant? && Turnable(k, q, c.x) && CheckedAt(k, q, c.p, rep, nul)
    ensures c1.x == c.x && c1.stack == c.stack && c1.loops == c.loops && g.base == c.stack && g.loops == c.loops
    ensures Reaches(k.pr, k.t, Run(c), Run(c1))
    ensures Yields(k.pr, k.t, CheckAt(q, c.p), Meaning(q.target, k.t, c.x), Run(c1), g)
    ensures Wider(LoopFrame(q, rep, nul, c), g) && g.rlo == rep && g.rhi == rep + Reps(q.target)
    ensures forall y, d: Config :: Arrives(CheckAt(q, c.p), y, d, g) ==> MarkKept(q, nul, c.x, d)
    decreases q, 10
  {
    hide Yields, CodeAt, Placed, Repeatable, Meaning, Length, Nuls, Ranges, Backtrack, Code, WellFormed, BodyAt, Above;
    var n := q.target;
    c1 := c;
    if q.emptyInfo.NotEmpty? {
      ReachesRefl(k.pr, k.t, Run(c));
    } else {
      c1 := c.(p := c.p + 3, clean := false, marks := c.marks[nul := Mark(c.x.s, |c.x.log|)]);
      OneStep(k, c, NullCheckStart(nul));
    }
    g := NodeFrame(n, rep, nul + OwnMark(q), c1);
    assert Above(c.stack, c.stack) by { AboveRefl(c.stack); }
    BodyPlaced(k, n, Names(n), [c.x], rep, nul + OwnMark(q), c1);
    NodeYields(k, n, rep, nul + OwnMark(q), true, c1);
  }

  lemma AboveRefl(stack: seq<Choice>)
    ensures Above(stack, stack)
  {
    assert stack[..|stack|] == stack;
  }

  /** The null check at the end of an iteration decides as TurnOf does. */
  lemma NullEndStep(k: Ctx, q: Node, b: int, rep: nat, nul: nat, x: St, d: Config, skip: int)
    requires q.Quant? && CheckedAt(k, q, b, rep, nul) && d.p == CheckAt(q, b) && MarkKept(q, nul, x, d)
        && |x.log| <= |d.x.log|
    requires Skipped(k.pr, b + CheckedLength(q)) == Some(skip)
    ensures TurnOf(q, x, d.x).Again? ==> Reaches(k.pr, k.t, Run(d), Run(d.(p := b + CheckedLength(q))))
    ensures TurnOf(q, x, d.x).Leave? ==> Reaches(k.pr, k.t, Run(d), Run(d.(p := skip)))
    ensures TurnOf(q, x, d.x).Reject? ==> Reaches(k.pr, k.t, Run(d), Backtrack(d.stack))
  {
    hide Reaches, Backtrack, BodyAt, Length, Skipped;
    if q.emptyInfo.NotEmpty? {
      assert d.p == b + CheckedLength(q);
      assert d.(p := d.p) == d;
      ReachesRefl(k.pr, k.t, Run(d));
    } else if q.emptyInfo.Empty? {
      OneStep(k, d, NullCheckEnd(nul));
    } else {
      OneStep(k, d, NullCheckEndMemst(nul));
    }
  }

  function HeadAt(q: Node, h: int): int
    requires q.Quant?
  {
    if q.greedy then h else TurnAt(q, h)
  }

  /** What the code after one iteration makes of its result. */
  lemma {:induction false} TurnYields(k: Ctx, q: Node, h: int, rep: nat, nul: nat, x: St, d: Config)
    requires q.Quant? && Turnable(k, q, x) && LoopAt(k, q, h, rep, nul) && d.x in Meaning(q.target, k.t, x)
    requires d.p == CheckAt(q, BodyStart(q, h)) && MarkKept(q, nul, x, d)
    ensures Yields(k.pr, k.t, LoopExit(q, h), LoopTurn(q, k.t, x, d.x), Run(d), LoopFrame(q, rep, nul, d))
    decreases q, 11, Left(k.t, x), |Dirty(Groups(q.target), x)|, 0
  {
    hide Yields, Turnable, Meaning, Reaches, Backtrack, CheckedAt, Length, Nuls, Ranges, Progress, CheckAt;
    var f := LoopFrame(q, rep, nul, d);
    var exit, turn := LoopExit(q, h), TurnAt(q, h);
    TurnableNext(k, q, x, d.x);
    NullEndStep(k, q, BodyStart(q, h), rep, nul, x, d, exit);
    match TurnOf(q, x, d.x)
    case Leave =>
      var d1 := d.(p := exit);
      assert Arrives(exit, d.x, d1, f) by { AboveRefl(d.stack); }
      YieldsOne(k.pr, k.t, exit, d1, f);
      YieldsFrom(k.pr, k.t, exit, [d.x], Run(d), Run(d1), f);
    case Reject =>
      YieldsNone(k.pr, k.t, exit, f);
      YieldsFrom(k.pr, k.t, exit, [], Run(d), Backtrack(d.stack), f);
    case Again =>
      var d2 := d.(p := HeadAt(q, h));
      TurnBack(k, q, h, rep, nul, d);
      AgainDecreases(q, k.t, x, d.x);
      LoopYields(k, q, h, rep, nul, d2);
      YieldsFrom(k.pr, k.t, exit, Loop(q, k.t, d.x), Run(d), Run(d2), f);
  }

  lemma AgainDecreases(q: Node, t: Subject, x: St, y: St)
    requires q.Quant? && Progress(q, t, x, y)
    ensures Left(t, y) < Left(t, x)
            || (Left(t, y) == Left(t, x) && |Dirty(Groups(q.target), y)| < |Dirty(Groups(q.target), x)|)
  {
  }

  lemma TurnBack(k: Ctx, q: Node, h: int, rep: nat, nul: nat, d: Config)
    requires q.Quant? && LoopAt(k, q, h, rep, nul)
    requires Reaches(k.pr, k.t, Run(d), Run(d.(p := TurnAt(q, h))))
    ensures Reaches(k.pr, k.t, Run(d), Run(d.(p := HeadAt(q, h))))
  {
    hide Reaches, CheckedAt, CheckedLength;
    if q.greedy {
      var d1 := d.(p := TurnAt(q, h));
      var addr := -(CheckedLength(q) + SIZE_OP_JUMP + HeadSize(q));
      OneStep(k, d1, Jump(addr));
      assert d1.p + SIZE_OP_JUMP + addr == h;
      ReachesTrans(k.pr, k.t, Run(d), Run(d1), Run(d.(p := h)));
    }
  }

  /** All iterations that start at the body from c. */
  lemma {:induction false} TurnsYield(k: Ctx, q: Node, h: int, rep: nat, nul: nat, c: Config)
    requires q.Quant? && Turnable(k, q, c.x) && LoopAt(k, q, h, rep, nul) && c.p == BodyStart(q, h)
    ensures Yields(k.pr, k.t, LoopExit(q, h), LoopTurns(q, k.t, c.x, Meaning(q.target, k.t, c.x)), Run(c),
        LoopFrame(q, rep, nul, c))
    decreases q, 11, Left(k.t, c.x), |Dirty(Groups(q.target), c.x)|, 1
  {
    hide Yields, Turnable, Meaning, Reaches, Backtrack, CheckedAt, Length, Nuls, Ranges, Above, AgreeOutside, LoopTurns,
         LoopTurn, MarkKept, CheckAt, LoopExit;
    var x, f := c.x, LoopFrame(q, rep, nul, c);
    var c1, g := BodyYields(k, q, rep, nul, c);
    var mid, exit := CheckAt(q, c.p), LoopExit(q, h);
    var ys := Meaning(q.target, k.t, x);
    forall d: Config | d.x in ys && Arrives(mid, d.x, d, g)
      ensures Yields(k.pr, k.t, exit, TurnTo(q, k.t, x)(d.x), Run(d), Then(d, f))
    {
      TurnYields(k, q, h, rep, nul, x, d);
    }
    YieldsBind(k.pr, k.t, mid, exit, ys, TurnTo(q, k.t, x), Run(c1), g, f);
    TurnsFlat(q, k.t, x, ys);
    YieldsFrom(k.pr, k.t, exit, LoopTurns(q, k.t, x, ys), Run(c), Run(c1), f);
  }

  /** The head of the loop. */
  lemma {:induction false} LoopYields(k: Ctx, q: Node, h: int, rep: nat, nul: nat, c: Config)
    requires q.Quant? && Turnable(k, q, c.x) && LoopAt(k, q, h, rep, nul) && c.p == HeadAt(q, h)
    ensures Yields(k.pr, k.t, LoopExit(q, h), Loop(q, k.t, c.x), Run(c), LoopFrame(q, rep, nul, c))
    decreases q, 11, Left(k.t, c.x), |Dirty(Groups(q.target), c.x)|, 3
  {
    hide Yields, Turnable, Meaning, Reaches, Backtrack, CheckedAt, Length, Nuls, Ranges, LoopTurns, CheckedLength;
    var x := c.x;
    var f, exit := LoopFrame(q, rep, nul, c), LoopExit(q, h);
    var turns := LoopTurns(q, k.t, x, Meaning(q.target, k.t, x));
    var d := Config(exit, x, c.loops, c.marks, false, c.stack);
    assert Arrives(exit, x, d, f) by { AboveRefl(c.stack); }
    YieldsOne(k.pr, k.t, exit, d, f);
    if !q.greedy {
      LazyHead(k, q, h, rep, nul, c);
    } else {
      var c1 := HeadStep(k, q, h, rep, nul, c);
      if c1.p == exit {
        YieldsOne(k.pr, k.t, exit, c1, f);
        YieldsFrom(k.pr, k.t, exit, [x], Run(c), Run(c1), f);
      } else {
        TurnsYield(k, q, h, rep, nul, c1);
        if c1.stack == c.stack {
          YieldsFrom(k.pr, k.t, exit, turns, Run(c), Run(c1), f);
        } else {
          YieldsAlternative(k, exit, turns, [x], c, Choose(KAlt, exit, c), Run(c1), LoopFrame(q, rep, nul, c1), f);
        }
      }
    }
  }

  /** What the loop-head instruction of a greedy loop does. */
  lemma HeadStep(k: Ctx, q: Node, h: int, rep: nat, nul: nat, c: Config) returns (c1: Config)
    requires q.Quant? && q.greedy && LoopAt(k, q, h, rep, nul) && c.p == h
    ensures Reaches(k.pr, k.t, Run(c), Run(c1)) && c1.x == c.x && c1.loops == c.loops && c1.marks == c.marks
    ensures var turns := LoopTurns(q, k.t, c.x, Meaning(q.target, k.t, c.x));
      (c1.p == LoopExit(q, h) && c1.stack == c.stack && Loop(q, k.t, c.x) == [c.x])
      || (c1.p == BodyStart(q, h) && c1.p != LoopExit(q, h)
          && ((c1.stack == c.stack && Loop(q, k.t, c.x) == turns)
              || (c1.stack == c.stack + [Choose(KAlt, LoopExit(q, h), c)] && Loop(q, k.t, c.x) == turns + [c.x])))
  {
    hide Reaches, CheckedAt, CheckedLength, Meaning, LoopTurns;
    var i := HeadOp(q);
    OneStep(k, c, i);
    var s := Exec(k.pr, k.t, i, c.p + Size(i), c);
    c1 := s.c;
    assert c1.stack == c.stack + [Choose(KAlt, LoopExit(q, h), c)] ==> c1.stack != c.stack by {
      assert |c.stack + [Choose(KAlt, LoopExit(q, h), c)]| == |c.stack| + 1;
    }
  }

  /** A lazy loop exits first and keeps the body as an alternative. */
  lemma {:induction false} LazyHead(k: Ctx, q: Node, h: int, rep: nat, nul: nat, c: Config)
    requires q.Quant? && !q.greedy && Turnable(k, q, c.x) && LoopAt(k, q, h, rep, nul) && c.p == TurnAt(q, h)
    ensures Yields(k.pr, k.t, LoopExit(q, h), Loop(q, k.t, c.x), Run(c), LoopFrame(q, rep, nul, c))
    decreases q, 11, Left(k.t, c.x), |Dirty(Groups(q.target), c.x)|, 2
  {
    hide Yields, Turnable, Meaning, Reaches, Backtrack, CheckedAt, Length, Nuls, Ranges, LoopTurns, CheckedLength;
    hide CheckedAt;
    var b, exit := BodyStart(q, h), LoopExit(q, h);
    var f := LoopFrame(q, rep, nul, c);
    var push := Push(-(CheckedLength(q) + SIZE_OP_PUSH));
    var ch := Choose(KAlt, b, c);
    var c1 := c.(p := exit, clean := true, stack := c.stack + [ch]);
    OneStep(k, c, push);
    var d := Config(b, c.x, c.loops, c.marks, false, c.stack);
    TurnsYield(k, q, h, rep, nul, d);
    BacktrackTop(c.stack, ch);
    assert Arrives(exit, c.x, c1, f) by { assert c1.stack[..|c.stack|] == c.stack; }
    YieldsCons(k.pr, k.t, exit, c.x, LoopTurns(q, k.t, c.x, Meaning(q.target, k.t, c.x)), Run(c), c1, f);
  }

  lemma {:induction false} QuantCorrect(k: Ctx, n: Node, rep: nat, nul: nat, inRep: bool, c: Config)
    requires n.Quant? && Placed(k, n, rep, nul, inRep, c)
    ensures Correct(k, n, rep, nul, c)
    decreases n, 19, 1
  {
    hide Placed, Correct, ShapeOf;
    match ShapeOf(n)
    case AnyStar => StarCorrect(k, n, rep, nul, inRep, c);
    case EnterLoop => EnterLoopCorrect(k, n, rep, nul, inRep, c);
    case PushLoop => PushLoopCorrect(k, n, rep, nul, inRep, c);
    case Expand => ExpandCorrect(k, n, rep, nul, inRep, c);
    case LazyOption => LazyCorrect(k, n, rep, nul, inRep, c);
    case Counter => CounterCorrect(k, n, rep, nul, inRep, c);
  }

  lemma {:induction false} PushLoopCorrect(k: Ctx, n: Node, rep: nat, nul: nat, inRep: bool, c: Config)
    requires n.Quant? && ShapeOf(n).PushLoop? && Placed(k, n, rep, nul, inRep, c)
    ensures Correct(k, n, rep, nul, c)
    decreases n, 19, 0
  {
    hide Yields, CodeAt, Arrives, Placed, Repeatable, CopiesAt, Meaning, Length, Nuls, Ranges, Reaches, Backtrack,
         LoopAll, Loop, TimesMeaning, Scaled, LoopAt, WellFormed, LoopLength, RangesAt, QuantCode, Groups, Refs;
    var body := n.target;
    var h, q := c.p + Scaled(Length(body), n.lower), c.p + Length(n);
    var f1, f := CopiesFrame(body, n.lower, rep, nul, c), NodeFrame(n, rep, nul, c);
    PushLoopParts(k, n, rep, nul, inRep, c);
    QuantBasics(k, n, rep, nul, inRep, c);
    CopiesYield(k, body, n.lower, rep, nul, Names(n), c);
    var xs := TimesMeaning(body, k.t, n.lower, [c.x]);
    RepeatableTimes(k, body, Names(n), n.lower, [c.x]);
    forall d: Config | d.x in xs && Arrives(h, d.x, d, f1)
      ensures Yields(k.pr, k.t, q, LoopOf(n, k.t)(d.x), Run(d), Then(d, f))
    {
      RepeatableOne(k, body, Names(n), xs, d.x);
      PushLoopTail(k, n, h, rep + Scaled(Reps(body), n.lower), nul + Scaled(Nuls(body), n.lower), d, f1, f);
    }
    assert Above(c.stack, c.stack) by { AboveRefl(c.stack); }
    YieldsBind(k.pr, k.t, h, q, xs, LoopOf(n, k.t), Run(c), f1, f);
    LoopAllFlat(n, k.t, xs);
  }

  lemma {:induction false} PushLoopTail(k: Ctx, n: Node, h: int, rep: nat, nul: nat, d: Config, f1: Frame, f: Frame)
    requires n.Quant? && LoopAt(k, n, h, rep, nul) && Turnable(k, n, d.x) && Arrives(h, d.x, d, f1)
    requires f.rlo <= rep && f.rhi == rep + Reps(n.target) && f.nlo <= nul && f.nhi == nul + OwnMark(n) + Nuls(n.target)
    ensures Yields(k.pr, k.t, LoopExit(n, h), Loop(n, k.t, d.x), Run(d), Then(d, f))
    decreases n, 12
  {
    hide Yields, Turnable, Meaning, Reaches, Backtrack, CheckedAt, Length, Nuls, Ranges, Loop, CheckedLength, LoopExit;
    var d1 := d.(p := HeadAt(n, h));
    assert Reaches(k.pr, k.t, Run(d), Run(d1)) by {
      if n.greedy {
        assert d1 == d;
        ReachesRefl(k.pr, k.t, Run(d));
      } else {
        OneStep(k, d, Jump(CheckedLength(n)));
      }
    }
    LoopYields(k, n, h, rep, nul, d1);
    YieldsFrom(k.pr, k.t, LoopExit(n, h), Loop(n, k.t, d.x), Run(d), Run(d1), LoopFrame(n, rep, nul, d1));
    assert Above(d.stack, d.stack) by { AboveRefl(d.stack); }
    YieldsWider(k.pr, k.t, LoopExit(n, h), Loop(n, k.t, d.x), Run(d), LoopFrame(n, rep, nul, d1), Then(d, f));
  }

  lemma {:induction false} EnterLoopCorrect(k: Ctx, n: Node, rep: nat, nul: nat, inRep: bool, c: Config)
    requires n.Quant? && ShapeOf(n).EnterLoop? && Placed(k, n, rep, nul, inRep, c)
    ensures Correct(k, n, rep, nul, c)
    decreases n, 19, 0
  {
    hide Yields, CodeAt, Placed, Repeatable, Meaning, Length, Nuls, Ranges, Reaches, Backtrack, LoopTurns, LoopAt,
         WellFormed, LoopLength, RangesAt, QuantCode, Groups, Refs;
    EnterLoopParts(k, n, rep, nul, inRep, c);
    QuantBasics(k, n, rep, nul, inRep, c);
    var h := c.p + SIZE_OP_JUMP;
    var c1 := c.(p := BodyStart(n, h));
    OneStep(k, c, Jump(if n.greedy then HeadSize(n) else SIZE_OP_JUMP));
    TurnsYield(k, n, h, rep, nul, c1);
    YieldsFrom(k.pr, k.t, LoopExit(n, h), LoopTurns(n, k.t, c.x, Meaning(n.target, k.t, c.x)), Run(c), Run(c1),
               NodeFrame(n, rep, nul, c));
  }

  // ---------------------------------------------------------------- optional copies

  function OptionalFrame(n: Node, m: nat, rep: nat, nul: nat, c: Config): Frame {
    FrameOf(c, rep, rep + Scaled(Reps(n), m), nul, nul + Scaled(Nuls(n), m))
  }

  function OptionalExit(n: Node, m: nat, p: int): int { p + Scaled(SIZE_OP_PUSH + Length(n), m) }

  /** The numbers of m copies, the first of them separated. */
  lemma OptionalNumbers(n: Node, m: nat, p: int)
    requires 0 < m
    ensures Scaled(Reps(n), m) == Reps(n) + Scaled(Reps(n), m - 1)
    ensures Scaled(Nuls(n), m) == Nuls(n) + Scaled(Nuls(n), m - 1)
    ensures OptionalExit(n, m, p) == OptionalExit(n, m - 1, After(p + SIZE_OP_PUSH, n))
    ensures OptionalExit(n, m, p) == p + SIZE_OP_PUSH + Scaled(Length(n), m) + Scaled(SIZE_OP_PUSH, m - 1)
  {
    hide Length, Nuls, Ranges;
    ScaledStep(Reps(n), m);
    ScaledStep(Nuls(n), m);
    ScaledStep(SIZE_OP_PUSH + Length(n), m);
    assert Scaled(SIZE_OP_PUSH + Length(n), m) == Scaled(SIZE_OP_PUSH, m) + Scaled(Length(n), m) by {
      assert (SIZE_OP_PUSH + Length(n)) * m == SIZE_OP_PUSH * m + Length(n) * m;
    }
    ScaledStep(SIZE_OP_PUSH, m);
  }

  lemma {:induction false} OptionalYields(k: Ctx, n: Node, m: nat, rep: nat, nul: nat, gs: set<nat>, c: Config)
    requires Repeatable(k, n, gs, [c.x]) && OptionalAt(k, n, m, c.p, rep, nul)
    ensures Yields(k.pr, k.t, OptionalExit(n, m, c.p), Optional(n, k.t, m, c.x), Run(c),
        OptionalFrame(n, m, rep, nul, c))
    decreases n, 22, m, 1
  {
    hide Yields, CodeAt, Code, Ranges, Length, Nuls, Repeatable, OptionalAt, BodyAt, Meaning, Reaches, Backtrack;
    hide OptionalAll;
    var f, exit := OptionalFrame(n, m, rep, nul, c), OptionalExit(n, m, c.p);
    assert Above(c.stack, c.stack) by { AboveRefl(c.stack); }
    if m == 0 {
      ScaledZero(SIZE_OP_PUSH + Length(n));
      YieldsOne(k.pr, k.t, exit, c, f);
    } else {
      hide Scaled, OptionalExit;
      OptionalNumbers(n, m, c.p);
      OptionalParts(k, n, m, c.p, rep, nul);
      var ch := Choose(KAlt, exit, c);
      var c1 := c.(p := c.p + SIZE_OP_PUSH, clean := true, stack := c.stack + [ch]);
      assert 0 <= c.p by { OptionalPlace(k, n, m, c.p, rep, nul); }
      OneStep(k, c, Push(Scaled(Length(n), m) + Scaled(SIZE_OP_PUSH, m - 1)));
      var ys := Meaning(n, k.t, c.x);
      OptionalBody(k, n, m, rep, nul, gs, c1);
      var d := Config(exit, c.x, c.loops, c.marks, false, c.stack);
      YieldsOne(k.pr, k.t, exit, d, f);
      YieldsAlternative(k, exit, OptionalAll(n, k.t, m - 1, ys), [c.x], c, ch, Run(c1),
          OptionalFrame(n, m, rep, nul, c1), f);
    }
  }

  lemma OptionalPlace(k: Ctx, n: Node, m: nat, p: int, rep: nat, nul: nat)
    requires OptionalAt(k, n, m, p, rep, nul)
    ensures 0 <= p
  {
    hide CodeAt, RangesAt;
  }

  /** One optional copy and those that follow it. */
  lemma {:induction false} OptionalBody(k: Ctx, n: Node, m: nat, rep: nat, nul: nat, gs: set<nat>, c: Config)
    requires 0 < m && Repeatable(k, n, gs, [c.x]) && OptionalAt(k, n, m, c.p - SIZE_OP_PUSH, rep, nul)
    ensures Yields(k.pr, k.t, OptionalExit(n, m, c.p - SIZE_OP_PUSH), OptionalAll(n, k.t, m - 1, Meaning(n, k.t, c.x)),
                   Run(c), OptionalFrame(n, m, rep, nul, c))
    decreases n, 22, m, 0
  {
    hide Yields, CodeAt, Code, Ranges, Length, Nuls, Repeatable, OptionalAt, BodyAt, Meaning, Reaches, Backtrack;
    hide OptionalAll,
         Optional, Arrives, OptionalExit, Placed, Scaled;
    var p := c.p - SIZE_OP_PUSH;
    OptionalNumbers(n, m, p);
    OptionalParts(k, n, m, p, rep, nul);
    var f, f1 := OptionalFrame(n, m, rep, nul, c), NodeFrame(n, rep, nul, c);
    var mid, exit := After(c.p, n), OptionalExit(n, m, p);
    var ys := Meaning(n, k.t, c.x);
    BodyPlaced(k, n, gs, [c.x], rep, nul, c);
    NodeYields(k, n, rep, nul, true, c);
    RepeatableOne(k, n, gs, [c.x], c.x);
    forall d: Config | d.x in ys && Arrives(mid, d.x, d, f1)
      ensures Yields(k.pr, k.t, exit, OptionalOf(n, k.t, m - 1)(d.x), Run(d), Then(d, f))
    {
      RepeatableOne(k, n, gs, ys, d.x);
      assert d.p == mid by { ArrivesAt(mid, d, f1); }
      OptionalYields(k, n, m - 1, rep + Reps(n), nul + Nuls(n), gs, d);
      AboveRefl(d.stack);
      YieldsWider(k.pr, k.t, exit, Optional(n, k.t, m - 1, d.x), Run(d),
                  OptionalFrame(n, m - 1, rep + Reps(n), nul + Nuls(n), d), Then(d, f));
    }
    AboveRefl(c.stack);
    YieldsBind(k.pr, k.t, mid, exit, ys, OptionalOf(n, k.t, m - 1), Run(c), f1, f);
    OptionalAllFlat(n, k.t, m - 1, ys);
  }

  lemma ArrivesAt(q: int, d: Config, f: Frame)
    requires Arrives(q, d.x, d, f)
    ensures d.p == q
  {
  }

  lemma {:induction false} ExpandCorrect(k: Ctx, n: Node, rep: nat, nul: nat, inRep: bool, c: Config)
    requires n.Quant? && ShapeOf(n).Expand? && Placed(k, n, rep, nul, inRep, c)
    ensures Correct(k, n, rep, nul, c)
    decreases n, 19, 0
  {
    hide Yields, CodeAt, Arrives, Placed, Repeatable, CopiesAt, OptionalAt, Meaning, Length, Nuls, Ranges, Reaches;
    hide Backtrack,
         OptionalAll, Optional, TimesMeaning, Scaled, WellFormed, RangesAt, QuantCode, Groups, Refs;
    var body, m := n.target, Max(n.upper - n.lower, 0);
    var h, q := c.p + Scaled(Length(body), n.lower), c.p + Length(n);
    var rep1, nul1 := rep + Scaled(Reps(body), n.lower), nul + Scaled(Nuls(body), n.lower);
    var f1, f := CopiesFrame(body, n.lower, rep, nul, c), NodeFrame(n, rep, nul, c);
    ExpandParts(k, n, rep, nul, inRep, c);
    QuantBasics(k, n, rep, nul, inRep, c);
    CopiesYield(k, body, n.lower, rep, nul, Names(n), c);
    var xs := TimesMeaning(body, k.t, n.lower, [c.x]);
    RepeatableTimes(k, body, Names(n), n.lower, [c.x]);
    forall d: Config | d.x in xs && Arrives(h, d.x, d, f1)
      ensures Yields(k.pr, k.t, q, OptionalOf(body, k.t, m)(d.x), Run(d), Then(d, f))
    {
      RepeatableOne(k, body, Names(n), xs, d.x);
      ArrivesAt(h, d, f1);
      OptionalYields(k, body, m, rep1, nul1, Names(n), d);
      AboveRefl(d.stack);
      YieldsWider(k.pr, k.t, q, Optional(body, k.t, m, d.x), Run(d), OptionalFrame(body, m, rep1, nul1, d), Then(d, f));
    }
    AboveRefl(c.stack);
    YieldsBind(k.pr, k.t, h, q, xs, OptionalOf(body, k.t, m), Run(c), f1, f);
    OptionalAllFlat(body, k.t, m, xs);
  }

  lemma {:induction false} LazyCorrect(k: Ctx, n: Node, rep: nat, nul: nat, inRep: bool, c: Config)
    requires n.Quant? && ShapeOf(n).LazyOption? && Placed(k, n, rep, nul, inRep, c)
    ensures Correct(k, n, rep, nul, c)
    decreases n, 19, 0
  {
    hide Yields, CodeAt, Placed, Repeatable, Meaning, Length, Nuls, Ranges, Reaches, Backtrack, WellFormed, RangesAt,
         QuantCode, Groups, Refs, BodyAt;
    LazyParts(k, n, rep, nul, inRep, c);
    QuantBasics(k, n, rep, nul, inRep, c);
    var b, q := c.p + SIZE_OP_PUSH + SIZE_OP_JUMP, c.p + Length(n);
    var f := NodeFrame(n, rep, nul, c);
    var ch := Choose(KAlt, b, c);
    var c1 := c.(p := c.p + SIZE_OP_PUSH, clean := true, stack := c.stack + [ch]);
    var c2 := c1.(p := q);
    OneStep(k, c, Push(SIZE_OP_JUMP));
    OneStep(k, c1, Jump(Length(n.target)));
    ReachesTrans(k.pr, k.t, Run(c), Run(c1), Run(c2));
    var d := Config(b, c.x, c.loops, c.marks, false, c.stack);
    BodyPlaced(k, n.target, Names(n), [c.x], rep, nul, d);
    NodeYields(k, n.target, rep, nul, true, d);
    BacktrackTop(c.stack, ch);
    assert Arrives(q, c.x, c2, f) by { assert c2.stack[..|c.stack|] == c.stack; }
    YieldsCons(k.pr, k.t, q, c.x, Meaning(n.target, k.t, c.x), Run(c), c2, f);
  }

  // ---------------------------------------------------------------- counter loops

  /** OP_REPEAT, the body with its null check, and OP_REPEAT_INC stand from p on. */
  ghost predicate CounterAt(k: Ctx, q: Node, p: int, rep: nat, nul: nat)
    requires q.Quant?
  {
    0 <= p && CheckedAt(k, q, p + 7, rep + 1, nul)
    && k.pr.fetch(IncAt(q, p)) == Some(RepeatInc(q.greedy, q.inRepeat, rep))
    && rep < |k.pr.ranges| && k.pr.ranges[rep] == Range(q.lower, UpperCount(q.upper), q.inRepeat) && k.pr.level.All?
    && 1 <= UpperCount(q.upper)
  }

  function IncAt(q: Node, p: int): int
    requires q.Quant?
  {
    p + 7 + CheckedLength(q)
  }

  function CounterExit(q: Node, p: int): int
    requires q.Quant?
  {
    IncAt(q, p) + SIZE_OP_REPEAT_INC
  }

  /** The counter of q says `count`. */
  ghost predicate Counts(q: Node, p: int, rep: nat, count: nat, c: Config)
    requires q.Quant?
  {
    rep in c.loops && c.loops[rep].count == count && c.loops[rep].body == p + 7
  }

  function CountFrame(q: Node, rep: nat, nul: nat, c: Config): Frame
    requires q.Quant?
  {
    FrameOf(c, rep, rep + 1 + Reps(q.target), nul, nul + OwnMark(q) + Nuls(q.target))
  }

  /** All iterations that start at the body after `count` full ones. */
  lemma {:induction false} CountTurnsYield(k: Ctx, q: Node, p: int, rep: nat, nul: nat, count: nat, c: Config)
    requires q.Quant? && Turnable(k, q, c.x) && CounterAt(k, q, p, rep, nul) && c.p == p + 7
    requires count < UpperCount(q.upper) && Counts(q, p, rep, count, c)
    ensures Yields(k.pr, k.t, CounterExit(q, p), CountTurns(q, k.t, c.x, count, Meaning(q.target, k.t, c.x)), Run(c),
        CountFrame(q, rep, nul, c))
    decreases q, 11, UpperCount(q.upper) - count, 1
  {
    hide Yields, Turnable, Meaning, Reaches, Backtrack, CheckedAt, Length, Nuls, Ranges, CountTurns, Above,
         Counted, MarkKept, CheckAt, CounterExit, IncAt, TurnOf;
    var x, f := c.x, CountFrame(q, rep, nul, c);
    var c1, g := BodyYields(k, q, rep + 1, nul, c);
    var mid, exit := CheckAt(q, c.p), CounterExit(q, p);
    var ys := Meaning(q.target, k.t, x);
    forall d: Config | d.x in ys && Arrives(mid, d.x, d, g)
      ensures Yields(k.pr, k.t, exit, CountOf(q, k.t, x, count)(d.x), Run(d), Then(d, f))
    {
      assert d.loops[rep] == c.loops[rep];
      CountTurnYields(k, q, p, rep, nul, count, x, d);
    }
    YieldsBind(k.pr, k.t, mid, exit, ys, CountOf(q, k.t, x, count), Run(c1), g, f);
    CountFlat(q, k.t, x, count, ys);
    YieldsFrom(k.pr, k.t, exit, CountTurns(q, k.t, x, count, ys), Run(c), Run(c1), f);
  }

  /** What the null check and OP_REPEAT_INC make of one iteration. */
  lemma {:induction false} CountTurnYields(k: Ctx, q: Node, p: int, rep: nat, nul: nat, count: nat, x: St, d: Config)
    requires q.Quant? && Turnable(k, q, x) && CounterAt(k, q, p, rep, nul) && d.x in Meaning(q.target, k.t, x)
    requires count < UpperCount(q.upper) && Counts(q, p, rep, count, d)
    requires d.p == CheckAt(q, p + 7) && MarkKept(q, nul, x, d)
    ensures Yields(k.pr, k.t, CounterExit(q, p), CountOf(q, k.t, x, count)(d.x), Run(d), CountFrame(q, rep, nul, d))
    decreases q, 11, UpperCount(q.upper) - count, 0
  {
    hide Yields, Turnable, Meaning, Reaches, Backtrack, CheckedAt, Length, Nuls, Ranges, CheckAt, CheckedLength;
    hide TurnOf, Counted, MarkKept;
    var f, exit := CountFrame(q, rep, nul, d), CounterExit(q, p);
    TurnableNext(k, q, x, d.x);
    NullEndStep(k, q, p + 7, rep + 1, nul, x, d, exit);
    match TurnOf(q, x, d.x)
    case Leave =>
      var d1 := d.(p := exit);
      assert Arrives(exit, d.x, d1, f) by { AboveRefl(d.stack); }
      YieldsOne(k.pr, k.t, exit, d1, f);
      YieldsFrom(k.pr, k.t, exit, [d.x], Run(d), Run(d1), f);
    case Reject =>
      YieldsNone(k.pr, k.t, exit, f);
      YieldsFrom(k.pr, k.t, exit, [], Run(d), Backtrack(d.stack), f);
    case Again =>
      var d1 := d.(p := IncAt(q, p));
      CountedYields(k, q, p, rep, nul, count + 1, d1);
      YieldsFrom(k.pr, k.t, exit, Counted(q, k.t, count + 1, d.x), Run(d), Run(d1), f);
  }

  /** OP_REPEAT_INC, counting the iteration `count`. */
  lemma {:induction false} CountedYields(k: Ctx, q: Node, p: int, rep: nat, nul: nat, count: nat, d: Config)
    requires q.Quant? && Turnable(k, q, d.x) && CounterAt(k, q, p, rep, nul) && d.p == IncAt(q, p)
    requires 0 < count <= UpperCount(q.upper) && Counts(q, p, rep, count - 1, d)
    ensures Yields(k.pr, k.t, CounterExit(q, p), Counted(q, k.t, count, d.x), Run(d), CountFrame(q, rep, nul, d))
    decreases q, 11, UpperCount(q.upper) - count, 3
  {
    hide Yields, Turnable, Meaning, Reaches, Backtrack, CheckedAt, Length, Nuls, Ranges, CheckedLength, CountTurns;
    var f, exit := CountFrame(q, rep, nul, d), CounterExit(q, p);
    var y := d.x;
    var loops1 := d.loops[rep := d.loops[rep].(count := count)];
    OneStep(k, d, RepeatInc(q.greedy, q.inRepeat, rep));
    assert Above(d.stack, d.stack) by { AboveRefl(d.stack); }
    if count == UpperCount(q.upper) {
      var d1 := d.(p := exit, loops := loops1, clean := false);
      YieldsOne(k.pr, k.t, exit, d1, f);
      YieldsFrom(k.pr, k.t, exit, [y], Run(d), Run(d1), f);
    } else {
      var more := CountTurns(q, k.t, y, count, Meaning(q.target, k.t, y));
      if count < q.lower {
        var d1 := d.(p := p + 7, loops := loops1, clean := false);
        CountTurnsYield(k, q, p, rep, nul, count, d1);
        YieldsFrom(k.pr, k.t, exit, more, Run(d), Run(d1), CountFrame(q, rep, nul, d1));
        YieldsWider(k.pr, k.t, exit, more, Run(d), CountFrame(q, rep, nul, d1), f);
      } else if q.greedy {
        var ch := Choose(KAlt, exit, d);
        var d1 := d.(p := p + 7, loops := loops1, clean := false, stack := d.stack + [ch]);
        CountTurnsYield(k, q, p, rep, nul, count, d1);
        YieldsOne(k.pr, k.t, exit, Config(exit, y, d.loops, d.marks, false, d.stack), f);
        YieldsAlternative(k, exit, more, [y], d, ch, Run(d1), CountFrame(q, rep, nul, d1), f);
      } else {
        CountedLazy(k, q, p, rep, nul, count, d, loops1);
      }
    }
  }

  lemma {:induction false} CountedLazy(k: Ctx, q: Node, p: int, rep: nat, nul: nat, count: nat, d: Config,
      loops1: map<nat, LoopState>)
    requires q.Quant? && !q.greedy && Turnable(k, q, d.x) && CounterAt(k, q, p, rep, nul) && d.p == IncAt(q, p)
    requires 0 < count < UpperCount(q.upper) && q.lower <= count && Counts(q, p, rep, count - 1, d)
    requires loops1 == d.loops[rep := d.loops[rep].(count := count)]
    ensures Yields(k.pr, k.t, CounterExit(q, p), Counted(q, k.t, count, d.x), Run(d), CountFrame(q, rep, nul, d))
    decreases q, 11, UpperCount(q.upper) - count, 2
  {
    hide Yields, Turnable, Meaning, Reaches, Backtrack, CheckedAt, Length, Nuls, Ranges, CheckedLength, CountTurns;
    var f, exit := CountFrame(q, rep, nul, d), CounterExit(q, p);
    var y, b := d.x, p + 7;
    var more := CountTurns(q, k.t, y, count, Meaning(q.target, k.t, y));
    OneStep(k, d, RepeatInc(q.greedy, q.inRepeat, rep));
    var c1 := d.(loops := loops1, clean := false);
    var ch := Choose(KAlt, b, c1);
    var d1 := c1.(p := exit, clean := true, stack := d.stack + [ch]);
    assert Arrives(exit, y, d1, f) by { assert d1.stack[..|d.stack|] == d.stack; }
    var d2 := Config(b, y, loops1, d.marks, false, d.stack);
    CountTurnsYield(k, q, p, rep, nul, count, d2);
    AboveRefl(d.stack);
    YieldsWider(k.pr, k.t, exit, more, Run(d2), CountFrame(q, rep, nul, d2), f);
    BacktrackTop(d.stack, ch);
    YieldsCons(k.pr, k.t, exit, y, more, Run(d), d1, f);
  }

  lemma {:induction false} CounterCorrect(k: Ctx, n: Node, rep: nat, nul: nat, inRep: bool, c: Config)
    requires n.Quant? && ShapeOf(n).Counter? && Placed(k, n, rep, nul, inRep, c)
    ensures Correct(k, n, rep, nul, c)
    decreases n, 19, 0
  {
    hide Yields, CodeAt, Placed, Repeatable, Meaning, Length, Nuls, Ranges, Reaches, Backtrack, WellFormed, RangesAt,
         QuantCode, Groups, Refs, CheckedAt, CheckedLength, CountTurns, ShapeOf;
    CounterParts(k, n, rep, nul, inRep, c);
    QuantBasics(k, n, rep, nul, inRep, c);
    var b, q := c.p + 7, CounterExit(n, c.p);
    var f := CountFrame(n, rep, nul, c);
    assert f == NodeFrame(n, rep, nul, c);
    var i := Repeat(n.greedy, rep, CheckedLength(n) + SIZE_OP_REPEAT_INC);
    OneStep(k, c, i);
    var c1 := c.(p := b, loops := c.loops[rep := LoopState(0, b)], clean := false);
    var first := CountTurns(n, k.t, c.x, 0, Meaning(n.target, k.t, c.x));
    AboveRefl(c.stack);
    if n.lower > 0 {
      CountTurnsYield(k, n, c.p, rep, nul, 0, c1);
      YieldsWider(k.pr, k.t, q, first, Run(c1), CountFrame(n, rep, nul, c1), f);
      YieldsFrom(k.pr, k.t, q, first, Run(c), Run(c1), f);
    } else if n.greedy {
      CounterGreedy(k, n, rep, nul, c, c1, q, f);
    } else {
      var ch := Choose(KAlt, b, c1);
      var d := c1.(p := q, clean := true, stack := c.stack + [ch]);
      var d2 := Config(b, c.x, c1.loops, c.marks, false, c.stack);
      CountTurnsYield(k, n, c.p, rep, nul, 0, d2);
      YieldsWider(k.pr, k.t, q, first, Run(d2), CountFrame(n, rep, nul, d2), f);
      BacktrackTop(c.stack, ch);
      assert Arrives(q, c.x, d, f) by { assert d.stack[..|c.stack|] == c.stack; }
      YieldsCons(k.pr, k.t, q, c.x, first, Run(c), d, f);
    }
  }

  lemma {:induction false} CounterGreedy(k: Ctx, n: Node, rep: nat, nul: nat, c: Config, c1: Config, q: int, f: Frame)
    requires n.Quant? && n.greedy && n.lower == 0 && Turnable(k, n, c.x) && CounterAt(k, n, c.p, rep, nul)
    requires c1.p == c.p + 7 && c1.x == c.x && c1.marks == c.marks && c1.stack == c.stack
    requires Counts(n, c.p, rep, 0, c1) && c1.loops == c.loops[rep := c1.loops[rep]]
    requires q == CounterExit(n, c.p) && f == CountFrame(n, rep, nul, c)
    requires Reaches(k.pr, k.t, Run(c), PushAlt(c1, q, c.p + 7))
    ensures Yields(k.pr, k.t, q, CountTurns(n, k.t, c.x, 0, Meaning(n.target, k.t, c.x)) + [c.x], Run(c), f)
    decreases n, 12
  {
    hide Yields, Turnable, Meaning, Reaches, Backtrack, CheckedAt, Length, Nuls, Ranges, CheckedLength, CountTurns;
    var ch := Choose(KAlt, q, c1);
    var d := c1.(clean := true, stack := c.stack + [ch]);
    var first := CountTurns(n, k.t, c.x, 0, Meaning(n.target, k.t, c.x));
    CountTurnsYield(k, n, c.p, rep, nul, 0, d);
    var e := Config(q, c.x, c1.loops, c.marks, false, c.stack);
    assert Arrives(q, c.x, e, f) by { AboveRefl(c.stack); }
    YieldsOne(k.pr, k.t, q, e, f);
    YieldsAlternative(k, q, first, [c.x], c, ch, Run(d), CountFrame(n, rep, nul, d), f);
  }

  // ---------------------------------------------------------------- atomic loops of simple targets

  /** A simple target is one opcode that either advances, keeping stack and counters, or fails. */
  lemma SimpleStep(k: Ctx, n: Node, c: Config)
    requires SimpleType(n) && WellFormed(n, k.e) && MinLen(n, k.e) > 0 && Linked(k) && NoneOpen(Names(n), c.x)
        && Ok(k.t, k.e, c.x)
    requires 0 <= c.p && CodeAt(k.pr.fetch, c.p, Code(n, 0, 0))
    ensures var ys := Meaning(n, k.t, c.x);
      Reaches(k.pr, k.t, Run(c), if ys == [] then Backtrack(c.stack) else Run(c.(p := After(c.p, n), x := ys[0])))
  {
    hide Backtrack, Reaches;
    var i := Code(n, 0, 0)[0];
    assert n.Backref? ==> n.num in Names(n);
    OneStep(k, c, i);
  }

  ghost predicate PopReady(k: Ctx, n: Node, x: St) {
    Repeatable(k, n, Names(n), [x]) && SimpleType(n) && MinLen(n, k.e) > 0
  }

  lemma PopReadyNext(k: Ctx, n: Node, x: St)
    requires PopReady(k, n, x)
    ensures forall y :: y in Meaning(n, k.t, x) ==> PopReady(k, n, y) && Left(k.t, y) < Left(k.t, x)
    ensures WellFormed(n, k.e) && SimpleType(n) && MinLen(n, k.e) > 0 && Linked(k) && NoneOpen(Names(n), x)
        && Ok(k.t, k.e, x)
  {
    hide Meaning, MinLen, WellFormed;
    RepeatableOne(k, n, Names(n), [x], x);
    assert NoneOpen(Names(n), x) && Ok(k.t, k.e, x);
    forall y | y in Meaning(n, k.t, x) ensures PopReady(k, n, y) && Left(k.t, y) < Left(k.t, x) {
      RepeatableOne(k, n, Names(n), Meaning(n, k.t, x), y);
      MeaningOk(k, n, Names(n), x, y);
      MatchFacts(n, k.t, k.e, x, y);
    }
  }

  /** PUSH x POP JUMP runs the target as long as it matches and then leaves, with no alternative of its own. */
  lemma {:induction false} PopLoopYields(k: Ctx, n: Node, c: Config, f: Frame)
    requires PopReady(k, n, c.x) && PopLoopAt(k, n, c.p)
    requires f == FrameOf(c, f.rlo, f.rhi, f.nlo, f.nhi)
    ensures Yields(k.pr, k.t, c.p + SIZE_OP_PUSH + Length(n) + SIZE_OP_POP + SIZE_OP_JUMP, [AtomicLoop(n, k.t, c.x)],
        Run(c), f)
    decreases Left(k.t, c.x)
  {
    hide Yields, Meaning, Reaches, Backtrack, Length, MinLen, WellFormed, Groups, Refs, PopReady, CodeAt;
    var q := c.p + SIZE_OP_PUSH + Length(n) + SIZE_OP_POP + SIZE_OP_JUMP;
    var ch := Choose(KAlt, q, c);
    var c1 := c.(p := c.p + SIZE_OP_PUSH, clean := true, stack := c.stack + [ch]);
    OneStep(k, c, Push(Length(n) + SIZE_OP_POP + SIZE_OP_JUMP));
    PopReadyNext(k, n, c.x);
    SimpleStep(k, n, c1);
    var ys := Meaning(n, k.t, c.x);
    BacktrackTop(c.stack, ch);
    if ys == [] {
      var d := Config(q, c.x, c.loops, c.marks, false, c.stack);
      ReachesTrans(k.pr, k.t, Run(c), Run(c1), Run(d));
      assert Arrives(q, c.x, d, f) by { AboveRefl(c.stack); }
      YieldsOne(k.pr, k.t, q, d, f);
      YieldsFrom(k.pr, k.t, q, [c.x], Run(c), Run(d), f);
    } else {
      var d := c.(x := ys[0], clean := false);
      PopBack(k, n, c, ch, c1, c1.(p := After(c1.p, n), x := ys[0]), d);
      PopLoopYields(k, n, d, f);
      YieldsFrom(k.pr, k.t, q, [AtomicLoop(n, k.t, ys[0])], Run(c), Run(d), f);
    }
  }

  lemma PopBack(k: Ctx, n: Node, c: Config, ch: Choice, c1: Config, c2: Config, d: Config)
    requires PopLoopAt(k, n, c.p) && c1.stack == c.stack + [ch] && c1.clean
    requires Reaches(k.pr, k.t, Run(c), Run(c1)) && Reaches(k.pr, k.t, Run(c1), Run(c2))
    requires c2 == c1.(p := After(c.p + SIZE_OP_PUSH, n), x := c2.x)
    requires d == c2.(p := c.p, clean := false, stack := c.stack)
    ensures Reaches(k.pr, k.t, Run(c), Run(d))
  {
    hide Reaches, Length, CodeAt;
    var c3 := c2.(p := c2.p + SIZE_OP_POP, clean := false, stack := c.stack);
    assert c2.stack[..|c.stack|] == c.stack;
    OneStep(k, c2, Pop);
    OneStep(k, c3, Jump(-(SIZE_OP_PUSH + Length(n) + SIZE_OP_POP + SIZE_OP_JUMP)));
    ReachesTrans(k.pr, k.t, Run(c), Run(c1), Run(c2));
    ReachesTrans(k.pr, k.t, Run(c), Run(c2), Run(c3));
    ReachesTrans(k.pr, k.t, Run(c), Run(c3), Run(d));
  }

  lemma {:induction false} SimpleCorrect(k: Ctx, n: Node, rep: nat, nul: nat, inRep: bool, c: Config)
    requires n.Atomic? && n.simple && Placed(k, n, rep, nul, inRep, c)
    ensures Correct(k, n, rep, nul, c)
    decreases n, 19, 0
  {
    hide Yields, CodeAt, Arrives, Placed, Repeatable, CopiesAt, Meaning, Length, Nuls, Ranges, Reaches, Backtrack,
         AtomicLoopAll, AtomicLoop, TimesMeaning, MinLen, SimpleType, PopLoopAt, Groups, Refs;
    SimpleParts(k, n, rep, nul, inRep, c);
    var body, m := n.target.target, n.target.lower;
    var h, q := c.p + Scaled(Length(body), m), c.p + Length(n);
    var f := CopiesFrame(body, m, rep, nul, c);
    ScaledZero(m);
    assert f == NodeFrame(n, rep, nul, c);
    CopiesYield(k, body, m, rep, nul, Names(n), c);
    var xs := TimesMeaning(body, k.t, m, [c.x]);
    RepeatableTimes(k, body, Names(n), m, [c.x]);
    assert Names(body) == Names(n) by { SimpleNames(n); }
    forall d: Config | d.x in xs && Arrives(h, d.x, d, f)
      ensures Yields(k.pr, k.t, q, AtomicOf(body, k.t)(d.x), Run(d), Then(d, f))
    {
      RepeatableOne(k, body, Names(n), xs, d.x);
      ArrivesAt(h, d, f);
      PopLoopYields(k, body, d, Then(d, f));
    }
    AboveRefl(c.stack);
    YieldsBind(k.pr, k.t, h, q, xs, AtomicOf(body, k.t), Run(c), f, f);
    AtomicAllFlat(body, k.t, xs);
  }

  lemma SimpleNames(n: Node)
    requires n.Atomic? && n.target.Quant?
    ensures Names(n.target.target) == Names(n)
  {
    assert Groups(n) == Groups(n.target) == Groups(n.target.target);
    assert Refs(n) == Refs(n.target) == Refs(n.target.target);
  }
}
