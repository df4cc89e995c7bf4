/** For every kind of node: what its code consists of, where the parts stand, and that a configuration ready for
    the node is ready for its parts. */
module CodeParts {
  import opened Common
  import opened Tree
  import opened Opcodes
  import opened Codegen
  import opened CodeSizes
  import opened Semantics
  import opened Snapshot
  import opened Yielding
  import opened Lengths
  import opened LengthFacts
  import opened Placing

  /** c is about to run code that uses the groups gs and the loops [rep, rep + reps), which are not active unless
      the code stands inside a repetition. */
  ghost predicate Ready(k: Ctx, gs: set<nat>, rep: nat, reps: nat, inRep: bool, c: Config) {
    Linked(k) && 0 <= c.p && Ok(k.t, k.e, c.x) && NoneOpen(gs, c.x)
    && (!inRep ==> forall i: nat :: rep <= i < rep + reps ==> i !in c.loops)
  }

  function Names(n: Node): set<nat> { Groups(n) + Refs(n) }

  function NamesOf(ns: Nodes): set<nat> { GroupsOf(ns) + RefsOf(ns) }

  /** The code of n stands at c.p, with its loop ranges, and c is ready for it. */
  ghost predicate Placed(k: Ctx, n: Node, rep: nat, nul: nat, inRep: bool, c: Config) {
    WellFormed(n, k.e) && RepeatMarks(n, inRep)
    && CodeAt(k.pr.fetch, c.p, Code(n, rep, nul)) && RangesAt(k.pr, rep, Ranges(n))
    && Ready(k, Names(n), rep, Reps(n), inRep, c)
  }

  ghost predicate PlacedList(k: Ctx, ns: Nodes, ops: seq<Instr>, rep: nat, inRep: bool, c: Config) {
    WellFormedAll(ns, k.e) && RepeatMarksAll(ns, inRep)
    && CodeAt(k.pr.fetch, c.p, ops) && RangesAt(k.pr, rep, RangesOf(ns))
    && Ready(k, NamesOf(ns), rep, RepsOf(ns), inRep, c)
  }

  function NodeFrame(n: Node, rep: nat, nul: nat, c: Config): Frame {
    FrameOf(c, rep, rep + Reps(n), nul, nul + Nuls(n))
  }

  function ListFrame(ns: Nodes, rep: nat, nul: nat, c: Config): Frame {
    FrameOf(c, rep, rep + RepsOf(ns), nul, nul + NulsOf(ns))
  }

  ghost predicate Correct(k: Ctx, n: Node, rep: nat, nul: nat, c: Config) {
    Yields(k.pr, k.t, c.p + Length(n), Meaning(n, k.t, c.x), Run(c), NodeFrame(n, rep, nul, c))
  }

  /** The end of the code of n when it starts at p. */
  function After(p: int, n: Node): int { p + Length(n) }

  // ---------------------------------------------------------------- lists and alternatives

  lemma ListParts(k: Ctx, ns: Nodes, rep: nat, nul: nat, inRep: bool, c: Config)
    requires ns.Link? && PlacedList(k, ns, ListCode(ns, rep, nul), rep, inRep, c)
    ensures Placed(k, ns.car, rep, nul, inRep, c)
    ensures ListLength(ns) == Length(ns.car) + ListLength(ns.cdr)
    ensures RepsOf(ns) == Reps(ns.car) + RepsOf(ns.cdr) && NulsOf(ns) == Nuls(ns.car) + NulsOf(ns.cdr)
    ensures ListMeaning(ns, k.t, c.x) == ListMeaningAll(ns.cdr, k.t, Meaning(ns.car, k.t, c.x))
  {
    hide CodeAt, Length, Code, Meaning, WellFormed, RepeatMarks, Nuls;
    var car, cdr := ns.car, ns.cdr;
    CodeAtConcat(k.pr.fetch, c.p, Code(car, rep, nul), ListCode(cdr, rep + Reps(car), nul + Nuls(car)));
    RangesSplit(k.pr, rep, Ranges(car), RangesOf(cdr));
  }

  lemma ListRest(k: Ctx, ns: Nodes, rep: nat, nul: nat, inRep: bool, c: Config, d: Config)
    requires ns.Link? && PlacedList(k, ns, ListCode(ns, rep, nul), rep, inRep, c)
    requires d.x in Meaning(ns.car, k.t, c.x) && Arrives(After(c.p, ns.car), d.x, d, NodeFrame(ns.car, rep, nul, c))
    ensures PlacedList(k, ns.cdr, ListCode(ns.cdr, rep + Reps(ns.car), nul + Nuls(ns.car)), rep + Reps(ns.car), inRep,
        d)
  {
    hide CodeAt, Length, Code, Meaning, WellFormed, RepeatMarks, Nuls, Extends;
    var car, cdr := ns.car, ns.cdr;
    var rep1, nul1 := rep + Reps(car), nul + Nuls(car);
    CodeSize(car, rep, nul);
    CodeAtConcat(k.pr.fetch, c.p, Code(car, rep, nul), ListCode(cdr, rep1, nul1));
    RangesSplit(k.pr, rep, Ranges(car), RangesOf(cdr));
    MeaningOk(k, car, NamesOf(ns), c.x, d.x);
  }

  /** Where the parts of an alternative with more to follow stand. */
  lemma AltParts(k: Ctx, ns: Nodes, rep: nat, nul: nat, inRep: bool, c: Config)
    requires ns.Link? && PlacedList(k, ns, AltCode(ns, rep, nul), rep, inRep, c)
    ensures Fetches(k, c, Push(Length(ns.car) + SIZE_OP_JUMP))
    ensures CodeAt(k.pr.fetch, c.p + SIZE_OP_PUSH, Code(ns.car, rep, nul))
    ensures k.pr.fetch(c.p + SIZE_OP_PUSH + Length(ns.car)) == Some(Jump(AltLength(ns.cdr)))
    ensures CodeAt(k.pr.fetch, c.p + SIZE_OP_PUSH + Length(ns.car) + SIZE_OP_JUMP,
                   AltCode(ns.cdr, rep + Reps(ns.car), nul + Nuls(ns.car)))
    ensures RangesAt(k.pr, rep, Ranges(ns.car)) && RangesAt(k.pr, rep + Reps(ns.car), RangesOf(ns.cdr))
    ensures AltLength(ns) == SIZE_OP_PUSH + Length(ns.car) + SIZE_OP_JUMP + AltLength(ns.cdr)
    ensures AltMeaning(ns, k.t, c.x) == Meaning(ns.car, k.t, c.x) + AltMeaning(ns.cdr, k.t, c.x)
    ensures RepsOf(ns) == Reps(ns.car) + RepsOf(ns.cdr) && NulsOf(ns) == Nuls(ns.car) + NulsOf(ns.cdr)
  {
    hide CodeAt, Length, Code, Meaning, WellFormed, RepeatMarks, Nuls, Ready, Groups, Refs, SizeAll;
    var push, jump := Push(Length(ns.car) + SIZE_OP_JUMP), Jump(AltLength(ns.cdr));
    var body, rest := Code(ns.car, rep, nul), AltCode(ns.cdr, rep + Reps(ns.car), nul + Nuls(ns.car));
    CodeAtConcat(k.pr.fetch, c.p, [push] + body + [jump], rest);
    SplitFramed(k.pr.fetch, c.p, push, body, jump);
    CodeSize(ns.car, rep, nul);
    Framed(push, body, jump);
    RangesSplit(k.pr, rep, Ranges(ns.car), RangesOf(ns.cdr));
    assert 0 <= c.p by { AltReady(k, ns, rep, nul, inRep, c, c); }
  }

  /** The registers and loops of c serve the parts as well, wherever they stand. */
  lemma AltReady(k: Ctx, ns: Nodes, rep: nat, nul: nat, inRep: bool, c: Config, d: Config)
    requires ns.Link? && PlacedList(k, ns, AltCode(ns, rep, nul), rep, inRep, c)
    requires d.x == c.x && d.loops == c.loops && c.p <= d.p
    ensures 0 <= d.p && WellFormed(ns.car, k.e) && RepeatMarks(ns.car, inRep)
    ensures WellFormedAll(ns.cdr, k.e) && RepeatMarksAll(ns.cdr, inRep)
    ensures Ready(k, Names(ns.car), rep, Reps(ns.car), inRep, d)
    ensures Ready(k, NamesOf(ns.cdr), rep + Reps(ns.car), RepsOf(ns.cdr), inRep, d)
  {
    hide CodeAt, Length, Code, WellFormed, RepeatMarks, Nuls, Ok;
  }

  // ---------------------------------------------------------------- nodes with one body

  /** The body of a node with brackets around it, and the names and numbers it shares with the node. */
  ghost predicate SameParts(n: Node, body: Node) {
    Ranges(n) == Ranges(body) && Nuls(n) == Nuls(body)
  }

  lemma GroupParts(k: Ctx, n: Node, rep: nat, nul: nat, inRep: bool, c: Config)
    requires n.Group? && Placed(k, n, rep, nul, inRep, c)
    ensures Fetches(k, c, MemStart(n.num, n.pushStart))
    ensures k.pr.fetch(c.p + SIZE_OP_MEMORY + Length(n.target)) == Some(MemEnd(n.num, n.pushEnd))
    ensures Length(n) == SIZE_OP_MEMORY + Length(n.target) + SIZE_OP_MEMORY && SameParts(n, n.target)
    ensures Meaning(n, k.t, c.x) == CloseAll(n.num, Meaning(n.target, k.t, OpenGroup(n.num, n.pushStart, c.x)))
    ensures Get(c.x.caps, n.num).Open? == false && Ok(k.t, k.e, c.x) && Linked(k)
    ensures Placed(k, n.target, rep, nul, inRep,
                   c.(p := c.p + SIZE_OP_MEMORY, x := OpenGroup(n.num, n.pushStart, c.x), clean := false))
  {
    hide CodeAt, SizeAll;
    SplitFramed(k.pr.fetch, c.p, MemStart(n.num, n.pushStart), Code(n.target, rep, nul), MemEnd(n.num, n.pushEnd));
    CodeSize(n.target, rep, nul);
    assert n.num in Names(n);
    var x1 := OpenGroup(n.num, n.pushStart, c.x);
    forall g | g in Names(n.target) ensures !Get(x1.caps, g).Open? {
      assert Get(c.x.caps, g) == Get(x1.caps, g);
    }
  }

  lemma AtomicParts(k: Ctx, n: Node, rep: nat, nul: nat, inRep: bool, c: Config, c1: Config)
    requires n.Atomic? && !n.simple && Placed(k, n, rep, nul, inRep, c)
    requires c1.x == c.x && c1.loops == c.loops && c1.p == c.p + SIZE_OP_PUSH_STOP_BT
    ensures Fetches(k, c, PushStopBt) && k.pr.fetch(c.p + SIZE_OP_PUSH_STOP_BT + Length(n.target)) == Some(PopStopBt)
    ensures Length(n) == SIZE_OP_PUSH_STOP_BT + Length(n.target) + SIZE_OP_POP_STOP_BT && SameParts(n, n.target)
    ensures Meaning(n, k.t, c.x) == First(Meaning(n.target, k.t, c.x))
    ensures Placed(k, n.target, rep, nul, inRep, c1)
  {
    hide CodeAt, SizeAll, Ok;
    SplitFramed(k.pr.fetch, c.p, PushStopBt, Code(n.target, rep, nul), PopStopBt);
    CodeSize(n.target, rep, nul);
  }

  lemma AheadParts(k: Ctx, n: Node, rep: nat, nul: nat, inRep: bool, c: Config, c1: Config)
    requires n.Look? && n.look.Ahead? && Placed(k, n, rep, nul, inRep, c)
    requires c1.x == c.x && c1.loops == c.loops && c1.p == c.p + SIZE_OP_PUSH_POS
    ensures Fetches(k, c, PushPos) && k.pr.fetch(c.p + SIZE_OP_PUSH_POS + Length(n.target)) == Some(PopPos)
    ensures Length(n) == SIZE_OP_PUSH_POS + Length(n.target) + SIZE_OP_POP_POS && SameParts(n, n.target)
    ensures Meaning(n, k.t, c.x) == Returned(c.x, Meaning(n.target, k.t, c.x))
    ensures Placed(k, n.target, rep, nul, inRep, c1)
  {
    hide CodeAt, SizeAll, Ok;
    SplitFramed(k.pr.fetch, c.p, PushPos, Code(n.target, rep, nul), PopPos);
    CodeSize(n.target, rep, nul);
  }

  lemma AheadNotParts(k: Ctx, n: Node, rep: nat, nul: nat, inRep: bool, c: Config, c1: Config)
    requires n.Look? && n.look.AheadNot? && Placed(k, n, rep, nul, inRep, c)
    requires c1.x == c.x && c1.loops == c.loops && c1.p == c.p + SIZE_OP_PUSH_POS_NOT
    ensures Fetches(k, c, PushPosNot(Length(n.target) + SIZE_OP_FAIL_POS))
    ensures k.pr.fetch(c.p + SIZE_OP_PUSH_POS_NOT + Length(n.target)) == Some(FailPos)
    ensures Length(n) == SIZE_OP_PUSH_POS_NOT + Length(n.target) + SIZE_OP_FAIL_POS && SameParts(n, n.target)
    ensures Meaning(n, k.t, c.x) == if Meaning(n.target, k.t, c.x) == [] then [c.x] else []
    ensures Placed(k, n.target, rep, nul, inRep, c1)
  {
    hide CodeAt, SizeAll, Ok;
    SplitFramed(k.pr.fetch, c.p, PushPosNot(Length(n.target) + SIZE_OP_FAIL_POS), Code(n.target, rep, nul), FailPos);
    CodeSize(n.target, rep, nul);
  }

  lemma BehindParts(k: Ctx, n: Node, rep: nat, nul: nat, inRep: bool, c: Config)
    requires n.Look? && n.look.Behind? && Placed(k, n, rep, nul, inRep, c)
    ensures Fetches(k, c, LookBehind(n.charLen))
    ensures Length(n) == SIZE_OP_LOOK_BEHIND + Length(n.target) && SameParts(n, n.target)
    ensures Meaning(n, k.t, c.x) == if c.x.s < n.charLen then [] else Meaning(n.target, k.t, StepBack(c.x, n.charLen))
    ensures n.charLen <= c.x.s ==> Placed(k, n.target, rep, nul, inRep,
                                          c.(p := c.p + SIZE_OP_LOOK_BEHIND, x := StepBack(c.x, n.charLen)))
  {
    hide CodeAt, SizeAll;
    SplitFirst(k.pr.fetch, c.p, LookBehind(n.charLen), Code(n.target, rep, nul));
  }

  lemma BehindNotParts(k: Ctx, n: Node, rep: nat, nul: nat, inRep: bool, c: Config, c1: Config)
    requires n.Look? && n.look.BehindNot? && Placed(k, n, rep, nul, inRep, c)
    requires n.charLen <= c.x.s ==>
      c1.x == StepBack(c.x, n.charLen) && c1.loops == c.loops && c1.p == c.p + SIZE_OP_PUSH_LOOK_BEHIND_NOT
    ensures Fetches(k, c, PushLookBehindNot(Length(n.target) + SIZE_OP_FAIL_LOOK_BEHIND_NOT, n.charLen))
    ensures k.pr.fetch(c.p + SIZE_OP_PUSH_LOOK_BEHIND_NOT + Length(n.target)) == Some(FailLookBehindNot)
    ensures Length(n) == SIZE_OP_PUSH_LOOK_BEHIND_NOT + Length(n.target) + SIZE_OP_FAIL_LOOK_BEHIND_NOT
    ensures SameParts(n, n.target)
    ensures Meaning(n, k.t, c.x)
      == if c.x.s < n.charLen || Meaning(n.target, k.t, StepBack(c.x, n.charLen)) == [] then [c.x] else []
    ensures n.charLen <= c.x.s ==> Placed(k, n.target, rep, nul, inRep, c1)
  {
    hide CodeAt, SizeAll;
    SplitFramed(k.pr.fetch, c.p, PushLookBehindNot(Length(n.target) + SIZE_OP_FAIL_LOOK_BEHIND_NOT, n.charLen),
                Code(n.target, rep, nul), FailLookBehindNot);
    CodeSize(n.target, rep, nul);
  }

  // ---------------------------------------------------------------- quantifiers

  /** The functions of a quantifier node are those of compile_quantifier_node and its relatives. */
  lemma UnfoldQuant(n: Node, rep: nat, nul: nat, t: Subject, x: St)
    requires n.Quant?
    ensures Code(n, rep, nul) == QuantCode(n, rep, nul) && Length(n) == QuantLength(n)
    ensures Meaning(n, t, x) == QuantMeaning(n, t, x)
  {
  }

  /** m copies of n may be run from the states xs. */
  ghost predicate Repeatable(k: Ctx, n: Node, gs: set<nat>, xs: seq<St>) {
    WellFormed(n, k.e) && RepeatMarks(n, true) && Linked(k) && Names(n) <= gs && AllOk(k, gs, xs)
  }

  /** The code of m copies of n stands at `mid`. */
  ghost predicate CopiesAt(k: Ctx, n: Node, m: nat, mid: int, rep: nat, nul: nat) {
    0 <= mid && CodeAt(k.pr.fetch, mid, CodeTimes(n, m, rep, nul)) && RangesAt(k.pr, rep, Times(Ranges(n), m))
  }

  /** The code of one n stands at `p`. */
  ghost predicate BodyAt(k: Ctx, n: Node, p: int, rep: nat, nul: nat) {
    0 <= p && CodeAt(k.pr.fetch, p, Code(n, rep, nul)) && RangesAt(k.pr, rep, Ranges(n))
  }

  lemma QuantBasics(k: Ctx, n: Node, rep: nat, nul: nat, inRep: bool, c: Config)
    requires n.Quant? && Placed(k, n, rep, nul, inRep, c)
    ensures Repeatable(k, n.target, Names(n), [c.x]) && Names(n.target) == Names(n)
    ensures 0 <= c.p && ProperCounts(n.lower, n.upper, n.greedy) && n.inRepeat == inRep
    ensures n.upper != 0 && n.emptyInfo.NotEmpty? ==> MinLen(n.target, k.e) > 0
    ensures WellFormed(n, k.e)
    ensures !inRep ==> forall i: nat :: rep <= i < rep + Reps(n) ==> i !in c.loops
    ensures RangesAt(k.pr, rep, Ranges(n)) && CodeAt(k.pr.fetch, c.p, QuantCode(n, rep, nul))
    ensures k.pr.ranges != [] ==> k.pr.level.All?
  {
    hide CodeAt, Ok, Length, QuantCode;
    UnfoldQuant(n, rep, nul, k.t, c.x);
  }

  lemma BodyPlaced(k: Ctx, n: Node, gs: set<nat>, xs: seq<St>, rep: nat, nul: nat, d: Config)
    requires Repeatable(k, n, gs, xs) && BodyAt(k, n, d.p, rep, nul) && d.x in xs
    ensures Placed(k, n, rep, nul, true, d)
  {
    hide CodeAt, Ok, Length, Code, WellFormed, RepeatMarks, Groups, Refs;
    assert NoneOpen(gs, d.x);
  }

  lemma RepeatableMore(k: Ctx, n: Node, gs: set<nat>, xs: seq<St>)
    requires Repeatable(k, n, gs, xs)
    ensures Repeatable(k, n, gs, MeaningAll(n, k.t, xs))
  {
    hide Ok, Length, Meaning, MeaningAll, WellFormed, RepeatMarks;
    MeaningAllOk(k, n, gs, xs);
  }

  lemma RepeatableTimes(k: Ctx, n: Node, gs: set<nat>, m: nat, xs: seq<St>)
    requires Repeatable(k, n, gs, xs)
    ensures Repeatable(k, n, gs, TimesMeaning(n, k.t, m, xs))
  {
    hide Ok, Length, Meaning, MeaningAll, WellFormed, RepeatMarks;
    TimesOk(k, n, gs, m, xs);
  }

  lemma RepeatableOne(k: Ctx, n: Node, gs: set<nat>, xs: seq<St>, x: St)
    requires Repeatable(k, n, gs, xs) && x in xs
    ensures Repeatable(k, n, gs, [x]) && Repeatable(k, n, gs, Meaning(n, k.t, x))
  {
    hide Ok, Length, Meaning, WellFormed, RepeatMarks;
    forall y | y in Meaning(n, k.t, x) ensures Ok(k.t, k.e, y) && NoneOpen(gs, y) {
      MeaningOk(k, n, gs, x, y);
    }
  }

  lemma CopiesParts(k: Ctx, n: Node, m: nat, mid: int, rep: nat, nul: nat)
    requires 0 < m && CopiesAt(k, n, m, mid, rep, nul)
    ensures BodyAt(k, n, mid, rep, nul)
    ensures CopiesAt(k, n, m - 1, After(mid, n), rep + Reps(n), nul + Nuls(n))
  {
    hide CodeAt, Code, Length;
    CodeSize(n, rep, nul);
    CodeAtConcat(k.pr.fetch, mid, Code(n, rep, nul), CodeTimes(n, m - 1, rep + Reps(n), nul + Nuls(n)));
    RangesSplit(k.pr, rep, Ranges(n), Times(Ranges(n), m - 1));
  }

  lemma StarParts(k: Ctx, n: Node, rep: nat, nul: nat, inRep: bool, c: Config)
    requires n.Quant? && ShapeOf(n).AnyStar? && Placed(k, n, rep, nul, inRep, c)
    ensures CopiesAt(k, n.target, n.lower, c.p, rep, nul)
    ensures k.pr.fetch(c.p + Scaled(Length(n.target), n.lower)) == Some(StarOp(n))
    ensures Length(n) == Scaled(Length(n.target), n.lower) + Size(StarOp(n))
    ensures Reps(n) == Scaled(Reps(n.target), n.lower) && Nuls(n) == Scaled(Nuls(n.target), n.lower)
    ensures Meaning(n, k.t, c.x) == StarAll(n, k.t, TimesMeaning(n.target, k.t, n.lower, [c.x]))
  {
    hide CodeAt, Code, SizeAll, Placed;
    QuantBasics(k, n, rep, nul, inRep, c);
    UnfoldQuant(n, rep, nul, k.t, c.x);
    SplitLast(k.pr.fetch, c.p, CodeTimes(n.target, n.lower, rep, nul), StarOp(n));
    TimesSize(n.target, n.lower, rep, nul);
    TimesLength(Ranges(n.target), n.lower);
  }

  /** The push/jump loop of q stands at h: head, body with its null check, and the instruction that turns. */
  ghost predicate LoopAt(k: Ctx, q: Node, h: int, rep: nat, nul: nat)
    requires q.Quant?
  {
    0 <= h && CheckedAt(k, q, BodyStart(q, h), rep, nul)
    && (q.greedy ==>
         k.pr.fetch(h) == Some(HeadOp(q))
         && k.pr.fetch(TurnAt(q, h)) == Some(Jump(-(CheckedLength(q) + SIZE_OP_JUMP + HeadSize(q)))))
    && (!q.greedy ==>
         k.pr.fetch(h) == Some(Jump(CheckedLength(q)))
         && k.pr.fetch(TurnAt(q, h)) == Some(Push(-(CheckedLength(q) + SIZE_OP_PUSH))))
  }

  function BodyStart(q: Node, h: int): int
    requires q.Quant?
  {
    h + if q.greedy then HeadSize(q) else SIZE_OP_JUMP
  }

  function TurnAt(q: Node, h: int): int
    requires q.Quant?
  {
    BodyStart(q, h) + CheckedLength(q)
  }

  function LoopExit(q: Node, h: int): int
    requires q.Quant?
  {
    h + LoopLength(q)
  }

  function OwnMark(q: Node): nat
    requires q.Quant?
  {
    if q.emptyInfo.NotEmpty? then 0 else 1
  }

  /** The target of q, between null check opcodes if it is flagged, stands at b. */
  ghost predicate CheckedAt(k: Ctx, q: Node, b: int, rep: nat, nul: nat)
    requires q.Quant?
  {
    var own := 3 * OwnMark(q);
    0 <= b && BodyAt(k, q.target, b + own, rep, nul + OwnMark(q))
    && (!q.emptyInfo.NotEmpty? ==> k.pr.fetch(b) == Some(NullCheckStart(nul)))
    && (q.emptyInfo.Empty? ==> k.pr.fetch(b + own + Length(q.target)) == Some(NullCheckEnd(nul)))
    && (q.emptyInfo.EmptyMem? ==> k.pr.fetch(b + own + Length(q.target)) == Some(NullCheckEndMemst(nul)))
    && CheckedLength(q) == Length(q.target) + own + own
  }

  lemma CheckedParts(k: Ctx, q: Node, b: int, rep: nat, nul: nat)
    requires q.Quant? && 0 <= b && CodeAt(k.pr.fetch, b, CheckedCode(q, rep, nul))
        && RangesAt(k.pr, rep, Ranges(q.target))
    ensures CheckedAt(k, q, b, rep, nul)
  {
    hide CodeAt, Code, SizeAll, Length;
    if !q.emptyInfo.NotEmpty? {
      var end := if q.emptyInfo.Empty? then NullCheckEnd(nul) else NullCheckEndMemst(nul);
      SplitFramed(k.pr.fetch, b, NullCheckStart(nul), Code(q.target, rep, nul + 1), end);
      CodeSize(q.target, rep, nul + 1);
    }
  }

  lemma LoopParts(k: Ctx, q: Node, h: int, rep: nat, nul: nat)
    requires q.Quant? && 0 <= h && CodeAt(k.pr.fetch, h, LoopCode(q, rep, nul)) && RangesAt(k.pr, rep, Ranges(q.target))
    ensures LoopAt(k, q, h, rep, nul)
  {
    hide CodeAt, Code, SizeAll, CheckedCode, CheckedLength;
    CheckedSize(q, rep, nul);
    if q.greedy {
      SplitFramed(k.pr.fetch, h, HeadOp(q), CheckedCode(q, rep, nul),
          Jump(-(CheckedLength(q) + SIZE_OP_JUMP + HeadSize(q))));
    } else {
      SplitFramed(k.pr.fetch, h, Jump(CheckedLength(q)), CheckedCode(q, rep, nul),
          Push(-(CheckedLength(q) + SIZE_OP_PUSH)));
    }
    CheckedParts(k, q, BodyStart(q, h), rep, nul);
  }

  lemma PushLoopParts(k: Ctx, n: Node, rep: nat, nul: nat, inRep: bool, c: Config)
    requires n.Quant? && ShapeOf(n).PushLoop? && Placed(k, n, rep, nul, inRep, c)
    ensures CopiesAt(k, n.target, n.lower, c.p, rep, nul)
    ensures LoopAt(k, n, c.p + Scaled(Length(n.target), n.lower), rep + Scaled(Reps(n.target), n.lower),
        nul + Scaled(Nuls(n.target), n.lower))
    ensures Length(n) == Scaled(Length(n.target), n.lower) + LoopLength(n)
    ensures Reps(n) == Scaled(Reps(n.target), n.lower) + Reps(n.target)
    ensures Nuls(n) == Scaled(Nuls(n.target), n.lower) + OwnMark(n) + Nuls(n.target)
    ensures Meaning(n, k.t, c.x) == LoopAll(n, k.t, TimesMeaning(n.target, k.t, n.lower, [c.x]))
  {
    hide *;
    QuantBasics(k, n, rep, nul, inRep, c);
    PushLoopFacts(n, rep, nul, k.t, c.x);
    var body := n.target;
    var rep1, nul1 := rep + Scaled(Reps(body), n.lower), nul + Scaled(Nuls(body), n.lower);
    CopiesThen(k, body, n.lower, 1, c.p, LoopCode(n, rep1, nul1), rep, nul);
    OneRange(Ranges(body));
    assert 0 <= c.p + Scaled(Length(body), n.lower);
    LoopParts(k, n, c.p + Scaled(Length(body), n.lower), rep1, nul1);
  }

  lemma OneRange(rs: seq<Range>)
    ensures Times(rs, 1) == rs
  {
    assert rs + [] == rs;
  }

  lemma PushLoopFacts(n: Node, rep: nat, nul: nat, t: Subject, x: St)
    requires n.Quant? && ShapeOf(n).PushLoop?
    ensures QuantCode(n, rep, nul)
            == CodeTimes(n.target, n.lower, rep, nul)
               + LoopCode(n, rep + Scaled(Reps(n.target), n.lower), nul + Scaled(Nuls(n.target), n.lower))
    ensures Ranges(n) == Times(Ranges(n.target), n.lower + 1)
    ensures Length(n) == Scaled(Length(n.target), n.lower) + LoopLength(n)
    ensures Reps(n) == Scaled(Reps(n.target), n.lower) + Reps(n.target)
    ensures Nuls(n) == Scaled(Nuls(n.target), n.lower) + OwnMark(n) + Nuls(n.target)
    ensures Meaning(n, t, x) == LoopAll(n, t, TimesMeaning(n.target, t, n.lower, [x]))
  {
    hide Code, CodeTimes, LoopCode, LoopLength, LoopAll, TimesMeaning;
    UnfoldQuant(n, rep, nul, t, x);
    hide Meaning, Length;
    TimesLength(Ranges(n.target), n.lower + 1);
  }

  /** Copies and what follows them. */
  lemma CopiesThen(k: Ctx, n: Node, m: nat, r: nat, p: int, rest: seq<Instr>, rep: nat, nul: nat)
    requires 0 <= p && CodeAt(k.pr.fetch, p, CodeTimes(n, m, rep, nul) + rest)
    requires RangesAt(k.pr, rep, Times(Ranges(n), m + r))
    ensures CopiesAt(k, n, m, p, rep, nul) && CodeAt(k.pr.fetch, p + Scaled(Length(n), m), rest)
    ensures RangesAt(k.pr, rep + Scaled(Reps(n), m), Times(Ranges(n), r))
  {
    hide CodeAt, Code, CodeTimes, SizeAll, Length, RangesAt, Ranges, Times, Scaled;
    CodeAtConcat(k.pr.fetch, p, CodeTimes(n, m, rep, nul), rest);
    TimesSize(n, m, rep, nul);
    TimesSplit(Ranges(n), m, r);
    TimesLength(Ranges(n), m);
    RangesSplit(k.pr, rep, Times(Ranges(n), m), Times(Ranges(n), r));
  }

  lemma EnterLoopParts(k: Ctx, n: Node, rep: nat, nul: nat, inRep: bool, c: Config)
    requires n.Quant? && ShapeOf(n).EnterLoop? && Placed(k, n, rep, nul, inRep, c)
    ensures Fetches(k, c, Jump(if n.greedy then HeadSize(n) else SIZE_OP_JUMP))
    ensures LoopAt(k, n, c.p + SIZE_OP_JUMP, rep, nul)
    ensures Length(n) == SIZE_OP_JUMP + LoopLength(n)
    ensures Reps(n) == Reps(n.target) && Nuls(n) == OwnMark(n) + Nuls(n.target)
    ensures Meaning(n, k.t, c.x) == LoopTurns(n, k.t, c.x, Meaning(n.target, k.t, c.x))
  {
    hide CodeAt, Code, SizeAll, Placed, LoopLength, LoopCode, CheckedLength;
    QuantBasics(k, n, rep, nul, inRep, c);
    UnfoldQuant(n, rep, nul, k.t, c.x);
    SplitFirst(k.pr.fetch, c.p, Jump(if n.greedy then HeadSize(n) else SIZE_OP_JUMP), LoopCode(n, rep, nul));
    assert Times(Ranges(n.target), 1) == Ranges(n.target) by { assert Ranges(n.target) + [] == Ranges(n.target); }
    LoopParts(k, n, c.p + SIZE_OP_JUMP, rep, nul);
  }

  /** The optional copies stand at p. */
  ghost predicate OptionalAt(k: Ctx, n: Node, m: nat, p: int, rep: nat, nul: nat) {
    0 <= p && CodeAt(k.pr.fetch, p, OptionalCode(n, m, rep, nul)) && RangesAt(k.pr, rep, Times(Ranges(n), m))
  }

  lemma OptionalParts(k: Ctx, n: Node, m: nat, p: int, rep: nat, nul: nat)
    requires 0 < m && OptionalAt(k, n, m, p, rep, nul)
    ensures k.pr.fetch(p) == Some(Push(Scaled(Length(n), m) + Scaled(SIZE_OP_PUSH, m - 1)))
    ensures BodyAt(k, n, p + SIZE_OP_PUSH, rep, nul)
    ensures OptionalAt(k, n, m - 1, After(p + SIZE_OP_PUSH, n), rep + Reps(n), nul + Nuls(n))
  {
    hide CodeAt, Code, Length, SizeAll;
    var push := Push(Scaled(Length(n), m) + Scaled(SIZE_OP_PUSH, m - 1));
    var rest := OptionalCode(n, m - 1, rep + Reps(n), nul + Nuls(n));
    CodeSize(n, rep, nul);
    Prefixed(push, Code(n, rep, nul));
    CodeAtConcat(k.pr.fetch, p, [push] + Code(n, rep, nul), rest);
    SplitFirst(k.pr.fetch, p, push, Code(n, rep, nul));
    RangesSplit(k.pr, rep, Ranges(n), Times(Ranges(n), m - 1));
  }

  lemma ExpandParts(k: Ctx, n: Node, rep: nat, nul: nat, inRep: bool, c: Config)
    requires n.Quant? && ShapeOf(n).Expand? && Placed(k, n, rep, nul, inRep, c)
    ensures var m := Max(n.upper - n.lower, 0);
      CopiesAt(k, n.target, n.lower, c.p, rep, nul)
      && OptionalAt(k, n.target, m, c.p + Scaled(Length(n.target), n.lower), rep + Scaled(Reps(n.target), n.lower),
          nul + Scaled(Nuls(n.target), n.lower))
      && Length(n) == Scaled(Length(n.target), n.lower) + Scaled(SIZE_OP_PUSH + Length(n.target), m)
      && Reps(n) == Scaled(Reps(n.target), n.lower) + Scaled(Reps(n.target), m)
      && Nuls(n) == Scaled(Nuls(n.target), n.lower) + Scaled(Nuls(n.target), m)
      && Meaning(n, k.t, c.x) == OptionalAll(n.target, k.t, m, TimesMeaning(n.target, k.t, n.lower, [c.x]))
  {
    hide CodeAt, Code, Placed, OptionalCode, Length, Meaning, Ranges, Reps, Nuls, Times, CodeTimes, TimesMeaning;
    hide Scaled, OptionalAll, WellFormed, RepeatMarks, Groups, Refs, MinLen, Repeatable, RangesAt, QuantCode, ShapeOf;
    hide CopiesAt, OptionalAt;
    QuantBasics(k, n, rep, nul, inRep, c);
    ExpandFacts(n, rep, nul, k.t, c.x);
    var body, m := n.target, Max(n.upper - n.lower, 0);
    var rep1, nul1 := rep + Scaled(Reps(body), n.lower), nul + Scaled(Nuls(body), n.lower);
    CopiesThen(k, body, n.lower, m, c.p, OptionalCode(body, m, rep1, nul1), rep, nul);
    OptionalStands(k, body, m, c.p + Scaled(Length(body), n.lower), rep1, nul1);
  }

  lemma OptionalStands(k: Ctx, n: Node, m: nat, p: int, rep: nat, nul: nat)
    requires 0 <= p && CodeAt(k.pr.fetch, p, OptionalCode(n, m, rep, nul)) && RangesAt(k.pr, rep, Times(Ranges(n), m))
    ensures OptionalAt(k, n, m, p, rep, nul)
  {
    hide CodeAt, OptionalCode, RangesAt, Times, Ranges;
  }

  lemma ExpandFacts(n: Node, rep: nat, nul: nat, t: Subject, x: St)
    requires n.Quant? && ShapeOf(n).Expand?
    ensures var m := Max(n.upper - n.lower, 0);
      QuantCode(n, rep, nul)
      == CodeTimes(n.target, n.lower, rep, nul)
         + OptionalCode(n.target, m, rep + Scaled(Reps(n.target), n.lower), nul + Scaled(Nuls(n.target), n.lower))
      && Ranges(n) == Times(Ranges(n.target), n.lower + m)
      && Length(n) == Scaled(Length(n.target), n.lower) + Scaled(SIZE_OP_PUSH + Length(n.target), m)
      && Reps(n) == Scaled(Reps(n.target), n.lower) + Scaled(Reps(n.target), m)
      && Nuls(n) == Scaled(Nuls(n.target), n.lower) + Scaled(Nuls(n.target), m)
      && Meaning(n, t, x) == OptionalAll(n.target, t, m, TimesMeaning(n.target, t, n.lower, [x]))
  {
    hide *;
    UnfoldQuant(n, rep, nul, t, x);
    ExpandCode(n, rep, nul);
    ExpandNumbers(n);
    ExpandMeaning(n, t, x);
  }

  lemma ExpandCode(n: Node, rep: nat, nul: nat)
    requires n.Quant? && ShapeOf(n).Expand?
    ensures var m := Max(n.upper - n.lower, 0);
      QuantCode(n, rep, nul)
      == CodeTimes(n.target, n.lower, rep, nul)
         + OptionalCode(n.target, m, rep + Scaled(Reps(n.target), n.lower), nul + Scaled(Nuls(n.target), n.lower))
      && QuantLength(n) == Scaled(Length(n.target), n.lower) + Scaled(SIZE_OP_PUSH + Length(n.target), m)
  {
    hide ShapeOf, Length, CodeTimes, OptionalCode, Scaled, Reps, Nuls;
  }

  lemma ExpandNumbers(n: Node)
    requires n.Quant? && ShapeOf(n).Expand?
    ensures var m := Max(n.upper - n.lower, 0);
      Ranges(n) == Times(Ranges(n.target), n.lower + m)
      && Reps(n) == Scaled(Reps(n.target), n.lower) + Scaled(Reps(n.target), m)
      && Nuls(n) == Scaled(Nuls(n.target), n.lower) + Scaled(Nuls(n.target), m)
  {
    hide ShapeOf, Length;
    var m := Max(n.upper - n.lower, 0);
    TimesLength(Ranges(n.target), n.lower + m);
    ScaledAdd(Reps(n.target), n.lower, m);
    ScaledAdd(Nuls(n.target), n.lower, m);
  }

  lemma ExpandMeaning(n: Node, t: Subject, x: St)
    requires n.Quant? && ShapeOf(n).Expand?
    ensures QuantMeaning(n, t, x)
            == OptionalAll(n.target, t, Max(n.upper - n.lower, 0), TimesMeaning(n.target, t, n.lower, [x]))
  {
    hide ShapeOf, Length, OptionalAll, TimesMeaning, Meaning;
  }

  lemma LazyParts(k: Ctx, n: Node, rep: nat, nul: nat, inRep: bool, c: Config)
    requires n.Quant? && ShapeOf(n).LazyOption? && Placed(k, n, rep, nul, inRep, c)
    ensures Fetches(k, c, Push(SIZE_OP_JUMP)) && k.pr.fetch(c.p + SIZE_OP_PUSH) == Some(Jump(Length(n.target)))
    ensures BodyAt(k, n.target, c.p + SIZE_OP_PUSH + SIZE_OP_JUMP, rep, nul)
    ensures Length(n) == SIZE_OP_PUSH + SIZE_OP_JUMP + Length(n.target)
    ensures Reps(n) == Reps(n.target) && Nuls(n) == Nuls(n.target)
    ensures Meaning(n, k.t, c.x) == [c.x] + Meaning(n.target, k.t, c.x)
  {
    hide CodeAt, Code, SizeAll, Placed;
    QuantBasics(k, n, rep, nul, inRep, c);
    UnfoldQuant(n, rep, nul, k.t, c.x);
    var push, jump := Push(SIZE_OP_JUMP), Jump(Length(n.target));
    var body := Code(n.target, rep, nul);
    assert [push, jump] + body == [push] + ([jump] + body);
    SplitFirst(k.pr.fetch, c.p, push, [jump] + body);
    SplitFirst(k.pr.fetch, c.p + SIZE_OP_PUSH, jump, body);
    assert Times(Ranges(n.target), 1) == Ranges(n.target) by { assert Ranges(n.target) + [] == Ranges(n.target); }
  }

  /** The counter loop stands at c.p. */
  lemma CounterParts(k: Ctx, n: Node, rep: nat, nul: nat, inRep: bool, c: Config)
    requires n.Quant? && ShapeOf(n).Counter? && Placed(k, n, rep, nul, inRep, c)
    ensures Fetches(k, c, Repeat(n.greedy, rep, CheckedLength(n) + SIZE_OP_REPEAT_INC))
    ensures CheckedAt(k, n, c.p + 7, rep + 1, nul)
    ensures k.pr.fetch(c.p + 7 + CheckedLength(n)) == Some(RepeatInc(n.greedy, inRep, rep))
    ensures Length(n) == 7 + CheckedLength(n) + SIZE_OP_REPEAT_INC
    ensures Reps(n) == 1 + Reps(n.target) && Nuls(n) == OwnMark(n) + Nuls(n.target)
    ensures rep < |k.pr.ranges| && k.pr.ranges[rep] == Range(n.lower, UpperCount(n.upper), inRep) && k.pr.level.All?
    ensures 1 <= UpperCount(n.upper) && n.lower <= UpperCount(n.upper)
    ensures Meaning(n, k.t, c.x)
      == (var first := CountTurns(n, k.t, c.x, 0, Meaning(n.target, k.t, c.x));
          if n.lower > 0 then first else if n.greedy then first + [c.x] else [c.x] + first)
    ensures !inRep ==> rep !in c.loops
  {
    hide CodeAt, Code, SizeAll, Placed, CheckedCode, CheckedLength;
    QuantBasics(k, n, rep, nul, inRep, c);
    UnfoldQuant(n, rep, nul, k.t, c.x);
    var start, end := Repeat(n.greedy, rep, CheckedLength(n) + SIZE_OP_REPEAT_INC),
        RepeatInc(n.greedy, n.inRepeat, rep);
    SplitFramed(k.pr.fetch, c.p, start, CheckedCode(n, rep + 1, nul), end);
    CheckedSize(n, rep + 1, nul);
    RangesSplit(k.pr, rep, [Range(n.lower, UpperCount(n.upper), inRep)], Ranges(n.target));
    assert k.pr.ranges[rep] == k.pr.ranges[rep..rep + 1][0];
    CheckedParts(k, n, c.p + 7, rep + 1, nul);
  }

  /** (?>x*) with a simple target: copies, then PUSH x POP JUMP. */
  lemma SimpleParts(k: Ctx, n: Node, rep: nat, nul: nat, inRep: bool, c: Config)
    requires n.Atomic? && n.simple && Placed(k, n, rep, nul, inRep, c)
    ensures var q := n.target; var body := q.target;
      var p := c.p + Scaled(Length(body), q.lower);
      q.Quant? && SimpleType(body) && MinLen(body, k.e) > 0
      && CopiesAt(k, body, q.lower, c.p, rep, nul) && PopLoopAt(k, body, p)
      && Length(n) == Scaled(Length(body), q.lower) + SIZE_OP_PUSH + Length(body) + SIZE_OP_POP + SIZE_OP_JUMP
      && Reps(body) == 0 && Nuls(body) == 0 && Reps(n) == 0 && Nuls(n) == 0
      && Repeatable(k, body, Names(n), [c.x])
      && Meaning(n, k.t, c.x) == AtomicLoopAll(body, k.t, TimesMeaning(body, k.t, q.lower, [c.x]))
  {
    hide *;
    SimpleFacts(k, n, rep, nul, inRep, c);
    SimpleCode(n, rep, nul, k.t, c.x);
    var q := n.target;
    var body := q.target;
    var copies, code := CodeTimes(body, q.lower, rep, nul), Code(body, 0, 0);
    TimesSize(body, q.lower, rep, nul);
    CodeSize(body, 0, 0);
    PopLoopParts(k, body, copies, code, c.p, Push(Length(body) + SIZE_OP_POP + SIZE_OP_JUMP),
        Jump(-(SIZE_OP_PUSH + Length(body) + SIZE_OP_POP + SIZE_OP_JUMP)));
    CopiesStand(k, body, q.lower, c.p, rep, nul);
  }

  lemma SimpleFacts(k: Ctx, n: Node, rep: nat, nul: nat, inRep: bool, c: Config)
    requires n.Atomic? && n.simple && Placed(k, n, rep, nul, inRep, c)
    ensures var q := n.target; var body := q.target;
      q.Quant? && SimpleType(body) && MinLen(body, k.e) > 0 && Repeatable(k, body, Names(n), [c.x])
      && 0 <= c.p && CodeAt(k.pr.fetch, c.p, Code(n, rep, nul)) && RangesAt(k.pr, rep, Ranges(n))
  {
    hide CodeAt, SizeAll, Ok, Length, Code, Meaning;
    var q := n.target;
    var body := q.target;
    assert WellFormed(q, k.e) && RepeatMarks(q, inRep);
    assert WellFormed(body, k.e) && RepeatMarks(body, true);
    assert Groups(n) == Groups(q) == Groups(body) && Refs(n) == Refs(q) == Refs(body);
  }

  lemma SimpleCode(n: Node, rep: nat, nul: nat, t: Subject, x: St)
    requires n.Atomic? && n.simple && n.target.Quant? && SimpleType(n.target.target)
    ensures var q := n.target; var body := q.target;
      Code(n, rep, nul)
      == CodeTimes(body, q.lower, rep, nul) + [Push(Length(body) + SIZE_OP_POP + SIZE_OP_JUMP)] + Code(body, 0, 0)
         + [Pop, Jump(-(SIZE_OP_PUSH + Length(body) + SIZE_OP_POP + SIZE_OP_JUMP))]
      && Ranges(body) == Ranges(n) == [] && Reps(body) == 0 && Nuls(body) == 0 && Reps(n) == 0 && Nuls(n) == 0
      && Length(n) == Scaled(Length(body), q.lower) + SIZE_OP_PUSH + Length(body) + SIZE_OP_POP + SIZE_OP_JUMP
      && Meaning(n, t, x) == AtomicLoopAll(body, t, TimesMeaning(body, t, q.lower, [x]))
  {
    var q := n.target;
    ScaledZero(q.lower);
    ScaledZero(q.lower + 1);
    hide CodeTimes, AtomicLoopAll, TimesMeaning;
    TimesLength(Ranges(q.target), q.lower + 1);
    TimesLength(Ranges(q.target), q.lower);
  }

  /** Copies of a body without loops. */
  lemma CopiesStand(k: Ctx, n: Node, m: nat, p: int, rep: nat, nul: nat)
    requires 0 <= p && CodeAt(k.pr.fetch, p, CodeTimes(n, m, rep, nul)) && Ranges(n) == [] && RangesAt(k.pr, rep, [])
    ensures CopiesAt(k, n, m, p, rep, nul)
  {
    TimesLength(Ranges(n), m);
    ScaledZero(m);
    assert |Times(Ranges(n), m)| == 0;
  }

  /** PUSH exit; body; POP; JUMP back. */
  ghost predicate PopLoopAt(k: Ctx, body: Node, p: int) {
    0 <= p && k.pr.fetch(p) == Some(Push(Length(body) + SIZE_OP_POP + SIZE_OP_JUMP))
    && CodeAt(k.pr.fetch, p + SIZE_OP_PUSH, Code(body, 0, 0))
    && k.pr.fetch(p + SIZE_OP_PUSH + Length(body)) == Some(Pop)
    && k.pr.fetch(p + SIZE_OP_PUSH + Length(body) + SIZE_OP_POP)
       == Some(Jump(-(SIZE_OP_PUSH + Length(body) + SIZE_OP_POP + SIZE_OP_JUMP)))
  }

  lemma PopLoopParts(k: Ctx, body: Node, copies: seq<Instr>, code: seq<Instr>, p: int, push: Instr, jump: Instr)
    requires 0 <= p && push == Push(Length(body) + SIZE_OP_POP + SIZE_OP_JUMP)
    requires jump == Jump(-(SIZE_OP_PUSH + Length(body) + SIZE_OP_POP + SIZE_OP_JUMP))
    requires code == Code(body, 0, 0) && SizeAll(code) == Length(body)
    requires CodeAt(k.pr.fetch, p, copies + [push] + code + [Pop, jump])
    ensures CodeAt(k.pr.fetch, p, copies) && PopLoopAt(k, body, p + SizeAll(copies))
  {
    hide CodeAt, SizeAll, Length, Code;
    var h := p + SizeAll(copies);
    CodeAtConcat(k.pr.fetch, p, copies + [push] + code, [Pop, jump]);
    CodeAtConcat(k.pr.fetch, p, copies + [push], code);
    SplitLast(k.pr.fetch, p, copies, push);
    Suffixed(copies, push);
    SizeConcat(copies + [push], code);
    assert [Pop, jump] == [Pop] + [jump];
    SplitFirst(k.pr.fetch, h + SIZE_OP_PUSH + Length(body), Pop, [jump]);
    assert [jump] == [jump] + [];
    SplitFirst(k.pr.fetch, h + SIZE_OP_PUSH + Length(body) + SIZE_OP_POP, jump, []);
  }
}
