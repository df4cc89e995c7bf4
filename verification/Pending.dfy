/** How often the rest of a program still opens, or closes, a capture group: the instructions to come, and the turns
    that counted loops have left.  For a group outside alternation, negation and variable repetition this does not
    depend on the path taken, which is why setup_tree does not push its captures (regcomp.c:4011-4042). */
module Pending {
  import opened Common
  import opened Tree
  import opened Opcodes
  import opened Codegen
  import opened Snapshot
  import opened Placing

  /** What is counted: the openings or closings of one group, or nothing; the weight of a loop number is how often the
      body of that loop does it. */
  datatype Load = Load(num: Option<nat>, end: bool, weight: seq<nat>, ranges: seq<Range>)

  predicate Hits(d: Load, i: Instr) {
    d.num.Some? && (if d.end then i.MemEnd? else i.MemStart?) && i.num == d.num.value
  }

  function Weight(d: Load, id: nat): nat { if id < |d.weight| then d.weight[id] else 0 }

  /** How many more turns a loop makes after the current one. */
  function TurnsLeft(d: Load, loops: map<nat, LoopState>, id: nat): nat {
    var lower := if id < |d.ranges| then d.ranges[id].lower else 0;
    Max(lower - 1 - (if id in loops then loops[id].count else 0), 0)
  }

  function AllTurns(d: Load, id: nat): nat {
    var lower := if id < |d.ranges| then d.ranges[id].lower else 0;
    Max(lower - 1, 0)
  }

  /** What one instruction adds.  The turns left are due at the end of a loop; at its beginning all turns are. */
  function One(d: Load, loops: map<nat, LoopState>, i: Instr): nat {
    if Hits(d, i) then 1
    else if i.Repeat? then Scaled(Weight(d, i.id), AllTurns(d, i.id) - TurnsLeft(d, loops, i.id))
    else if i.RepeatInc? then Scaled(Weight(d, i.id), TurnsLeft(d, loops, i.id))
    else 0
  }

  function Pend(d: Load, loops: map<nat, LoopState>, ops: seq<Instr>): nat {
    if ops == [] then 0 else One(d, loops, ops[0]) + Pend(d, loops, ops[1..])
  }

  ghost predicate Always(d: Load, ops: seq<Instr>, k: nat) {
    forall loops: map<nat, LoopState> :: Pend(d, loops, ops) == k
  }

  lemma {:induction false} PendJoin(d: Load, loops: map<nat, LoopState>, a: seq<Instr>, b: seq<Instr>)
    ensures Pend(d, loops, a + b) == Pend(d, loops, a) + Pend(d, loops, b)
    decreases |a|
  {
    hide One;
    if a == [] {
      assert a + b == b;
    } else {
      assert (a + b)[0] == a[0] && (a + b)[1..] == a[1..] + b;
      PendJoin(d, loops, a[1..], b);
    }
  }

  lemma PendOne(d: Load, loops: map<nat, LoopState>, i: Instr)
    ensures Pend(d, loops, [i]) == One(d, loops, i)
  {
    hide One;
    assert [i][1..] == [];
    assert Pend(d, loops, []) == 0;
  }

  lemma AlwaysJoin(d: Load, a: seq<Instr>, b: seq<Instr>, j: nat, k: nat)
    requires Always(d, a, j) && Always(d, b, k)
    ensures Always(d, a + b, j + k)
  {
    hide Pend;
    forall loops: map<nat, LoopState> ensures Pend(d, loops, a + b) == j + k {
      PendJoin(d, loops, a, b);
      assert Pend(d, loops, a) == j && Pend(d, loops, b) == k;
    }
  }

  lemma AlwaysNone(d: Load)
    ensures Always(d, [], 0)
  {
  }

  /** An instruction that opens and closes nothing and belongs to no loop. */
  predicate Silent(d: Load, i: Instr) { !Hits(d, i) && !i.Repeat? && !i.RepeatInc? }

  lemma AlwaysSilent(d: Load, i: Instr)
    requires Silent(d, i)
    ensures Always(d, [i], 0)
  {
    forall loops: map<nat, LoopState> ensures Pend(d, loops, [i]) == 0 { PendOne(d, loops, i); }
  }

  lemma AlwaysHit(d: Load, i: Instr)
    requires Hits(d, i)
    ensures Always(d, [i], 1)
  {
    forall loops: map<nat, LoopState> ensures Pend(d, loops, [i]) == 1 { PendOne(d, loops, i); }
  }

  // ---------------------------------------------------------------- what a tree opens

  predicate Has(n: Node, g: Option<nat>) { g.Some? && g.value in Groups(n) }

  predicate HasIn(ns: Nodes, g: Option<nat>) { g.Some? && g.value in GroupsOf(ns) }

  /** The group stands outside alternation, negation and variable repetition, and no loop around it that counts its
      turns can leave early because its body may be empty: every path opens it equally often. */
  predicate Steady(n: Node, g: Option<nat>) {
    !Has(n, g)
    || match n
       case Quant(target, lower, upper, _, emptyInfo, _, _, _) =>
         lower == upper && (ShapeOf(n).Expand? || (ShapeOf(n).Counter? && 0 < lower && emptyInfo.NotEmpty?))
         && Steady(target, g)
       case Group(num, _, _, target) => if num == g.value then !Has(target, g) else Steady(target, g)
       case Atomic(target, simple) => !(simple && target.Quant?) && Steady(target, g)
       case Look(look, target, _) => (look.Ahead? || look.Behind?) && Steady(target, g)
       case List(elems) => SteadyAll(elems, g)
       case _ => false
  }

  predicate SteadyAll(ns: Nodes, g: Option<nat>) {
    match ns
    case Last(car) => Steady(car, g)
    case Link(car, cdr) => Steady(car, g) && SteadyAll(cdr, g)
  }

  /** How often it is opened. */
  function Opens(n: Node, g: Option<nat>): nat {
    if !Has(n, g) then 0
    else match n
      case Quant(target, lower, _, _, _, _, _, _) => Scaled(Opens(target, g), lower)
      case Group(num, _, _, target) => if num == g.value then 1 else Opens(target, g)
      case Atomic(target, _) => Opens(target, g)
      case Look(_, target, _) => Opens(target, g)
      case List(elems) => OpensAll(elems, g)
      case _ => 0
  }

  function OpensAll(ns: Nodes, g: Option<nat>): nat {
    match ns
    case Last(car) => Opens(car, g)
    case Link(car, cdr) => Opens(car, g) + OpensAll(cdr, g)
  }

  function TimesWeights(ws: seq<nat>, k: nat): seq<nat> { if k == 0 then [] else ws + TimesWeights(ws, k - 1) }

  /** The weights of the loops of a tree, in the order of their numbers. */
  function Weights(n: Node, g: Option<nat>): seq<nat> {
    match n
    case Quant(target, _, _, _, _, _, _, _) =>
      if ShapeOf(n).Counter? then [Opens(target, g)] + Weights(target, g)
          else TimesWeights(Weights(target, g), Copies(n))
    case Group(_, _, _, target) => Weights(target, g)
    case Atomic(target, simple) =>
      if simple && target.Quant? then TimesWeights(Weights(target.target, g), target.lower + 1) else Weights(target, g)
    case Look(_, target, _) => Weights(target, g)
    case List(elems) => WeightsOf(elems, g)
    case Alt(elems) => WeightsOf(elems, g)
    case _ => []
  }

  function WeightsOf(ns: Nodes, g: Option<nat>): seq<nat> {
    match ns
    case Last(car) => Weights(car, g)
    case Link(car, cdr) => Weights(car, g) + WeightsOf(cdr, g)
  }

  lemma {:induction false} TimesSame(rs: seq<Range>, ws: seq<nat>, k: nat)
    requires |rs| == |ws|
    ensures |Times(rs, k)| == |TimesWeights(ws, k)|
    decreases k
  {
    if k > 0 { TimesSame(rs, ws, k - 1); }
  }

  lemma {:induction false} WeightsSize(n: Node, g: Option<nat>)
    ensures |Weights(n, g)| == |Ranges(n)|
    decreases n
  {
    match n
    case Quant(target, _, _, _, _, _, _, _) =>
      WeightsSize(target, g);
      TimesSame(Ranges(target), Weights(target, g), Copies(n));
    case Group(_, _, _, target) => WeightsSize(target, g);
    case Atomic(target, simple) =>
      if simple && target.Quant? {
        WeightsSize(target.target, g);
        TimesSame(Ranges(target.target), Weights(target.target, g), target.lower + 1);
      } else {
        WeightsSize(target, g);
      }
    case Look(_, target, _) => WeightsSize(target, g);
    case List(elems) => WeightsOfSize(elems, g);
    case Alt(elems) => WeightsOfSize(elems, g);
    case _ =>
  }

  lemma {:induction false} WeightsOfSize(ns: Nodes, g: Option<nat>)
    ensures |WeightsOf(ns, g)| == |RangesOf(ns)|
    decreases ns
  {
    WeightsSize(ns.car, g);
    if ns.Link? { WeightsOfSize(ns.cdr, g); }
  }

  /** The loops from number rep on have these ranges and weights. */
  predicate Bears(d: Load, rep: nat, rs: seq<Range>, ws: seq<nat>) {
    |rs| == |ws| && rep + |rs| <= |d.ranges| && rep + |ws| <= |d.weight|
    && d.ranges[rep..rep + |rs|] == rs && d.weight[rep..rep + |ws|] == ws
  }

  lemma BearsParts(d: Load, rep: nat, r1: seq<Range>, w1: seq<nat>, r2: seq<Range>, w2: seq<nat>)
    requires Bears(d, rep, r1 + r2, w1 + w2) && |r1| == |w1|
    ensures Bears(d, rep, r1, w1) && Bears(d, rep + |r1|, r2, w2)
  {
    var rs, ws := d.ranges[rep..rep + |r1 + r2|], d.weight[rep..rep + |w1 + w2|];
    assert d.ranges[rep..rep + |r1|] == rs[..|r1|] == r1;
    assert d.weight[rep..rep + |w1|] == ws[..|w1|] == w1;
    assert d.ranges[rep + |r1|..rep + |r1| + |r2|] == rs[|r1|..] == r2;
    assert d.weight[rep + |r1|..rep + |r1| + |w2|] == ws[|r1|..] == w2;
  }

  predicate Carries(d: Load, n: Node, rep: nat) { Bears(d, rep, Ranges(n), Weights(n, d.num)) }

  predicate CarriesAll(d: Load, ns: Nodes, rep: nat) { Bears(d, rep, RangesOf(ns), WeightsOf(ns, d.num)) }

  predicate CarriesTimes(d: Load, n: Node, k: nat, rep: nat) {
    Bears(d, rep, Times(Ranges(n), k), TimesWeights(Weights(n, d.num), k))
  }

  lemma ListCarries(d: Load, ns: Nodes, rep: nat)
    requires CarriesAll(d, ns, rep)
    ensures Carries(d, ns.car, rep) && (ns.Link? ==> CarriesAll(d, ns.cdr, rep + Reps(ns.car)))
  {
    hide Ranges, Weights, Bears;
    if ns.Link? {
      WeightsSize(ns.car, d.num);
      BearsParts(d, rep, Ranges(ns.car), Weights(ns.car, d.num), RangesOf(ns.cdr), WeightsOf(ns.cdr, d.num));
    }
  }

  lemma TimesCarries(d: Load, n: Node, k: nat, rep: nat)
    requires CarriesTimes(d, n, k, rep) && 0 < k
    ensures Carries(d, n, rep) && CarriesTimes(d, n, k - 1, rep + Reps(n))
  {
    hide Ranges, Weights, Bears;
    WeightsSize(n, d.num);
    BearsParts(d, rep, Ranges(n), Weights(n, d.num), Times(Ranges(n), k - 1), TimesWeights(Weights(n, d.num), k - 1));
  }

  lemma {:induction false} TimesCarriesSplit(d: Load, n: Node, j: nat, k: nat, rep: nat)
    requires CarriesTimes(d, n, j + k, rep)
    ensures CarriesTimes(d, n, j, rep) && CarriesTimes(d, n, k, rep + Scaled(Reps(n), j))
  {
    hide Ranges, Weights;
    var rs, ws := Ranges(n), Weights(n, d.num);
    WeightsSize(n, d.num);
    TimesSplit(rs, j, k);
    TimesWeightsSum(ws, j, k);
    TimesSame(rs, ws, j);
    TimesLength(rs, j);
    BearsParts(d, rep, Times(rs, j), TimesWeights(ws, j), Times(rs, k), TimesWeights(ws, k));
  }

  lemma {:induction false} TimesWeightsSum(ws: seq<nat>, j: nat, k: nat)
    ensures TimesWeights(ws, j + k) == TimesWeights(ws, j) + TimesWeights(ws, k)
    decreases j
  {
    hide TimesWeights;
    WeightsUnfold(ws, j);
    if j > 0 {
      WeightsUnfold(ws, j + k);
      TimesWeightsSum(ws, j - 1, k);
      JoinThree(ws, TimesWeights(ws, j - 1), TimesWeights(ws, k));
    }
  }

  lemma WeightsUnfold(ws: seq<nat>, k: nat)
    ensures TimesWeights(ws, 0) == [] && (k > 0 ==> TimesWeights(ws, k) == ws + TimesWeights(ws, k - 1))
  {
  }

  lemma JoinThree(a: seq<nat>, b: seq<nat>, c: seq<nat>)
    ensures a + (b + c) == (a + b) + c
  {
  }

  // ---------------------------------------------------------------- what its code does

  /** The code of a tree opens the group as often as the tree does, whatever the loop counters say. */
  lemma {:induction false} CodePends(d: Load, n: Node, rep: nat, nul: nat)
    requires Carries(d, n, rep) && Steady(n, d.num)
    ensures Always(d, Code(n, rep, nul), Opens(n, d.num))
    decreases n, 3
  {
    hide Always, Pend, One, Bears;
    match n
    case Str(s) => if s != [] { AlwaysSilent(d, Exact(s)); } else { AlwaysNone(d); }
    case CClass(bs, neg) => AlwaysSilent(d, CClassOp(bs, neg));
    case Any(ml) => AlwaysSilent(d, AnyChar(ml));
    case Backref(num) => AlwaysSilent(d, BackrefOp(num));
    case Anchor(kind) => AlwaysSilent(d, AnchorOp(kind));
    case Quant(_, _, _, _, _, _, _, _) => QuantPends(d, n, rep, nul);
    case Group(_, _, _, _) => GroupPends(d, n, rep, nul);
    case Atomic(target, simple) =>
      if simple && target.Quant? {
        SimplePends(d, n, rep, nul);
      } else {
        CodePends(d, target, rep, nul);
        FramePends(d, PushStopBt, Code(target, rep, nul), PopStopBt, Opens(target, d.num));
      }
    case Look(_, _, _) => LookPends(d, n, rep, nul);
    case List(elems) =>
      if !Has(n, d.num) { NoneHas(elems, d.num); }
      ListPends(d, elems, rep, nul);
    case Alt(elems) => AltPends(d, elems, rep, nul);
  }

  lemma {:induction false} NoneHas(ns: Nodes, g: Option<nat>)
    requires !HasIn(ns, g)
    ensures SteadyAll(ns, g) && OpensAll(ns, g) == 0
    decreases ns
  {
    if ns.Link? { NoneHas(ns.cdr, g); }
  }

  /** Two instructions around a body. */
  lemma FramePends(d: Load, i: Instr, body: seq<Instr>, j: Instr, k: nat)
    requires Silent(d, i) && Silent(d, j) && Always(d, body, k)
    ensures Always(d, [i] + body + [j], k) && Always(d, [i] + body, k)
  {
    hide Always, Silent;
    AlwaysSilent(d, i);
    AlwaysSilent(d, j);
    AlwaysJoin(d, [i], body, 0, k);
    AlwaysJoin(d, [i] + body, [j], k, 0);
  }

  lemma {:induction false} GroupPends(d: Load, n: Node, rep: nat, nul: nat)
    requires n.Group? && Carries(d, n, rep) && Steady(n, d.num)
    ensures Always(d, Code(n, rep, nul), Opens(n, d.num))
    decreases n, 2
  {
    hide Always, Pend, One, Bears;
    var i, j, body := MemStart(n.num, n.pushStart), MemEnd(n.num, n.pushEnd), Code(n.target, rep, nul);
    CodePends(d, n.target, rep, nul);
    var k := Opens(n.target, d.num);
    if d.num == Some(n.num) {
      if d.end {
        AlwaysSilent(d, i);
        AlwaysHit(d, j);
        AlwaysJoin(d, [i], body, 0, k);
        AlwaysJoin(d, [i] + body, [j], k, 1);
      } else {
        AlwaysHit(d, i);
        AlwaysSilent(d, j);
        AlwaysJoin(d, [i], body, 1, k);
        AlwaysJoin(d, [i] + body, [j], 1 + k, 0);
      }
    } else {
      FramePends(d, i, body, j, k);
    }
  }

  lemma {:induction false} LookPends(d: Load, n: Node, rep: nat, nul: nat)
    requires n.Look? && Carries(d, n, rep) && Steady(n, d.num)
    ensures Always(d, Code(n, rep, nul), Opens(n, d.num))
    decreases n, 2
  {
    hide Always, Pend, One, Bears, Length;
    var body, k := Code(n.target, rep, nul), Opens(n.target, d.num);
    CodePends(d, n.target, rep, nul);
    match n.look
    case Ahead => FramePends(d, PushPos, body, PopPos, k);
    case AheadNot => FramePends(d, PushPosNot(Length(n.target) + SIZE_OP_FAIL_POS), body, FailPos, k);
    case Behind => FramePends(d, LookBehind(n.charLen), body, FailPos, k);
    case BehindNot =>
      FramePends(d, PushLookBehindNot(Length(n.target) + SIZE_OP_FAIL_LOOK_BEHIND_NOT, n.charLen), body,
        FailLookBehindNot, k);
  }

  lemma {:induction false} ListPends(d: Load, ns: Nodes, rep: nat, nul: nat)
    requires CarriesAll(d, ns, rep) && SteadyAll(ns, d.num)
    ensures Always(d, ListCode(ns, rep, nul), OpensAll(ns, d.num))
    decreases ns, 3
  {
    hide Always, Pend, Ranges, Weights, Nuls, Code, Opens, Steady;
    ListCarries(d, ns, rep);
    CodePends(d, ns.car, rep, nul);
    if ns.Link? {
      var b := ListCode(ns.cdr, rep + Reps(ns.car), nul + Nuls(ns.car));
      ListPends(d, ns.cdr, rep + Reps(ns.car), nul + Nuls(ns.car));
      AlwaysJoin(d, Code(ns.car, rep, nul), b, Opens(ns.car, d.num), OpensAll(ns.cdr, d.num));
    }
  }

  /** The group is in none of the alternatives. */
  lemma {:induction false} AltPends(d: Load, ns: Nodes, rep: nat, nul: nat)
    requires CarriesAll(d, ns, rep) && !HasIn(ns, d.num)
    ensures Always(d, AltCode(ns, rep, nul), 0)
    decreases ns, 3
  {
    hide Always, Pend, Ranges, Weights, Nuls, Code, Length;
    ListCarries(d, ns, rep);
    CodePends(d, ns.car, rep, nul);
    if ns.Link? {
      var rep1, nul1 := rep + Reps(ns.car), nul + Nuls(ns.car);
      var push, jump := Push(Length(ns.car) + SIZE_OP_JUMP), Jump(AltLength(ns.cdr));
      AltPends(d, ns.cdr, rep1, nul1);
      FramePends(d, push, Code(ns.car, rep, nul), jump, 0);
      AlwaysJoin(d, [push] + Code(ns.car, rep, nul) + [jump], AltCode(ns.cdr, rep1, nul1), 0, 0);
    }
  }

  lemma {:induction false} TimesPends(d: Load, n: Node, k: nat, rep: nat, nul: nat)
    requires CarriesTimes(d, n, k, rep) && Steady(n, d.num)
    ensures Always(d, CodeTimes(n, k, rep, nul), Scaled(Opens(n, d.num), k))
    decreases n, 4, k
  {
    hide Always, Pend, Ranges, Weights, Nuls, Code, Opens, Steady, Bears;
    if k == 0 {
      AlwaysNone(d);
      ScaledZero(Opens(n, d.num));
    } else {
      TimesCarries(d, n, k, rep);
      CodePends(d, n, rep, nul);
      TimesPends(d, n, k - 1, rep + Reps(n), nul + Nuls(n));
      AlwaysJoin(d, Code(n, rep, nul), CodeTimes(n, k - 1, rep + Reps(n), nul + Nuls(n)), Opens(n, d.num),
        Scaled(Opens(n, d.num), k - 1));
      ScaledStep(Opens(n, d.num), k);
    }
  }

  lemma {:induction false} OptionalPends(d: Load, n: Node, k: nat, rep: nat, nul: nat)
    requires CarriesTimes(d, n, k, rep) && (!Has(n, d.num) || k == 0)
    ensures Always(d, OptionalCode(n, k, rep, nul), 0)
    decreases n, 4, k
  {
    hide Always, Pend, Ranges, Weights, Nuls, Code, Bears, Length;
    if k == 0 {
      AlwaysNone(d);
    } else {
      var rep1, nul1 := rep + Reps(n), nul + Nuls(n);
      var push := Push(Scaled(Length(n), k) + Scaled(SIZE_OP_PUSH, k - 1));
      TimesCarries(d, n, k, rep);
      CodePends(d, n, rep, nul);
      OptionalPends(d, n, k - 1, rep1, nul1);
      AlwaysSilent(d, push);
      AlwaysJoin(d, [push], Code(n, rep, nul), 0, 0);
      AlwaysJoin(d, [push] + Code(n, rep, nul), OptionalCode(n, k - 1, rep1, nul1), 0, 0);
    }
  }

  lemma {:induction false} CheckedPends(d: Load, q: Node, rep: nat, nul: nat)
    requires q.Quant? && Carries(d, q.target, rep) && Steady(q.target, d.num)
    ensures Always(d, CheckedCode(q, rep, nul), Opens(q.target, d.num))
    decreases q, 0
  {
    hide Always, Pend, Ranges, Weights, Nuls, Code, Bears, Opens, Steady;
    if q.emptyInfo.NotEmpty? {
      CodePends(d, q.target, rep, nul);
    } else {
      CodePends(d, q.target, rep, nul + 1);
      FramePends(d, NullCheckStart(nul), Code(q.target, rep, nul + 1),
        if q.emptyInfo.Empty? then NullCheckEnd(nul) else NullCheckEndMemst(nul), Opens(q.target, d.num));
    }
  }

  lemma {:induction false} LoopPends(d: Load, q: Node, rep: nat, nul: nat)
    requires q.Quant? && Carries(d, q.target, rep) && !Has(q.target, d.num)
    ensures Always(d, LoopCode(q, rep, nul), 0)
    decreases q, 1
  {
    hide Always, Pend, Ranges, Weights, Nuls, Code, Bears, CheckedCode, CheckedLength;
    CheckedPends(d, q, rep, nul);
    var mod := CheckedLength(q);
    if q.greedy {
      FramePends(d, HeadOp(q), CheckedCode(q, rep, nul), Jump(-(mod + SIZE_OP_JUMP + HeadSize(q))), 0);
    } else {
      FramePends(d, Jump(mod), CheckedCode(q, rep, nul), Push(-(mod + SIZE_OP_PUSH)), 0);
    }
  }

  lemma {:induction false} SimplePends(d: Load, n: Node, rep: nat, nul: nat)
    requires n.Atomic? && n.simple && n.target.Quant? && Carries(d, n, rep) && Steady(n, d.num)
    ensures Always(d, Code(n, rep, nul), Opens(n, d.num))
    decreases n, 2
  {
    hide Always, Pend, Ranges, Weights, Nuls, Code, Bears, Length;
    var b, k := n.target.target, n.target.lower;
    SimpleIs(d, n, rep, nul);
    var rep1, nul1 := rep + Scaled(Reps(b), k), nul + Scaled(Nuls(b), k);
    var push, jump := Push(Length(b) + SIZE_OP_POP + SIZE_OP_JUMP),
        Jump(-(SIZE_OP_PUSH + Length(b) + SIZE_OP_POP + SIZE_OP_JUMP));
    TimesCarriesSplit(d, b, k, 1, rep);
    TimesCarries(d, b, 1, rep1);
    TimesPends(d, b, k, rep, nul);
    ScaledZero(k);
    CodePends(d, b, rep1, nul1);
    AlwaysSilent(d, push);
    AlwaysJoin(d, CodeTimes(b, k, rep, nul), [push], 0, 0);
    AlwaysJoin(d, CodeTimes(b, k, rep, nul) + [push], Code(b, rep1, nul1), 0, 0);
    FramePends(d, Pop, [], jump, 0) by { AlwaysNone(d); }
    assert [Pop] + [] + [jump] == [Pop, jump];
    AlwaysJoin(d, CodeTimes(b, k, rep, nul) + [push] + Code(b, rep1, nul1), [Pop, jump], 0, 0);
  }

  lemma SimpleIs(d: Load, n: Node, rep: nat, nul: nat)
    requires n.Atomic? && n.simple && n.target.Quant? && Carries(d, n, rep) && Steady(n, d.num)
    ensures var b, k := n.target.target, n.target.lower;
      !Has(b, d.num) && Opens(n, d.num) == 0 && Opens(b, d.num) == 0 && Steady(b, d.num)
          && CarriesTimes(d, b, k + 1, rep)
      && Code(n, rep, nul) == CodeTimes(b, k, rep, nul) + [Push(Length(b) + SIZE_OP_POP + SIZE_OP_JUMP)]
        + Code(b, rep + Scaled(Reps(b), k), nul + Scaled(Nuls(b), k))
        + [Pop, Jump(-(SIZE_OP_PUSH + Length(b) + SIZE_OP_POP + SIZE_OP_JUMP))]
  {
    hide Bears, Length, CodeTimes;
    assert Groups(n) == Groups(n.target) && Groups(n.target) == Groups(n.target.target);
  }

  /** A counted loop: the first instruction and the last one together add all turns but the first. */
  lemma {:induction false} CounterPends(d: Load, q: Node, rep: nat, nul: nat)
    requires q.Quant? && ShapeOf(q).Counter? && Carries(d, q, rep) && Steady(q, d.num)
    ensures Always(d, Code(q, rep, nul), Opens(q, d.num))
    decreases q, 1
  {
    hide Pend, One, Length, CheckedCode;
    var i, j := Repeat(q.greedy, rep, CheckedLength(q) + SIZE_OP_REPEAT_INC), RepeatInc(q.greedy, q.inRepeat, rep);
    var body, w := CheckedCode(q, rep + 1, nul), Opens(q.target, d.num);
    CounterCarries(d, q, rep);
    CheckedPends(d, q, rep + 1, nul);
    forall loops: map<nat, LoopState> ensures Pend(d, loops, Code(q, rep, nul)) == Opens(q, d.num) {
      assert Code(q, rep, nul) == [i] + body + [j];
      PendJoin(d, loops, [i] + body, [j]);
      PendJoin(d, loops, [i], body);
      PendOne(d, loops, i);
      PendOne(d, loops, j);
      assert Pend(d, loops, body) == w;
      BothEnds(d, loops, i, j, rep, w);
      if Has(q, d.num) {
        assert Opens(q, d.num) == Scaled(w, q.lower);
        ScaledStep(w, q.lower);
      } else {
        ScaledZero(Max(q.lower - 1, 0));
      }
    }
  }

  lemma CounterCarries(d: Load, q: Node, rep: nat)
    requires q.Quant? && ShapeOf(q).Counter? && Carries(d, q, rep) && Steady(q, d.num)
    ensures Carries(d, q.target, rep + 1) && Weight(d, rep) == Opens(q.target, d.num)
    ensures rep < |d.ranges| && d.ranges[rep].lower == q.lower && d.ranges[rep].upper == UpperCount(q.upper)
    ensures Steady(q.target, d.num) && (!Has(q, d.num) ==> Opens(q.target, d.num) == 0 && Opens(q, d.num) == 0)
    ensures Has(q, d.num) ==> 0 < q.lower
    ensures Weight(d, rep) > 0 ==> 0 < q.lower && UpperCount(q.upper) == q.lower
  {
    hide Length;
    var r, w := Range(q.lower, UpperCount(q.upper), q.inRepeat), Opens(q.target, d.num);
    assert Ranges(q) == [r] + Ranges(q.target) && Weights(q, d.num) == [w] + Weights(q.target, d.num);
    BearsParts(d, rep, [r], [w], Ranges(q.target), Weights(q.target, d.num));
    assert d.ranges[rep..rep + 1][0] == d.ranges[rep] && d.weight[rep..rep + 1][0] == d.weight[rep];
  }

  lemma BothEnds(d: Load, loops: map<nat, LoopState>, i: Instr, j: Instr, id: nat, w: nat)
    requires i.Repeat? && i.id == id && j.RepeatInc? && j.id == id && Weight(d, id) == w
    ensures One(d, loops, i) + One(d, loops, j) == Scaled(w, AllTurns(d, id))
  {
    var all, left := AllTurns(d, id), TurnsLeft(d, loops, id);
    ScaledAdd(w, all - left, left);
  }

  lemma {:induction false} QuantPends(d: Load, q: Node, rep: nat, nul: nat)
    requires q.Quant? && Carries(d, q, rep) && Steady(q, d.num)
    ensures Always(d, Code(q, rep, nul), Opens(q, d.num))
    decreases q, 2
  {
    hide Always, Pend, Length, Code, CheckedLength, CheckedCode, CodeTimes, OptionalCode, LoopCode, Ranges, Nuls,
         Weights, Bears;
    var n := q.target;
    var rep1, nul1 := rep + Scaled(Reps(n), q.lower), nul + Scaled(Nuls(n), q.lower);
    var copies := CodeTimes(n, q.lower, rep, nul);
    QuantIs(d, q, rep, nul);
    match ShapeOf(q)
    case AnyStar =>
      TimesPends(d, n, q.lower, rep, nul);
      AlwaysSilent(d, StarOp(q));
      ScaledZero(q.lower);
      AlwaysJoin(d, copies, [StarOp(q)], 0, 0);
    case EnterLoop =>
      var i := Jump(if q.greedy then HeadSize(q) else SIZE_OP_JUMP);
      TimesCarries(d, n, 1, rep);
      LoopPends(d, q, rep, nul);
      AlwaysSilent(d, i);
      AlwaysJoin(d, [i], LoopCode(q, rep, nul), 0, 0);
    case PushLoop =>
      TimesCarriesSplit(d, n, q.lower, 1, rep);
      TimesCarries(d, n, 1, rep1);
      TimesPends(d, n, q.lower, rep, nul);
      LoopPends(d, q, rep1, nul1);
      ScaledZero(q.lower);
      AlwaysJoin(d, copies, LoopCode(q, rep1, nul1), 0, 0);
    case Expand =>
      var m := Max(q.upper - q.lower, 0);
      TimesCarriesSplit(d, n, q.lower, m, rep);
      TimesPends(d, n, q.lower, rep, nul);
      OptionalPends(d, n, m, rep1, nul1);
      AlwaysJoin(d, copies, OptionalCode(n, m, rep1, nul1), Scaled(Opens(n, d.num), q.lower), 0);
      if !Has(n, d.num) { ScaledZero(q.lower); }
    case LazyOption =>
      var i, k := Push(SIZE_OP_JUMP), Jump(Length(n));
      TimesCarries(d, n, 1, rep);
      CodePends(d, n, rep, nul);
      AlwaysNone(d);
      FramePends(d, i, [], k, 0);
      assert [i] + [] + [k] == [i, k];
      AlwaysJoin(d, [i, k], Code(n, rep, nul), 0, 0);
    case Counter => CounterPends(d, q, rep, nul);
  }

  /** The parts of a repetition. */
  lemma QuantIs(d: Load, q: Node, rep: nat, nul: nat)
    requires q.Quant? && Carries(d, q, rep) && Steady(q, d.num)
    ensures Code(q, rep, nul) == QuantCode(q, rep, nul) && Steady(q.target, d.num)
    ensures !ShapeOf(q).Counter? ==> CarriesTimes(d, q.target, Copies(q), rep)
    ensures !Has(q.target, d.num) ==> Opens(q.target, d.num) == 0 && Opens(q, d.num) == 0
    ensures Has(q.target, d.num) ==>
      Opens(q, d.num) == Scaled(Opens(q.target, d.num), q.lower) && q.lower == q.upper
      && (ShapeOf(q).Expand? || ShapeOf(q).Counter?)
  {
    hide Bears, QuantCode;
  }
}
