/** Every relative address the compiler writes lands on the first byte of an instruction: the addresses are computed
    from predicted sizes before the code they jump over exists (regcomp.c:421-553, 968-1158, 1207-1824).  And no jump,
    no loop and no null check skips what a steady group still has to open or close. */
module JumpTargets {
  import opened Common
  import opened Tree
  import opened Opcodes
  import opened Codegen
  import opened CodeSizes
  import opened CodeFits
  import opened Lengths
  import opened Correctness
  import opened Snapshot
  import opened Pending

  /** The instructions with a relative address. */
  predicate HasAddr(i: Instr) {
    i.Jump? || i.Push? || i.PushOrJumpExact1? || i.PushIfPeekNext? || i.Repeat? || i.PushPosNot? || i.PushLookBehindNot?
  }

  /** a is the address of an instruction of ops, or their end. */
  ghost predicate Landing(ops: seq<Instr>, a: int) {
    exists j :: 0 <= j <= |ops| && SizeAll(ops[..j]) == a
  }

  /** A jump that may be taken when there is something to come.  That of OP_REPEAT is not, since a loop that opens a
      steady group turns at least once. */
  predicate Passes(d: Load, i: Instr) { !(i.Repeat? && Weight(d, i.id) > 0) }

  ghost predicate SameAhead(d: Load, a: seq<Instr>, b: seq<Instr>) {
    forall loops: map<nat, LoopState> :: Pend(d, loops, a) == Pend(d, loops, b)
  }

  /** The address of i, between the instructions before and behind it: as much is ahead there as behind i. */
  ghost predicate Leads(d: Load, before: seq<Instr>, i: Instr, behind: seq<Instr>)
    requires HasAddr(i)
  {
    var whole := before + [i] + behind;
    exists j :: 0 <= j <= |whole| && SizeAll(whole[..j]) == SizeAll(before) + Size(i) + i.addr
        && (Passes(d, i) ==> SameAhead(d, whole[j..], behind))
  }

  /** The loop that i ends began before, and its body adds the weight of the loop. */
  ghost predicate Returns(d: Load, before: seq<Instr>, i: Instr)
    requires i.RepeatInc?
  {
    exists k :: 0 < k <= |before| && before[k - 1].Repeat? && before[k - 1].id == i.id
        && Always(d, before[k..], Weight(d, i.id))
  }

  /** A loop that opens a steady group turns a fixed number of times, and at least once. */
  predicate Fixed(d: Load, id: nat) {
    Weight(d, id) > 0 ==> id < |d.ranges| && 0 < d.ranges[id].lower == d.ranges[id].upper
  }

  predicate NullEnd(i: Instr) { i.NullCheckEnd? || i.NullCheckEndMemst? }

  ghost predicate OneAims(d: Load, before: seq<Instr>, i: Instr, behind: seq<Instr>) {
    (HasAddr(i) ==> Leads(d, before, i, behind)) && (i.RepeatInc? ==> Returns(d, before, i))
    && (i.Repeat? || i.RepeatInc? ==> Fixed(d, i.id))
    && (NullEnd(i) ==> behind != [] && Always(d, [behind[0]], 0))
  }

  ghost predicate Aims(d: Load, before: seq<Instr>, ops: seq<Instr>, behind: seq<Instr>)
    decreases |ops|
  {
    ops == [] || (OneAims(d, before, ops[0], ops[1..] + behind) && Aims(d, before + [ops[0]], ops[1..], behind))
  }

  /** An instruction that is only a jump, if it is one. */
  predicate Simple(i: Instr) { !i.RepeatInc? && !NullEnd(i) }

  lemma AheadOf(d: Load, mid: seq<Instr>, behind: seq<Instr>)
    requires Always(d, mid, 0)
    ensures SameAhead(d, mid + behind, behind) && SameAhead(d, behind, mid + behind)
  {
    hide Pend;
    forall loops: map<nat, LoopState> ensures Pend(d, loops, mid + behind) == Pend(d, loops, behind) {
      PendJoin(d, loops, mid, behind);
      assert Pend(d, loops, mid) == 0;
    }
  }

  /** A jump over `mid`. */
  lemma Over(d: Load, before: seq<Instr>, i: Instr, mid: seq<Instr>, behind: seq<Instr>)
    requires Simple(i) && (HasAddr(i) ==> i.addr == SizeAll(mid) && (Passes(d, i) ==> Always(d, mid, 0)))
    requires i.Repeat? ==> Fixed(d, i.id)
    ensures OneAims(d, before, i, mid + behind)
  {
    hide SizeAll, Size, Always, SameAhead, Passes;
    if HasAddr(i) {
      Suffixed(before, i);
      SizeConcat(before + [i], mid);
      var whole, j := before + [i] + (mid + behind), |before| + 1 + |mid|;
      assert whole == (before + [i] + mid) + behind;
      assert whole[..j] == before + [i] + mid && whole[j..] == behind;
      if Passes(d, i) { AheadOf(d, mid, behind); }
    }
  }

  /** A jump back to the start of `mid`. */
  lemma Back(d: Load, before: seq<Instr>, mid: seq<Instr>, i: Instr, behind: seq<Instr>)
    requires HasAddr(i) && Simple(i) && !i.Repeat? && i.addr == -(SizeAll(mid) + Size(i)) && Silent(d, i)
        && Always(d, mid, 0)
    ensures OneAims(d, before + mid, i, behind)
  {
    hide SizeAll, Size, Always, SameAhead, Silent;
    SizeConcat(before, mid);
    var whole, j := before + mid + [i] + behind, |before|;
    assert whole == before + ((mid + [i]) + behind);
    assert whole[..j] == before && whole[j..] == (mid + [i]) + behind;
    AlwaysSilent(d, i);
    AlwaysJoin(d, mid, [i], 0, 0);
    AheadOf(d, mid + [i], behind);
  }

  lemma AimsOne(d: Load, before: seq<Instr>, i: Instr, behind: seq<Instr>)
    requires OneAims(d, before, i, behind)
    ensures Aims(d, before, [i], behind)
  {
    hide OneAims;
    assert [i][1..] + behind == behind;
    assert Aims(d, before + [i], [i][1..], behind);
  }

  lemma {:induction false} AimsJoin(d: Load, before: seq<Instr>, a: seq<Instr>, b: seq<Instr>, behind: seq<Instr>)
    requires Aims(d, before, a, b + behind) && Aims(d, before + a, b, behind)
    ensures Aims(d, before, a + b, behind)
    decreases |a|
  {
    hide OneAims;
    if a == [] {
      assert a + b == b && before + a == before;
    } else {
      assert (a + b)[0] == a[0] && (a + b)[1..] == a[1..] + b;
      assert before + a == before + [a[0]] + a[1..];
      assert a[1..] + (b + behind) == a[1..] + b + behind;
      AimsJoin(d, before + [a[0]], a[1..], b, behind);
    }
  }

  /** An instruction in front. */
  lemma Led(d: Load, before: seq<Instr>, i: Instr, body: seq<Instr>, behind: seq<Instr>)
    requires OneAims(d, before, i, body + behind) && Aims(d, before + [i], body, behind)
    ensures Aims(d, before, [i] + body, behind)
  {
    hide OneAims, Aims;
    AimsOne(d, before, i, body + behind);
    AimsJoin(d, before, [i], body, behind);
  }

  /** An instruction on either side. */
  lemma Sandwich(d: Load, before: seq<Instr>, i: Instr, body: seq<Instr>, k: Instr, behind: seq<Instr>)
    requires OneAims(d, before, i, body + [k] + behind) && Aims(d, before + [i], body, [k] + behind)
    requires OneAims(d, before + [i] + body, k, behind)
    ensures Aims(d, before, [i] + body + [k], behind)
  {
    hide OneAims, Aims;
    AimsOne(d, before + [i] + body, k, behind);
    AimsJoin(d, before + [i], body, [k], behind);
    assert [i] + body + [k] == [i] + (body + [k]);
    Led(d, before, i, body + [k], behind);
  }

  // ---------------------------------------------------------------- every node

  lemma {:induction false} NodeAims(d: Load, n: Node, rep: nat, nul: nat, before: seq<Instr>, behind: seq<Instr>)
    requires Carries(d, n, rep) && Steady(n, d.num)
    ensures Aims(d, before, Code(n, rep, nul), behind)
    decreases n, 3
  {
    hide OneAims, Aims, SizeAll, Bears, Passes, Always, Pend;
    match n
    case Str(s) =>
      if s != [] { Plain(d, before, Exact(s), behind); } else { NoneAims(d, before, behind); }
    case CClass(bs, neg) => Plain(d, before, CClassOp(bs, neg), behind);
    case Any(ml) => Plain(d, before, AnyChar(ml), behind);
    case Backref(num) => Plain(d, before, BackrefOp(num), behind);
    case Anchor(kind) => Plain(d, before, AnchorOp(kind), behind);
    case Quant(_, _, _, _, _, _, _, _) => QuantAims(d, n, rep, nul, before, behind);
    case Group(num, pushStart, pushEnd, target) =>
      var i, k := MemStart(num, pushStart), MemEnd(num, pushEnd);
      NodeAims(d, target, rep, nul, before + [i], [k] + behind);
      NoAddr(d, before + [i] + Code(target, rep, nul), k, behind);
      Frame(d, before, i, Code(target, rep, nul), k, behind);
    case Atomic(target, simple) =>
      if simple && target.Quant? {
        AtomicAims(d, n, rep, nul, before, behind);
      } else {
        NodeAims(d, target, rep, nul, before + [PushStopBt], [PopStopBt] + behind);
        NoAddr(d, before + [PushStopBt] + Code(target, rep, nul), PopStopBt, behind);
        Frame(d, before, PushStopBt, Code(target, rep, nul), PopStopBt, behind);
      }
    case Look(_, _, _) => LookAims(d, n, rep, nul, before, behind);
    case List(elems) =>
      if !Has(n, d.num) { NoneHas(elems, d.num); }
      ListAims(d, elems, rep, nul, before, behind);
    case Alt(elems) => AltAims(d, elems, rep, nul, before, behind);
  }

  lemma NoneAims(d: Load, before: seq<Instr>, behind: seq<Instr>)
    ensures Aims(d, before, [], behind)
  {
  }

  lemma Plain(d: Load, before: seq<Instr>, i: Instr, behind: seq<Instr>)
    requires !HasAddr(i) && Simple(i)
    ensures Aims(d, before, [i], behind)
  {
    AimsOne(d, before, i, behind);
  }

  /** Two instructions around a body: the first may jump over all the rest. */
  lemma Frame(d: Load, before: seq<Instr>, i: Instr, body: seq<Instr>, k: Instr, behind: seq<Instr>)
    requires Aims(d, before + [i], body, [k] + behind) && Simple(i) && (i.Repeat? ==> Fixed(d, i.id))
    requires HasAddr(i) ==>
      i.addr == SizeAll(body) + Size(k) && (Passes(d, i) ==> Always(d, body, 0) && Always(d, [k], 0))
    requires OneAims(d, before + [i] + body, k, behind)
    ensures Aims(d, before, [i] + body + [k], behind)
  {
    hide Aims, OneAims, SizeAll, Size, Always, Passes;
    Suffixed(body, k);
    if HasAddr(i) && Passes(d, i) { AlwaysJoin(d, body, [k], 0, 0); }
    Over(d, before, i, body + [k], behind);
    Sandwich(d, before, i, body, k, behind);
  }

  lemma {:induction false} LookAims(d: Load, n: Node, rep: nat, nul: nat, before: seq<Instr>, behind: seq<Instr>)
    requires n.Look? && Carries(d, n, rep) && Steady(n, d.num)
    ensures Aims(d, before, Code(n, rep, nul), behind)
    decreases n, 2
  {
    hide OneAims, Aims, SizeAll, Always, Bears, Passes;
    var body := Code(n.target, rep, nul);
    CodeSize(n.target, rep, nul);
    CodePends(d, n.target, rep, nul);
    match n.look
    case Ahead =>
      NodeAims(d, n.target, rep, nul, before + [PushPos], [PopPos] + behind);
      NoAddr(d, before + [PushPos] + body, PopPos, behind);
      Frame(d, before, PushPos, body, PopPos, behind);
    case AheadNot =>
      var i := PushPosNot(Length(n.target) + SIZE_OP_FAIL_POS);
      NodeAims(d, n.target, rep, nul, before + [i], [FailPos] + behind);
      NoAddr(d, before + [i] + body, FailPos, behind);
      AlwaysSilent(d, FailPos);
      Frame(d, before, i, body, FailPos, behind);
    case Behind =>
      var i := LookBehind(n.charLen);
      NodeAims(d, n.target, rep, nul, before + [i], behind);
      NoAddr(d, before, i, body + behind);
      Led(d, before, i, body, behind);
    case BehindNot =>
      var i := PushLookBehindNot(Length(n.target) + SIZE_OP_FAIL_LOOK_BEHIND_NOT, n.charLen);
      NodeAims(d, n.target, rep, nul, before + [i], [FailLookBehindNot] + behind);
      NoAddr(d, before + [i] + body, FailLookBehindNot, behind);
      AlwaysSilent(d, FailLookBehindNot);
      Frame(d, before, i, body, FailLookBehindNot, behind);
  }

  lemma NoAddr(d: Load, before: seq<Instr>, i: Instr, behind: seq<Instr>)
    requires !HasAddr(i) && Simple(i)
    ensures OneAims(d, before, i, behind)
  {
  }

  lemma {:induction false} ListAims(d: Load, ns: Nodes, rep: nat, nul: nat, before: seq<Instr>, behind: seq<Instr>)
    requires CarriesAll(d, ns, rep) && SteadyAll(ns, d.num)
    ensures Aims(d, before, ListCode(ns, rep, nul), behind)
    decreases ns, 3
  {
    hide Aims, Code, Ranges, Nuls, Weights, Bears, Steady;
    ListCarries(d, ns, rep);
    match ns
    case Last(car) => NodeAims(d, car, rep, nul, before, behind);
    case Link(car, cdr) =>
      var a, b := Code(car, rep, nul), ListCode(cdr, rep + Reps(car), nul + Nuls(car));
      NodeAims(d, car, rep, nul, before, b + behind);
      ListAims(d, cdr, rep + Reps(car), nul + Nuls(car), before + a, behind);
      AimsJoin(d, before, a, b, behind);
  }

  lemma {:induction false} AltAims(d: Load, ns: Nodes, rep: nat, nul: nat, before: seq<Instr>, behind: seq<Instr>)
    requires CarriesAll(d, ns, rep) && !HasIn(ns, d.num)
    ensures Aims(d, before, AltCode(ns, rep, nul), behind)
    decreases ns, 3
  {
    hide OneAims, Aims, Code, Ranges, Nuls, Length, SizeAll, Weights, Bears, Always, Passes;
    ListCarries(d, ns, rep);
    match ns
    case Last(car) => NodeAims(d, car, rep, nul, before, behind);
    case Link(car, cdr) =>
      var a, b := Code(car, rep, nul), AltCode(cdr, rep + Reps(car), nul + Nuls(car));
      var i, k := Push(Length(car) + SIZE_OP_JUMP), Jump(AltLength(cdr));
      NodeAims(d, car, rep, nul, before + [i], [k] + (b + behind));
      CodeSize(car, rep, nul);
      AltSize(cdr, rep + Reps(car), nul + Nuls(car));
      CodePends(d, car, rep, nul);
      AltPends(d, cdr, rep + Reps(car), nul + Nuls(car));
      AlwaysSilent(d, k);
      AlwaysJoin(d, a, [k], 0, 0);
      Suffixed(a, k);
      Over(d, before, i, a + [k], b + behind);
      Over(d, before + [i] + a, k, b, behind);
      Sandwich(d, before, i, a, k, b + behind);
      AltAims(d, cdr, rep + Reps(car), nul + Nuls(car), before + ([i] + a + [k]), behind);
      AimsJoin(d, before, [i] + a + [k], b, behind);
  }

  lemma {:induction false} TimesAims(d: Load, n: Node, m: nat, rep: nat, nul: nat, before: seq<Instr>,
      behind: seq<Instr>)
    requires CarriesTimes(d, n, m, rep) && Steady(n, d.num)
    ensures Aims(d, before, CodeTimes(n, m, rep, nul), behind)
    decreases n, 4, m
  {
    hide Aims, Code, Ranges, Nuls, Weights, Bears, Steady;
    if m == 0 {
      NoneAims(d, before, behind);
    } else {
      var a, b := Code(n, rep, nul), CodeTimes(n, m - 1, rep + Reps(n), nul + Nuls(n));
      TimesCarries(d, n, m, rep);
      NodeAims(d, n, rep, nul, before, b + behind);
      TimesAims(d, n, m - 1, rep + Reps(n), nul + Nuls(n), before + a, behind);
      AimsJoin(d, before, a, b, behind);
    }
  }

  lemma ScaledSum(a: nat, b: nat, m: nat)
    ensures Scaled(a + b, m) == Scaled(a, m) + Scaled(b, m)
  {
  }

  /** Each optional copy skips all that follow it. */
  lemma {:induction false} OptionalAims(d: Load, n: Node, m: nat, rep: nat, nul: nat, before: seq<Instr>,
      behind: seq<Instr>)
    requires CarriesTimes(d, n, m, rep) && (!Has(n, d.num) || m == 0)
    ensures Aims(d, before, OptionalCode(n, m, rep, nul), behind)
    decreases n, 4, m
  {
    hide OneAims, Aims, Code, Ranges, Nuls, Length, SizeAll, Weights, Bears, Always, Passes;
    if m == 0 {
      NoneAims(d, before, behind);
    } else {
      var i := Push(Scaled(Length(n), m) + Scaled(SIZE_OP_PUSH, m - 1));
      var rep1, nul1 := rep + Reps(n), nul + Nuls(n);
      var a, b := Code(n, rep, nul), OptionalCode(n, m - 1, rep1, nul1);
      TimesCarries(d, n, m, rep);
      NodeAims(d, n, rep, nul, before + [i], b + behind);
      OptionalAims(d, n, m - 1, rep1, nul1, before + [i] + a, behind);
      AimsJoin(d, before + [i], a, b, behind);
      OptionalJump(n, m, rep, nul);
      CodePends(d, n, rep, nul);
      OptionalPends(d, n, m - 1, rep1, nul1);
      AlwaysJoin(d, a, b, 0, 0);
      Over(d, before, i, a + b, behind);
      Led(d, before, i, a + b, behind);
      assert [i] + a + b == [i] + (a + b);
    }
  }

  lemma OptionalJump(n: Node, m: nat, rep: nat, nul: nat)
    requires 0 < m
    ensures SizeAll(Code(n, rep, nul) + OptionalCode(n, m - 1, rep + Reps(n), nul + Nuls(n)))
        == Scaled(Length(n), m) + Scaled(SIZE_OP_PUSH, m - 1)
  {
    hide Code, Ranges, Nuls, Length, SizeAll, OptionalCode;
    CodeSize(n, rep, nul);
    OptionalSize(n, m - 1, rep + Reps(n), nul + Nuls(n));
    SizeConcat(Code(n, rep, nul), OptionalCode(n, m - 1, rep + Reps(n), nul + Nuls(n)));
    ScaledStep(Length(n), m);
    ScaledSum(SIZE_OP_PUSH, Length(n), m - 1);
  }

  lemma {:induction false} AtomicAims(d: Load, n: Node, rep: nat, nul: nat, before: seq<Instr>, behind: seq<Instr>)
    requires n.Atomic? && n.simple && n.target.Quant? && Carries(d, n, rep) && Steady(n, d.num)
    ensures Aims(d, before, Code(n, rep, nul), behind)
    decreases n, 2
  {
    hide OneAims, Aims, Code, CodeTimes, Ranges, Nuls, Length, SizeAll, Weights, Bears, Always, Passes;
    SimpleIs(d, n, rep, nul);
    var b, m := n.target.target, n.target.lower;
    var rep1, nul1 := rep + Scaled(Reps(b), m), nul + Scaled(Nuls(b), m);
    var copies, c := CodeTimes(b, m, rep, nul), Code(b, rep1, nul1);
    var i, k := Push(Length(b) + SIZE_OP_POP + SIZE_OP_JUMP),
        Jump(-(SIZE_OP_PUSH + Length(b) + SIZE_OP_POP + SIZE_OP_JUMP));
    TimesCarriesSplit(d, b, m, 1, rep);
    TimesCarries(d, b, 1, rep1);
    TimesAims(d, b, m, rep, nul, before, [i] + (c + [Pop]) + [k] + behind);
    NodeAims(d, b, rep1, nul1, before + copies + [i], [Pop] + ([k] + behind));
    CodeSize(b, rep1, nul1);
    CodePends(d, b, rep1, nul1);
    PopLoop(d, before + copies, i, c, k, behind);
    AimsJoin(d, before, copies, [i] + (c + [Pop]) + [k], behind);
    assert copies + [i] + c + [Pop, k] == copies + ([i] + (c + [Pop]) + [k]);
  }

  lemma PopLoop(d: Load, before: seq<Instr>, i: Instr, c: seq<Instr>, k: Instr, behind: seq<Instr>)
    requires i.Push? && k.Jump? && i.addr == SizeAll(c) + Size(Pop) + Size(k)
        && k.addr == -(Size(i) + SizeAll(c) + Size(Pop) + Size(k))
    requires Aims(d, before + [i], c, [Pop] + ([k] + behind)) && Always(d, c, 0)
    ensures Aims(d, before, [i] + (c + [Pop]) + [k], behind)
  {
    hide OneAims, Aims, SizeAll, Always, Passes;
    Plain(d, before + [i] + c, Pop, [k] + behind);
    AimsJoin(d, before + [i], c, [Pop], [k] + behind);
    Suffixed(c, Pop);
    Suffixed(c + [Pop], k);
    Prefixed(i, c + [Pop]);
    AlwaysSilent(d, i);
    AlwaysSilent(d, Pop);
    AlwaysSilent(d, k);
    AlwaysJoin(d, c, [Pop], 0, 0);
    AlwaysJoin(d, c + [Pop], [k], 0, 0);
    AlwaysJoin(d, [i], c + [Pop], 0, 0);
    Over(d, before, i, c + [Pop] + [k], behind);
    Back(d, before, [i] + (c + [Pop]), k, behind);
    assert before + ([i] + (c + [Pop])) == before + [i] + (c + [Pop]);
    Sandwich(d, before, i, c + [Pop], k, behind);
  }

  /** A null check skips the instruction behind it, which adds nothing. */
  lemma {:induction false} CheckedAims(d: Load, q: Node, rep: nat, nul: nat, before: seq<Instr>, behind: seq<Instr>)
    requires q.Quant? && Carries(d, q.target, rep) && Steady(q.target, d.num)
    requires !q.emptyInfo.NotEmpty? ==> behind != [] && Always(d, [behind[0]], 0)
    ensures Aims(d, before, CheckedCode(q, rep, nul), behind)
    decreases q, 0
  {
    hide Aims, Code, SizeAll, Ranges, Nuls, Weights, Bears, Steady, Always;
    if q.emptyInfo.NotEmpty? {
      NodeAims(d, q.target, rep, nul, before, behind);
    } else {
      var i, k := NullCheckStart(nul), if q.emptyInfo.Empty? then NullCheckEnd(nul) else NullCheckEndMemst(nul);
      NodeAims(d, q.target, rep, nul + 1, before + [i], [k] + behind);
      Frame(d, before, i, Code(q.target, rep, nul + 1), k, behind);
    }
  }

  lemma {:induction false} LoopAims(d: Load, q: Node, rep: nat, nul: nat, before: seq<Instr>, behind: seq<Instr>)
    requires q.Quant? && Carries(d, q.target, rep) && !Has(q.target, d.num)
    ensures Aims(d, before, LoopCode(q, rep, nul), behind)
    decreases q, 1
  {
    hide OneAims, Aims, SizeAll, CheckedCode, CheckedLength, Ranges, Weights, Bears, Always, Passes;
    var body, mod := CheckedCode(q, rep, nul), CheckedLength(q);
    CheckedSize(q, rep, nul);
    CheckedPends(d, q, rep, nul);
    var i := if q.greedy then HeadOp(q) else Jump(mod);
    var k := if q.greedy then Jump(-(mod + SIZE_OP_JUMP + HeadSize(q))) else Push(-(mod + SIZE_OP_PUSH));
    AlwaysSilent(d, i);
    AlwaysSilent(d, k);
    AlwaysJoin(d, body, [k], 0, 0);
    AlwaysJoin(d, [i], body, 0, 0);
    assert ([k] + behind)[0] == k;
    CheckedAims(d, q, rep, nul, before + [i], [k] + behind);
    Suffixed(body, k);
    Prefixed(i, body);
    if q.greedy {
      Over(d, before, i, body + [k], behind);
      Back(d, before, [i] + body, k, behind);
      assert before + ([i] + body) == before + [i] + body;
    } else {
      Over(d, before, i, body, [k] + behind);
      assert body + ([k] + behind) == body + [k] + behind;
      Back(d, before + [i], body, k, behind);
    }
    Sandwich(d, before, i, body, k, behind);
  }

  /** The last instruction of a counted loop returns to where its first one leads. */
  lemma {:induction false} CounterAims(d: Load, q: Node, rep: nat, nul: nat, before: seq<Instr>, behind: seq<Instr>)
    requires q.Quant? && ShapeOf(q).Counter? && Carries(d, q, rep) && Steady(q, d.num)
    ensures Aims(d, before, Code(q, rep, nul), behind)
    decreases q, 1
  {
    hide Aims, Passes, SizeAll, Length, CheckedLength, CheckedCode, Always, Pend, Bears, Weights, Ranges;
    var i, k := Repeat(q.greedy, rep, CheckedLength(q) + SIZE_OP_REPEAT_INC), RepeatInc(q.greedy, q.inRepeat, rep);
    var body := CheckedCode(q, rep + 1, nul);
    CounterCarries(d, q, rep);
    CheckedSize(q, rep + 1, nul);
    CheckedPends(d, q, rep + 1, nul);
    assert Code(q, rep, nul) == [i] + body + [k];
    if Weight(d, rep) == 0 { NoLoop(d, k); }
    assert ([k] + behind)[0] == k;
    CheckedAims(d, q, rep + 1, nul, before + [i], [k] + behind);
    var b := before + [i] + body;
    assert b[|before|] == i && b[|before| + 1..] == body;
    assert Returns(d, b, k);
    assert OneAims(d, b, k, behind);
    assert Passes(d, i) ==> Weight(d, rep) == 0 by { PassesIs(d, i); }
    hide OneAims;
    Frame(d, before, i, body, k, behind);
  }

  lemma PassesIs(d: Load, i: Instr)
    requires i.Repeat?
    ensures Passes(d, i) <==> Weight(d, i.id) == 0
  {
  }

  lemma NoLoop(d: Load, i: Instr)
    requires i.RepeatInc? && Weight(d, i.id) == 0
    ensures Always(d, [i], 0)
  {
    forall loops: map<nat, LoopState> ensures Pend(d, loops, [i]) == 0 {
      PendOne(d, loops, i);
      ScaledZero(TurnsLeft(d, loops, i.id));
    }
  }

  lemma {:induction false} QuantAims(d: Load, q: Node, rep: nat, nul: nat, before: seq<Instr>, behind: seq<Instr>)
    requires q.Quant? && Carries(d, q, rep) && Steady(q, d.num)
    ensures Aims(d, before, Code(q, rep, nul), behind)
    decreases q, 2
  {
    hide OneAims, Aims, SizeAll, Length, Code, CheckedLength, CheckedCode, CodeTimes, OptionalCode, LoopCode, Ranges;
    hide Nuls, Weights, Bears, Always, Passes;
    var n := q.target;
    var rep1, nul1 := rep + Scaled(Reps(n), q.lower), nul + Scaled(Nuls(n), q.lower);
    var copies := CodeTimes(n, q.lower, rep, nul);
    QuantIs(d, q, rep, nul);
    match ShapeOf(q)
    case AnyStar =>
      TimesAims(d, n, q.lower, rep, nul, before, [StarOp(q)] + behind);
      Plain(d, before + copies, StarOp(q), behind);
      AimsJoin(d, before, copies, [StarOp(q)], behind);
    case EnterLoop =>
      TimesCarries(d, n, 1, rep);
      EnterAims(d, q, rep, nul, before, behind);
    case PushLoop =>
      TimesCarriesSplit(d, n, q.lower, 1, rep);
      TimesCarries(d, n, 1, rep1);
      TimesAims(d, n, q.lower, rep, nul, before, LoopCode(q, rep1, nul1) + behind);
      LoopAims(d, q, rep1, nul1, before + copies, behind);
      AimsJoin(d, before, copies, LoopCode(q, rep1, nul1), behind);
    case Expand =>
      var m := Max(q.upper - q.lower, 0);
      TimesCarriesSplit(d, n, q.lower, m, rep);
      TimesAims(d, n, q.lower, rep, nul, before, OptionalCode(n, m, rep1, nul1) + behind);
      OptionalAims(d, n, m, rep1, nul1, before + copies, behind);
      AimsJoin(d, before, copies, OptionalCode(n, m, rep1, nul1), behind);
    case LazyOption =>
      TimesCarries(d, n, 1, rep);
      OptionAims(d, n, rep, nul, before, behind);
    case Counter => CounterAims(d, q, rep, nul, before, behind);
  }

  lemma {:induction false} OptionAims(d: Load, n: Node, rep: nat, nul: nat, before: seq<Instr>, behind: seq<Instr>)
    requires Carries(d, n, rep) && !Has(n, d.num)
    ensures Aims(d, before, [Push(SIZE_OP_JUMP), Jump(Length(n))] + Code(n, rep, nul), behind)
    decreases n, 4
  {
    hide OneAims, Aims, SizeAll, Length, Code, Weights, Ranges, Bears, Always, Passes;
    var i, k, code := Push(SIZE_OP_JUMP), Jump(Length(n)), Code(n, rep, nul);
    NodeAims(d, n, rep, nul, before + [i] + [k], behind);
    CodeSize(n, rep, nul);
    CodePends(d, n, rep, nul);
    AlwaysSilent(d, k);
    Over(d, before + [i], k, code, behind);
    Led(d, before + [i], k, code, behind);
    assert SizeAll([k]) == SIZE_OP_JUMP by { OneSize(k); }
    Over(d, before, i, [k], code + behind);
    assert [k] + (code + behind) == [k] + code + behind;
    Led(d, before, i, [k] + code, behind);
    assert [i, k] + code == [i] + ([k] + code);
  }

  lemma OneSize(i: Instr)
    ensures SizeAll([i]) == Size(i)
  {
    EmptySize();
    Prefixed(i, []);
    assert [i] + [] == [i];
  }

  /** The jump into the middle of the loop goes over the loop head. */
  lemma {:induction false} EnterAims(d: Load, q: Node, rep: nat, nul: nat, before: seq<Instr>, behind: seq<Instr>)
    requires q.Quant? && Carries(d, q.target, rep) && !Has(q.target, d.num)
    ensures Aims(d, before, [Jump(if q.greedy then HeadSize(q) else SIZE_OP_JUMP)] + LoopCode(q, rep, nul), behind)
    decreases q, 2, 0
  {
    hide OneAims, Aims, SizeAll, LoopCode, CheckedLength, Ranges, Weights, Bears, Always, Passes;
    var head := if q.greedy then HeadOp(q) else Jump(CheckedLength(q));
    var loop := LoopCode(q, rep, nul);
    LoopHead(q, rep, nul);
    var i := Jump(if q.greedy then HeadSize(q) else SIZE_OP_JUMP);
    LoopAims(d, q, rep, nul, before + [i], behind);
    OneSize(head);
    AlwaysSilent(d, head);
    Over(d, before, i, [head], loop[1..] + behind);
    assert [head] + (loop[1..] + behind) == loop + behind;
    Led(d, before, i, loop, behind);
  }

  lemma LoopHead(q: Node, rep: nat, nul: nat)
    requires q.Quant?
    ensures var loop := LoopCode(q, rep, nul);
      |loop| > 0 && loop == [if q.greedy then HeadOp(q) else Jump(CheckedLength(q))] + loop[1..]
  {
    hide CheckedLength, CheckedCode;
  }

  // ---------------------------------------------------------------- the whole program

  lemma {:induction false} AimsAt(d: Load, before: seq<Instr>, ops: seq<Instr>, behind: seq<Instr>, j: nat)
    requires Aims(d, before, ops, behind) && j < |ops|
    ensures OneAims(d, before + ops[..j], ops[j], ops[j + 1..] + behind)
    decreases j
  {
    hide OneAims;
    if j == 0 {
      assert before + ops[..0] == before;
    } else {
      AimsAt(d, before + [ops[0]], ops[1..], behind, j - 1);
      assert before + ops[..j] == before + [ops[0]] + ops[1..][..j - 1];
      assert ops[j + 1..] == ops[1..][j..];
    }
  }

  /** The openings or closings of a group in a whole tree. */
  function LoadOf(n: Node, g: Option<nat>, end: bool): Load { Load(g, end, Weights(n, g), Ranges(n)) }

  lemma LoadCarries(n: Node, g: Option<nat>, end: bool)
    ensures Carries(LoadOf(n, g, end), n, 0)
  {
    hide Weights, Ranges;
    WeightsSize(n, g);
  }

  /** In the compiled program no jump, no loop and no null check skips what is still to come of a steady group. */
  lemma ProgramAims(n: Node, g: Option<nat>, end: bool, j: nat)
    requires Steady(n, g) && j < |CodeOf(n)|
    ensures OneAims(LoadOf(n, g, end), CodeOf(n)[..j], CodeOf(n)[j], CodeOf(n)[j + 1..])
  {
    hide Aims, Code, Carries, Steady, OneAims, Weights, Ranges;
    var d, ops, code := LoadOf(n, g, end), CodeOf(n), Code(n, 0, 0);
    LoadCarries(n, g, end);
    if j < |code| {
      NodeAims(d, n, 0, 0, [], [End]);
      AimsAt(d, [], code, [End], j);
      assert [] + code[..j] == ops[..j] && code[j + 1..] + [End] == ops[j + 1..];
    } else {
      NoAddr(d, ops[..j], End, ops[j + 1..]);
    }
  }

  /** In the compiled program every jump lands on an instruction or on the end of the code. */
  lemma JumpsLand(n: Node, j: nat)
    requires j < |CodeOf(n)| && HasAddr(CodeOf(n)[j])
    ensures Landing(CodeOf(n), SizeAll(CodeOf(n)[..j + 1]) + CodeOf(n)[j].addr)
  {
    hide Code, SizeAll, SameAhead, Weights, Ranges;
    var ops := CodeOf(n);
    ProgramAims(n, None, false, j);
    assert ops[..j + 1] == ops[..j] + [ops[j]];
    Suffixed(ops[..j], ops[j]);
    assert ops[..j] + [ops[j]] + ops[j + 1..] == ops;
    assert Leads(LoadOf(n, None, false), ops[..j], ops[j], ops[j + 1..]);
  }

  lemma {:induction false} DecodedAt(fetch: Reader, p: int, ops: seq<Instr>, j: nat)
    requires CodeAt(fetch, p, ops) && j < |ops|
    ensures fetch(p + SizeAll(ops[..j])) == Some(ops[j])
    decreases j
  {
    hide Size;
    if j > 0 {
      DecodedAt(fetch, p + Size(ops[0]), ops[1..], j - 1);
      assert ops[..j] == [ops[0]] + ops[1..][..j - 1];
      Prefixed(ops[0], ops[1..][..j - 1]);
    }
  }

  /** In the bytes: where a jump goes, an instruction of the program is decoded, unless the code ends there. */
  lemma JumpsDecode(n: Node, e: Env, j: nat) returns (k: nat)
    requires Compilable(n, e) && j < |CodeOf(n)| && HasAddr(CodeOf(n)[j])
    ensures var ops := CodeOf(n);
      k <= |ops| && SizeAll(ops[..k]) == SizeAll(ops[..j + 1]) + ops[j].addr
      && (k < |ops| ==> ProgramOf(n, e).fetch(SizeAll(ops[..j + 1]) + ops[j].addr) == Some(ops[k]))
  {
    hide Code, SizeAll, Compilable, Bytes, AllEncodable;
    var ops := CodeOf(n);
    JumpsLand(n, j);
    k :| 0 <= k <= |ops| && SizeAll(ops[..k]) == SizeAll(ops[..j + 1]) + ops[j].addr;
    if k < |ops| {
      CodeReads(n, e);
      DecodedAt(ProgramOf(n, e).fetch, 0, ops, k);
    }
  }

  lemma CodeReads(n: Node, e: Env)
    requires Compilable(n, e)
    ensures CodeAt(ProgramOf(n, e).fetch, 0, CodeOf(n))
  {
    hide Code, SizeAll, CodeAt, Bytes, AllEncodable, Fits, RepeatMarks, WellFormed, Length;
    CodeStands(n, e);
    CodeSize(n, 0, 0);
    assert CodeAt(ProgramOf(n, e).fetch, Length(n), [End]) by { EndAlone(ProgramOf(n, e).fetch, Length(n)); }
    CodeAtConcat(ProgramOf(n, e).fetch, 0, Code(n, 0, 0), [End]);
  }

  lemma EndAlone(fetch: Reader, p: int)
    requires fetch(p) == Some(End)
    ensures CodeAt(fetch, p, [End])
  {
  }
}
