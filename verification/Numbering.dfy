/** The numbers of counted loops: num_repeat grows with every OP_REPEAT the compiler writes (regcomp.c:683-720), so each
    number belongs to one OP_REPEAT and one OP_REPEAT_INC.  OP_END stands only behind the code. */
module Numbering {
  import opened Common
  import opened Tree
  import opened Opcodes
  import opened Codegen
  import opened Placing

  predicate Numbered(i: Instr) { i.Repeat? || i.RepeatInc? }

  /** Both begin, or both end, the loop of the same number. */
  predicate Twins(a: Instr, b: Instr) {
    ((a.Repeat? && b.Repeat?) || (a.RepeatInc? && b.RepeatInc?)) && a.id == b.id
  }

  predicate Within(i: Instr, lo: nat, hi: nat) { !i.End? && (Numbered(i) ==> lo <= i.id < hi) }

  /** The loops of ops have numbers from lo to hi, each its own. */
  predicate Tidy(ops: seq<Instr>, lo: nat, hi: nat) {
    (forall i :: 0 <= i < |ops| ==> Within(ops[i], lo, hi))
    && forall i, j :: 0 <= i < j < |ops| ==> !Twins(ops[i], ops[j])
  }

  lemma TidyNone(lo: nat)
    ensures Tidy([], lo, lo)
  {
  }

  lemma TidyOne(i: Instr, lo: nat)
    requires !Numbered(i) && !i.End?
    ensures Tidy([i], lo, lo)
  {
  }

  lemma TidyJoin(a: seq<Instr>, b: seq<Instr>, lo: nat, mid: nat, hi: nat)
    requires Tidy(a, lo, mid) && Tidy(b, mid, hi) && lo <= mid <= hi
    ensures Tidy(a + b, lo, hi)
  {
    var ops := a + b;
    forall i | 0 <= i < |ops| ensures Within(ops[i], lo, hi) {
      assert if i < |a| then Within(a[i], lo, mid) else Within(b[i - |a|], mid, hi);
    }
    forall i, j | 0 <= i < j < |ops| ensures !Twins(ops[i], ops[j]) {
      if j < |a| {
        assert !Twins(a[i], a[j]);
      } else if |a| <= i {
        assert !Twins(b[i - |a|], b[j - |a|]);
      } else {
        assert Within(a[i], lo, mid) && Within(b[j - |a|], mid, hi);
      }
    }
  }

  /** Uncounted instructions around a body. */
  lemma TidyFrame(i: Instr, body: seq<Instr>, k: Instr, lo: nat, hi: nat)
    requires !Numbered(i) && !i.End? && !Numbered(k) && !k.End? && Tidy(body, lo, hi) && lo <= hi
    ensures Tidy([i] + body, lo, hi) && Tidy([i] + body + [k], lo, hi)
  {
    hide Tidy, Numbered;
    TidyOne(i, lo);
    TidyOne(k, hi);
    TidyJoin([i], body, lo, lo, hi);
    TidyJoin([i] + body, [k], lo, hi, hi);
  }

  lemma TidyLoop(i: Instr, body: seq<Instr>, k: Instr, lo: nat, hi: nat)
    requires i.Repeat? && k.RepeatInc? && i.id == k.id == lo && Tidy(body, lo + 1, hi) && lo < hi
    ensures Tidy([i] + body + [k], lo, hi)
  {
    var ops := [i] + body + [k];
    forall j | 0 <= j < |ops| ensures Within(ops[j], lo, hi) {
      if 0 < j <= |body| { assert Within(body[j - 1], lo + 1, hi); }
    }
    forall j, l | 0 <= j < l < |ops| ensures !Twins(ops[j], ops[l]) {
      if 0 < j {
        assert Within(body[j - 1], lo + 1, hi);
        if l <= |body| { assert !Twins(body[j - 1], body[l - 1]); }
      } else if l <= |body| {
        assert Within(body[l - 1], lo + 1, hi);
      }
    }
  }

  lemma {:induction false} CodeTidy(n: Node, rep: nat, nul: nat)
    ensures Tidy(Code(n, rep, nul), rep, rep + Reps(n))
    decreases n, 3
  {
    hide Tidy;
    match n
    case Str(s) => if s != [] { TidyOne(Exact(s), rep); } else { TidyNone(rep); }
    case CClass(bs, neg) => TidyOne(CClassOp(bs, neg), rep);
    case Any(ml) => TidyOne(AnyChar(ml), rep);
    case Backref(num) => TidyOne(BackrefOp(num), rep);
    case Anchor(kind) => TidyOne(AnchorOp(kind), rep);
    case Quant(_, _, _, _, _, _, _, _) => QuantTidy(n, rep, nul);
    case Group(num, pushStart, pushEnd, target) =>
      CodeTidy(target, rep, nul);
      TidyFrame(MemStart(num, pushStart), Code(target, rep, nul), MemEnd(num, pushEnd), rep, rep + Reps(target));
    case Atomic(target, simple) =>
      if simple && target.Quant? {
        SimpleTidy(n, rep, nul);
      } else {
        CodeTidy(target, rep, nul);
        TidyFrame(PushStopBt, Code(target, rep, nul), PopStopBt, rep, rep + Reps(target));
      }
    case Look(_, _, _) => LookTidy(n, rep, nul);
    case List(elems) => ListTidy(elems, rep, nul);
    case Alt(elems) => AltTidy(elems, rep, nul);
  }

  lemma {:induction false} LookTidy(n: Node, rep: nat, nul: nat)
    requires n.Look?
    ensures Tidy(Code(n, rep, nul), rep, rep + Reps(n))
    decreases n, 2
  {
    hide Tidy, Length;
    var body, hi := Code(n.target, rep, nul), rep + Reps(n.target);
    CodeTidy(n.target, rep, nul);
    match n.look
    case Ahead => TidyFrame(PushPos, body, PopPos, rep, hi);
    case AheadNot => TidyFrame(PushPosNot(Length(n.target) + SIZE_OP_FAIL_POS), body, FailPos, rep, hi);
    case Behind => TidyFrame(LookBehind(n.charLen), body, FailPos, rep, hi);
    case BehindNot =>
      TidyFrame(PushLookBehindNot(Length(n.target) + SIZE_OP_FAIL_LOOK_BEHIND_NOT, n.charLen), body, FailLookBehindNot,
        rep, hi);
  }

  lemma {:induction false} ListTidy(ns: Nodes, rep: nat, nul: nat)
    ensures Tidy(ListCode(ns, rep, nul), rep, rep + RepsOf(ns))
    decreases ns, 3
  {
    hide Tidy, Code, Nuls;
    CodeTidy(ns.car, rep, nul);
    if ns.Link? {
      var rep1, nul1 := rep + Reps(ns.car), nul + Nuls(ns.car);
      ListTidy(ns.cdr, rep1, nul1);
      TidyJoin(Code(ns.car, rep, nul), ListCode(ns.cdr, rep1, nul1), rep, rep1, rep1 + RepsOf(ns.cdr));
    }
  }

  lemma {:induction false} AltTidy(ns: Nodes, rep: nat, nul: nat)
    ensures Tidy(AltCode(ns, rep, nul), rep, rep + RepsOf(ns))
    decreases ns, 3
  {
    hide Tidy, Code, Nuls, Length;
    CodeTidy(ns.car, rep, nul);
    if ns.Link? {
      var rep1, nul1 := rep + Reps(ns.car), nul + Nuls(ns.car);
      var push, jump := Push(Length(ns.car) + SIZE_OP_JUMP), Jump(AltLength(ns.cdr));
      AltTidy(ns.cdr, rep1, nul1);
      TidyFrame(push, Code(ns.car, rep, nul), jump, rep, rep1);
      TidyJoin([push] + Code(ns.car, rep, nul) + [jump], AltCode(ns.cdr, rep1, nul1), rep, rep1,
        rep1 + RepsOf(ns.cdr));
    }
  }

  lemma {:induction false} TimesTidy(n: Node, k: nat, rep: nat, nul: nat)
    ensures Tidy(CodeTimes(n, k, rep, nul), rep, rep + Scaled(Reps(n), k))
    decreases n, 4, k
  {
    hide Tidy, Ranges, Nuls, Code, Scaled;
    if k == 0 {
      ScaledZero(Reps(n));
      TidyNone(rep);
    } else {
      var rep1, nul1 := rep + Reps(n), nul + Nuls(n);
      CodeTidy(n, rep, nul);
      TimesTidy(n, k - 1, rep1, nul1);
      ScaledStep(Reps(n), k);
      TidyJoin(Code(n, rep, nul), CodeTimes(n, k - 1, rep1, nul1), rep, rep1, rep1 + Scaled(Reps(n), k - 1));
    }
  }

  lemma {:induction false} OptionalTidy(n: Node, k: nat, rep: nat, nul: nat)
    ensures Tidy(OptionalCode(n, k, rep, nul), rep, rep + Scaled(Reps(n), k))
    decreases n, 4, k
  {
    hide Tidy, Ranges, Nuls, Code, Length, Scaled;
    if k == 0 {
      ScaledZero(Reps(n));
      TidyNone(rep);
    } else {
      var rep1, nul1 := rep + Reps(n), nul + Nuls(n);
      var push := Push(Scaled(Length(n), k) + Scaled(SIZE_OP_PUSH, k - 1));
      CodeTidy(n, rep, nul);
      TidyFrame(push, Code(n, rep, nul), push, rep, rep1);
      OptionalTidy(n, k - 1, rep1, nul1);
      ScaledStep(Reps(n), k);
      TidyJoin([push] + Code(n, rep, nul), OptionalCode(n, k - 1, rep1, nul1), rep, rep1,
        rep1 + Scaled(Reps(n), k - 1));
    }
  }

  lemma {:induction false} CheckedTidy(q: Node, rep: nat, nul: nat)
    requires q.Quant?
    ensures Tidy(CheckedCode(q, rep, nul), rep, rep + Reps(q.target))
    decreases q, 0
  {
    hide Tidy, Ranges, Code;
    if q.emptyInfo.NotEmpty? {
      CodeTidy(q.target, rep, nul);
    } else {
      CodeTidy(q.target, rep, nul + 1);
      TidyFrame(NullCheckStart(nul), Code(q.target, rep, nul + 1),
        if q.emptyInfo.Empty? then NullCheckEnd(nul) else NullCheckEndMemst(nul), rep, rep + Reps(q.target));
    }
  }

  lemma {:induction false} LoopTidy(q: Node, rep: nat, nul: nat)
    requires q.Quant?
    ensures Tidy(LoopCode(q, rep, nul), rep, rep + Reps(q.target))
    decreases q, 1
  {
    hide Tidy, Ranges, Code, CheckedCode, CheckedLength;
    CheckedTidy(q, rep, nul);
    var mod, hi := CheckedLength(q), rep + Reps(q.target);
    if q.greedy {
      TidyFrame(HeadOp(q), CheckedCode(q, rep, nul), Jump(-(mod + SIZE_OP_JUMP + HeadSize(q))), rep, hi);
    } else {
      TidyFrame(Jump(mod), CheckedCode(q, rep, nul), Push(-(mod + SIZE_OP_PUSH)), rep, hi);
    }
  }

  lemma {:induction false} SimpleTidy(n: Node, rep: nat, nul: nat)
    requires n.Atomic? && n.simple && n.target.Quant?
    ensures Tidy(Code(n, rep, nul), rep, rep + Reps(n))
    decreases n, 2
  {
    hide Tidy, Nuls, CodeTimes, Length, Scaled;
    var b, k := n.target.target, n.target.lower;
    var rep1, nul1 := rep + Scaled(Reps(b), k), nul + Scaled(Nuls(b), k);
    var push, jump := Push(Length(b) + SIZE_OP_POP + SIZE_OP_JUMP),
        Jump(-(SIZE_OP_PUSH + Length(b) + SIZE_OP_POP + SIZE_OP_JUMP));
    var hi := rep1 + Reps(b);
    assert Reps(n) == Scaled(Reps(b), k + 1) by { TimesLength(Ranges(b), k + 1); }
    ScaledStep(Reps(b), k + 1);
    assert hi == rep + Reps(n);
    TimesTidy(b, k, rep, nul);
    CodeTidy(b, rep1, nul1);
    TidyOne(push, rep1);
    TidyNone(hi);
    TidyFrame(Pop, [], jump, hi, hi);
    assert [Pop] + [] + [jump] == [Pop, jump];
    TidyJoin(CodeTimes(b, k, rep, nul), [push], rep, rep1, rep1);
    TidyJoin(CodeTimes(b, k, rep, nul) + [push], Code(b, rep1, nul1), rep, rep1, hi);
    TidyJoin(CodeTimes(b, k, rep, nul) + [push] + Code(b, rep1, nul1), [Pop, jump], rep, hi, hi);
  }

  lemma RepsCopied(q: Node)
    requires q.Quant?
    ensures Reps(q) == if ShapeOf(q).Counter? then 1 + Reps(q.target) else Scaled(Reps(q.target), Copies(q))
  {
    hide ShapeOf, Scaled;
    TimesLength(Ranges(q.target), Copies(q));
  }

  lemma {:induction false} QuantTidy(q: Node, rep: nat, nul: nat)
    requires q.Quant?
    ensures Tidy(Code(q, rep, nul), rep, rep + Reps(q))
    decreases q, 2
  {
    hide Tidy, Length, CheckedLength, CheckedCode, CodeTimes, OptionalCode, LoopCode, Ranges, Nuls, Scaled;
    var n := q.target;
    var rep1, nul1 := rep + Scaled(Reps(n), q.lower), nul + Scaled(Nuls(n), q.lower);
    var copies, hi := CodeTimes(n, q.lower, rep, nul), rep + Reps(q);
    RepsCopied(q);
    assert Code(q, rep, nul) == QuantCode(q, rep, nul);
    assert Scaled(Reps(n), 1) == Reps(n) by { ScaledStep(Reps(n), 1); ScaledZero(Reps(n)); }
    match ShapeOf(q)
    case AnyStar =>
      TimesTidy(n, q.lower, rep, nul);
      TidyOne(StarOp(q), rep1);
      TidyJoin(copies, [StarOp(q)], rep, rep1, rep1);
    case EnterLoop =>
      var i := Jump(if q.greedy then HeadSize(q) else SIZE_OP_JUMP);
      LoopTidy(q, rep, nul);
      TidyOne(i, rep);
      TidyJoin([i], LoopCode(q, rep, nul), rep, rep, hi);
    case PushLoop =>
      TimesTidy(n, q.lower, rep, nul);
      LoopTidy(q, rep1, nul1);
      ScaledAdd(Reps(n), q.lower, 1);
      TidyJoin(copies, LoopCode(q, rep1, nul1), rep, rep1, hi);
    case Expand =>
      var m := Max(q.upper - q.lower, 0);
      TimesTidy(n, q.lower, rep, nul);
      OptionalTidy(n, m, rep1, nul1);
      ScaledAdd(Reps(n), q.lower, m);
      TidyJoin(copies, OptionalCode(n, m, rep1, nul1), rep, rep1, hi);
    case LazyOption =>
      var i, k := Push(SIZE_OP_JUMP), Jump(Length(n));
      CodeTidy(n, rep, nul);
      TidyNone(rep);
      TidyFrame(i, [], k, rep, rep);
      assert [i] + [] + [k] == [i, k];
      TidyJoin([i, k], Code(n, rep, nul), rep, rep, hi);
    case Counter =>
      CheckedTidy(q, rep + 1, nul);
      TidyLoop(Repeat(q.greedy, rep, CheckedLength(q) + SIZE_OP_REPEAT_INC), CheckedCode(q, rep + 1, nul),
        RepeatInc(q.greedy, q.inRepeat, rep), rep, hi);
  }
}
