/** Size prediction is exact: compile_length_tree equals the number of bytes compile_tree appends. */
module CodeSizes {
  import opened Common
  import opened Tree
  import opened Opcodes
  import opened Codegen

  lemma {:induction false} CodeSize(n: Node, rep: nat, nul: nat)
    ensures SizeAll(Code(n, rep, nul)) == Length(n)
    decreases n, 3, 1
  {
    if n.Str? || n.CClass? || n.Any? || n.Backref? || n.Anchor? {
      LeafSize(n, rep, nul);
    } else {
      NodeSize(n, rep, nul);
    }
  }

  lemma LeafSize(n: Node, rep: nat, nul: nat)
    requires n.Str? || n.CClass? || n.Any? || n.Backref? || n.Anchor?
    ensures SizeAll(Code(n, rep, nul)) == Length(n)
  {
    hide SizeAll;
    if Code(n, rep, nul) == [] {
      EmptySize();
    } else {
      var i := Code(n, rep, nul)[0];
      assert Size(i) == Length(n);
      Prefixed(i, []);
      EmptySize();
      assert [i] + [] == Code(n, rep, nul);
    }
  }

  lemma EmptySize()
    ensures SizeAll([]) == 0
  {
  }

  lemma {:induction false} NodeSize(n: Node, rep: nat, nul: nat)
    requires !(n.Str? || n.CClass? || n.Any? || n.Backref? || n.Anchor?)
    ensures SizeAll(Code(n, rep, nul)) == Length(n)
    decreases n, 3, 0
  {
    hide SizeAll;
    match n
    case Quant(_, _, _, _, _, _, _, _) => QuantSize(n, rep, nul);
    case Group(num, pushStart, pushEnd, target) =>
      CodeSize(target, rep, nul);
      Framed(MemStart(num, pushStart), Code(target, rep, nul), MemEnd(num, pushEnd));
    case Atomic(target, simple) =>
      if simple && target.Quant? {
        AtomicSize(target.target, target.lower, rep, nul);
      } else {
        CodeSize(target, rep, nul);
        Framed(PushStopBt, Code(target, rep, nul), PopStopBt);
      }
    case Look(look, target, charLen) =>
      LookSize(n, rep, nul);
    case List(elems) => ListSize(elems, rep, nul);
    case Alt(elems) => AltSize(elems, rep, nul);
  }

  lemma Framed(i: Instr, b: seq<Instr>, j: Instr)
    ensures SizeAll([i] + b + [j]) == Size(i) + SizeAll(b) + Size(j)
  {
    hide Size;
    SizeConcat([i] + b, [j]);
    Prefixed(i, b);
  }

  lemma Prefixed(i: Instr, b: seq<Instr>)
    ensures SizeAll([i] + b) == Size(i) + SizeAll(b)
  {
    hide Size;
    assert ([i] + b)[1..] == b;
  }

  lemma Suffixed(b: seq<Instr>, j: Instr)
    ensures SizeAll(b + [j]) == SizeAll(b) + Size(j)
  {
    hide Size;
    SizeConcat(b, [j]);
  }

  lemma {:induction false} LookSize(n: Node, rep: nat, nul: nat)
    requires n.Look?
    ensures SizeAll(Code(n, rep, nul)) == Length(n)
    decreases n, 2
  {
    hide SizeAll;
    CodeSize(n.target, rep, nul);
    var body, len := Code(n.target, rep, nul), Length(n.target);
    if n.look.Ahead? {
      Framed(PushPos, body, PopPos);
    } else if n.look.AheadNot? {
      Framed(PushPosNot(len + SIZE_OP_FAIL_POS), body, FailPos);
    } else if n.look.Behind? {
      Prefixed(LookBehind(n.charLen), body);
    } else {
      Framed(PushLookBehindNot(len + SIZE_OP_FAIL_LOOK_BEHIND_NOT, n.charLen), body, FailLookBehindNot);
    }
  }

  lemma {:induction false} ListSize(ns: Nodes, rep: nat, nul: nat)
    ensures SizeAll(ListCode(ns, rep, nul)) == ListLength(ns)
    decreases ns, 3
  {
    match ns
    case Last(car) => CodeSize(car, rep, nul);
    case Link(car, cdr) =>
      CodeSize(car, rep, nul);
      ListSize(cdr, rep + Reps(car), nul + Nuls(car));
      SizeConcat(Code(car, rep, nul), ListCode(cdr, rep + Reps(car), nul + Nuls(car)));
  }

  lemma {:induction false} AltSize(ns: Nodes, rep: nat, nul: nat)
    ensures SizeAll(AltCode(ns, rep, nul)) == AltLength(ns)
    decreases ns, 3
  {
    hide SizeAll;
    match ns
    case Last(car) => CodeSize(car, rep, nul);
    case Link(car, cdr) =>
      var rest := AltCode(cdr, rep + Reps(car), nul + Nuls(car));
      CodeSize(car, rep, nul);
      AltSize(cdr, rep + Reps(car), nul + Nuls(car));
      var head := [Push(Length(car) + SIZE_OP_JUMP)] + Code(car, rep, nul) + [Jump(AltLength(cdr))];
      Framed(Push(Length(car) + SIZE_OP_JUMP), Code(car, rep, nul), Jump(AltLength(cdr)));
      SizeConcat(head, rest);
  }

  lemma {:induction false} TimesSize(n: Node, k: nat, rep: nat, nul: nat)
    ensures SizeAll(CodeTimes(n, k, rep, nul)) == Scaled(Length(n), k)
    decreases n, 4, k
  {
    hide Length, Code, Nuls, Ranges, SizeAll;
    if k == 0 {
      EmptySize();
      ScaledZero(Length(n));
    } else {
      CodeSize(n, rep, nul);
      TimesSize(n, k - 1, rep + Reps(n), nul + Nuls(n));
      SizeConcat(Code(n, rep, nul), CodeTimes(n, k - 1, rep + Reps(n), nul + Nuls(n)));
      ScaledStep(Length(n), k);
    }
  }

  lemma {:induction false} OptionalSize(n: Node, k: nat, rep: nat, nul: nat)
    ensures SizeAll(OptionalCode(n, k, rep, nul)) == Scaled(SIZE_OP_PUSH + Length(n), k)
    decreases n, 4, k
  {
    hide Length, Code, Nuls, Ranges, SizeAll;
    if k == 0 {
      EmptySize();
      ScaledZero(SIZE_OP_PUSH + Length(n));
    } else {
      var push := Push(Scaled(Length(n), k) + Scaled(SIZE_OP_PUSH, k - 1));
      CodeSize(n, rep, nul);
      OptionalSize(n, k - 1, rep + Reps(n), nul + Nuls(n));
      Prefixed(push, Code(n, rep, nul));
      SizeConcat([push] + Code(n, rep, nul), OptionalCode(n, k - 1, rep + Reps(n), nul + Nuls(n)));
      ScaledStep(SIZE_OP_PUSH + Length(n), k);
    }
  }

  lemma {:induction false} AtomicSize(body: Node, k: nat, rep: nat, nul: nat)
    ensures SizeAll(CodeTimes(body, k, rep, nul)
        + [Push(Length(body) + SIZE_OP_POP + SIZE_OP_JUMP)]
        + Code(body, rep + Scaled(Reps(body), k), nul + Scaled(Nuls(body), k))
        + [Pop, Jump(-(SIZE_OP_PUSH + Length(body) + SIZE_OP_POP + SIZE_OP_JUMP))])
      == Scaled(Length(body), k) + SIZE_OP_PUSH + Length(body) + SIZE_OP_POP + SIZE_OP_JUMP
    decreases body, 5
  {
    hide SizeAll, Length, Code, CodeTimes;
    var j := -(SIZE_OP_PUSH + Length(body) + SIZE_OP_POP + SIZE_OP_JUMP);
    TimesSize(body, k, rep, nul);
    CodeSize(body, rep + Scaled(Reps(body), k), nul + Scaled(Nuls(body), k));
    PopLoopSize(CodeTimes(body, k, rep, nul), Length(body) + SIZE_OP_POP + SIZE_OP_JUMP,
                Code(body, rep + Scaled(Reps(body), k), nul + Scaled(Nuls(body), k)), j);
  }

  lemma PopLoopSize(a: seq<Instr>, addr: int, c: seq<Instr>, j: int)
    ensures SizeAll(a + [Push(addr)] + c + [Pop, Jump(j)])
      == SizeAll(a) + SIZE_OP_PUSH + SizeAll(c) + SIZE_OP_POP + SIZE_OP_JUMP
  {
    hide SizeAll;
    Suffixed(a, Push(addr));
    SizeConcat(a + [Push(addr)], c);
    Suffixed(a + [Push(addr)] + c, Pop);
    Suffixed(a + [Push(addr)] + c + [Pop], Jump(j));
    assert a + [Push(addr)] + c + [Pop] + [Jump(j)] == a + [Push(addr)] + c + [Pop, Jump(j)];
  }

  lemma {:induction false} CheckedSize(q: Node, rep: nat, nul: nat)
    requires q.Quant?
    ensures SizeAll(CheckedCode(q, rep, nul)) == CheckedLength(q)
    decreases q, 0
  {
    hide SizeAll, Length;
    match q.emptyInfo
    case NotEmpty => CodeSize(q.target, rep, nul);
    case Empty =>
      CodeSize(q.target, rep, nul + 1);
      Framed(NullCheckStart(nul), Code(q.target, rep, nul + 1), NullCheckEnd(nul));
    case EmptyMem =>
      CodeSize(q.target, rep, nul + 1);
      Framed(NullCheckStart(nul), Code(q.target, rep, nul + 1), NullCheckEndMemst(nul));
  }

  lemma {:induction false} LoopSize(q: Node, rep: nat, nul: nat)
    requires q.Quant?
    ensures SizeAll(LoopCode(q, rep, nul)) == LoopLength(q)
    decreases q, 1
  {
    hide SizeAll, Length;
    var mod := CheckedLength(q);
    CheckedSize(q, rep, nul);
    if q.greedy {
      assert Size(HeadOp(q)) == HeadSize(q);
      Framed(HeadOp(q), CheckedCode(q, rep, nul), Jump(-(mod + SIZE_OP_JUMP + HeadSize(q))));
    } else {
      Framed(Jump(mod), CheckedCode(q, rep, nul), Push(-(mod + SIZE_OP_PUSH)));
    }
  }

  lemma {:induction false} QuantSize(q: Node, rep: nat, nul: nat)
    requires q.Quant?
    ensures SizeAll(QuantCode(q, rep, nul)) == QuantLength(q)
    decreases q, 2
  {
    hide SizeAll, Length, Code, CheckedLength, CheckedCode, CodeTimes, OptionalCode, LoopCode;
    var body := q.target;
    var rep1, nul1 := rep + Scaled(Reps(body), q.lower), nul + Scaled(Nuls(body), q.lower);
    var copies := CodeTimes(body, q.lower, rep, nul);
    TimesSize(body, q.lower, rep, nul);
    match ShapeOf(q)
    case AnyStar => Suffixed(copies, StarOp(q));
    case EnterLoop =>
      LoopSize(q, rep, nul);
      Prefixed(Jump(if q.greedy then HeadSize(q) else SIZE_OP_JUMP), LoopCode(q, rep, nul));
    case PushLoop =>
      LoopSize(q, rep1, nul1);
      SizeConcat(copies, LoopCode(q, rep1, nul1));
    case Expand =>
      var m := Max(q.upper - q.lower, 0);
      OptionalSize(body, m, rep1, nul1);
      SizeConcat(copies, OptionalCode(body, m, rep1, nul1));
    case LazyOption =>
      CodeSize(body, rep, nul);
      LazySize(Length(body), Code(body, rep, nul));
    case Counter =>
      CheckedSize(q, rep + 1, nul);
      Framed(Repeat(q.greedy, rep, CheckedLength(q) + SIZE_OP_REPEAT_INC), CheckedCode(q, rep + 1, nul),
             RepeatInc(q.greedy, q.inRepeat, rep));
  }

  lemma LazySize(len: nat, code: seq<Instr>)
    ensures SizeAll([Push(SIZE_OP_JUMP), Jump(len)] + code) == SIZE_OP_PUSH + SIZE_OP_JUMP + SizeAll(code)
  {
    Prefixed(Jump(len), code);
    Prefixed(Push(SIZE_OP_JUMP), [Jump(len)] + code);
    assert [Push(SIZE_OP_JUMP)] + ([Jump(len)] + code) == [Push(SIZE_OP_JUMP), Jump(len)] + code;
  }
}
