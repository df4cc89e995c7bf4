/** Every operand the code generator emits fits its C type, so the bytes of a compiled tree read back as the
    instructions they were made of. */
module CodeFits {
  import opened Common
  import opened Tree
  import opened Opcodes
  import opened Codegen
  import opened Lengths
  import opened Placing

  const ADDR_LIMIT := 0x8000_0000
  const NUM_LIMIT := 0x8000

  /** Code of size `len` numbered from rep and nul, all within RelAddrType and MemNumType. */
  predicate Room(len: nat, rep: nat, reps: nat, nul: nat, nuls: nat) {
    len < ADDR_LIMIT && rep + reps <= NUM_LIMIT && nul + nuls <= NUM_LIMIT
  }

  predicate Fits(n: Node, rep: nat, nul: nat) { Room(Length(n), rep, Reps(n), nul, Nuls(n)) }

  lemma Joined(a: seq<Instr>, b: seq<Instr>)
    requires AllEncodable(a) && AllEncodable(b)
    ensures AllEncodable(a + b)
  {
  }

  lemma FramedFits(i: Instr, a: seq<Instr>, j: Instr)
    requires Encodable(i) && AllEncodable(a) && Encodable(j)
    ensures AllEncodable([i] + a + [j])
  {
  }

  lemma {:induction false} CodeEncodable(n: Node, e: Env, rep: nat, nul: nat)
    requires WellFormed(n, e) && Fits(n, rep, nul)
    ensures AllEncodable(Code(n, rep, nul))
    decreases n, 3
  {
    match n
    case Str(s) =>
    case CClass(_, _) =>
    case Any(_) =>
    case Backref(_) =>
    case Anchor(_) =>
    case Quant(_, _, _, _, _, _, _, _) => QuantEncodable(n, e, rep, nul);
    case Group(num, pushStart, pushEnd, target) =>
      CodeEncodable(target, e, rep, nul);
      FramedFits(MemStart(num, pushStart), Code(target, rep, nul), MemEnd(num, pushEnd));
    case Atomic(target, simple) =>
      if simple { SimpleEncodable(n, e, rep, nul); } else {
        CodeEncodable(target, e, rep, nul);
        FramedFits(PushStopBt, Code(target, rep, nul), PopStopBt);
      }
    case Look(look, target, charLen) => LookEncodable(n, e, rep, nul);
    case List(elems) => ListEncodable(elems, e, rep, nul);
    case Alt(elems) => AltEncodable(elems, e, rep, nul);
  }

  lemma {:induction false} LookEncodable(n: Node, e: Env, rep: nat, nul: nat)
    requires n.Look? && WellFormed(n, e) && Fits(n, rep, nul)
    ensures AllEncodable(Code(n, rep, nul))
    decreases n, 2
  {
    var target := n.target;
    CodeEncodable(target, e, rep, nul);
    hide CharLen, WellFormed, AllEncodable;
    var body := Code(target, rep, nul);
    if n.look.Ahead? {
      FramedFits(PushPos, body, PopPos);
    } else if n.look.AheadNot? {
      FramedFits(PushPosNot(Length(target) + SIZE_OP_FAIL_POS), body, FailPos);
    } else {
      assert Fits32(n.charLen) by { LookFits(n, e); }
      if n.look.Behind? {
        assert AllEncodable([LookBehind(n.charLen)]) by { One(LookBehind(n.charLen)); }
        Joined([LookBehind(n.charLen)], body);
      } else {
        FramedFits(PushLookBehindNot(Length(target) + SIZE_OP_FAIL_LOOK_BEHIND_NOT, n.charLen), body,
            FailLookBehindNot);
      }
    }
  }

  lemma LookFits(n: Node, e: Env)
    requires n.Look? && (n.look.Behind? || n.look.BehindNot?) && WellFormed(n, e)
    ensures Fits32(n.charLen)
  {
  }

  lemma One(i: Instr)
    requires Encodable(i)
    ensures AllEncodable([i])
  {
  }

  lemma {:induction false} ListEncodable(ns: Nodes, e: Env, rep: nat, nul: nat)
    requires WellFormedAll(ns, e) && Room(ListLength(ns), rep, RepsOf(ns), nul, NulsOf(ns))
    ensures AllEncodable(ListCode(ns, rep, nul))
    decreases ns, 3
  {
    match ns
    case Last(car) => CodeEncodable(car, e, rep, nul);
    case Link(car, cdr) =>
      CodeEncodable(car, e, rep, nul);
      ListEncodable(cdr, e, rep + Reps(car), nul + Nuls(car));
      Joined(Code(car, rep, nul), ListCode(cdr, rep + Reps(car), nul + Nuls(car)));
  }

  lemma {:induction false} AltEncodable(ns: Nodes, e: Env, rep: nat, nul: nat)
    requires WellFormedAll(ns, e) && Room(AltLength(ns), rep, RepsOf(ns), nul, NulsOf(ns))
    ensures AllEncodable(AltCode(ns, rep, nul))
    decreases ns, 3
  {
    match ns
    case Last(car) => CodeEncodable(car, e, rep, nul);
    case Link(car, cdr) =>
      CodeEncodable(car, e, rep, nul);
      AltEncodable(cdr, e, rep + Reps(car), nul + Nuls(car));
      var push, jump := Push(Length(car) + SIZE_OP_JUMP), Jump(AltLength(cdr));
      FramedFits(push, Code(car, rep, nul), jump);
      Joined([push] + Code(car, rep, nul) + [jump], AltCode(cdr, rep + Reps(car), nul + Nuls(car)));
  }

  lemma {:induction false} TimesEncodable(n: Node, e: Env, m: nat, rep: nat, nul: nat)
    requires WellFormed(n, e)
    requires Room(Length(n), rep, Scaled(Reps(n), m), nul, Scaled(Nuls(n), m))
    ensures AllEncodable(CodeTimes(n, m, rep, nul))
    decreases n, 4, m
  {
    hide Length, Code, Nuls, Ranges, WellFormed, AllEncodable, Scaled;
    if m == 0 {
      Nothing();
    } else {
      ScaledStep(Reps(n), m);
      ScaledStep(Nuls(n), m);
      CodeEncodable(n, e, rep, nul);
      TimesEncodable(n, e, m - 1, rep + Reps(n), nul + Nuls(n));
      Joined(Code(n, rep, nul), CodeTimes(n, m - 1, rep + Reps(n), nul + Nuls(n)));
    }
  }

  lemma Nothing()
    ensures AllEncodable([])
  {
  }

  lemma {:induction false} OptionalEncodable(n: Node, e: Env, m: nat, rep: nat, nul: nat)
    requires WellFormed(n, e)
    requires Room(Scaled(SIZE_OP_PUSH + Length(n), m), rep, Scaled(Reps(n), m), nul, Scaled(Nuls(n), m))
    ensures AllEncodable(OptionalCode(n, m, rep, nul))
    decreases n, 4, m
  {
    hide Length, Code, Nuls, Ranges, WellFormed, AllEncodable, Scaled;
    if m == 0 {
      Nothing();
    } else {
      ScaledStep(Reps(n), m);
      ScaledStep(Nuls(n), m);
      ScaledStep(SIZE_OP_PUSH + Length(n), m);
      CodeEncodable(n, e, rep, nul);
      OptionalEncodable(n, e, m - 1, rep + Reps(n), nul + Nuls(n));
      var push := Push(Scaled(Length(n), m) + Scaled(SIZE_OP_PUSH, m - 1));
      OptionalAddress(Length(n), m);
      One(push);
      Joined([push], Code(n, rep, nul));
      Joined([push] + Code(n, rep, nul), OptionalCode(n, m - 1, rep + Reps(n), nul + Nuls(n)));
    }
  }

  lemma OptionalAddress(a: nat, m: nat)
    requires 0 < m
    ensures Scaled(a, m) + Scaled(SIZE_OP_PUSH, m - 1) <= Scaled(SIZE_OP_PUSH + a, m)
  {
    assert (SIZE_OP_PUSH + a) * m == SIZE_OP_PUSH * m + a * m;
    assert SIZE_OP_PUSH * m == SIZE_OP_PUSH * (m - 1) + SIZE_OP_PUSH;
  }

  lemma CheckedEncodable(q: Node, e: Env, rep: nat, nul: nat)
    requires q.Quant? && WellFormed(q.target, e)
    requires Room(CheckedLength(q), rep, Reps(q.target), nul, Nuls(q.target) + if q.emptyInfo.NotEmpty? then 0 else 1)
    ensures AllEncodable(CheckedCode(q, rep, nul))
    decreases q.target, 4
  {
    hide Length, Code, Nuls, Ranges, WellFormed, AllEncodable;
    if q.emptyInfo.NotEmpty? {
      CodeEncodable(q.target, e, rep, nul);
    } else {
      CodeEncodable(q.target, e, rep, nul + 1);
      FramedFits(NullCheckStart(nul), Code(q.target, rep, nul + 1),
                 if q.emptyInfo.Empty? then NullCheckEnd(nul) else NullCheckEndMemst(nul));
    }
  }

  lemma LoopEncodable(q: Node, e: Env, rep: nat, nul: nat)
    requires q.Quant? && WellFormed(q.target, e)
    requires Room(LoopLength(q), rep, Reps(q.target), nul, Nuls(q.target) + if q.emptyInfo.NotEmpty? then 0 else 1)
    ensures AllEncodable(LoopCode(q, rep, nul))
    decreases q.target, 5
  {
    hide Length, CheckedLength, CheckedCode, Nuls, Ranges, WellFormed, AllEncodable;
    CheckedEncodable(q, e, rep, nul);
    var mod := CheckedLength(q);
    if q.greedy {
      FramedFits(HeadOp(q), CheckedCode(q, rep, nul), Jump(-(mod + SIZE_OP_JUMP + HeadSize(q))));
    } else {
      FramedFits(Jump(mod), CheckedCode(q, rep, nul), Push(-(mod + SIZE_OP_PUSH)));
    }
  }

  /** A sum that fits leaves room for its parts. */
  lemma RangesRoom(n: Node)
    requires n.Quant?
    ensures ShapeOf(n).Counter? ==> Reps(n) == 1 + Reps(n.target)
    ensures !ShapeOf(n).Counter? ==> Reps(n) == Scaled(Reps(n.target), Copies(n))
  {
    hide ShapeOf, Length, Copies;
    if !ShapeOf(n).Counter? { TimesLength(Ranges(n.target), Copies(n)); }
  }

  lemma {:induction false} QuantEncodable(n: Node, e: Env, rep: nat, nul: nat)
    requires n.Quant? && WellFormed(n, e) && Fits(n, rep, nul)
    ensures AllEncodable(Code(n, rep, nul))
    decreases n, 2
  {
    hide AllEncodable, ShapeOf, CheckedCode, LoopCode, CodeTimes, OptionalCode, Scaled, Ranges;
    var body := n.target;
    var rep1, nul1 := rep + Scaled(Reps(body), n.lower), nul + Scaled(Nuls(body), n.lower);
    RangesRoom(n);
    assert Code(n, rep, nul) == QuantCode(n, rep, nul);
    assert Length(n) == QuantLength(n);
    match ShapeOf(n)
    case AnyStar =>
      StarLength(n);
      TimesEncodable(body, e, n.lower, rep, nul);
      One(StarOp(n));
      Joined(CodeTimes(body, n.lower, rep, nul), [StarOp(n)]);
    case EnterLoop =>
      ScaledOne(Reps(body));
      LoopEncodable(n, e, rep, nul);
      var i := Jump(if n.greedy then HeadSize(n) else SIZE_OP_JUMP);
      One(i);
      Joined([i], LoopCode(n, rep, nul));
    case PushLoop =>
      ScaledStep(Reps(body), n.lower + 1);
      TargetLength(n);
      TimesEncodable(body, e, n.lower, rep, nul);
      LoopEncodable(n, e, rep1, nul1);
      Joined(CodeTimes(body, n.lower, rep, nul), LoopCode(n, rep1, nul1));
    case Expand =>
      var m := Max(n.upper - n.lower, 0);
      ScaledAdd(Reps(body), n.lower, m);
      if n.lower > 0 { ScaledStep(Length(body), n.lower); }
      if n.lower > 0 { TimesEncodable(body, e, n.lower, rep, nul); } else { Nothing(); NoCopies(body, rep, nul); }
      OptionalEncodable(body, e, m, rep1, nul1);
      Joined(CodeTimes(body, n.lower, rep, nul), OptionalCode(body, m, rep1, nul1));
    case LazyOption =>
      ScaledOne(Reps(body));
      CodeEncodable(body, e, rep, nul);
      One(Push(SIZE_OP_JUMP));
      One(Jump(Length(body)));
      Joined([Push(SIZE_OP_JUMP)], [Jump(Length(body))]);
      assert [Push(SIZE_OP_JUMP)] + [Jump(Length(body))] == [Push(SIZE_OP_JUMP), Jump(Length(body))];
      Joined([Push(SIZE_OP_JUMP), Jump(Length(body))], Code(body, rep, nul));
    case Counter =>
      CheckedEncodable(n, e, rep + 1, nul);
      FramedFits(Repeat(n.greedy, rep, CheckedLength(n) + SIZE_OP_REPEAT_INC), CheckedCode(n, rep + 1, nul),
                 RepeatInc(n.greedy, n.inRepeat, rep));
  }

  lemma NoCopies(n: Node, rep: nat, nul: nat)
    ensures CodeTimes(n, 0, rep, nul) == []
  {
  }

  lemma StarLength(n: Node)
    requires n.Quant? && ShapeOf(n).AnyStar?
    ensures n.target.Any? && Length(n.target) == 1
  {
  }

  lemma ScaledOne(a: nat)
    ensures Scaled(a, 1) == a
  {
  }

  lemma TargetLength(n: Node)
    requires n.Quant?
    ensures Length(n.target) <= LoopLength(n)
  {
    hide Length;
  }

  lemma {:induction false} SimpleEncodable(n: Node, e: Env, rep: nat, nul: nat)
    requires n.Atomic? && n.simple && WellFormed(n, e) && Fits(n, rep, nul)
    ensures AllEncodable(Code(n, rep, nul))
    decreases n, 2
  {
    hide AllEncodable, CodeTimes, Scaled, Length, Ranges, Nuls, MinLen;
    var body, m := n.target.target, n.target.lower;
    var rep1, nul1 := rep + Scaled(Reps(body), m), nul + Scaled(Nuls(body), m);
    SimpleRoom(n, rep, nul);
    ScaledStep(Reps(body), m + 1);
    ScaledStep(Nuls(body), m + 1);
    TimesEncodable(body, e, m, rep, nul);
    CodeEncodable(body, e, rep1, nul1);
    var push, jump := Push(Length(body) + SIZE_OP_POP + SIZE_OP_JUMP),
        Jump(-(SIZE_OP_PUSH + Length(body) + SIZE_OP_POP + SIZE_OP_JUMP));
    One(push);
    One(Pop);
    One(jump);
    Joined([Pop], [jump]);
    assert [Pop] + [jump] == [Pop, jump];
    Joined(CodeTimes(body, m, rep, nul), [push]);
    Joined(CodeTimes(body, m, rep, nul) + [push], Code(body, rep1, nul1));
    Joined(CodeTimes(body, m, rep, nul) + [push] + Code(body, rep1, nul1), [Pop, jump]);
  }

  lemma SimpleRoom(n: Node, rep: nat, nul: nat)
    requires n.Atomic? && n.simple && n.target.Quant? && Fits(n, rep, nul)
    ensures var body, m := n.target.target, n.target.lower;
      Length(n) == Scaled(Length(body), m) + SIZE_OP_PUSH + Length(body) + SIZE_OP_POP + SIZE_OP_JUMP
      && Length(n) < ADDR_LIMIT
      && rep + Scaled(Reps(body), m + 1) <= NUM_LIMIT && nul + Scaled(Nuls(body), m + 1) <= NUM_LIMIT
  {
    hide Scaled;
    TimesLength(Ranges(n.target.target), n.target.lower + 1);
  }
}
