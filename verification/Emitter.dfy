/** compile_tree and its helpers (regcomp.c:184-310, 362-410, 652-717, 1070-1158, 1296-1384, 1653-1824) as the
    imperative program they are: a growing byte buffer, two counters and a growing table of repeat ranges. */
module Emitter {
  import opened Common
  import opened Tree
  import opened Opcodes
  import opened Codegen
  import opened CodeSizes
  import opened CodeFits
  import opened Lengths
  import opened Placing

  const REPEAT_RANGE_ALLOC := 4

  /** What has been emitted so far. */
  datatype Out = Out(code: seq<byte>, table: seq<Range>, nul: nat) {
    function Rep(): nat { |table| }
  }

  function Plus(o: Out, ops: seq<Instr>, rs: seq<Range>, nuls: nat): Out {
    Out(o.code + Bytes(ops), o.table + rs, o.nul + nuls)
  }

  /** One instruction more is its opcode and its operands. */
  lemma PlusOne(o: Out, i: Instr)
    ensures Plus(o, [i], [], 0) == o.(code := o.code + [OpNumber(i)] + Operands(i))
  {
    hide OpNumber, Operands;
    BytesOne(i);
    assert o.code + [OpNumber(i)] + Operands(i) == o.code + Encode(i);
    assert o.table + [] == o.table;
  }

  /** The output after the code of a node. */
  function AfterNode(o: Out, n: Node): Out { Plus(o, Code(n, o.Rep(), o.nul), Ranges(n), Nuls(n)) }

  lemma PlusPlus(o: Out, a: seq<Instr>, ra: seq<Range>, na: nat, b: seq<Instr>, rb: seq<Range>, nb: nat)
    ensures Plus(Plus(o, a, ra, na), b, rb, nb) == Plus(o, a + b, ra + rb, na + nb)
  {
    BytesConcat(a, b);
    assert (o.code + Bytes(a)) + Bytes(b) == o.code + (Bytes(a) + Bytes(b));
    assert (o.table + ra) + rb == o.table + (ra + rb);
  }

  lemma PlusNothing(o: Out)
    ensures Plus(o, [], [], 0) == o
  {
    assert o.code + [] == o.code && o.table + [] == o.table;
  }

  lemma BytesOne(i: Instr)
    ensures Bytes([i]) == Encode(i)
  {
    hide Encode;
    assert [i][1..] == [];
    assert Bytes([]) == [];
    assert Encode(i) + [] == Encode(i);
  }

  /** One instruction and then some code. */
  lemma PlusFirst(o: Out, i: Instr, ops: seq<Instr>, rs: seq<Range>, nuls: nat)
    ensures Plus(Plus(o, [i], [], 0), ops, rs, nuls) == Plus(o, [i] + ops, rs, nuls)
  {
    PlusPlus(o, [i], [], 0, ops, rs, nuls);
    assert [] + rs == rs;
  }

  lemma PlusLast(o: Out, ops: seq<Instr>, rs: seq<Range>, nuls: nat, i: Instr)
    ensures Plus(Plus(o, ops, rs, nuls), [i], [], 0) == Plus(o, ops + [i], rs, nuls)
  {
    PlusPlus(o, ops, rs, nuls, [i], [], 0);
    assert rs + [] == rs;
  }

  /** The steps of the loops over list and alternative cells, and over copies. */
  lemma ListTurn(o: Out, ns: Nodes)
    ensures var all := Plus(o, ListCode(ns, o.Rep(), o.nul), RangesOf(ns), NulsOf(ns));
      var o1 := AfterNode(o, ns.car);
      if ns.Last? then all == o1
      else all == Plus(o1, ListCode(ns.cdr, o1.Rep(), o1.nul), RangesOf(ns.cdr), NulsOf(ns.cdr))
  {
    hide Code, Ranges, Nuls;
    if ns.Link? {
      var rep1, nul1 := o.Rep() + Reps(ns.car), o.nul + Nuls(ns.car);
      PlusPlus(o, Code(ns.car, o.Rep(), o.nul), Ranges(ns.car), Nuls(ns.car), ListCode(ns.cdr, rep1, nul1),
          RangesOf(ns.cdr), NulsOf(ns.cdr));
    }
  }

  /** The output after a list of alternatives. */
  function AfterAlt(o: Out, ns: Nodes): Out { Plus(o, AltCode(ns, o.Rep(), o.nul), RangesOf(ns), NulsOf(ns)) }

  lemma AltTurn(o: Out, ns: Nodes)
    ensures var all := AfterAlt(o, ns);
      if ns.Last? then all == AfterNode(o, ns.car)
      else
        var o1 := AfterNode(Plus(o, [Push(Length(ns.car) + SIZE_OP_JUMP)], [], 0), ns.car);
        var o2 := Plus(o1, [Jump(AltLength(ns.cdr))], [], 0);
        all == AfterAlt(o2, ns.cdr)
  {
    hide Code, Ranges, Nuls, Length;
    if ns.Link? {
      var push, jump := Push(Length(ns.car) + SIZE_OP_JUMP), Jump(AltLength(ns.cdr));
      var body := Code(ns.car, o.Rep(), o.nul);
      var rep1, nul1 := o.Rep() + Reps(ns.car), o.nul + Nuls(ns.car);
      PlusFirst(o, push, body, Ranges(ns.car), Nuls(ns.car));
      PlusLast(o, [push] + body, Ranges(ns.car), Nuls(ns.car), jump);
      PlusPlus(o, [push] + body + [jump], Ranges(ns.car), Nuls(ns.car), AltCode(ns.cdr, rep1, nul1), RangesOf(ns.cdr),
          NulsOf(ns.cdr));
    }
  }

  /** The output after `count` copies. */
  function AfterTimes(o: Out, n: Node, count: nat): Out {
    Plus(o, CodeTimes(n, count, o.Rep(), o.nul), Times(Ranges(n), count), Scaled(Nuls(n), count))
  }

  lemma TimesTurn(o: Out, n: Node, count: nat)
    ensures AfterTimes(o, n, 0) == o
    ensures 0 < count ==> AfterTimes(o, n, count) == AfterTimes(AfterNode(o, n), n, count - 1)
  {
    hide Code, Ranges, Nuls;
    if count == 0 {
      ScaledZero(Nuls(n));
    } else {
      ScaledStep(Nuls(n), count);
      var rep1, nul1 := o.Rep() + Reps(n), o.nul + Nuls(n);
      PlusPlus(o, Code(n, o.Rep(), o.nul), Ranges(n), Nuls(n),
               CodeTimes(n, count - 1, rep1, nul1), Times(Ranges(n), count - 1), Scaled(Nuls(n), count - 1));
    }
    PlusNothing(o);
    ScaledZero(Nuls(n));
  }

  /** The output after `count` nested optional copies. */
  function AfterOptional(o: Out, n: Node, count: nat): Out {
    Plus(o, OptionalCode(n, count, o.Rep(), o.nul), Times(Ranges(n), count), Scaled(Nuls(n), count))
  }

  lemma OptionalTurn(o: Out, n: Node, count: nat)
    ensures AfterOptional(o, n, 0) == o
    ensures 0 < count ==>
      var push := Push(Scaled(Length(n), count) + Scaled(SIZE_OP_PUSH, count - 1));
      AfterOptional(o, n, count) == AfterOptional(AfterNode(Plus(o, [push], [], 0), n), n, count - 1)
  {
    hide Code, Ranges, Nuls, Length;
    if count > 0 {
      var push := Push(Scaled(Length(n), count) + Scaled(SIZE_OP_PUSH, count - 1));
      ScaledStep(Nuls(n), count);
      var rep1, nul1 := o.Rep() + Reps(n), o.nul + Nuls(n);
      PlusFirst(o, push, Code(n, o.Rep(), o.nul), Ranges(n), Nuls(n));
      PlusPlus(o, [push] + Code(n, o.Rep(), o.nul), Ranges(n), Nuls(n),
               OptionalCode(n, count - 1, rep1, nul1), Times(Ranges(n), count - 1), Scaled(Nuls(n), count - 1));
    }
    PlusNothing(o);
    ScaledZero(Nuls(n));
  }

  /** The predicted size of an alternative cell is what it appends. */
  lemma NodeGrows(o: Out, n: Node, e: Env)
    requires WellFormed(n, e) && Fits(n, o.Rep(), o.nul)
    ensures |AfterNode(o, n).code| == |o.code| + Length(n)
  {
    hide Code, Ranges, Nuls, Length, WellFormed, AllEncodable;
    CodeEncodable(n, e, o.Rep(), o.nul);
    BytesSize(Code(n, o.Rep(), o.nul));
    CodeSize(n, o.Rep(), o.nul);
  }

  lemma JumpGrows(o: Out, addr: int)
    ensures |Plus(o, [Jump(addr)], [], 0).code| == |o.code| + SIZE_OP_JUMP
    ensures |Plus(o, [Push(addr)], [], 0).code| == |o.code| + SIZE_OP_PUSH
  {
    BytesOne(Jump(addr));
    BytesOne(Push(addr));
  }

  lemma LeafCode(n: Node, i: Instr, o: Out)
    requires n.Str? || n.CClass? || n.Any? || n.Backref? || n.Anchor?
    requires Code(n, o.Rep(), o.nul) == [i]
    ensures AfterNode(o, n) == Plus(o, [i], [], 0)
  {
  }

  /** An instruction alone leaves the table and the numbers as they are. */
  lemma PlusSame(o: Out, i: Instr)
    ensures var o1 := Plus(o, [i], [], 0); o1.table == o.table && o1.nul == o.nul && o1.Rep() == o.Rep()
  {
    assert o.table + [] == o.table;
  }

  lemma PlusSizes(o: Out, ops: seq<Instr>, rs: seq<Range>, nuls: nat)
    ensures var o1 := Plus(o, ops, rs, nuls); o1.Rep() == o.Rep() + |rs| && o1.nul == o.nul + nuls
  {
  }

  lemma AfterSizes(o: Out, n: Node)
    ensures AfterNode(o, n).Rep() == o.Rep() + Reps(n) && AfterNode(o, n).nul == o.nul + Nuls(n)
  {
    hide Code, Ranges, Nuls;
  }

  lemma ListNode(o: Out, n: Node)
    requires n.List?
    ensures AfterNode(o, n) == Plus(o, ListCode(n.elems, o.Rep(), o.nul), RangesOf(n.elems), NulsOf(n.elems))
    ensures Length(n) == ListLength(n.elems) && Reps(n) == RepsOf(n.elems) && Nuls(n) == NulsOf(n.elems)
  {
  }

  lemma AltNode(o: Out, n: Node)
    requires n.Alt?
    ensures AfterNode(o, n) == AfterAlt(o, n.elems)
    ensures Length(n) == AltLength(n.elems) && Reps(n) == RepsOf(n.elems) && Nuls(n) == NulsOf(n.elems)
  {
  }

  function OwnNul(q: Node): nat
    requires q.Quant?
  {
    if q.emptyInfo.NotEmpty? then 0 else 1
  }

  function AfterChecked(o: Out, q: Node): Out
    requires q.Quant?
  {
    Plus(o, CheckedCode(q, o.Rep(), o.nul), Ranges(q.target), Nuls(q.target) + OwnNul(q))
  }

  function AfterLoop(o: Out, q: Node): Out
    requires q.Quant?
  {
    Plus(o, LoopCode(q, o.Rep(), o.nul), Ranges(q.target), Nuls(q.target) + OwnNul(q))
  }

  lemma PlainChecked(o: Out, q: Node)
    requires q.Quant?
    ensures q.emptyInfo.NotEmpty? ==> AfterChecked(o, q) == AfterNode(o, q.target)
    ensures Length(q.target) <= CheckedLength(q)
  {
    hide Code, Ranges, Nuls, Length;
  }

  lemma CheckedTurn(o: Out, q: Node, end: Instr)
    requires q.Quant? && !q.emptyInfo.NotEmpty?
    requires end == if q.emptyInfo.Empty? then NullCheckEnd(o.nul) else NullCheckEndMemst(o.nul)
    ensures var o1 := Plus(o, [NullCheckStart(o.nul)], [], 0);
      AfterChecked(o, q) == Plus(AfterNode(o1.(nul := o.nul + 1), q.target), [end], [], 0)
  {
    hide Code, Ranges, Nuls;
    var start, body := NullCheckStart(o.nul), Code(q.target, o.Rep(), o.nul + 1);
    var o1 := Plus(o, [start], [], 0);
    PlusSame(o, start);
    PlusFirst(o, start, body, Ranges(q.target), Nuls(q.target) + 1);
    PlusLast(o, [start] + body, Ranges(q.target), Nuls(q.target) + 1, end);
    assert Plus(o1.(nul := o.nul + 1), body, Ranges(q.target), Nuls(q.target))
        == Plus(o1, body, Ranges(q.target), Nuls(q.target) + 1);
  }

  lemma CounterFacts(q: Node, rep: nat, nul: nat)
    requires q.Quant? && ShapeOf(q).Counter?
    ensures Code(q, rep, nul)
        == [Repeat(q.greedy, rep, CheckedLength(q) + SIZE_OP_REPEAT_INC)] + CheckedCode(q, rep + 1, nul)
                                 + [RepeatInc(q.greedy, q.inRepeat, rep)]
    ensures Ranges(q) == [Range(q.lower, UpperCount(q.upper), q.inRepeat)] + Ranges(q.target)
    ensures Nuls(q) == Nuls(q.target) + OwnNul(q) && Length(q) == CheckedLength(q) + SIZE_OP_REPEAT_INC + 7
  {
    hide CheckedCode, CheckedLength;
  }

  lemma StarFacts(q: Node, rep: nat, nul: nat)
    requires q.Quant? && ShapeOf(q).AnyStar?
    ensures q.target.Any? && Code(q, rep, nul) == CodeTimes(q.target, q.lower, rep, nul) + [StarOp(q)]
    ensures Ranges(q) == Times(Ranges(q.target), q.lower) && Nuls(q) == Scaled(Nuls(q.target), q.lower)
    ensures Length(q.target) == 1
  {
    hide Scaled, Times, CodeTimes;
  }

  lemma PushFacts(q: Node, rep: nat, nul: nat)
    requires q.Quant? && ShapeOf(q).PushLoop?
    ensures Code(q, rep, nul) == CodeTimes(q.target, q.lower, rep, nul)
                                 + LoopCode(q, rep + Scaled(Reps(q.target), q.lower),
                                     nul + Scaled(Nuls(q.target), q.lower))
    ensures Ranges(q) == Times(Ranges(q.target), q.lower + 1)
        && Length(q) == Scaled(Length(q.target), q.lower) + LoopLength(q)
    ensures Nuls(q) == Scaled(Nuls(q.target), q.lower) + OwnNul(q) + Nuls(q.target)
  {
    hide Scaled, Times, CodeTimes, LoopCode, LoopLength;
  }

  lemma ExpandFacts(q: Node, rep: nat, nul: nat)
    requires q.Quant? && ShapeOf(q).Expand?
    ensures var m := Max(q.upper - q.lower, 0);
      Code(q, rep, nul) == CodeTimes(q.target, q.lower, rep, nul)
                           + OptionalCode(q.target, m, rep + Scaled(Reps(q.target), q.lower),
                               nul + Scaled(Nuls(q.target), q.lower))
      && Ranges(q) == Times(Ranges(q.target), q.lower + m)
      && Length(q) == Scaled(Length(q.target), q.lower) + Scaled(SIZE_OP_PUSH + Length(q.target), m)
      && Nuls(q) == Scaled(Nuls(q.target), q.lower) + Scaled(Nuls(q.target), m)
  {
    hide Scaled, Times, CodeTimes, OptionalCode;
  }

  lemma CounterNode(o: Out, q: Node)
    requires q.Quant? && ShapeOf(q).Counter? && Fits(q, o.Rep(), o.nul)
    ensures var r := Range(q.lower, UpperCount(q.upper), q.inRepeat);
      var o1 := Plus(Plus(o, [Repeat(q.greedy, o.Rep(), CheckedLength(q) + SIZE_OP_REPEAT_INC)], [], 0), [], [r], 0);
      AfterNode(o, q) == Plus(AfterChecked(o1, q), [RepeatInc(q.greedy, q.inRepeat, o.Rep())], [], 0)
    ensures Room(CheckedLength(q), o.Rep() + 1, Reps(q.target), o.nul, Nuls(q.target) + OwnNul(q))
  {
    hide Code, Length, ShapeOf, CheckedLength, CheckedCode, Plus, Ranges, Nuls;
    CounterFacts(q, o.Rep(), o.nul);
    var r := Range(q.lower, UpperCount(q.upper), q.inRepeat);
    var start, end := Repeat(q.greedy, o.Rep(), CheckedLength(q) + SIZE_OP_REPEAT_INC),
        RepeatInc(q.greedy, q.inRepeat, o.Rep());
    var body, nuls := CheckedCode(q, o.Rep() + 1, o.nul), Nuls(q.target) + OwnNul(q);
    var o0 := Plus(o, [start], [], 0);
    PlusSame(o, start);
    PlusSizes(o0, [], [r], 0);
    PlusPlus(o, [start], [], 0, [], [r], 0);
    assert [start] + [] == [start] && [] + [r] == [r];
    PlusPlus(o, [start], [r], 0, body, Ranges(q.target), nuls);
    PlusLast(o, [start] + body, [r] + Ranges(q.target), nuls, end);
  }

  lemma TimesSizes(o: Out, n: Node, count: nat)
    ensures AfterTimes(o, n, count).Rep() == o.Rep() + Scaled(Reps(n), count)
    ensures AfterTimes(o, n, count).nul == o.nul + Scaled(Nuls(n), count)
  {
    hide CodeTimes, Ranges, Nuls, Times;
    TimesLength(Ranges(n), count);
  }

  /** Copies of the target and then more code. */
  lemma TimesThen(o: Out, n: Node, count: nat, ops: seq<Instr>, rs: seq<Range>, nuls: nat)
    ensures Plus(AfterTimes(o, n, count), ops, rs, nuls)
      == Plus(o, CodeTimes(n, count, o.Rep(), o.nul) + ops, Times(Ranges(n), count) + rs, Scaled(Nuls(n), count) + nuls)
  {
    hide CodeTimes, Ranges, Nuls, Times;
    PlusPlus(o, CodeTimes(n, count, o.Rep(), o.nul), Times(Ranges(n), count), Scaled(Nuls(n), count), ops, rs, nuls);
  }

  lemma OneCopy(rs: seq<Range>)
    ensures Times(rs, 1) == rs
  {
    assert rs + [] == rs;
  }

  lemma StarNode(o: Out, q: Node)
    requires q.Quant? && ShapeOf(q).AnyStar? && Fits(q, o.Rep(), o.nul)
    ensures q.target.Any? && AfterNode(o, q) == Plus(AfterTimes(o, q.target, q.lower), [StarOp(q)], [], 0)
    ensures Room(Length(q.target), o.Rep(), Scaled(Reps(q.target), q.lower), o.nul, Scaled(Nuls(q.target), q.lower))
  {
    hide Plus, CodeTimes, Scaled, Times, Code, Ranges, Nuls, ShapeOf, Length;
    StarFacts(q, o.Rep(), o.nul);
    TimesThen(o, q.target, q.lower, [StarOp(q)], [], 0);
    TimesLength(Ranges(q.target), q.lower);
    assert Times(Ranges(q.target), q.lower) + [] == Times(Ranges(q.target), q.lower);
  }

  lemma EnterNode(o: Out, q: Node)
    requires q.Quant? && ShapeOf(q).EnterLoop? && Fits(q, o.Rep(), o.nul)
    ensures AfterNode(o, q) == AfterLoop(Plus(o, [Jump(if q.greedy then HeadSize(q) else SIZE_OP_JUMP)], [], 0), q)
    ensures Room(LoopLength(q), o.Rep(), Reps(q.target), o.nul, Nuls(q.target) + OwnNul(q))
  {
    assert Code(q, o.Rep(), o.nul) == QuantCode(q, o.Rep(), o.nul) && Length(q) == QuantLength(q);
    OneCopy(Ranges(q.target));
    hide Code, Length, Plus, LoopCode, LoopLength;
    var i := Jump(if q.greedy then HeadSize(q) else SIZE_OP_JUMP);
    PlusSame(o, i);
    PlusFirst(o, i, LoopCode(q, o.Rep(), o.nul), Ranges(q.target), Nuls(q.target) + OwnNul(q));
  }

  lemma PushNode(o: Out, q: Node)
    requires q.Quant? && ShapeOf(q).PushLoop? && Fits(q, o.Rep(), o.nul)
    ensures var body := q.target;
      AfterNode(o, q) == AfterLoop(AfterTimes(o, body, q.lower), q)
      && Room(Length(body), o.Rep(), Scaled(Reps(body), q.lower), o.nul, Scaled(Nuls(body), q.lower))
      && Room(LoopLength(q), o.Rep() + Scaled(Reps(body), q.lower), Reps(body), o.nul + Scaled(Nuls(body), q.lower),
          Nuls(body) + OwnNul(q))
  {
    hide Code, Length, Plus, LoopCode, LoopLength, CodeTimes, Ranges, Nuls, Times, ShapeOf, Scaled;
    PushFacts(q, o.Rep(), o.nul);
    var body := q.target;
    TargetLength(q);
    OneCopy(Ranges(body));
    TimesSplit(Ranges(body), q.lower, 1);
    TimesLength(Ranges(body), q.lower);
    TimesSizes(o, body, q.lower);
    var o1 := AfterTimes(o, body, q.lower);
    TimesThen(o, body, q.lower, LoopCode(q, o1.Rep(), o1.nul), Ranges(body), Nuls(body) + OwnNul(q));
  }

  lemma ExpandNode(o: Out, q: Node)
    requires q.Quant? && ShapeOf(q).Expand? && Fits(q, o.Rep(), o.nul)
    ensures var body, m := q.target, Max(q.upper - q.lower, 0);
      AfterNode(o, q) == AfterOptional(AfterTimes(o, body, q.lower), body, m)
      && (q.lower > 0 ==> Room(Length(body), o.Rep(), Scaled(Reps(body), q.lower), o.nul, Scaled(Nuls(body), q.lower)))
      && Room(Scaled(SIZE_OP_PUSH + Length(body), m), o.Rep() + Scaled(Reps(body), q.lower), Scaled(Reps(body), m),
              o.nul + Scaled(Nuls(body), q.lower), Scaled(Nuls(body), m))
  {
    hide Code, Length, Plus, OptionalCode, CodeTimes, Ranges, Nuls, Times, ShapeOf, Scaled;
    var body, m := q.target, Max(q.upper - q.lower, 0);
    ExpandFacts(q, o.Rep(), o.nul);
    if q.lower > 0 { ScaledStep(Length(body), q.lower); }
    TimesSplit(Ranges(body), q.lower, m);
    TimesLength(Ranges(body), q.lower);
    TimesLength(Ranges(body), m);
    TimesSizes(o, body, q.lower);
    var o1 := AfterTimes(o, body, q.lower);
    TimesThen(o, body, q.lower, OptionalCode(body, m, o1.Rep(), o1.nul), Times(Ranges(body), m), Scaled(Nuls(body), m));
  }

  lemma LazyNode(o: Out, q: Node)
    requires q.Quant? && ShapeOf(q).LazyOption? && Fits(q, o.Rep(), o.nul)
    ensures AfterNode(o, q)
        == AfterNode(Plus(Plus(o, [Push(SIZE_OP_JUMP)], [], 0), [Jump(Length(q.target))], [], 0), q.target)
    ensures Fits(q.target, o.Rep(), o.nul)
  {
    assert Code(q, o.Rep(), o.nul) == QuantCode(q, o.Rep(), o.nul) && Length(q) == QuantLength(q);
    OneCopy(Ranges(q.target));
    hide Code, Length, Plus, ShapeOf;
    var push, jump, body := Push(SIZE_OP_JUMP), Jump(Length(q.target)), Code(q.target, o.Rep(), o.nul);
    var o1 := Plus(o, [push], [], 0);
    PlusSame(o, push);
    PlusSame(o1, jump);
    PlusFirst(o1, jump, body, Ranges(q.target), Nuls(q.target));
    PlusFirst(o, push, [jump] + body, Ranges(q.target), Nuls(q.target));
    assert [push] + ([jump] + body) == [push, jump] + body;
  }

  /** PUSH x POP JUMP. */
  function AfterPopLoop(o: Out, body: Node): Out {
    var len := Length(body);
    var pushed := AfterNode(Plus(o, [Push(len + SIZE_OP_POP + SIZE_OP_JUMP)], [], 0), body);
    Plus(Plus(pushed, [Pop], [], 0), [Jump(-(SIZE_OP_PUSH + len + SIZE_OP_POP + SIZE_OP_JUMP))], [], 0)
  }

  function PopLoopCode(body: Node, rep: nat, nul: nat): seq<Instr> {
    var len := Length(body);
    [Push(len + SIZE_OP_POP + SIZE_OP_JUMP)] + Code(body, rep, nul) + [Pop]
        + [Jump(-(SIZE_OP_PUSH + len + SIZE_OP_POP + SIZE_OP_JUMP))]
  }

  lemma PopLoopOut(o: Out, body: Node)
    ensures AfterPopLoop(o, body) == Plus(o, PopLoopCode(body, o.Rep(), o.nul), Ranges(body), Nuls(body))
  {
    hide Code, Length, Plus, Ranges, Nuls;
    var len := Length(body);
    var push, jump := Push(len + SIZE_OP_POP + SIZE_OP_JUMP), Jump(-(SIZE_OP_PUSH + len + SIZE_OP_POP + SIZE_OP_JUMP));
    var code := Code(body, o.Rep(), o.nul);
    PlusSame(o, push);
    PlusFirst(o, push, code, Ranges(body), Nuls(body));
    PlusLast(o, [push] + code, Ranges(body), Nuls(body), Pop);
    PlusLast(o, [push] + code + [Pop], Ranges(body), Nuls(body), jump);
  }

  lemma SimpleFacts(n: Node, e: Env, rep: nat, nul: nat)
    requires n.Atomic? && n.simple && WellFormed(n, e)
    ensures var q := n.target; var body, m := q.target, q.lower;
      q.Quant? && WellFormed(body, e) && Ranges(n) == Times(Ranges(body), m + 1) && Nuls(n) == Scaled(Nuls(body), m + 1)
      && Code(n, rep, nul) == CodeTimes(body, m, rep, nul)
                              + PopLoopCode(body, rep + Scaled(Reps(body), m), nul + Scaled(Nuls(body), m))
  {
    hide CodeTimes, Scaled, Times, MinLen;
    var body, m := n.target.target, n.target.lower;
    var copies, code := CodeTimes(body, m, rep, nul),
        Code(body, rep + Scaled(Reps(body), m), nul + Scaled(Nuls(body), m));
    var push, jump := Push(Length(body) + SIZE_OP_POP + SIZE_OP_JUMP),
        Jump(-(SIZE_OP_PUSH + Length(body) + SIZE_OP_POP + SIZE_OP_JUMP));
    Regroup(copies, push, code, jump);
  }

  lemma Regroup(a: seq<Instr>, i: Instr, b: seq<Instr>, j: Instr)
    ensures a + [i] + b + [Pop, j] == a + ([i] + b + [Pop] + [j])
  {
  }

  lemma SimpleNode(o: Out, n: Node, e: Env)
    requires n.Atomic? && n.simple && WellFormed(n, e) && Fits(n, o.Rep(), o.nul)
    ensures var q := n.target; var body := q.target;
      q.Quant? && WellFormed(body, e)
      && Room(Length(body), o.Rep(), Scaled(Reps(body), q.lower), o.nul, Scaled(Nuls(body), q.lower))
      && Fits(body, o.Rep() + Scaled(Reps(body), q.lower), o.nul + Scaled(Nuls(body), q.lower))
      && AfterNode(o, n) == AfterPopLoop(AfterTimes(o, body, q.lower), body)
  {
    hide Code, Length, Plus, CodeTimes, Ranges, Nuls, Times, WellFormed, Scaled, AfterTimes, PopLoopCode, AfterPopLoop;
    SimpleFacts(n, e, o.Rep(), o.nul);
    var body, m := n.target.target, n.target.lower;
    SimpleRoom(n, o.Rep(), o.nul);
    var o1 := AfterTimes(o, body, m);
    TimesSizes(o, body, m);
    ScaledStep(Reps(body), m + 1);
    ScaledStep(Nuls(body), m + 1);
    TimesSplit(Ranges(body), m, 1);
    OneCopy(Ranges(body));
    PopLoopOut(o1, body);
    TimesThen(o, body, m, PopLoopCode(body, o1.Rep(), o1.nul), Ranges(body), Nuls(body));
  }

  class Compiler {
    var p: array<byte>
    var used: nat
    var numRepeat: nat
    var numNull: nat
    var repeatRange: array<Range>

    ghost predicate Valid()
      reads this, p, repeatRange
    {
      used <= p.Length && 0 < p.Length && numRepeat <= repeatRange.Length
    }

    ghost function Emitted(): Out
      reads this, p, repeatRange
      requires used <= p.Length && numRepeat <= repeatRange.Length
    {
      Out(p[..used], repeatRange[..numRepeat], numNull)
    }

    constructor (size: nat)
      requires 0 < size
      ensures Valid() && fresh(p) && fresh(repeatRange) && Emitted() == Out([], [], 0)
    {
      p := new byte[size](_ => 0);
      used, numRepeat, numNull := 0, 0, 0;
      repeatRange := new Range[0](_ => Range(0, 0, false));
    }

    /** BBUF_ADD: make room by doubling and copy the bytes to the end. */
    method AddBytes(bs: seq<byte>)
      requires Valid()
      modifies this`p, this`used, p
      ensures Valid() && (p == old(p) || fresh(p))
      ensures Emitted() == old(Emitted()).(code := old(Emitted()).code + bs)
    {
      var end := used + |bs|;
      if p.Length < end {
        var alloc := 2 * p.Length;
        while alloc < end
          invariant 0 < alloc
          decreases end - alloc
        {
          alloc := 2 * alloc;
        }
        var q := new byte[alloc](_ => 0);
        forall i | 0 <= i < used { q[i] := p[i]; }
        assert q[..used] == p[..used];
        p := q;
      }
      forall i | 0 <= i < |bs| { p[used + i] := bs[i]; }
      assert p[..end] == old(p[..used]) + bs;
      used := end;
    }

    /** add_opcode and the operands that go with it. */
    method Emit(i: Instr)
      requires Valid()
      modifies this`p, this`used, p
      ensures Valid() && (p == old(p) || fresh(p))
      ensures Emitted() == Plus(old(Emitted()), [i], [], 0)
    {
      hide Operands, OpNumber, Plus;
      ghost var o := Emitted();
      PlusOne(o, i);
      AddBytes([OpNumber(i)]);
      AddBytes(Operands(i));
    }

    /** entry_repeat_range: the table grows by four entries at a time. */
    method EntryRepeatRange(id: nat, r: Range)
      requires Valid() && id == numRepeat
      modifies this`repeatRange, this`numRepeat, repeatRange
      ensures Valid() && (repeatRange == old(repeatRange) || fresh(repeatRange))
      ensures Emitted() == Plus(old(Emitted()), [], [r], 0)
    {
      ghost var o := Emitted();
      if repeatRange.Length <= id {
        var q := new Range[repeatRange.Length + REPEAT_RANGE_ALLOC](_ => r);
        forall k | 0 <= k < repeatRange.Length { q[k] := repeatRange[k]; }
        assert q[..numRepeat] == repeatRange[..numRepeat];
        repeatRange := q;
      }
      repeatRange[id] := r;
      numRepeat := numRepeat + 1;
      assert repeatRange[..id] == o.table;
      assert repeatRange[..numRepeat] == repeatRange[..id] + [r];
      assert o.code + [] == o.code;
    }

    /** compile_tree. */
    method CompileTree(n: Node, ghost e: Env)
      requires Valid() && WellFormed(n, e) && Fits(n, numRepeat, numNull)
      modifies this, p, repeatRange
      ensures Valid() && (p == old(p) || fresh(p)) && (repeatRange == old(repeatRange) || fresh(repeatRange))
      ensures Emitted() == AfterNode(old(Emitted()), n)
      decreases n, 10
    {
      match n
      case Str(s) => if |s| > 0 { EmitLeaf(n, Exact(s)); } else { PlusNothing(Emitted()); }
      case CClass(bs, neg) => EmitLeaf(n, CClassOp(bs, neg));
      case Any(ml) => EmitLeaf(n, AnyChar(ml));
      case Backref(num) => EmitLeaf(n, BackrefOp(num));
      case Anchor(kind) => EmitLeaf(n, AnchorOp(kind));
      case Quant(_, _, _, _, _, _, _, _) => CompileQuantifier(n, e);
      case Group(num, pushStart, pushEnd, target) =>
        CompileFramed(n, MemStart(num, pushStart), target, MemEnd(num, pushEnd), e);
      case Atomic(target, simple) =>
        if simple { CompileSimple(n, e); } else { CompileFramed(n, PushStopBt, target, PopStopBt, e); }
      case Look(look, target, charLen) => CompileLook(n, e);
      case List(elems) => CompileList(n, e);
      case Alt(elems) => CompileAlt(n, e);
    }

    method EmitLeaf(n: Node, i: Instr)
      requires Valid() && (n.Str? || n.CClass? || n.Any? || n.Backref? || n.Anchor?)
          && Code(n, numRepeat, numNull) == [i]
      modifies this`p, this`used, p
      ensures Valid() && (p == old(p) || fresh(p))
      ensures Emitted() == AfterNode(old(Emitted()), n)
    {
      hide Plus, AfterNode, Code;
      LeafCode(n, i, Emitted());
      Emit(i);
    }

    /** An opcode, the body, an opcode. */
    method CompileFramed(n: Node, i: Instr, target: Node, j: Instr, ghost e: Env)
      requires Valid() && WellFormed(target, e) && Fits(target, numRepeat, numNull)
      requires Code(n, numRepeat, numNull) == [i] + Code(target, numRepeat, numNull) + [j]
      requires Ranges(n) == Ranges(target) && Nuls(n) == Nuls(target)
      modifies this, p, repeatRange
      ensures Valid() && (p == old(p) || fresh(p)) && (repeatRange == old(repeatRange) || fresh(repeatRange))
      ensures Emitted() == AfterNode(old(Emitted()), n)
      decreases target, 20
    {
      hide WellFormed, Code, Ranges, Nuls, Length, Plus;
      ghost var o, body := Emitted(), Code(target, numRepeat, numNull);
      PlusSame(o, i);
      Emit(i);
      CompileTree(target, e);
      Emit(j);
      PlusFirst(o, i, body, Ranges(target), Nuls(target));
      PlusLast(o, [i] + body, Ranges(target), Nuls(target), j);
    }

    method CompileLook(n: Node, ghost e: Env)
      requires Valid() && n.Look? && WellFormed(n, e) && Fits(n, numRepeat, numNull)
      modifies this, p, repeatRange
      ensures Valid() && (p == old(p) || fresh(p)) && (repeatRange == old(repeatRange) || fresh(repeatRange))
      ensures Emitted() == AfterNode(old(Emitted()), n)
      decreases n, 5
    {
      var target, len := n.target, Length(n.target);
      match n.look
      case Ahead => CompileFramed(n, PushPos, target, PopPos, e);
      case AheadNot => CompileFramed(n, PushPosNot(len + SIZE_OP_FAIL_POS), target, FailPos, e);
      case Behind => CompileBehind(n, e);
      case BehindNot =>
        CompileFramed(n, PushLookBehindNot(len + SIZE_OP_FAIL_LOOK_BEHIND_NOT, n.charLen), target, FailLookBehindNot,
            e);
    }

    method CompileBehind(n: Node, ghost e: Env)
      requires Valid() && n.Look? && n.look.Behind? && WellFormed(n, e) && Fits(n, numRepeat, numNull)
      modifies this, p, repeatRange
      ensures Valid() && (p == old(p) || fresh(p)) && (repeatRange == old(repeatRange) || fresh(repeatRange))
      ensures Emitted() == AfterNode(old(Emitted()), n)
      decreases n, 4
    {
      hide Plus;
      ghost var o, i := Emitted(), LookBehind(n.charLen);
      PlusSame(o, i);
      Emit(LookBehind(n.charLen));
      CompileTree(n.target, e);
      PlusFirst(o, i, Code(n.target, o.Rep(), o.nul), Ranges(n.target), Nuls(n.target));
    }

    /** compile_tree_n_times. */
    method CompileTimes(n: Node, count: nat, ghost e: Env)
      requires Valid() && WellFormed(n, e)
      requires count > 0 ==> Room(Length(n), numRepeat, Scaled(Reps(n), count), numNull, Scaled(Nuls(n), count))
      modifies this, p, repeatRange
      ensures Valid() && (p == old(p) || fresh(p)) && (repeatRange == old(repeatRange) || fresh(repeatRange))
      ensures Emitted() == AfterTimes(old(Emitted()), n, count)
      decreases n, 20
    {
      hide WellFormed, Code, Ranges, Nuls, Length, AfterTimes, Scaled, Plus;
      ghost var goal := AfterTimes(Emitted(), n, count);
      TimesTurn(Emitted(), n, count);
      var i := 0;
      while i < count
        invariant 0 <= i <= count && Valid() && (p == old(p) || fresh(p))
            && (repeatRange == old(repeatRange) || fresh(repeatRange))
        invariant AfterTimes(Emitted(), n, count - i) == goal
        invariant i < count ==>
            Room(Length(n), numRepeat, Scaled(Reps(n), count - i), numNull, Scaled(Nuls(n), count - i))
      {
        ScaledStep(Reps(n), count - i);
        ScaledStep(Nuls(n), count - i);
        TimesTurn(Emitted(), n, count - i);
        PlusSizes(Emitted(), Code(n, numRepeat, numNull), Ranges(n), Nuls(n));
        CompileTree(n, e);
        i := i + 1;
      }
      TimesTurn(Emitted(), n, 0);
    }

    /** compile_tree on the cells of a list. */
    method CompileList(n: Node, ghost e: Env)
      requires Valid() && n.List? && WellFormed(n, e) && Fits(n, numRepeat, numNull)
      modifies this, p, repeatRange
      ensures Valid() && (p == old(p) || fresh(p)) && (repeatRange == old(repeatRange) || fresh(repeatRange))
      ensures Emitted() == AfterNode(old(Emitted()), n)
      decreases n, 5
    {
      var ns := n.elems;
      ghost var goal := AfterNode(Emitted(), n);
      ListNode(Emitted(), n);
      hide WellFormed, Length, Nuls, Ranges, Code, Plus, AfterNode, ListCode;
      while true
        invariant Valid() && (p == old(p) || fresh(p)) && (repeatRange == old(repeatRange) || fresh(repeatRange))
        invariant (ns == n.elems || ns < n.elems) && WellFormedAll(ns, e)
        invariant Room(ListLength(ns), numRepeat, RepsOf(ns), numNull, NulsOf(ns))
        invariant Plus(Emitted(), ListCode(ns, numRepeat, numNull), RangesOf(ns), NulsOf(ns)) == goal
        decreases ns
      {
        ListTurn(Emitted(), ns);
        AfterSizes(Emitted(), ns.car);
        CompileTree(ns.car, e);
        if ns.Last? { break; }
        ns := ns.cdr;
      }
    }

    /** compile_tree on alternatives: the jumps are computed from the predicted goal position. */
    method CompileAlt(n: Node, ghost e: Env)
      requires Valid() && n.Alt? && WellFormed(n, e) && Fits(n, numRepeat, numNull)
      modifies this, p, repeatRange
      ensures Valid() && (p == old(p) || fresh(p)) && (repeatRange == old(repeatRange) || fresh(repeatRange))
      ensures Emitted() == AfterNode(old(Emitted()), n)
      decreases n, 5
    {
      var ns := n.elems;
      var pos := used + AltLength(ns);
      ghost var goal := AfterAlt(Emitted(), ns);
      AltNode(Emitted(), n);
      hide WellFormed, WellFormedAll, Length, AltLength, Nuls, NulsOf, Ranges, RangesOf, AfterNode, AfterAlt, Room;
      while true
        invariant Valid() && (p == old(p) || fresh(p)) && (repeatRange == old(repeatRange) || fresh(repeatRange))
        invariant (ns == n.elems || ns < n.elems) && WellFormedAll(ns, e)
        invariant Room(AltLength(ns), numRepeat, RepsOf(ns), numNull, NulsOf(ns)) && pos == used + AltLength(ns)
        invariant AfterAlt(Emitted(), ns) == goal
        decreases ns
      {
        CompileTurn(ns, pos, e);
        if ns.Last? { break; }
        ns := ns.cdr;
      }
    }

    /** One alternative and, if more follow, its jumps. */
    method CompileTurn(ns: Nodes, pos: nat, ghost e: Env)
      requires Valid() && WellFormedAll(ns, e)
      requires Room(AltLength(ns), numRepeat, RepsOf(ns), numNull, NulsOf(ns)) && pos == used + AltLength(ns)
      modifies this, p, repeatRange
      ensures Valid() && (p == old(p) || fresh(p)) && (repeatRange == old(repeatRange) || fresh(repeatRange))
      ensures ns.Last? ==> Emitted() == AfterAlt(old(Emitted()), ns)
      ensures ns.Link? ==> AfterAlt(Emitted(), ns.cdr) == AfterAlt(old(Emitted()), ns) && WellFormedAll(ns.cdr, e)
      ensures ns.Link? ==>
          Room(AltLength(ns.cdr), numRepeat, RepsOf(ns.cdr), numNull, NulsOf(ns.cdr)) && pos == used + AltLength(ns.cdr)
      decreases ns, 1
    {
      AltTurn(Emitted(), ns);
      hide WellFormed, Length, Nuls, Ranges, Code, Plus, AfterNode, AltCode;
      if ns.Last? { CompileLastAlternative(ns, e); } else { CompileAlternative(ns, pos, e); }
    }

    method CompileLastAlternative(ns: Nodes, ghost e: Env)
      requires Valid() && ns.Last? && WellFormedAll(ns, e)
      requires Room(AltLength(ns), numRepeat, RepsOf(ns), numNull, NulsOf(ns))
      modifies this, p, repeatRange
      ensures Valid() && (p == old(p) || fresh(p)) && (repeatRange == old(repeatRange) || fresh(repeatRange))
      ensures Emitted() == AfterNode(old(Emitted()), ns.car)
      decreases ns, 0
    {
      hide WellFormed, Length, Nuls, Ranges, Code, Plus, AfterNode;
      CompileTree(ns.car, e);
    }

    method CompileAlternative(ns: Nodes, pos: nat, ghost e: Env)
      requires Valid() && ns.Link? && WellFormedAll(ns, e)
      requires Room(AltLength(ns), numRepeat, RepsOf(ns), numNull, NulsOf(ns)) && pos == used + AltLength(ns)
      modifies this, p, repeatRange
      ensures Valid() && (p == old(p) || fresh(p)) && (repeatRange == old(repeatRange) || fresh(repeatRange))
      ensures Emitted() == Plus(AfterNode(Plus(old(Emitted()), [Push(Length(ns.car) + SIZE_OP_JUMP)], [], 0), ns.car),
                                [Jump(AltLength(ns.cdr))], [], 0)
      ensures Room(AltLength(ns.cdr), numRepeat, RepsOf(ns.cdr), numNull, NulsOf(ns.cdr))
          && pos == used + AltLength(ns.cdr)
      ensures WellFormedAll(ns.cdr, e)
      decreases ns, 0
    {
      hide WellFormed, Length, Nuls, Ranges, Code, Plus, AfterNode, AltCode;
      ghost var o := Emitted();
      var push := Push(Length(ns.car) + SIZE_OP_JUMP);
      PlusSame(o, push);
      JumpGrows(o, Length(ns.car) + SIZE_OP_JUMP);
      Emit(push);
      ghost var o1 := Emitted();
      AfterSizes(o1, ns.car);
      NodeGrows(o1, ns.car, e);
      CompileTree(ns.car, e);
      ghost var o2 := Emitted();
      var len := pos - (used + SIZE_OP_JUMP);
      JumpGrows(o2, len);
      PlusSame(o2, Jump(len));
      Emit(Jump(len));
    }

    // -------------------------------------------------------------- quantifiers

    /** compile_tree_empty_check. */
    method CompileChecked(q: Node, ghost e: Env)
      requires Valid() && q.Quant? && WellFormed(q.target, e)
      requires Room(CheckedLength(q), numRepeat, Reps(q.target), numNull, Nuls(q.target) + OwnNul(q))
      modifies this, p, repeatRange
      ensures Valid() && (p == old(p) || fresh(p)) && (repeatRange == old(repeatRange) || fresh(repeatRange))
      ensures Emitted() == AfterChecked(old(Emitted()), q)
      decreases q.target, 30
    {
      PlainChecked(Emitted(), q);
      hide WellFormed, Length, Nuls, Ranges, Code, AfterChecked, AfterNode, Plus;
      if q.emptyInfo.NotEmpty? {
        CompileTree(q.target, e);
      } else {
        CompileGuarded(q, e);
      }
    }

    /** The target between the null-check instructions of the next number. */
    method CompileGuarded(q: Node, ghost e: Env)
      requires Valid() && q.Quant? && !q.emptyInfo.NotEmpty? && WellFormed(q.target, e)
      requires Fits(q.target, numRepeat, numNull + 1)
      modifies this, p, repeatRange
      ensures Valid() && (p == old(p) || fresh(p)) && (repeatRange == old(repeatRange) || fresh(repeatRange))
      ensures Emitted() == AfterChecked(old(Emitted()), q)
      decreases q.target, 20
    {
      hide WellFormed, Length, Nuls, Ranges, Code, AfterChecked, AfterNode, Plus, Fits;
      ghost var o := Emitted();
      var saved := numNull;
      var end := if q.emptyInfo.Empty? then NullCheckEnd(saved) else NullCheckEndMemst(saved);
      CheckedTurn(o, q, end);
      PlusSame(o, NullCheckStart(saved));
      Emit(NullCheckStart(saved));
      numNull := numNull + 1;
      CompileTree(q.target, e);
      Emit(end);
    }

    /** The push/jump loop of compile_quantifier_node. */
    method CompileLoop(q: Node, ghost e: Env)
      requires Valid() && q.Quant? && WellFormed(q.target, e)
      requires Room(LoopLength(q), numRepeat, Reps(q.target), numNull, Nuls(q.target) + OwnNul(q))
      modifies this, p, repeatRange
      ensures Valid() && (p == old(p) || fresh(p)) && (repeatRange == old(repeatRange) || fresh(repeatRange))
      ensures Emitted() == AfterLoop(old(Emitted()), q)
      decreases q.target, 31
    {
      hide WellFormed, Length, Nuls, Ranges, Code, CheckedLength, CheckedCode, Plus;
      ghost var o := Emitted();
      var mod := CheckedLength(q);
      var head := if q.greedy then HeadOp(q) else Jump(mod);
      var tail := if q.greedy then Jump(-(mod + SIZE_OP_JUMP + HeadSize(q))) else Push(-(mod + SIZE_OP_PUSH));
      PlusSame(o, head);
      Emit(head);
      CompileChecked(q, e);
      Emit(tail);
      PlusFirst(o, head, CheckedCode(q, o.Rep(), o.nul), Ranges(q.target), Nuls(q.target) + OwnNul(q));
      PlusLast(o, [head] + CheckedCode(q, o.Rep(), o.nul), Ranges(q.target), Nuls(q.target) + OwnNul(q), tail);
    }

    /** The nested optional copies of compile_quantifier_node. */
    method CompileOptional(n: Node, count: nat, ghost e: Env)
      requires Valid() && WellFormed(n, e)
      requires Room(Scaled(SIZE_OP_PUSH + Length(n), count), numRepeat, Scaled(Reps(n), count), numNull,
          Scaled(Nuls(n), count))
      modifies this, p, repeatRange
      ensures Valid() && (p == old(p) || fresh(p)) && (repeatRange == old(repeatRange) || fresh(repeatRange))
      ensures Emitted() == AfterOptional(old(Emitted()), n, count)
      decreases n, 20
    {
      hide WellFormed, Code, Ranges, Nuls, Length, AfterOptional, Scaled, Plus;
      ghost var goal := AfterOptional(Emitted(), n, count);
      var tlen, i := Length(n), 0;
      while i < count
        invariant 0 <= i <= count && Valid() && (p == old(p) || fresh(p))
            && (repeatRange == old(repeatRange) || fresh(repeatRange))
        invariant AfterOptional(Emitted(), n, count - i) == goal
        invariant Room(Scaled(SIZE_OP_PUSH + tlen, count - i), numRepeat, Scaled(Reps(n), count - i), numNull,
            Scaled(Nuls(n), count - i))
      {
        ScaledStep(Reps(n), count - i);
        ScaledStep(Nuls(n), count - i);
        ScaledStep(SIZE_OP_PUSH + tlen, count - i);
        OptionalTurn(Emitted(), n, count - i);
        var push := Push(Scaled(tlen, count - i) + Scaled(SIZE_OP_PUSH, count - i - 1));
        PlusSame(Emitted(), push);
        Emit(push);
        PlusSizes(Emitted(), Code(n, numRepeat, numNull), Ranges(n), Nuls(n));
        CompileTree(n, e);
        i := i + 1;
      }
      OptionalTurn(Emitted(), n, 0);
    }

    /** compile_range_repeat_node. */
    method CompileCounter(q: Node, ghost e: Env)
      requires Valid() && q.Quant? && ShapeOf(q).Counter? && WellFormed(q.target, e) && Fits(q, numRepeat, numNull)
      modifies this, p, repeatRange
      ensures Valid() && (p == old(p) || fresh(p)) && (repeatRange == old(repeatRange) || fresh(repeatRange))
      ensures Emitted() == AfterNode(old(Emitted()), q)
      decreases q.target, 31
    {
      ghost var o := Emitted();
      CounterNode(o, q);
      hide WellFormed, Length, Nuls, Ranges, Code, CheckedLength, CheckedCode, Plus, ShapeOf, AfterChecked, AfterNode;
      hide UpperCount;
      var id := numRepeat;
      StartCounter(q);
      CompileChecked(q, e);
      Emit(RepeatInc(q.greedy, q.inRepeat, id));
    }

    /** OP_REPEAT and the entry of its number in the table. */
    method StartCounter(q: Node)
      requires Valid() && q.Quant?
      modifies this, p, repeatRange
      ensures Valid() && (p == old(p) || fresh(p)) && (repeatRange == old(repeatRange) || fresh(repeatRange))
      ensures var r := Range(q.lower, UpperCount(q.upper), q.inRepeat);
        Emitted() == Plus(Plus(old(Emitted()),
            [Repeat(q.greedy, old(numRepeat), CheckedLength(q) + SIZE_OP_REPEAT_INC)], [], 0), [], [r], 0)
      ensures numRepeat == old(numRepeat) + 1 && numNull == old(numNull)
    {
      hide CheckedLength, Plus, UpperCount;
      ghost var o := Emitted();
      var id, len := numRepeat, CheckedLength(q);
      var r := Range(q.lower, UpperCount(q.upper), q.inRepeat);
      PlusSame(o, Repeat(q.greedy, id, len + SIZE_OP_REPEAT_INC));
      Emit(Repeat(q.greedy, id, len + SIZE_OP_REPEAT_INC));
      PlusSizes(Emitted(), [], [r], 0);
      EntryRepeatRange(id, r);
    }

    /** compile_quantifier_node. */
    method CompileQuantifier(q: Node, ghost e: Env)
      requires Valid() && q.Quant? && WellFormed(q, e) && Fits(q, numRepeat, numNull)
      modifies this, p, repeatRange
      ensures Valid() && (p == old(p) || fresh(p)) && (repeatRange == old(repeatRange) || fresh(repeatRange))
      ensures Emitted() == AfterNode(old(Emitted()), q)
      decreases q, 5
    {
      assert WellFormed(q.target, e);
      match ShapeOf(q)
      case AnyStar => CompileStar(q, e);
      case EnterLoop => CompileEnterLoop(q, e);
      case PushLoop => CompilePushLoop(q, e);
      case Expand => CompileExpand(q, e);
      case LazyOption => CompileLazy(q, e);
      case Counter => CompileCounter(q, e);
    }

    method CompileStar(q: Node, ghost e: Env)
      requires Valid() && q.Quant? && ShapeOf(q).AnyStar? && WellFormed(q.target, e) && Fits(q, numRepeat, numNull)
      modifies this, p, repeatRange
      ensures Valid() && (p == old(p) || fresh(p)) && (repeatRange == old(repeatRange) || fresh(repeatRange))
      ensures Emitted() == AfterNode(old(Emitted()), q)
      decreases q.target, 31
    {
      hide WellFormed, Length, Nuls, Ranges, Code, Plus, ShapeOf, AfterTimes, Scaled, AfterNode;
      StarNode(Emitted(), q);
      CompileTimes(q.target, q.lower, e);
      Emit(StarOp(q));
    }

    method CompileEnterLoop(q: Node, ghost e: Env)
      requires Valid() && q.Quant? && ShapeOf(q).EnterLoop? && WellFormed(q.target, e) && Fits(q, numRepeat, numNull)
      modifies this, p, repeatRange
      ensures Valid() && (p == old(p) || fresh(p)) && (repeatRange == old(repeatRange) || fresh(repeatRange))
      ensures Emitted() == AfterNode(old(Emitted()), q)
      decreases q.target, 32
    {
      hide WellFormed, Length, Nuls, Ranges, Code, Plus, ShapeOf, AfterLoop, Scaled, AfterNode, LoopLength;
      EnterNode(Emitted(), q);
      var i := Jump(if q.greedy then HeadSize(q) else SIZE_OP_JUMP);
      PlusSame(Emitted(), i);
      Emit(i);
      CompileLoop(q, e);
    }

    method CompilePushLoop(q: Node, ghost e: Env)
      requires Valid() && q.Quant? && ShapeOf(q).PushLoop? && WellFormed(q.target, e) && Fits(q, numRepeat, numNull)
      modifies this, p, repeatRange
      ensures Valid() && (p == old(p) || fresh(p)) && (repeatRange == old(repeatRange) || fresh(repeatRange))
      ensures Emitted() == AfterNode(old(Emitted()), q)
      decreases q.target, 32
    {
      hide WellFormed, Length, Nuls, Ranges, Code, Plus, ShapeOf, AfterTimes, AfterLoop, Scaled, AfterNode, LoopLength;
      PushNode(Emitted(), q);
      TimesSizes(Emitted(), q.target, q.lower);
      CompileTimes(q.target, q.lower, e);
      CompileLoop(q, e);
    }

    method CompileExpand(q: Node, ghost e: Env)
      requires Valid() && q.Quant? && ShapeOf(q).Expand? && WellFormed(q.target, e) && Fits(q, numRepeat, numNull)
      modifies this, p, repeatRange
      ensures Valid() && (p == old(p) || fresh(p)) && (repeatRange == old(repeatRange) || fresh(repeatRange))
      ensures Emitted() == AfterNode(old(Emitted()), q)
      decreases q.target, 31
    {
      hide WellFormed, Length, Nuls, Ranges, Code, Plus, ShapeOf, AfterTimes, AfterOptional, Scaled, AfterNode;
      ExpandNode(Emitted(), q);
      TimesSizes(Emitted(), q.target, q.lower);
      CompileTimes(q.target, q.lower, e);
      CompileOptional(q.target, Max(q.upper - q.lower, 0), e);
    }

    method CompileLazy(q: Node, ghost e: Env)
      requires Valid() && q.Quant? && ShapeOf(q).LazyOption? && WellFormed(q.target, e) && Fits(q, numRepeat, numNull)
      modifies this, p, repeatRange
      ensures Valid() && (p == old(p) || fresh(p)) && (repeatRange == old(repeatRange) || fresh(repeatRange))
      ensures Emitted() == AfterNode(old(Emitted()), q)
      decreases q.target, 31
    {
      hide WellFormed, Length, Nuls, Ranges, Code, Plus, ShapeOf, AfterNode;
      LazyNode(Emitted(), q);
      var push, jump := Push(SIZE_OP_JUMP), Jump(Length(q.target));
      PlusSame(Emitted(), push);
      Emit(push);
      PlusSame(Emitted(), jump);
      Emit(jump);
      CompileTree(q.target, e);
    }

    /** (?>x*) with a simple target. */
    method CompileSimple(n: Node, ghost e: Env)
      requires Valid() && n.Atomic? && n.simple && WellFormed(n, e) && Fits(n, numRepeat, numNull)
      modifies this, p, repeatRange
      ensures Valid() && (p == old(p) || fresh(p)) && (repeatRange == old(repeatRange) || fresh(repeatRange))
      ensures Emitted() == AfterNode(old(Emitted()), n)
      decreases n, 5
    {
      ghost var o := Emitted();
      var q := n.target;
      SimpleNode(o, n, e);
      hide WellFormed, Length, Nuls, Ranges, Code, Plus, AfterTimes, AfterNode, Scaled, AfterPopLoop;
      TimesSizes(o, q.target, q.lower);
      CompileTimes(q.target, q.lower, e);
      CompilePopLoop(q.target, e);
    }

    method CompilePopLoop(body: Node, ghost e: Env)
      requires Valid() && WellFormed(body, e) && Fits(body, numRepeat, numNull)
      modifies this, p, repeatRange
      ensures Valid() && (p == old(p) || fresh(p)) && (repeatRange == old(repeatRange) || fresh(repeatRange))
      ensures Emitted() == AfterPopLoop(old(Emitted()), body)
      decreases body, 20
    {
      hide WellFormed, Length, Nuls, Ranges, Code, Plus, AfterNode;
      var len := Length(body);
      var push := Push(len + SIZE_OP_POP + SIZE_OP_JUMP);
      PlusSame(Emitted(), push);
      Emit(push);
      CompileTree(body, e);
      Emit(Pop);
      Emit(Jump(-(SIZE_OP_PUSH + len + SIZE_OP_POP + SIZE_OP_JUMP)));
    }
  }
}
