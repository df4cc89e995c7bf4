/** The code generator: compile_length_tree and compile_tree (regcomp.c:311-1824) as functions.  `Length` is
    the size prediction every relative jump is computed from; `Code` is the instruction sequence emitted.
    `rep` and `nul` are the values of num_repeat and num_null_check when the node is reached. */
module Codegen {
  import opened Common
  import opened Tree
  import opened Opcodes

  const QUANTIFIER_EXPAND_LIMIT_SIZE := 50

  /** The six ways compile_quantifier_node turns a quantifier into code. */
  datatype Shape =
    | AnyStar        // .* with a dedicated opcode
    | EnterLoop      // a jump into the middle of a push/jump loop
    | PushLoop       // `lower` copies, then a push/jump loop
    | Expand         // `lower` copies, then nested optional copies
    | LazyOption     // ??
    | Counter        // OP_REPEAT ... OP_REPEAT_INC

  function ShapeOf(q: Node): Shape
    requires q.Quant?
    decreases q, 0, 0
  {
    var tlen := Length(q.target);
    if q.target.Any? && q.greedy && Infinite(q.upper) then AnyStar
    else if Infinite(q.upper) && (q.lower <= 1 || tlen * q.lower <= QUANTIFIER_EXPAND_LIMIT_SIZE) then
      if q.lower == 1 && tlen > QUANTIFIER_EXPAND_LIMIT_SIZE then EnterLoop else PushLoop
    else if !Infinite(q.upper) && q.greedy &&
            (q.upper == 1 || (tlen + SIZE_OP_PUSH) * q.upper <= QUANTIFIER_EXPAND_LIMIT_SIZE) then Expand
    else if !q.greedy && q.upper == 1 && q.lower == 0 then LazyOption
    else Counter
  }

  /** compile_length_tree. */
  function Length(n: Node): nat
    decreases n, 1
  {
    match n
    case Str(s) => StrLength(s)
    case CClass(_, _) => SIZE_OPCODE + SIZE_BITSET
    case Any(_) => SIZE_OPCODE
    case Backref(num) => if num <= 2 then SIZE_OPCODE else SIZE_OPCODE + SIZE_MEMNUM
    case Quant(_, _, _, _, _, _, _, _) => QuantLength(n)
    case Group(_, _, _, target) => SIZE_OP_MEMORY + Length(target) + SIZE_OP_MEMORY
    case Atomic(target, simple) =>
      if simple && target.Quant? then
        var tlen := Length(target.target);
        Scaled(tlen, target.lower) + SIZE_OP_PUSH + tlen + SIZE_OP_POP + SIZE_OP_JUMP
      else SIZE_OP_PUSH_STOP_BT + Length(target) + SIZE_OP_POP_STOP_BT
    case Look(look, target, _) =>
      var tlen := Length(target);
      (match look
       case Ahead => SIZE_OP_PUSH_POS + tlen + SIZE_OP_POP_POS
       case AheadNot => SIZE_OP_PUSH_POS_NOT + tlen + SIZE_OP_FAIL_POS
       case Behind => SIZE_OP_LOOK_BEHIND + tlen
       case BehindNot => SIZE_OP_PUSH_LOOK_BEHIND_NOT + tlen + SIZE_OP_FAIL_LOOK_BEHIND_NOT)
    case Anchor(_) => SIZE_OPCODE
    case List(elems) => ListLength(elems)
    case Alt(elems) => AltLength(elems)
  }

  /** add_compile_string_length for single-byte characters. */
  function StrLength(s: seq<byte>): nat {
    if |s| == 0 then 0
    else if |s| <= 5 then SIZE_OPCODE + |s| else SIZE_OPCODE + SIZE_LENGTH + |s|
  }

  function ListLength(ns: Nodes): nat
    decreases ns, 1
  {
    match ns
    case Last(car) => Length(car)
    case Link(car, cdr) => Length(car) + ListLength(cdr)
  }

  function AltLength(ns: Nodes): nat
    decreases ns, 1
  {
    match ns
    case Last(car) => Length(car)
    case Link(car, cdr) => SIZE_OP_PUSH + Length(car) + SIZE_OP_JUMP + AltLength(cdr)
  }

  /** The loop-head instruction of a greedy push/jump loop. */
  function HeadSize(q: Node): nat
    requires q.Quant?
  {
    if q.headExact.Some? then SIZE_OP_PUSH_OR_JUMP_EXACT1
    else if q.nextHead.Some? then SIZE_OP_PUSH_IF_PEEK_NEXT
    else SIZE_OP_PUSH
  }

  function CheckedLength(q: Node): nat
    requires q.Quant?
    decreases q, 0, 0
  {
    Length(q.target) + if q.emptyInfo.NotEmpty? then 0 else SIZE_OP_NULL_CHECK + SIZE_OP_NULL_CHECK
  }

  /** compile_length_quantifier_node. */
  function QuantLength(q: Node): nat
    requires q.Quant?
    decreases q, 0, 2
  {
    var tlen: nat := Length(q.target);
    var copies := Scaled(tlen, q.lower);
    match ShapeOf(q)
    case AnyStar =>
      copies + if q.nextHead.Some? then SIZE_OP_ANYCHAR_STAR_PEEK_NEXT else SIZE_OP_ANYCHAR_STAR
    case EnterLoop => SIZE_OP_JUMP + LoopLength(q)
    case PushLoop => copies + LoopLength(q)
    case Expand =>
      copies + Scaled(SIZE_OP_PUSH + tlen, Max(q.upper - q.lower, 0))
    case LazyOption => SIZE_OP_PUSH + SIZE_OP_JUMP + tlen
    case Counter => SIZE_OP_REPEAT_INC + CheckedLength(q) + SIZE_OPCODE + SIZE_RELADDR + SIZE_MEMNUM
  }

  function LoopLength(q: Node): nat
    requires q.Quant?
    decreases q, 0, 1
  {
    if q.greedy then HeadSize(q) + CheckedLength(q) + SIZE_OP_JUMP
    else SIZE_OP_JUMP + CheckedLength(q) + SIZE_OP_PUSH
  }

  /** How many copies of the target a quantifier emits. */
  function Copies(q: Node): nat
    requires q.Quant?
  {
    match ShapeOf(q)
    case AnyStar => q.lower
    case EnterLoop => 1
    case PushLoop => q.lower + 1
    case Expand => q.lower + Max(q.upper - q.lower, 0)
    case LazyOption => 1
    case Counter => 1
  }

  /** The table entries a node adds to reg->repeat_range, in the order of their numbers.  `nested` is not stored
      there: it says whether the loop stands inside a repetition and so uses the opcode that searches the stack. */
  datatype Range = Range(lower: nat, upper: nat, nested: bool)

  const INFINITE_COUNT := 0x7fff_ffff

  function UpperCount(upper: int): nat {
    if Infinite(upper) || upper < 0 then INFINITE_COUNT else upper
  }

  function Times(rs: seq<Range>, k: nat): seq<Range> {
    if k == 0 then [] else rs + Times(rs, k - 1)
  }

  function Ranges(n: Node): seq<Range> {
    match n
    case Quant(target, lower, upper, _, _, inRepeat, _, _) =>
      if ShapeOf(n).Counter? then [Range(lower, UpperCount(upper), inRepeat)] + Ranges(target)
      else Times(Ranges(target), Copies(n))
    case Group(_, _, _, target) => Ranges(target)
    case Atomic(target, simple) =>
      if simple && target.Quant? then Times(Ranges(target.target), target.lower + 1) else Ranges(target)
    case Look(_, target, _) => Ranges(target)
    case List(elems) => RangesOf(elems)
    case Alt(elems) => RangesOf(elems)
    case _ => []
  }

  function RangesOf(ns: Nodes): seq<Range> {
    match ns
    case Last(car) => Ranges(car)
    case Link(car, cdr) => Ranges(car) + RangesOf(cdr)
  }

  /** How many OP_REPEAT numbers a node takes. */
  function Reps(n: Node): nat { |Ranges(n)| }

  function RepsOf(ns: Nodes): nat { |RangesOf(ns)| }

  /** How many null-check numbers a node takes. */
  function Nuls(n: Node): nat {
    match n
    case Quant(target, lower, upper, _, emptyInfo, _, _, _) =>
      var own := if emptyInfo.NotEmpty? then 0 else 1;
      (match ShapeOf(n)
       case AnyStar => Scaled(Nuls(target), lower)
       case EnterLoop => own + Nuls(target)
       case PushLoop => Scaled(Nuls(target), lower) + own + Nuls(target)
       case Expand => Scaled(Nuls(target), lower) + Scaled(Nuls(target), Max(upper - lower, 0))
       case LazyOption => Nuls(target)
       case Counter => own + Nuls(target))
    case Group(_, _, _, target) => Nuls(target)
    case Atomic(target, simple) =>
      if simple && target.Quant? then Scaled(Nuls(target.target), target.lower + 1) else Nuls(target)
    case Look(_, target, _) => Nuls(target)
    case List(elems) => NulsOf(elems)
    case Alt(elems) => NulsOf(elems)
    case _ => 0
  }

  function NulsOf(ns: Nodes): nat {
    match ns
    case Last(car) => Nuls(car)
    case Link(car, cdr) => Nuls(car) + NulsOf(cdr)
  }

  /** compile_tree. */
  function Code(n: Node, rep: nat, nul: nat): seq<Instr>
    decreases n, 2
  {
    match n
    case Str(s) => if s == [] then [] else [Exact(s)]
    case CClass(bs, neg) => [CClassOp(bs, neg)]
    case Any(ml) => [AnyChar(ml)]
    case Backref(num) => [BackrefOp(num)]
    case Quant(_, _, _, _, _, _, _, _) => QuantCode(n, rep, nul)
    case Group(num, pushStart, pushEnd, target) =>
      [MemStart(num, pushStart)] + Code(target, rep, nul) + [MemEnd(num, pushEnd)]
    case Atomic(target, simple) =>
      if simple && target.Quant? then
        var body, k := target.target, target.lower;
        CodeTimes(body, k, rep, nul)
        + [Push(Length(body) + SIZE_OP_POP + SIZE_OP_JUMP)]
        + Code(body, rep + Scaled(Reps(body), k), nul + Scaled(Nuls(body), k))
        + [Pop, Jump(-(SIZE_OP_PUSH + Length(body) + SIZE_OP_POP + SIZE_OP_JUMP))]
      else [PushStopBt] + Code(target, rep, nul) + [PopStopBt]
    case Look(look, target, charLen) =>
      (match look
       case Ahead => [PushPos] + Code(target, rep, nul) + [PopPos]
       case AheadNot => [PushPosNot(Length(target) + SIZE_OP_FAIL_POS)] + Code(target, rep, nul) + [FailPos]
       case Behind => [LookBehind(charLen)] + Code(target, rep, nul)
       case BehindNot =>
         [PushLookBehindNot(Length(target) + SIZE_OP_FAIL_LOOK_BEHIND_NOT, charLen)]
         + Code(target, rep, nul) + [FailLookBehindNot])
    case Anchor(kind) => [AnchorOp(kind)]
    case List(elems) => ListCode(elems, rep, nul)
    case Alt(elems) => AltCode(elems, rep, nul)
  }

  function AnchorOp(kind: AnchorKind): Instr {
    match kind
    case BeginBuf => BeginBufOp
    case EndBuf => EndBufOp
    case BeginLine => BeginLineOp
    case EndLine => EndLineOp
    case SemiEndBuf => SemiEndBufOp
    case BeginPosition => BeginPositionOp
    case AnyCharStar => BeginPosOrLineOp
    case Keep => KeepOp
  }

  function ListCode(ns: Nodes, rep: nat, nul: nat): seq<Instr>
    decreases ns, 2
  {
    match ns
    case Last(car) => Code(car, rep, nul)
    case Link(car, cdr) => Code(car, rep, nul) + ListCode(cdr, rep + Reps(car), nul + Nuls(car))
  }

  function AltCode(ns: Nodes, rep: nat, nul: nat): seq<Instr>
    decreases ns, 2
  {
    match ns
    case Last(car) => Code(car, rep, nul)
    case Link(car, cdr) =>
      [Push(Length(car) + SIZE_OP_JUMP)] + Code(car, rep, nul) + [Jump(AltLength(cdr))]
      + AltCode(cdr, rep + Reps(car), nul + Nuls(car))
  }

  /** compile_tree_n_times. */
  function CodeTimes(n: Node, k: nat, rep: nat, nul: nat): seq<Instr>
    decreases n, 3, k
  {
    if k == 0 then [] else Code(n, rep, nul) + CodeTimes(n, k - 1, rep + Reps(n), nul + Nuls(n))
  }

  /** compile_tree_empty_check. */
  function CheckedCode(q: Node, rep: nat, nul: nat): seq<Instr>
    requires q.Quant?
    decreases q, 0, 0
  {
    match q.emptyInfo
    case NotEmpty => Code(q.target, rep, nul)
    case Empty => [NullCheckStart(nul)] + Code(q.target, rep, nul + 1) + [NullCheckEnd(nul)]
    case EmptyMem => [NullCheckStart(nul)] + Code(q.target, rep, nul + 1) + [NullCheckEndMemst(nul)]
  }

  /** compile_quantifier_node. */
  function QuantCode(q: Node, rep: nat, nul: nat): seq<Instr>
    requires q.Quant?
    decreases q, 1
  {
    var body := q.target;
    var rep1, nul1 := rep + Scaled(Reps(body), q.lower), nul + Scaled(Nuls(body), q.lower);
    match ShapeOf(q)
    case AnyStar => CodeTimes(body, q.lower, rep, nul) + [StarOp(q)]
    case EnterLoop =>
      [Jump(if q.greedy then HeadSize(q) else SIZE_OP_JUMP)] + LoopCode(q, rep, nul)
    case PushLoop => CodeTimes(body, q.lower, rep, nul) + LoopCode(q, rep1, nul1)
    case Expand => CodeTimes(body, q.lower, rep, nul) + OptionalCode(body, Max(q.upper - q.lower, 0), rep1, nul1)
    case LazyOption => [Push(SIZE_OP_JUMP), Jump(Length(body))] + Code(body, rep, nul)
    case Counter =>
      [Repeat(q.greedy, rep, CheckedLength(q) + SIZE_OP_REPEAT_INC)] + CheckedCode(q, rep + 1, nul)
      + [RepeatInc(q.greedy, q.inRepeat, rep)]
  }

  function StarOp(q: Node): Instr
    requires q.Quant? && q.target.Any?
  {
    if q.nextHead.Some? then AnyCharStarPeek(q.target.multiline, q.nextHead.value)
    else AnyCharStarOp(q.target.multiline)
  }

  /** The push/jump loop of an infinite quantifier. */
  function LoopCode(q: Node, rep: nat, nul: nat): seq<Instr>
    requires q.Quant?
    decreases q, 0, 1
  {
    var mod := CheckedLength(q);
    if q.greedy then
      [HeadOp(q)] + CheckedCode(q, rep, nul) + [Jump(-(mod + SIZE_OP_JUMP + HeadSize(q)))]
    else
      [Jump(mod)] + CheckedCode(q, rep, nul) + [Push(-(mod + SIZE_OP_PUSH))]
  }

  function HeadOp(q: Node): Instr
    requires q.Quant?
  {
    var addr := CheckedLength(q) + SIZE_OP_JUMP;
    if q.headExact.Some? then PushOrJumpExact1(addr, q.headExact.value)
    else if q.nextHead.Some? then PushIfPeekNext(addr, q.nextHead.value)
    else Push(addr)
  }

  /** `k` optional copies, each skipping all that follow it. */
  function OptionalCode(body: Node, k: nat, rep: nat, nul: nat): seq<Instr>
    decreases body, 3, k
  {
    if k == 0 then []
    else [Push(Scaled(Length(body), k) + Scaled(SIZE_OP_PUSH, k - 1))] + Code(body, rep, nul)
         + OptionalCode(body, k - 1, rep + Reps(body), nul + Nuls(body))
  }
}
