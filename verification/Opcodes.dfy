/** The instruction set, its sizes and its byte layout (regint.h:528-690).  Relative addresses and lengths
    are 4-byte, memory numbers 2-byte little-endian two's complement integers. */
module Opcodes {
  import opened Common

  datatype Instr =
    | Finish
    | End
    | Exact(bs: seq<byte>)
    | CClassOp(set_: seq<byte>, neg: bool)
    | AnyChar(ml: bool)
    | AnyCharStarOp(ml: bool)
    | AnyCharStarPeek(ml: bool, c: byte)
    | BeginBufOp | EndBufOp | BeginLineOp | EndLineOp | SemiEndBufOp | BeginPositionOp | BeginPosOrLineOp
    | BackrefOp(num: nat)
    | MemStart(num: nat, push: bool)
    | MemEnd(num: nat, push: bool)
    | KeepOp
    | Fail
    | Jump(addr: int)
    | Push(addr: int)
    | Pop
    | PushOrJumpExact1(addr: int, c: byte)
    | PushIfPeekNext(addr: int, c: byte)
    | Repeat(greedy: bool, id: nat, addr: int)
    | RepeatInc(greedy: bool, sg: bool, id: nat)
    | NullCheckStart(id: nat)
    | NullCheckEnd(id: nat)
    | NullCheckEndMemst(id: nat)
    | PushPos
    | PopPos
    | PushPosNot(addr: int)
    | FailPos
    | PushStopBt
    | PopStopBt
    | LookBehind(len: nat)
    | PushLookBehindNot(addr: int, len: nat)
    | FailLookBehindNot

  const SIZE_OPCODE := 1
  const SIZE_RELADDR := 4
  const SIZE_LENGTH := 4
  const SIZE_MEMNUM := 2
  const SIZE_BITSET := 32
  const SIZE_OP_JUMP := SIZE_OPCODE + SIZE_RELADDR
  const SIZE_OP_PUSH := SIZE_OPCODE + SIZE_RELADDR
  const SIZE_OP_POP := SIZE_OPCODE
  const SIZE_OP_PUSH_OR_JUMP_EXACT1 := SIZE_OPCODE + SIZE_RELADDR + 1
  const SIZE_OP_PUSH_IF_PEEK_NEXT := SIZE_OPCODE + SIZE_RELADDR + 1
  const SIZE_OP_ANYCHAR_STAR := SIZE_OPCODE
  const SIZE_OP_ANYCHAR_STAR_PEEK_NEXT := SIZE_OPCODE + 1
  const SIZE_OP_REPEAT_INC := SIZE_OPCODE + SIZE_MEMNUM
  const SIZE_OP_MEMORY := SIZE_OPCODE + SIZE_MEMNUM
  const SIZE_OP_NULL_CHECK := SIZE_OPCODE + SIZE_MEMNUM
  const SIZE_OP_PUSH_POS := SIZE_OPCODE
  const SIZE_OP_POP_POS := SIZE_OPCODE
  const SIZE_OP_PUSH_POS_NOT := SIZE_OPCODE + SIZE_RELADDR
  const SIZE_OP_FAIL_POS := SIZE_OPCODE
  const SIZE_OP_PUSH_STOP_BT := SIZE_OPCODE
  const SIZE_OP_POP_STOP_BT := SIZE_OPCODE
  const SIZE_OP_LOOK_BEHIND := SIZE_OPCODE + SIZE_LENGTH
  const SIZE_OP_PUSH_LOOK_BEHIND_NOT := SIZE_OPCODE + SIZE_RELADDR + SIZE_LENGTH
  const SIZE_OP_FAIL_LOOK_BEHIND_NOT := SIZE_OPCODE

  /** Number of bytes an instruction occupies. */
  function Size(i: Instr): nat {
    match i
    case Exact(bs) => if |bs| <= 5 then SIZE_OPCODE + |bs| else SIZE_OPCODE + SIZE_LENGTH + |bs|
    case CClassOp(_, _) => SIZE_OPCODE + SIZE_BITSET
    case AnyCharStarPeek(_, _) => SIZE_OP_ANYCHAR_STAR_PEEK_NEXT
    case BackrefOp(num) => if num <= 2 then SIZE_OPCODE else SIZE_OPCODE + SIZE_MEMNUM
    case MemStart(_, _) => SIZE_OP_MEMORY
    case MemEnd(_, _) => SIZE_OP_MEMORY
    case Jump(_) => SIZE_OP_JUMP
    case Push(_) => SIZE_OP_PUSH
    case PushOrJumpExact1(_, _) => SIZE_OP_PUSH_OR_JUMP_EXACT1
    case PushIfPeekNext(_, _) => SIZE_OP_PUSH_IF_PEEK_NEXT
    case Repeat(_, _, _) => SIZE_OPCODE + SIZE_MEMNUM + SIZE_RELADDR
    case RepeatInc(_, _, _) => SIZE_OP_REPEAT_INC
    case NullCheckStart(_) => SIZE_OP_NULL_CHECK
    case NullCheckEnd(_) => SIZE_OP_NULL_CHECK
    case NullCheckEndMemst(_) => SIZE_OP_NULL_CHECK
    case PushPosNot(_) => SIZE_OP_PUSH_POS_NOT
    case LookBehind(_) => SIZE_OP_LOOK_BEHIND
    case PushLookBehindNot(_, _) => SIZE_OP_PUSH_LOOK_BEHIND_NOT
    case _ => SIZE_OPCODE
  }

  /** The numbers of enum OpCode. */
  function OpNumber(i: Instr): byte {
    match i
    case Finish => 0
    case End => 1
    case Exact(bs) => if 1 <= |bs| <= 5 then 1 + |bs| else 7
    case CClassOp(_, neg) => if neg then 19 else 16
    case AnyChar(ml) => if ml then 24 else 23
    case AnyCharStarOp(ml) => if ml then 26 else 25
    case AnyCharStarPeek(ml, _) => if ml then 28 else 27
    case BeginBufOp => 41
    case EndBufOp => 42
    case BeginLineOp => 43
    case EndLineOp => 44
    case SemiEndBufOp => 45
    case BeginPositionOp => 46
    case BeginPosOrLineOp => 47
    case BackrefOp(num) => if num == 1 then 48 else if num == 2 then 49 else 50
    case MemStart(_, push) => if push then 56 else 55
    case MemEnd(_, push) => if push then 57 else 59
    case KeepOp => 61
    case Fail => 62
    case Jump(_) => 63
    case Push(_) => 64
    case Pop => 65
    case PushOrJumpExact1(_, _) => 66
    case PushIfPeekNext(_, _) => 67
    case Repeat(greedy, _, _) => if greedy then 68 else 69
    case RepeatInc(greedy, sg, _) => if greedy then (if sg then 72 else 70) else (if sg then 73 else 71)
    case NullCheckStart(_) => 74
    case NullCheckEnd(_) => 75
    case NullCheckEndMemst(_) => 76
    case PushPos => 78
    case PopPos => 79
    case PushPosNot(_) => 80
    case FailPos => 81
    case PushStopBt => 82
    case PopStopBt => 83
    case LookBehind(_) => 84
    case PushLookBehindNot(_, _) => 85
    case FailLookBehindNot => 86
  }

  /** The operands fit the C types RelAddrType, LengthType and MemNumType, and byte strings are not empty. */
  predicate Encodable(i: Instr) {
    match i
    case Exact(bs) => 1 <= |bs| && Fits32(|bs|)
    case CClassOp(bs, _) => |bs| == SIZE_BITSET
    case BackrefOp(num) => 1 <= num && Fits16(num)
    case MemStart(num, _) => Fits16(num)
    case MemEnd(num, _) => Fits16(num)
    case Jump(addr) => Fits32(addr)
    case Push(addr) => Fits32(addr)
    case PushOrJumpExact1(addr, _) => Fits32(addr)
    case PushIfPeekNext(addr, _) => Fits32(addr)
    case Repeat(_, id, addr) => Fits16(id) && Fits32(addr)
    case RepeatInc(_, _, id) => Fits16(id)
    case NullCheckStart(id) => Fits16(id)
    case NullCheckEnd(id) => Fits16(id)
    case NullCheckEndMemst(id) => Fits16(id)
    case PushPosNot(addr) => Fits32(addr)
    case LookBehind(len) => Fits32(len)
    case PushLookBehindNot(addr, len) => Fits32(addr) && Fits32(len)
    case _ => true
  }

  predicate Fits32(v: int) { -0x8000_0000 <= v < 0x8000_0000 }

  predicate Fits16(v: int) { -0x8000 <= v < 0x8000 }

  function Split16(w: int): (bs: seq<byte>)
    requires 0 <= w < 0x1_0000
    ensures |bs| == 2
  {
    [w % 256, w / 256]
  }

  function Join16(code: seq<byte>, p: nat): (w: int)
    requires p + 2 <= |code|
    ensures 0 <= w < 0x1_0000
  {
    var lo: int, hi: int := code[p], code[p + 1];
    lo + 256 * hi
  }

  function Encode16(v: int): (bs: seq<byte>)
    ensures |bs| == 2
  {
    Split16(v % 0x1_0000)
  }

  function Decode16(code: seq<byte>, p: nat): int
    requires p + 2 <= |code|
  {
    var u := Join16(code, p);
    if u < 0x8000 then u else u - 0x1_0000
  }

  function Encode32(v: int): (bs: seq<byte>)
    ensures |bs| == 4
  {
    var u := v % 0x1_0000_0000;
    Split16(u % 0x1_0000) + Split16(u / 0x1_0000)
  }

  function Decode32(code: seq<byte>, p: nat): int
    requires p + 4 <= |code|
  {
    var u := Join16(code, p) + 0x1_0000 * Join16(code, p + 2);
    if u < 0x8000_0000 then u else u - 0x1_0000_0000
  }

  lemma JoinSplit(w: int, code: seq<byte>, p: nat)
    requires 0 <= w < 0x1_0000 && p + 2 <= |code| && code[p..p + 2] == Split16(w)
    ensures Join16(code, p) == w
  {
    assert code[p] == code[p..p + 2][0] && code[p + 1] == code[p..p + 2][1];
  }

  lemma RoundTrip16(v: int, code: seq<byte>, p: nat)
    requires Fits16(v) && p + 2 <= |code| && code[p..p + 2] == Encode16(v)
    ensures Decode16(code, p) == v
  {
    JoinSplit(v % 0x1_0000, code, p);
  }

  lemma RoundTrip32(v: int, code: seq<byte>, p: nat)
    requires Fits32(v) && p + 4 <= |code| && code[p..p + 4] == Encode32(v)
    ensures Decode32(code, p) == v
  {
    var u := v % 0x1_0000_0000;
    assert code[p..p + 2] == code[p..p + 4][..2];
    assert code[p + 2..p + 4] == code[p..p + 4][2..];
    JoinSplit(u % 0x1_0000, code, p);
    JoinSplit(u / 0x1_0000, code, p + 2);
  }

  /** The bytes add_opcode and the operand emitters append for one instruction. */
  function Encode(i: Instr): (bs: seq<byte>)
    ensures Encodable(i) ==> |bs| == Size(i)
  {
    [OpNumber(i)] + Operands(i)
  }

  function Operands(i: Instr): seq<byte> {
    match i
    case Exact(bs) => if |bs| <= 5 then bs else Encode32(|bs|) + bs
    case CClassOp(bs, _) => bs
    case AnyCharStarPeek(_, c) => [c]
    case BackrefOp(num) => if num <= 2 then [] else Encode16(num)
    case MemStart(num, _) => Encode16(num)
    case MemEnd(num, _) => Encode16(num)
    case Jump(addr) => Encode32(addr)
    case Push(addr) => Encode32(addr)
    case PushOrJumpExact1(addr, c) => Encode32(addr) + [c]
    case PushIfPeekNext(addr, c) => Encode32(addr) + [c]
    case Repeat(_, id, addr) => Encode16(id) + Encode32(addr)
    case RepeatInc(_, _, id) => Encode16(id)
    case NullCheckStart(id) => Encode16(id)
    case NullCheckEnd(id) => Encode16(id)
    case NullCheckEndMemst(id) => Encode16(id)
    case PushPosNot(addr) => Encode32(addr)
    case LookBehind(len) => Encode32(len)
    case PushLookBehindNot(addr, len) => Encode32(addr) + Encode32(len)
    case _ => []
  }

  /** Reads the instruction at address p the way match_at's switch does; None when the bytes are not one of
      the modelled instructions. */
  function Fetch(code: seq<byte>, p: int): Option<Instr> {
    if !(0 <= p < |code|) then None else
      var op := code[p];
      var left := |code| - (p + 1);
      if op == 0 then Some(Finish)
      else if op == 1 then Some(End)
      else if 2 <= op <= 6 then
        if left >= op - 1 then Some(Exact(code[p + 1..p + op])) else None
      else if op == 7 then
        if left >= 4 && Decode32(code, p + 1) > 5 && left >= 4 + Decode32(code, p + 1)
        then Some(Exact(code[p + 5..p + 5 + Decode32(code, p + 1)])) else None
      else if op == 16 || op == 19 then
        if left >= SIZE_BITSET then Some(CClassOp(code[p + 1..p + 33], op == 19)) else None
      else if op == 23 || op == 24 then Some(AnyChar(op == 24))
      else if op == 25 || op == 26 then Some(AnyCharStarOp(op == 26))
      else if op == 27 || op == 28 then
        if left >= 1 then Some(AnyCharStarPeek(op == 28, code[p + 1])) else None
      else if 41 <= op <= 47 then Some(AnchorInstr(op))
      else if op == 48 || op == 49 then Some(BackrefOp(op - 47))
      else if op == 50 || op == 55 || op == 56 || op == 57 || op == 59 || 70 <= op <= 76 then
        if left >= 2 && Decode16(code, p + 1) >= 0 then NumInstr(op, Decode16(code, p + 1)) else None
      else if op == 63 || op == 64 || op == 80 || op == 84 then
        if left >= 4 then AddrInstr(op, Decode32(code, p + 1)) else None
      else if op == 66 || op == 67 then
        if left >= 5 then
          Some(if op == 66 then PushOrJumpExact1(Decode32(code, p + 1), code[p + 5])
               else PushIfPeekNext(Decode32(code, p + 1), code[p + 5]))
        else None
      else if op == 68 || op == 69 then
        if left >= 6 && Decode16(code, p + 1) >= 0
        then Some(Repeat(op == 68, Decode16(code, p + 1), Decode32(code, p + 3))) else None
      else if op == 85 then
        if left >= 8 && Decode32(code, p + 5) >= 0
        then Some(PushLookBehindNot(Decode32(code, p + 1), Decode32(code, p + 5))) else None
      else PlainInstr(op)
  }

  function AnchorInstr(op: byte): Instr
    requires 41 <= op <= 47
  {
    if op == 41 then BeginBufOp else if op == 42 then EndBufOp else if op == 43 then BeginLineOp
    else if op == 44 then EndLineOp else if op == 45 then SemiEndBufOp
    else if op == 46 then BeginPositionOp else BeginPosOrLineOp
  }

  function NumInstr(op: byte, num: nat): Option<Instr> {
    if op == 50 then (if num > 2 then Some(BackrefOp(num)) else None)
    else if op == 55 || op == 56 then Some(MemStart(num, op == 56))
    else if op == 57 || op == 59 then Some(MemEnd(num, op == 57))
    else if op == 70 || op == 72 then Some(RepeatInc(true, op == 72, num))
    else if op == 71 || op == 73 then Some(RepeatInc(false, op == 73, num))
    else if op == 74 then Some(NullCheckStart(num))
    else if op == 75 then Some(NullCheckEnd(num))
    else if op == 76 then Some(NullCheckEndMemst(num))
    else None
  }

  function AddrInstr(op: byte, addr: int): Option<Instr> {
    if op == 63 then Some(Jump(addr))
    else if op == 64 then Some(Push(addr))
    else if op == 80 then Some(PushPosNot(addr))
    else if op == 84 && addr >= 0 then Some(LookBehind(addr))
    else None
  }

  function PlainInstr(op: byte): Option<Instr> {
    if op == 61 then Some(KeepOp)
    else if op == 62 then Some(Fail)
    else if op == 65 then Some(Pop)
    else if op == 78 then Some(PushPos)
    else if op == 79 then Some(PopPos)
    else if op == 81 then Some(FailPos)
    else if op == 82 then Some(PushStopBt)
    else if op == 83 then Some(PopStopBt)
    else if op == 86 then Some(FailLookBehindNot)
    else None
  }

  /** Instructions whose only operand is a memory number. */
  predicate OnlyNum(i: Instr) {
    (i.BackrefOp? && i.num > 2) || i.MemStart? || i.MemEnd? || i.RepeatInc?
    || i.NullCheckStart? || i.NullCheckEnd? || i.NullCheckEndMemst?
  }

  lemma FetchNum(code: seq<byte>, p: nat, i: Instr)
    requires OnlyNum(i) && Encodable(i) && p + 3 <= |code|
    requires code[p] == OpNumber(i) && code[p + 1..p + 3] == Operands(i)
    ensures Fetch(code, p) == Some(i)
  {
    hide Decode16;
    var num := if i.RepeatInc? || i.NullCheckStart? || i.NullCheckEnd? || i.NullCheckEndMemst? then i.id else i.num;
    RoundTrip16(num, code, p + 1);
  }

  /** Instructions whose only operand is an address or a length. */
  predicate OnlyAddr(i: Instr) {
    i.Jump? || i.Push? || i.PushPosNot? || i.LookBehind?
  }

  lemma FetchAddr(code: seq<byte>, p: nat, i: Instr)
    requires OnlyAddr(i) && Encodable(i) && p + 5 <= |code|
    requires code[p] == OpNumber(i) && code[p + 1..p + 5] == Operands(i)
    ensures Fetch(code, p) == Some(i)
  {
    hide Decode32;
    RoundTrip32(if i.LookBehind? then i.len else i.addr, code, p + 1);
  }

  lemma FetchWide(code: seq<byte>, p: nat, i: Instr)
    requires i.PushOrJumpExact1? || i.PushIfPeekNext? || i.Repeat? || i.PushLookBehindNot?
    requires Encodable(i) && p + Size(i) <= |code|
    requires code[p] == OpNumber(i) && code[p + 1..p + Size(i)] == Operands(i)
    ensures Fetch(code, p) == Some(i)
  {
    hide Decode32, Decode16, Encode32, Encode16;
    var bs := code[p + 1..p + Size(i)];
    match i
    case PushOrJumpExact1(addr, c) => RoundTripAddrByte(code, p, addr, c);
    case PushIfPeekNext(addr, c) => RoundTripAddrByte(code, p, addr, c);
    case Repeat(_, id, addr) =>
      assert code[p + 1..p + 3] == bs[..2];
      assert code[p + 3..p + 7] == bs[2..];
      RoundTrip16(id, code, p + 1);
      RoundTrip32(addr, code, p + 3);
    case PushLookBehindNot(addr, len) =>
      assert code[p + 1..p + 5] == bs[..4];
      assert code[p + 5..p + 9] == bs[4..];
      RoundTrip32(addr, code, p + 1);
      RoundTrip32(len, code, p + 5);
  }

  lemma FetchExact(code: seq<byte>, p: nat, i: Instr)
    requires i.Exact? && Encodable(i) && p + Size(i) <= |code|
    requires code[p] == OpNumber(i) && code[p + 1..p + Size(i)] == Operands(i)
    ensures Fetch(code, p) == Some(i)
  {
    hide Decode32, Encode32;
    var bs := code[p + 1..p + Size(i)];
    if |i.bs| > 5 {
      assert code[p + 1..p + 5] == bs[..4];
      RoundTrip32(|i.bs|, code, p + 1);
      assert code[p + 5..p + Size(i)] == bs[4..] == i.bs;
    } else {
      assert code[p + 1..p + OpNumber(i)] == i.bs;
    }
  }

  /** The remaining instructions have no operand, one byte or a bit set. */
  lemma FetchPlain(code: seq<byte>, p: nat, i: Instr)
    requires !OnlyNum(i) && !OnlyAddr(i) && !i.Exact?
    requires !i.PushOrJumpExact1? && !i.PushIfPeekNext? && !i.Repeat? && !i.PushLookBehindNot?
    requires Encodable(i) && p + Size(i) <= |code|
    requires code[p] == OpNumber(i) && code[p + 1..p + Size(i)] == Operands(i)
    ensures Fetch(code, p) == Some(i)
  {
    hide Decode32, Decode16, Encode32, Encode16;
    var bs := code[p + 1..p + Size(i)];
    if i.AnyCharStarPeek? {
      assert code[p + 1] == bs[0] == i.c;
    }
  }

  /** Decoding undoes encoding, wherever the bytes stand in the code. */
  lemma FetchEncode(code: seq<byte>, p: nat, i: Instr)
    requires Encodable(i) && p + Size(i) <= |code| && code[p..p + Size(i)] == Encode(i)
    ensures Fetch(code, p) == Some(i)
  {
    hide Fetch, Operands, OpNumber;
    var bs := code[p..p + Size(i)];
    assert code[p] == bs[0] == OpNumber(i);
    assert code[p + 1..p + Size(i)] == bs[1..] == Operands(i);
    if OnlyNum(i) {
      FetchNum(code, p, i);
    } else if OnlyAddr(i) {
      FetchAddr(code, p, i);
    } else if i.PushOrJumpExact1? || i.PushIfPeekNext? || i.Repeat? || i.PushLookBehindNot? {
      FetchWide(code, p, i);
    } else if i.Exact? {
      FetchExact(code, p, i);
    } else {
      FetchPlain(code, p, i);
    }
  }

  lemma RoundTripAddrByte(code: seq<byte>, p: nat, addr: int, c: byte)
    requires Fits32(addr) && p + 6 <= |code| && code[p + 1..p + 6] == Encode32(addr) + [c]
    ensures Decode32(code, p + 1) == addr && code[p + 5] == c
  {
    var bs := code[p + 1..p + 6];
    assert code[p + 1..p + 5] == bs[..4];
    RoundTrip32(addr, code, p + 1);
    assert code[p + 5] == bs[4];
  }

  /** Code as an instruction sequence. */
  function Bytes(ops: seq<Instr>): seq<byte> {
    if ops == [] then [] else Encode(ops[0]) + Bytes(ops[1..])
  }

  function SizeAll(ops: seq<Instr>): nat {
    if ops == [] then 0 else Size(ops[0]) + SizeAll(ops[1..])
  }

  predicate AllEncodable(ops: seq<Instr>) {
    forall k :: 0 <= k < |ops| ==> Encodable(ops[k])
  }

  lemma {:induction false} SizeConcat(a: seq<Instr>, b: seq<Instr>)
    ensures SizeAll(a + b) == SizeAll(a) + SizeAll(b)
  {
    if a == [] {
      assert a + b == b;
    } else {
      assert (a + b)[1..] == a[1..] + b;
      SizeConcat(a[1..], b);
    }
  }

  lemma {:induction false} BytesConcat(a: seq<Instr>, b: seq<Instr>)
    ensures Bytes(a + b) == Bytes(a) + Bytes(b)
  {
    if a == [] {
      assert a + b == b;
    } else {
      assert (a + b)[1..] == a[1..] + b;
      BytesConcat(a[1..], b);
      assert Encode(a[0]) + (Bytes(a[1..]) + Bytes(b)) == (Encode(a[0]) + Bytes(a[1..])) + Bytes(b);
    }
  }

  lemma {:induction false} BytesSize(ops: seq<Instr>)
    requires AllEncodable(ops)
    ensures |Bytes(ops)| == SizeAll(ops)
  {
    if ops != [] { BytesSize(ops[1..]); }
  }

  /** How a program is read: the instruction at every address. */
  type Reader = int -> Option<Instr>

  function ReaderOf(code: seq<byte>): Reader { (p: int) => Fetch(code, p) }

  /** The instructions `ops` stand from address p on. */
  predicate CodeAt(fetch: Reader, p: int, ops: seq<Instr>)
    decreases |ops|
  {
    ops == [] || (fetch(p) == Some(ops[0]) && CodeAt(fetch, p + Size(ops[0]), ops[1..]))
  }

  lemma {:induction false} CodeAtConcat(fetch: Reader, p: int, a: seq<Instr>, b: seq<Instr>)
    ensures CodeAt(fetch, p, a + b) <==> CodeAt(fetch, p, a) && CodeAt(fetch, p + SizeAll(a), b)
    decreases |a|
  {
    hide Size;
    if a == [] {
      assert a + b == b;
    } else {
      assert (a + b)[1..] == a[1..] + b;
      CodeAtConcat(fetch, p + Size(a[0]), a[1..], b);
    }
  }

  /** Assembled instructions are fetched back one after the other. */
  lemma {:induction false} CodeAtBytes(code: seq<byte>, p: nat, ops: seq<Instr>)
    requires AllEncodable(ops) && p + SizeAll(ops) <= |code|
    requires code[p..p + SizeAll(ops)] == Bytes(ops)
    ensures CodeAt(ReaderOf(code), p, ops)
    decreases |ops|
  {
    hide Fetch, Size, Encode;
    if ops != [] {
      var k := Size(ops[0]);
      BytesSize(ops[1..]);
      var bs := code[p..p + SizeAll(ops)];
      assert code[p..p + k] == bs[..k] == Encode(ops[0]);
      FetchEncode(code, p, ops[0]);
      assert code[p + k..p + SizeAll(ops)] == bs[k..] == Bytes(ops[1..]);
      CodeAtBytes(code, p + k, ops[1..]);
    }
  }
}
