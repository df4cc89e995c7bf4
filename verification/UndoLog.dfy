/** match_at's real memory (regexec.c:367-943, 1306-2944): one stack that mixes choice points, undo records, loop
    counters, null-check marks and brackets, and the arrays mem_start_stk, mem_end_stk and repeat_stk.  A failure
    replays the undo records, as far as the pop level asks for it, down to the next choice point. */
module UndoLog {
  import opened Common
  import opened Opcodes
  import opened Semantics
  import opened Snapshot
  import Tree

  const INVALID := -1

  datatype Entry =
    | EChoice(kind: Kind, p: int, s: nat, prev: int, keep: nat)
    | EMemStart(num: nat, pos: nat, start: int, end: int)
    | EMemEnd(num: nat, pos: nat, start: int, end: int)
    | ERepeat(num: nat, count: int, body: int)
    | EInc(si: nat)
    | ENull(num: nat, pos: nat)
    | EVoid
  {
    /** STK_MASK_POP_USED. */
    predicate Resumes() { EChoice? && (kind.KAlt? || kind.KPosNot? || kind.KBehindNot?) }

    /** STK_MASK_TO_VOID_TARGET. */
    predicate ToVoid() { Resumes() || ENull? }
  }

  /** The stack and the capture arrays. */
  datatype Mem = Mem(stk: seq<Entry>, ms: seq<int>, me: seq<int>)

  datatype UConfig = UConfig(p: int, s: nat, prev: int, keep: nat, m: Mem, rep: seq<int>)

  datatype UState = URun(c: UConfig) | UMatched(c: UConfig) | UMismatch | UBad

  function Push1(m: Mem, e: Entry): Mem { m.(stk := m.stk + [e]) }

  function Pushed(u: UConfig, e: Entry): UConfig { u.(m := Push1(u.m, e)) }

  function ChoiceOf(kind: Kind, p: int, u: UConfig): Entry { EChoice(kind, p, u.s, u.prev, u.keep) }

  /** An array element; what lies outside the array is never used. */
  function Slot(a: seq<int>, i: int): int { if 0 <= i < |a| then a[i] else INVALID }

  function SetSlot(a: seq<int>, i: int, v: int): seq<int> { if 0 <= i < |a| then a[i := v] else a }

  /** The text position of a capture entry. */
  function PosAt(stk: seq<Entry>, i: int): nat {
    if 0 <= i < |stk| && (stk[i].EMemStart? || stk[i].EMemEnd?) then stk[i].pos else 0
  }

  function Bump(stk: seq<Entry>, i: int, d: int): seq<Entry> {
    if 0 <= i < |stk| && stk[i].ERepeat? then stk[i := stk[i].(count := stk[i].count + d)] else stk
  }

  // ---------------------------------------------------------------- popping

  /** Pops one entry, undoing what the pop level asks for. */
  function UndoTop(m: Mem, level: PopLevel): Mem
    requires m.stk != []
  {
    var n := |m.stk| - 1;
    var rest := m.stk[..n];
    match m.stk[n]
    case EMemStart(num, _, start, end) =>
      if level.Free? then m.(stk := rest) else Mem(rest, SetSlot(m.ms, num, start), SetSlot(m.me, num, end))
    case EMemEnd(num, _, start, end) =>
      if level.All? then Mem(rest, SetSlot(m.ms, num, start), SetSlot(m.me, num, end)) else m.(stk := rest)
    case EInc(si) => if level.All? then m.(stk := Bump(rest, si, -1)) else m.(stk := rest)
    case _ => m.(stk := rest)
  }

  /** STACK_POP and the resumption at `fail`. */
  function UBacktrack(m: Mem, level: PopLevel, rep: seq<int>): UState
    decreases |m.stk|
  {
    if m.stk == [] then UBad
    else
      var top := m.stk[|m.stk| - 1];
      var rest := UndoTop(m, level);
      if top.Resumes() then URun(UConfig(top.p, top.s, top.prev, top.keep, rest, rep))
      else UBacktrack(rest, level, rep)
  }

  /** STACK_POP_TIL_POS_NOT and STACK_POP_TIL_LOOK_BEHIND_NOT, then `goto fail`. */
  function UFailTo(m: Mem, kind: Kind, level: PopLevel, rep: seq<int>): UState
    decreases |m.stk|
  {
    if m.stk == [] then UBad
    else
      var top := m.stk[|m.stk| - 1];
      var rest := UndoTop(m, All);
      if top.EChoice? && top.kind == kind then UBacktrack(rest, level, rep)
      else UFailTo(rest, kind, level, rep)
  }

  /** The topmost entry of the given kind, or -1. */
  function FindChoice(stk: seq<Entry>, kind: Kind): (i: int)
    ensures -1 <= i < |stk|
    ensures i >= 0 ==> stk[i].EChoice? && stk[i].kind == kind
  {
    if stk == [] then -1
    else if stk[|stk| - 1].EChoice? && stk[|stk| - 1].kind == kind then |stk| - 1
    else FindChoice(stk[..|stk| - 1], kind)
  }

  /** STACK_POS_END and STACK_STOP_BT_END: the bracket and every choice point and mark above it become void. */
  function VoidTo(stk: seq<Entry>, kind: Kind): (r: seq<Entry>)
    ensures |r| == |stk|
  {
    if stk == [] then []
    else
      var top, rest := stk[|stk| - 1], stk[..|stk| - 1];
      if top.ToVoid() then VoidTo(rest, kind) + [EVoid]
      else if top.EChoice? && top.kind == kind then rest + [EVoid]
      else VoidTo(rest, kind) + [top]
  }

  /** STACK_GET_REPEAT. */
  function FindRepeat(stk: seq<Entry>, id: nat): (i: int)
    ensures -1 <= i < |stk|
    ensures i >= 0 ==> stk[i].ERepeat? && stk[i].num == id
  {
    if stk == [] then -1
    else if stk[|stk| - 1].ERepeat? && stk[|stk| - 1].num == id then |stk| - 1
    else FindRepeat(stk[..|stk| - 1], id)
  }

  function FindNull(stk: seq<Entry>, id: nat): (i: int)
    ensures -1 <= i < |stk|
    ensures i >= 0 ==> stk[i].ENull? && stk[i].num == id
  {
    if stk == [] then -1
    else if stk[|stk| - 1].ENull? && stk[|stk| - 1].num == id then |stk| - 1
    else FindNull(stk[..|stk| - 1], id)
  }

  function EndPos(pr: Prog, stk: seq<Entry>, num: nat, end: int): int {
    if num in pr.btEnd then PosAt(stk, end) else end
  }

  /** The inner loop of STACK_NULL_CHECK_MEMST from entry k on: 1 empty, 0 not empty, -1 empty elsewhere. */
  function MemScan(pr: Prog, stk: seq<Entry>, k: nat, s: nat, isnull: int): int
    decreases |stk| - k
  {
    if k >= |stk| then isnull
    else match stk[k]
      case EMemStart(num, _, start, end) =>
        if end == INVALID then 0
        else
          var endp := EndPos(pr, stk, num, end);
          if PosAt(stk, start) != endp then 0 else MemScan(pr, stk, k + 1, s, if endp != s then -1 else isnull)
      case _ => MemScan(pr, stk, k + 1, s, isnull)
  }

  // ---------------------------------------------------------------- opcodes

  /** The registers alone. */
  function Regs(u: UConfig): St { St(u.s, u.prev, u.keep, map[], []) }

  function UFail(pr: Prog, u: UConfig): UState { UBacktrack(u.m, pr.level, u.rep) }

  function UConsume(u: UConfig, next: int, n: nat): UState {
    URun(if n == 0 then u.(p := next) else u.(p := next, s := u.s + n, prev := u.s + n - 1))
  }

  function UPushAlt(u: UConfig, alt: int, next: int): UState {
    URun(Pushed(u, ChoiceOf(KAlt, alt, u)).(p := next))
  }

  function UExec(pr: Prog, t: Subject, i: Instr, next: int, u: UConfig): UState {
    match i
    case Finish => UMismatch
    case End => UMatched(u)
    case Exact(bs) => if t.Has(u.s, bs) then UConsume(u, next, |bs|) else UFail(pr, u)
    case CClassOp(bs, neg) =>
      if u.s < t.End() && ClassHas(bs, neg, t.At(u.s)) then UConsume(u, next, 1) else UFail(pr, u)
    case AnyChar(ml) => if AnyMatches(t, ml, Regs(u)) then UConsume(u, next, 1) else UFail(pr, u)
    case AnyCharStarOp(ml) => UStar(pr, t, ml, None, next, u, u.s)
    case AnyCharStarPeek(ml, ch) => UStar(pr, t, ml, Some(ch), next, u, u.s)
    case BeginBufOp => UAnchor(pr, t, Tree.BeginBuf, next, u)
    case EndBufOp => UAnchor(pr, t, Tree.EndBuf, next, u)
    case BeginLineOp => UAnchor(pr, t, Tree.BeginLine, next, u)
    case EndLineOp => UAnchor(pr, t, Tree.EndLine, next, u)
    case SemiEndBufOp => UAnchor(pr, t, Tree.SemiEndBuf, next, u)
    case BeginPositionOp => UAnchor(pr, t, Tree.BeginPosition, next, u)
    case BeginPosOrLineOp => UAnchor(pr, t, Tree.AnyCharStar, next, u)
    case BackrefOp(num) => UBackref(pr, t, num, next, u)
    case MemStart(num, push) =>
      if num > pr.numMem then UBad else
      var start := if push then |u.m.stk| else u.s;
      var m1 := if push then Push1(u.m, EMemStart(num, u.s, Slot(u.m.ms, num), Slot(u.m.me, num))) else u.m;
      URun(u.(p := next, m := m1.(ms := SetSlot(m1.ms, num, start),
                                  me := if push then SetSlot(m1.me, num, INVALID) else m1.me)))
    case MemEnd(num, push) =>
      if num > pr.numMem then UBad else
      var end := if push then |u.m.stk| else u.s;
      var m1 := if push then Push1(u.m, EMemEnd(num, u.s, Slot(u.m.ms, num), Slot(u.m.me, num))) else u.m;
      URun(u.(p := next, m := m1.(me := SetSlot(m1.me, num, end))))
    case KeepOp => URun(u.(p := next, keep := u.s))
    case Fail => UFail(pr, u)
    case Jump(addr) => URun(u.(p := next + addr))
    case Push(addr) => UPushAlt(u, next + addr, next)
    case Pop => if u.m.stk == [] then UBad else URun(u.(p := next, m := u.m.(stk := u.m.stk[..|u.m.stk| - 1])))
    case PushOrJumpExact1(addr, ch) =>
      if t.At(u.s) == ch && u.s < t.End() then UPushAlt(u, next + addr, next) else URun(u.(p := next + addr))
    case PushIfPeekNext(addr, ch) =>
      if t.At(u.s) == ch then UPushAlt(u, next + addr, next) else URun(u.(p := next))
    case Repeat(greedy, id, addr) => URepeat(pr, greedy, id, addr, next, u)
    case RepeatInc(greedy, sg, id) =>
      var si := if sg then FindRepeat(u.m.stk, id) else Slot(u.rep, id);
      if id >= |pr.ranges| || !(0 <= si < |u.m.stk|) || !u.m.stk[si].ERepeat? then UBad
      else if greedy then UInc(pr, id, si, next, u) else UIncLazy(pr, id, si, next, u)
    case NullCheckStart(id) => URun(Pushed(u, ENull(id, u.s)).(p := next))
    case NullCheckEnd(id) => UNullEnd(pr, id, false, next, u)
    case NullCheckEndMemst(id) => UNullEnd(pr, id, true, next, u)
    case PushPos => URun(Pushed(u, ChoiceOf(KPos, next, u)).(p := next))
    case PopPos =>
      var k := FindChoice(u.m.stk, KPos);
      if k < 0 then UBad
      else URun(u.(p := next, s := u.m.stk[k].s, prev := u.m.stk[k].prev, m := u.m.(stk := VoidTo(u.m.stk, KPos))))
    case PushPosNot(addr) => URun(Pushed(u, ChoiceOf(KPosNot, next + addr, u)).(p := next))
    case FailPos => UFailTo(u.m, KPosNot, pr.level, u.rep)
    case PushStopBt => URun(Pushed(u, ChoiceOf(KStop, next, u)).(p := next))
    case PopStopBt =>
      if FindChoice(u.m.stk, KStop) < 0 then UBad
      else URun(u.(p := next, m := u.m.(stk := VoidTo(u.m.stk, KStop))))
    case LookBehind(n) =>
      if u.s < n then UFail(pr, u) else URun(u.(p := next, s := u.s - n, prev := u.s - n - 1))
    case PushLookBehindNot(addr, n) =>
      if u.s < n then URun(u.(p := next + addr))
      else URun(Pushed(u, ChoiceOf(KBehindNot, next + addr, u)).(p := next, s := u.s - n, prev := u.s - n - 1))
    case FailLookBehindNot => UFailTo(u.m, KBehindNot, pr.level, u.rep)
  }

  function UAnchor(pr: Prog, t: Subject, kind: Tree.AnchorKind, next: int, u: UConfig): UState {
    if AnchorHolds(kind, t, Regs(u)) then URun(u.(p := next)) else UFail(pr, u)
  }

  function UStar(pr: Prog, t: Subject, ml: bool, peek: Option<byte>, next: int, u: UConfig, begin: nat): UState
    decreases if u.s <= t.End() then t.End() - u.s else 0
  {
    if u.s < t.End() then
      var u1 := if peek.None? || peek.value == t.At(u.s) then Pushed(u, ChoiceOf(KAlt, next, u)) else u;
      if !ml && t.IsNewline(u.s) then UFail(pr, u1)
      else UStar(pr, t, ml, peek, next, u1.(s := u.s + 1, prev := u.s), begin)
    else URun(u.(p := next, prev := begin))
  }

  function UBackref(pr: Prog, t: Subject, num: nat, next: int, u: UConfig): UState {
    if num > pr.numMem || Slot(u.m.me, num) == INVALID || Slot(u.m.ms, num) == INVALID then UFail(pr, u)
    else
      var start := if num in pr.btStart then PosAt(u.m.stk, Slot(u.m.ms, num)) else Slot(u.m.ms, num);
      URefer(pr, t, start, EndPos(pr, u.m.stk, num, Slot(u.m.me, num)), next, u)
  }

  /** Compares the text from start to end with what follows. */
  function URefer(pr: Prog, t: Subject, start: int, end: int, next: int, u: UConfig): UState {
    var n := end - start;
    if u.s + n > t.End() then UFail(pr, u)
    else if n <= 0 then URun(u.(p := next, prev := u.s))
    else if 0 <= start && end <= t.End() && t.data[u.s..u.s + n] == t.data[start..end] then UConsume(u, next, n)
    else UFail(pr, u)
  }

  function URepeat(pr: Prog, greedy: bool, id: nat, addr: int, next: int, u: UConfig): UState {
    if id >= |pr.ranges| then UBad
    else
      var u1 := Pushed(u, ERepeat(id, 0, next)).(rep := SetSlot(u.rep, id, |u.m.stk|));
      if pr.ranges[id].lower > 0 then URun(u1.(p := next))
      else if greedy then UPushAlt(u1, next + addr, next)
      else UPushAlt(u1, next, next + addr)
  }

  function UInc(pr: Prog, id: nat, si: nat, next: int, u: UConfig): UState
    requires id < |pr.ranges| && si < |u.m.stk| && u.m.stk[si].ERepeat?
  {
    var u1 := u.(m := u.m.(stk := Bump(u.m.stk, si, 1)));
    var n, body := u.m.stk[si].count + 1, u.m.stk[si].body;
    if n >= pr.ranges[id].upper then URun(Pushed(u1, EInc(si)).(p := next))
    else if n >= pr.ranges[id].lower then URun(Pushed(Pushed(u1, ChoiceOf(KAlt, next, u1)), EInc(si)).(p := body))
    else URun(Pushed(u1, EInc(si)).(p := body))
  }

  function UIncLazy(pr: Prog, id: nat, si: nat, next: int, u: UConfig): UState
    requires id < |pr.ranges| && si < |u.m.stk| && u.m.stk[si].ERepeat?
  {
    var u1 := u.(m := u.m.(stk := Bump(u.m.stk, si, 1)));
    var n, body := u.m.stk[si].count + 1, u.m.stk[si].body;
    if n < pr.ranges[id].upper then
      if n >= pr.ranges[id].lower then UPushAlt(Pushed(u1, EInc(si)), body, next)
      else URun(Pushed(u1, EInc(si)).(p := body))
    else if n == pr.ranges[id].upper then URun(Pushed(u1, EInc(si)).(p := next))
    else URun(u1.(p := next))
  }

  function UNullEnd(pr: Prog, id: nat, mem: bool, next: int, u: UConfig): UState {
    var k := FindNull(u.m.stk, id);
    if k < 0 then UBad
    else
      var isnull := if u.m.stk[k].pos != u.s then 0
                    else if mem then MemScan(pr, u.m.stk, k, u.s, 1) else 1;
      if isnull == 0 then URun(u.(p := next))
      else if isnull == -1 then UFail(pr, u)
      else match Skipped(pr, next) case Some(q) => URun(u.(p := q)) case None => UBad
  }

  function UStep(pr: Prog, t: Subject, s: UState): UState {
    match s
    case URun(u) =>
      (match FetchAt(pr, u.p)
       case Some(i) => UExec(pr, t, i, u.p + Size(i), u)
       case None => UBad)
    case _ => s
  }

  function UStepN(pr: Prog, t: Subject, s: UState, n: nat): UState
    decreases n
  {
    if n == 0 then s else UStepN(pr, t, UStep(pr, t, s), n - 1)
  }

  function Filled(n: nat, v: int): (a: seq<int>)
    ensures |a| == n && forall i :: 0 <= i < n ==> a[i] == v
  {
    if n == 0 then [] else Filled(n - 1, v) + [v]
  }

  /** Where match_at starts: no captures, over the bottom entry. */
  function UStart(pr: Prog, s: nat, prev: int): UConfig {
    UConfig(0, s, prev, s,
        Mem([EChoice(KAlt, FINISH, s, prev, s)], Filled(pr.numMem + 1, INVALID), Filled(pr.numMem + 1, INVALID)),
            Filled(|pr.ranges|, INVALID))
  }
}
