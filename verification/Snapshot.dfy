/** match_at's opcode loop over an idealised stack: a choice point stores a copy of everything it has to
    restore.  `Stuck` marks what the real matcher could not do safely on its undo log, such as popping
    something that is not the last choice point, or counting a loop it cannot find. */
module Snapshot {
  import opened Common
  import opened Opcodes
  import opened Semantics
  import Codegen

  /** reg->stack_pop_level: which entries of the undo log a failure replays. */
  datatype PopLevel = Free | MemOnly | All

  /** The pop level onig_compile chooses (regcomp.c:5809-5816). */
  function PopLevelOf(reps: nat, btStart: set<nat>, btEnd: set<nat>): PopLevel {
    if reps != 0 || btEnd != {} then All else if btStart != {} then MemOnly else Free
  }

  /** What match_at uses of a compiled pattern: how its code reads, the ranges of its counter loops, the groups whose
      start (end) is pushed on the stack, and the pop level. */
  datatype Prog = Prog(fetch: Reader, ranges: seq<Codegen.Range>, numMem: nat,
                       btStart: set<nat>, btEnd: set<nat>, level: PopLevel)

  /** A counter loop: its count and the address of its body. */
  datatype LoopState = LoopState(count: nat, body: int)

  /** Where a null check started. */
  datatype Mark = Mark(pos: nat, visits: nat)

  datatype Kind = KAlt | KPosNot | KBehindNot | KPos | KStop

  datatype Choice = Choice(kind: Kind, p: int, x: St, loops: map<nat, LoopState>, marks: map<nat, Mark>) {
    /** STK_MASK_POP_USED. */
    predicate Resumes() { kind.KAlt? || kind.KPosNot? || kind.KBehindNot? }
  }

  /** `clean`: the last thing pushed and not yet popped is the choice point on top. */
  datatype Config = Config(p: int, x: St, loops: map<nat, LoopState>, marks: map<nat, Mark>,
                           clean: bool, stack: seq<Choice>)

  datatype State = Run(c: Config) | Matched(x: St) | Mismatch | Stuck

  /** The address of the static OP_FINISH under the bottom of the stack. */
  const FINISH: int := -1

  function FetchAt(pr: Prog, p: int): Option<Instr> {
    if p == FINISH then Some(Finish) else pr.fetch(p)
  }

  predicate AllAlt(stack: seq<Choice>) {
    forall k :: 0 <= k < |stack| ==> stack[k].kind.KAlt?
  }

  /** STACK_POP and the resumption at `fail`. */
  function Backtrack(stack: seq<Choice>): State {
    if stack == [] then Stuck
    else
      var top := stack[|stack| - 1];
      var rest := stack[..|stack| - 1];
      if top.Resumes() then Run(Config(top.p, top.x, top.loops, top.marks, false, rest))
      else Backtrack(rest)
  }

  /** The index of the bracket of the given kind below nothing but alternatives, or -1. */
  function Bracket(stack: seq<Choice>, kind: Kind): int
    ensures -1 <= Bracket(stack, kind) < |stack|
    ensures Bracket(stack, kind) >= 0 ==> stack[Bracket(stack, kind)].kind == kind
  {
    if stack == [] then -1
    else if stack[|stack| - 1].kind == kind then |stack| - 1
    else if stack[|stack| - 1].kind.KAlt? then Bracket(stack[..|stack| - 1], kind)
    else -1
  }

  function Choose(kind: Kind, p: int, c: Config): Choice {
    Choice(kind, p, c.x, c.loops, c.marks)
  }

  /** Push a choice point that resumes at `alt`, and go on at `next`. */
  function PushAlt(c: Config, alt: int, next: int): State {
    Run(c.(p := next, clean := true, stack := c.stack + [Choose(KAlt, alt, c)]))
  }

  function Consume(c: Config, next: int, n: nat): State {
    Run(c.(p := next, x := Advance(c.x, n)))
  }

  function Exec(pr: Prog, t: Subject, i: Instr, next: int, c: Config): State {
    match i
    case Finish => Mismatch
    case End => Matched(c.x)
    case Exact(bs) => if t.Has(c.x.s, bs) then Consume(c, next, |bs|) else Backtrack(c.stack)
    case CClassOp(bs, neg) =>
      if c.x.s < t.End() && ClassHas(bs, neg, t.At(c.x.s)) then Consume(c, next, 1) else Backtrack(c.stack)
    case AnyChar(ml) => if AnyMatches(t, ml, c.x) then Consume(c, next, 1) else Backtrack(c.stack)
    case AnyCharStarOp(ml) => ExecStar(t, ml, None, next, c, c.x.s)
    case AnyCharStarPeek(ml, ch) => ExecStar(t, ml, Some(ch), next, c, c.x.s)
    case BeginBufOp => ExecAnchor(t, Tree.BeginBuf, next, c)
    case EndBufOp => ExecAnchor(t, Tree.EndBuf, next, c)
    case BeginLineOp => ExecAnchor(t, Tree.BeginLine, next, c)
    case EndLineOp => ExecAnchor(t, Tree.EndLine, next, c)
    case SemiEndBufOp => ExecAnchor(t, Tree.SemiEndBuf, next, c)
    case BeginPositionOp => ExecAnchor(t, Tree.BeginPosition, next, c)
    case BeginPosOrLineOp => ExecAnchor(t, Tree.AnyCharStar, next, c)
    case BackrefOp(num) => ExecBackref(pr, t, num, next, c)
    case MemStart(num, push) => ExecMemStart(pr, num, push, next, c)
    case MemEnd(num, push) => ExecMemEnd(pr, num, push, next, c)
    case KeepOp => Run(c.(p := next, x := c.x.(keep := c.x.s)))
    case Fail => Backtrack(c.stack)
    case Jump(addr) => Run(c.(p := next + addr))
    case Push(addr) => PushAlt(c, next + addr, next)
    case Pop =>
      if c.clean && c.stack != [] then Run(c.(p := next, clean := false, stack := c.stack[..|c.stack| - 1])) else Stuck
    case PushOrJumpExact1(addr, ch) =>
      if t.At(c.x.s) == ch && c.x.s < t.End() then PushAlt(c, next + addr, next) else Run(c.(p := next + addr))
    case PushIfPeekNext(addr, ch) =>
      if t.At(c.x.s) == ch then PushAlt(c, next + addr, next) else Run(c.(p := next))
    case Repeat(greedy, id, addr) => ExecRepeat(pr, greedy, id, addr, next, c)
    case RepeatInc(greedy, sg, id) => ExecRepeatInc(pr, greedy, sg, id, next, c)
    case NullCheckStart(id) =>
      Run(c.(p := next, clean := false, marks := c.marks[id := Mark(c.x.s, |c.x.log|)]))
    case NullCheckEnd(id) => ExecNullEnd(pr, id, false, next, c)
    case NullCheckEndMemst(id) => ExecNullEnd(pr, id, true, next, c)
    case PushPos => PushBracket(KPos, next, next, c)
    case PopPos =>
      var k := Bracket(c.stack, KPos);
      if k < 0 then Stuck
      else
        var m := c.stack[k];
        Run(Config(next, c.x.(s := m.x.s, prev := m.x.prev), c.loops, m.marks, false, c.stack[..k]))
    case PushPosNot(addr) => PushBracket(KPosNot, next + addr, next, c)
    case FailPos => FailBracket(KPosNot, c)
    case PushStopBt => PushBracket(KStop, next, next, c)
    case PopStopBt =>
      var k := Bracket(c.stack, KStop);
      if k < 0 then Stuck else Run(Config(next, c.x, c.loops, c.stack[k].marks, false, c.stack[..k]))
    case LookBehind(n) =>
      if c.x.s < n then Backtrack(c.stack) else Run(c.(p := next, x := StepBack(c.x, n)))
    case PushLookBehindNot(addr, n) =>
      if c.x.s < n then Run(c.(p := next + addr))
      else Run(c.(p := next, x := StepBack(c.x, n), clean := false,
                  stack := c.stack + [Choose(KBehindNot, next + addr, c)]))
    case FailLookBehindNot => FailBracket(KBehindNot, c)
  }

  function PushBracket(kind: Kind, alt: int, next: int, c: Config): State {
    Run(c.(p := next, clean := false, stack := c.stack + [Choose(kind, alt, c)]))
  }

  function FailBracket(kind: Kind, c: Config): State {
    var k := Bracket(c.stack, kind);
    if k < 0 then Stuck else Backtrack(c.stack[..k])
  }

  function ExecAnchor(t: Subject, kind: Tree.AnchorKind, next: int, c: Config): State {
    if AnchorHolds(kind, t, c.x) then Run(c.(p := next)) else Backtrack(c.stack)
  }

  /** OP_ANYCHAR_STAR and its variants push one alternative for every position they pass. */
  function ExecStar(t: Subject, ml: bool, peek: Option<byte>, next: int, c: Config, begin: nat): State
    decreases Left(t, c.x)
  {
    if c.x.s < t.End() then
      var pushed := if peek.None? || peek.value == t.At(c.x.s)
                    then c.stack + [Choose(KAlt, next, c)] else c.stack;
      if !ml && t.IsNewline(c.x.s) then Backtrack(pushed)
      else ExecStar(t, ml, peek, next, c.(x := Advance(c.x, 1), stack := pushed), begin)
    else Run(c.(p := next, x := c.x.(prev := begin), clean := false))
  }

  /** A capture a back-reference can read. */
  predicate Readable(t: Subject, cap: Cap) {
    !cap.Open? && (cap.Closed? ==> cap.start <= cap.end <= t.End())
  }

  function ExecBackref(pr: Prog, t: Subject, num: nat, next: int, c: Config): State {
    if num !in pr.btStart || num > pr.numMem || !Readable(t, Get(c.x.caps, num)) then Stuck
    else
      var ys := BackrefMeaning(t, num, c.x);
      if ys == [] then Backtrack(c.stack) else Run(c.(p := next, x := ys[0]))
  }

  function ExecMemStart(pr: Prog, num: nat, push: bool, next: int, c: Config): State {
    if num > pr.numMem || push != (num in pr.btStart) || Get(c.x.caps, num).Open? || (push && pr.level.Free?) then Stuck
    else Run(c.(p := next, x := OpenGroup(num, push, c.x), clean := false))
  }

  function ExecMemEnd(pr: Prog, num: nat, push: bool, next: int, c: Config): State {
    if num > pr.numMem || push != (num in pr.btEnd) || !Get(c.x.caps, num).Open? || (push && !pr.level.All?) then Stuck
    else Run(c.(p := next, x := CloseGroup(num, c.x), clean := false))
  }

  function ExecRepeat(pr: Prog, greedy: bool, id: nat, addr: int, next: int, c: Config): State {
    if id >= |pr.ranges| || (!pr.ranges[id].nested && id in c.loops) then Stuck
    else
      var c1 := c.(loops := c.loops[id := LoopState(0, next)], clean := false);
      if pr.ranges[id].lower > 0 then Run(c1.(p := next))
      else if greedy then PushAlt(c1, next + addr, next)
      else PushAlt(c1, next, next + addr)
  }

  function ExecRepeatInc(pr: Prog, greedy: bool, sg: bool, id: nat, next: int, c: Config): State {
    if id >= |pr.ranges| || id !in c.loops || !pr.level.All? || sg != pr.ranges[id].nested then Stuck
    else
      var l := c.loops[id];
      var n := l.count + 1;
      var r := pr.ranges[id];
      var c1 := c.(loops := c.loops[id := l.(count := n)], clean := false);
      if n > r.upper then Stuck
      else if n == r.upper then Run(c1.(p := next))
      else if n < r.lower then Run(c1.(p := l.body))
      else if greedy then Run(c1.(p := l.body, stack := c.stack + [Choose(KAlt, next, c)]))
      else PushAlt(c1, l.body, next)
  }

  /** The instruction a null check may skip, and its size. */
  function Skipped(pr: Prog, p: int): Option<int> {
    match FetchAt(pr, p)
    case Some(i) => if i.Jump? || i.Push? || i.RepeatInc? then Some(p + Size(i)) else None
    case None => None
  }

  function ExecNullEnd(pr: Prog, id: nat, mem: bool, next: int, c: Config): State {
    if id !in c.marks || c.marks[id].visits > |c.x.log| then Stuck
    else
      var m := c.marks[id];
      var turn := if m.pos != c.x.s then Again
                  else if mem then MemTurn(c.x.log[m.visits..], c.x.s, false) else Leave;
      match turn
      case Again => Run(c.(p := next))
      case Leave => (match Skipped(pr, next) case Some(q) => Run(c.(p := q)) case None => Stuck)
      case Reject => Backtrack(c.stack)
  }

  function Step(pr: Prog, t: Subject, s: State): State {
    match s
    case Run(c) =>
      (match FetchAt(pr, c.p)
       case Some(i) => Exec(pr, t, i, c.p + Size(i), c)
       case None => Stuck)
    case _ => s
  }

  function StepN(pr: Prog, t: Subject, s: State, n: nat): State
    decreases n
  {
    if n == 0 then s else StepN(pr, t, Step(pr, t, s), n - 1)
  }

  /** s leads to s2. */
  ghost predicate Reaches(pr: Prog, t: Subject, s: State, s2: State) {
    exists n: nat :: StepN(pr, t, s, n) == s2
  }

  lemma {:induction false} StepNAdd(pr: Prog, t: Subject, s: State, m: nat, n: nat)
    ensures StepN(pr, t, s, m + n) == StepN(pr, t, StepN(pr, t, s, m), n)
    decreases m
  {
    if m > 0 { StepNAdd(pr, t, Step(pr, t, s), m - 1, n); }
  }

  lemma ReachesTrans(pr: Prog, t: Subject, a: State, b: State, c: State)
    requires Reaches(pr, t, a, b) && Reaches(pr, t, b, c)
    ensures Reaches(pr, t, a, c)
  {
    var m: nat :| StepN(pr, t, a, m) == b;
    var n: nat :| StepN(pr, t, b, n) == c;
    StepNAdd(pr, t, a, m, n);
  }

  lemma ReachesStep(pr: Prog, t: Subject, a: State)
    ensures Reaches(pr, t, a, Step(pr, t, a))
  {
    assert StepN(pr, t, a, 1) == StepN(pr, t, Step(pr, t, a), 0);
  }

  lemma ReachesRefl(pr: Prog, t: Subject, a: State)
    ensures Reaches(pr, t, a, a)
  {
    assert StepN(pr, t, a, 0) == a;
  }

  /** Where match_at starts: registers at the given position over the bottom choice point. */
  function Start(s: nat, prev: int): Config {
    var x := St(s, prev, s, map[], []);
    Config(0, x, map[], map[], true, [Choice(KAlt, FINISH, x, map[], map[])])
  }
}
