/** What is still to come at every point of a run: the openings, or closings, that a steady group has ahead of the
    current configuration and of every choice point.  It never grows from the bottom of the stack to the top, so an
    array element that a choice point still needs is written again before it counts (regexec.c:2261-2288). */
module StillDue {
  import opened Common
  import opened Opcodes
  import opened Semantics
  import opened Snapshot
  import opened UndoLog
  import opened CodeSizes
  import opened Pending
  import opened JumpTargets
  import opened Numbering

  /** A program and what is counted in it. */
  datatype Plan = Plan(d: Load, ops: seq<Instr>)

  function Rest(ops: seq<Instr>, p: int): seq<Instr> {
    if p <= 0 || ops == [] then ops else Rest(ops[1..], p - Size(ops[0]))
  }

  lemma {:induction false} RestAt(ops: seq<Instr>, j: nat)
    requires j <= |ops|
    ensures Rest(ops, SizeAll(ops[..j])) == ops[j..]
    decreases j
  {
    hide Size;
    if j == 0 {
      assert SizeAll(ops[..0]) == 0;
    } else {
      assert ops[..j] == [ops[0]] + ops[1..][..j - 1];
      Prefixed(ops[0], ops[1..][..j - 1]);
      assert Size(ops[0]) > 0 by { SizePositive(ops[0]); }
      RestAt(ops[1..], j - 1);
      assert ops[1..][j - 1..] == ops[j..];
    }
  }

  lemma SizePositive(i: Instr)
    ensures Size(i) > 0
  {
  }

  // ---------------------------------------------------------------- points of a run

  /** How much is still to come from address p on; from the static OP_FINISH, as much as from the beginning. */
  function Due(w: Plan, p: int, loops: map<nat, LoopState>): nat { Pend(w.d, loops, Rest(w.ops, p)) }

  /** The address of instruction j, or the end. */
  function Address(w: Plan, j: nat): nat
    requires j <= |w.ops|
  {
    SizeAll(w.ops[..j])
  }

  ghost predicate Stands(w: Plan, p: int) {
    p == FINISH || exists j: nat :: j <= |w.ops| && p == Address(w, j)
  }

  /** b is the address behind the OP_REPEAT of loop id. */
  ghost predicate Begun(w: Plan, id: nat, b: int) {
    exists k: nat :: 0 < k <= |w.ops| && w.ops[k - 1].Repeat? && w.ops[k - 1].id == id && b == Address(w, k)
  }

  ghost predicate Looped(w: Plan, loops: map<nat, LoopState>) {
    forall id :: id in loops ==> Begun(w, id, loops[id].body)
  }

  /** The array element a is right for the capture; while the group is open its end does not matter. */
  predicate Tells(w: Plan, a: int, x: St) {
    w.d.num.Some?
    && match Get(x.caps, w.d.num.value)
       case Unset => a == INVALID
       case Open(start) => w.d.end || a == start
       case Closed(start, end) => a == if w.d.end then end else start
  }

  /** A place to go on from: if nothing is to come, the array element is right. */
  ghost predicate Point(w: Plan, a: int, p: int, x: St, loops: map<nat, LoopState>) {
    Stands(w, p) && Looped(w, loops) && (Due(w, p, loops) == 0 ==> Tells(w, a, x))
  }

  /** What is to come at the choice points grows towards the bottom, and is at least m. */
  ghost predicate Piled(w: Plan, a: int, stack: seq<Choice>, m: nat)
    decreases |stack|
  {
    stack == []
    || (var ch := stack[|stack| - 1];
        m <= Due(w, ch.p, ch.loops) && Point(w, a, ch.p, ch.x, ch.loops)
        && Piled(w, a, stack[..|stack| - 1], Due(w, ch.p, ch.loops)))
  }

  ghost predicate Steered(w: Plan, a: int, c: Config) {
    Point(w, a, c.p, c.x, c.loops) && Piled(w, a, c.stack, Due(w, c.p, c.loops))
  }

  ghost predicate Goes(w: Plan, a: int, s: State) {
    match s
    case Run(c) => Steered(w, a, c)
    case Matched(x) => Tells(w, a, x)
    case _ => true
  }

  // ---------------------------------------------------------------- stacks

  lemma PiledLess(w: Plan, a: int, stack: seq<Choice>, m: nat, k: nat)
    requires Piled(w, a, stack, m) && k <= m
    ensures Piled(w, a, stack, k)
  {
    hide Point, Due;
  }

  lemma {:induction false} PiledCut(w: Plan, a: int, stack: seq<Choice>, m: nat, k: nat)
    requires Piled(w, a, stack, m) && k <= |stack|
    ensures Piled(w, a, stack[..k], m)
    decreases |stack|
  {
    hide Point, Due;
    if k == |stack| {
      assert stack[..k] == stack;
    } else {
      var n := |stack| - 1;
      var more := Due(w, stack[n].p, stack[n].loops);
      PiledCut(w, a, stack[..n], more, k);
      assert stack[..n][..k] == stack[..k];
      PiledLess(w, a, stack[..k], more, m);
    }
  }

  lemma PiledPush(w: Plan, a: int, stack: seq<Choice>, ch: Choice, m: nat)
    requires Piled(w, a, stack, m) && Due(w, ch.p, ch.loops) == m && Point(w, a, ch.p, ch.x, ch.loops)
    ensures Piled(w, a, stack + [ch], m)
  {
    hide Point, Due;
    assert (stack + [ch])[..|stack|] == stack;
  }

  /** While something is to come everywhere, the array element may change. */
  lemma {:induction false} PiledFresh(w: Plan, a: int, b: int, stack: seq<Choice>, m: nat)
    requires Piled(w, a, stack, m) && 0 < m
    ensures Piled(w, b, stack, m)
    decreases |stack|
  {
    hide Due, Stands, Looped, Tells;
    if stack != [] {
      var n := |stack| - 1;
      PiledFresh(w, a, b, stack[..n], Due(w, stack[n].p, stack[n].loops));
    }
  }

  lemma {:induction false} BacktrackGoes(w: Plan, a: int, stack: seq<Choice>, m: nat)
    requires Piled(w, a, stack, m)
    ensures Goes(w, a, Backtrack(stack))
    decreases |stack|
  {
    hide Point, Due;
    if stack != [] {
      var n := |stack| - 1;
      BacktrackGoes(w, a, stack[..n], Due(w, stack[n].p, stack[n].loops));
    }
  }

  // ---------------------------------------------------------------- the program

  /** Every instruction is fetched from its address, and nothing skips what is to come. */
  ghost predicate Built(w: Plan, pr: Prog) {
    (forall j: nat :: j < |w.ops| ==> pr.fetch(Address(w, j)) == Some(w.ops[j]))
    && pr.fetch(Address(w, |w.ops|)) == None
    && (forall j: nat :: j < |w.ops| ==> Aimed(w, j))
    && w.d.num.Some? && w.d.ranges == pr.ranges && (exists k: nat :: Always(w.d, w.ops, k))
    && Single(w.ops)
  }

  ghost predicate Aimed(w: Plan, j: nat)
    requires j < |w.ops|
  {
    OneAims(w.d, w.ops[..j], w.ops[j], w.ops[j + 1..])
  }

  /** No two instructions begin, or end, the loop of the same number, and OP_END is the last instruction. */
  predicate Single(ops: seq<Instr>) {
    (forall i, j :: 0 <= i < j < |ops| ==> !Twins(ops[i], ops[j]))
    && forall i :: 0 <= i < |ops| && ops[i].End? ==> i == |ops| - 1
  }

  /** The machine is about to execute instruction j. */
  predicate At(w: Plan, j: nat, c: Config) {
    j < |w.ops| && c.p == Address(w, j)
  }

  lemma Here(w: Plan, j: nat, c: Config)
    requires At(w, j, c)
    ensures Due(w, c.p, c.loops) == One(w.d, c.loops, w.ops[j]) + Pend(w.d, c.loops, w.ops[j + 1..])
  {
    hide One;
    RestAt(w.ops, j);
    assert w.ops[j..][1..] == w.ops[j + 1..];
  }

  lemma There(w: Plan, j: nat, loops: map<nat, LoopState>)
    requires j <= |w.ops|
    ensures Stands(w, Address(w, j)) && Due(w, Address(w, j), loops) == Pend(w.d, loops, w.ops[j..])
  {
    hide Pend;
    RestAt(w.ops, j);
  }

  /** Behind instruction j. */
  lemma Next(w: Plan, j: nat, c: Config)
    requires At(w, j, c)
    ensures c.p + Size(w.ops[j]) == Address(w, j + 1)
  {
    hide Size;
    assert w.ops[..j + 1] == w.ops[..j] + [w.ops[j]];
    Suffixed(w.ops[..j], w.ops[j]);
  }

  lemma Onward(w: Plan, j: nat, c: Config)
    requires At(w, j, c)
    ensures var next := c.p + Size(w.ops[j]);
      Stands(w, next) && Due(w, c.p, c.loops) == One(w.d, c.loops, w.ops[j]) + Due(w, next, c.loops)
  {
    hide One, Pend, Due, Stands, Size;
    Here(w, j, c);
    Next(w, j, c);
    There(w, j + 1, c.loops);
  }

  /** The instruction an address leads to. */
  lemma Landed(w: Plan, pr: Prog, j: nat) returns (k: nat)
    requires Built(w, pr) && j < |w.ops| && HasAddr(w.ops[j])
    ensures k <= |w.ops| && Address(w, k) == Address(w, j) + Size(w.ops[j]) + w.ops[j].addr
    ensures Passes(w.d, w.ops[j]) ==> SameAhead(w.d, w.ops[k..], w.ops[j + 1..])
  {
    hide Size, Passes, SameAhead, Single, Always, Returns, Fixed;
    var ops, i := w.ops, w.ops[j];
    assert Aimed(w, j);
    assert ops[..j] + [i] + ops[j + 1..] == ops;
    k :| 0 <= k <= |ops| && SizeAll(ops[..k]) == SizeAll(ops[..j]) + Size(i) + i.addr
        && (Passes(w.d, i) ==> SameAhead(w.d, ops[k..], ops[j + 1..]));
  }

  lemma Across(w: Plan, pr: Prog, j: nat, c: Config)
    requires At(w, j, c) && Built(w, pr) && HasAddr(w.ops[j])
    ensures var next := c.p + Size(w.ops[j]); var q := next + w.ops[j].addr;
      Stands(w, q) && (Passes(w.d, w.ops[j]) ==> Due(w, q, c.loops) == Due(w, next, c.loops))
  {
    hide Pend, Due, Stands, Size, Passes, Built, Address;
    var k := Landed(w, pr, j);
    Next(w, j, c);
    There(w, j + 1, c.loops);
    There(w, k, c.loops);
  }

  // ---------------------------------------------------------------- moving on

  /** The capture of the group stays, and as much is to come. */
  lemma Stay(w: Plan, a: int, c: Config, c1: Config)
    requires Steered(w, a, c) && Stands(w, c1.p) && Looped(w, c1.loops)
    requires Due(w, c1.p, c1.loops) == Due(w, c.p, c.loops) && Piled(w, a, c1.stack, Due(w, c.p, c.loops))
    requires w.d.num.Some? && Get(c1.x.caps, w.d.num.value) == Get(c.x.caps, w.d.num.value)
    ensures Steered(w, a, c1)
  {
    hide Due, Stands, Looped, Piled;
  }

  lemma Choosing(w: Plan, a: int, c: Config, kind: Kind, q: int)
    requires Steered(w, a, c) && Stands(w, q) && Due(w, q, c.loops) == Due(w, c.p, c.loops)
    ensures Piled(w, a, c.stack + [Choose(kind, q, c)], Due(w, c.p, c.loops))
  {
    hide Due, Stands, Looped, Piled;
    PiledPush(w, a, c.stack, Choose(kind, q, c), Due(w, c.p, c.loops));
  }

  lemma Failing(w: Plan, a: int, c: Config, k: nat)
    requires Steered(w, a, c) && k <= |c.stack|
    ensures Goes(w, a, Backtrack(c.stack[..k])) && Goes(w, a, Backtrack(c.stack))
  {
    hide Due, Point, Piled, Goes, Backtrack;
    PiledCut(w, a, c.stack, Due(w, c.p, c.loops), k);
    BacktrackGoes(w, a, c.stack, Due(w, c.p, c.loops));
    BacktrackGoes(w, a, c.stack[..k], Due(w, c.p, c.loops));
  }

  // ---------------------------------------------------------------- instructions

  /** The array element after instruction i. */
  function Then(w: Plan, a: int, i: Instr, s: nat): int { if Hits(w.d, i) then s else a }

  /** On to the next instruction, past one that counts nothing. */
  lemma Pass(w: Plan, a: int, j: nat, c: Config, c1: Config)
    requires Steered(w, a, c) && At(w, j, c) && Silent(w.d, w.ops[j]) && w.d.num.Some?
    requires c1.p == c.p + Size(w.ops[j]) && c1.loops == c.loops && c1.x.caps == c.x.caps
    requires Piled(w, a, c1.stack, Due(w, c.p, c.loops))
    ensures Steered(w, a, c1)
  {
    hide Due, Stands, Piled, Size, At, Looped;
    Onward(w, j, c);
    Stay(w, a, c, c1);
  }

  lemma Settled(w: Plan, a: int, c: Config)
    requires Steered(w, a, c)
    ensures Piled(w, a, c.stack, Due(w, c.p, c.loops)) && Looped(w, c.loops)
    ensures forall k: nat :: k <= |c.stack| ==> Piled(w, a, c.stack[..k], Due(w, c.p, c.loops))
  {
    hide Due, Stands, Looped, Piled;
    forall k: nat | k <= |c.stack| ensures Piled(w, a, c.stack[..k], Due(w, c.p, c.loops)) {
      PiledCut(w, a, c.stack, Due(w, c.p, c.loops), k);
    }
  }

  predicate IsLeaf(i: Instr) {
    i.Exact? || i.CClassOp? || i.AnyChar? || i.BackrefOp? || i.KeepOp? || i.Fail? || i.LookBehind? || i.BeginBufOp?
    || i.EndBufOp? || i.BeginLineOp? || i.EndLineOp? || i.SemiEndBufOp? || i.BeginPositionOp? || i.BeginPosOrLineOp?
  }

  /** A leaf goes on behind itself with the same captures, or fails. */
  lemma LeafIs(pr: Prog, t: Subject, i: Instr, next: int, c: Config)
    requires IsLeaf(i)
    ensures var s := Exec(pr, t, i, next, c);
      s == Backtrack(c.stack) || s.Stuck?
      || (s.Run? && s.c.p == next && s.c.loops == c.loops && s.c.stack == c.stack && s.c.x.caps == c.x.caps)
  {
    hide Backtrack;
  }

  lemma LeafGoes(w: Plan, pr: Prog, t: Subject, a: int, j: nat, c: Config)
    requires Steered(w, a, c) && At(w, j, c) && Built(w, pr) && IsLeaf(w.ops[j])
    ensures Goes(w, a, Exec(pr, t, w.ops[j], c.p + Size(w.ops[j]), c))
  {
    hide Exec, Size, Backtrack, Steered;
    var s := Exec(pr, t, w.ops[j], c.p + Size(w.ops[j]), c);
    LeafIs(pr, t, w.ops[j], c.p + Size(w.ops[j]), c);
    Failing(w, a, c, |c.stack|);
    Settled(w, a, c);
    if s.Run? && s != Backtrack(c.stack) { Pass(w, a, j, c, s.c); }
  }

  lemma {:induction false} StarGoes(w: Plan, t: Subject, ml: bool, peek: Option<byte>, a: int, j: nat, c: Config,
      begin: nat)
    requires Steered(w, a, c) && At(w, j, c) && Silent(w.d, w.ops[j]) && w.d.num.Some?
    ensures Goes(w, a, ExecStar(t, ml, peek, c.p + Size(w.ops[j]), c, begin))
    decreases Left(t, c.x)
  {
    hide Size, Backtrack, Due, Stands, Looped, Piled, Silent;
    var next := c.p + Size(w.ops[j]);
    Onward(w, j, c);
    assert One(w.d, c.loops, w.ops[j]) == 0 by { SilentIs(w.d, c.loops, w.ops[j]); }
    Settled(w, a, c);
    if c.x.s < t.End() {
      var c1 := if peek.None? || peek.value == t.At(c.x.s) then c.(stack := c.stack + [Choose(KAlt, next, c)]) else c;
      Choosing(w, a, c, KAlt, next);
      if !ml && t.IsNewline(c.x.s) {
        Failing(w, a, c1, |c1.stack|);
      } else {
        StarGoes(w, t, ml, peek, a, j, c1.(x := Advance(c.x, 1)), begin);
      }
    } else {
      Pass(w, a, j, c, c.(p := next, x := c.x.(prev := begin), clean := false));
    }
  }

  lemma SilentIs(d: Load, loops: map<nat, LoopState>, i: Instr)
    requires Silent(d, i)
    ensures One(d, loops, i) == 0
  {
  }

  /** A choice point is pushed. */
  predicate Grown(c: Config, kind: Kind, q: int, stack: seq<Choice>) { stack == c.stack + [Choose(kind, q, c)] }

  predicate IsJump(i: Instr) { HasAddr(i) && !i.Repeat? }

  /** What a jump instruction does: on behind it or to its address, and the other one may be pushed. */
  lemma JumpIs(pr: Prog, t: Subject, i: Instr, next: int, c: Config)
    requires IsJump(i)
    ensures var s, q := Exec(pr, t, i, next, c), next + i.addr;
      s.Run? && (s.c.p == next || s.c.p == q) && s.c.loops == c.loops && s.c.x.caps == c.x.caps
      && (s.c.stack == c.stack || exists kind :: Grown(c, kind, q, s.c.stack))
  {
    var s := Exec(pr, t, i, next, c);
    var q := next + i.addr;
    assert s.c.stack == c.stack || Grown(c, KAlt, q, s.c.stack) || Grown(c, KPosNot, q, s.c.stack)
        || Grown(c, KBehindNot, q, s.c.stack);
  }

  lemma JumpGoes(w: Plan, pr: Prog, t: Subject, a: int, j: nat, c: Config)
    requires Steered(w, a, c) && At(w, j, c) && Built(w, pr) && IsJump(w.ops[j])
    ensures Goes(w, a, Exec(pr, t, w.ops[j], c.p + Size(w.ops[j]), c))
  {
    hide Exec, Size, Due, Stands, Looped, Piled, Steered, Pend;
    var i, next := w.ops[j], c.p + Size(w.ops[j]);
    var s := Exec(pr, t, i, next, c);
    JumpIs(pr, t, i, next, c);
    Onward(w, j, c);
    Across(w, pr, j, c);
    assert One(w.d, c.loops, i) == 0 by { SilentIs(w.d, c.loops, i); }
    Settled(w, a, c);
    if s.c.stack != c.stack {
      var kind :| Grown(c, kind, next + i.addr, s.c.stack);
      Choosing(w, a, c, kind, next + i.addr);
    }
    Stay(w, a, c, s.c);
  }

  predicate IsBracket(i: Instr) {
    i.PushPos? || i.PopPos? || i.PushStopBt? || i.PopStopBt? || i.FailPos? || i.FailLookBehindNot? || i.Pop?
  }

  lemma BracketIs(pr: Prog, t: Subject, i: Instr, next: int, c: Config)
    requires IsBracket(i)
    ensures var s := Exec(pr, t, i, next, c);
      s.Stuck? || (exists k: nat :: k <= |c.stack| && s == Backtrack(c.stack[..k]))
      || (s.Run? && s.c.p == next && s.c.loops == c.loops && s.c.x.caps == c.x.caps
          && ((exists k: nat :: k <= |c.stack| && s.c.stack == c.stack[..k])
              || (exists kind :: Grown(c, kind, next, s.c.stack))))
  {
    hide Backtrack, Bracket;
    var s := Exec(pr, t, i, next, c);
    if i.PushPos? { assert Grown(c, KPos, next, s.c.stack); }
    if i.PushStopBt? { assert Grown(c, KStop, next, s.c.stack); }
    if i.PopPos? && !s.Stuck? { assert s.c.stack == c.stack[..Bracket(c.stack, KPos)]; }
    if i.PopStopBt? && !s.Stuck? { assert s.c.stack == c.stack[..Bracket(c.stack, KStop)]; }
    if i.FailPos? && !s.Stuck? { assert s == Backtrack(c.stack[..Bracket(c.stack, KPosNot)]); }
    if i.FailLookBehindNot? && !s.Stuck? { assert s == Backtrack(c.stack[..Bracket(c.stack, KBehindNot)]); }
    if i.Pop? && !s.Stuck? { assert s.c.stack == c.stack[..|c.stack| - 1]; }
  }

  lemma BracketGoes(w: Plan, pr: Prog, t: Subject, a: int, j: nat, c: Config)
    requires Steered(w, a, c) && At(w, j, c) && Built(w, pr) && IsBracket(w.ops[j])
    ensures Goes(w, a, Exec(pr, t, w.ops[j], c.p + Size(w.ops[j]), c))
  {
    hide Exec, Size, Due, Stands, Looped, Piled, Steered, Pend, Backtrack;
    var i, next := w.ops[j], c.p + Size(w.ops[j]);
    var s := Exec(pr, t, i, next, c);
    BracketIs(pr, t, i, next, c);
    if k: nat :| k <= |c.stack| && s == Backtrack(c.stack[..k]) {
      Failing(w, a, c, k);
    } else if !s.Stuck? {
      Onward(w, j, c);
      assert One(w.d, c.loops, i) == 0 by { SilentIs(w.d, c.loops, i); }
      Settled(w, a, c);
      if kind :| Grown(c, kind, next, s.c.stack) { Choosing(w, a, c, kind, next); }
      Stay(w, a, c, s.c);
    }
  }

  // ---------------------------------------------------------------- groups

  lemma MemGoes(w: Plan, pr: Prog, t: Subject, a: int, j: nat, c: Config)
    requires Steered(w, a, c) && At(w, j, c) && Built(w, pr) && (w.ops[j].MemStart? || w.ops[j].MemEnd?)
    ensures Goes(w, Then(w, a, w.ops[j], c.x.s), Exec(pr, t, w.ops[j], c.p + Size(w.ops[j]), c))
  {
    hide Size, Due, Stands, Looped, Piled, Pend;
    var i := w.ops[j];
    var s, b := Exec(pr, t, i, c.p + Size(i), c), Then(w, a, i, c.x.s);
    Onward(w, j, c);
    Settled(w, a, c);
    if Hits(w.d, i) { PiledFresh(w, a, b, c.stack, Due(w, c.p, c.loops)); }
    if s.Run? { PiledLess(w, b, c.stack, Due(w, c.p, c.loops), Due(w, s.c.p, c.loops)); }
  }

  // ---------------------------------------------------------------- loops

  /** The state of a loop that no instruction of ops begins or ends, or whose body counts nothing. */
  lemma {:induction false} Unconcerned(d: Load, loops: map<nat, LoopState>, id: nat, l: LoopState, ops: seq<Instr>)
    requires Weight(d, id) == 0 || forall k :: 0 <= k < |ops| && Numbered(ops[k]) ==> ops[k].id != id
    ensures Pend(d, loops[id := l], ops) == Pend(d, loops, ops)
    decreases |ops|
  {
    if ops != [] {
      assert Numbered(ops[0]) ==> ops[0].id != id || Weight(d, id) == 0;
      if Numbered(ops[0]) && ops[0].id == id {
        Weightless(d, loops, ops[0]);
        Weightless(d, loops[id := l], ops[0]);
      }
      Unconcerned(d, loops, id, l, ops[1..]);
    }
  }

  lemma Weightless(d: Load, loops: map<nat, LoopState>, i: Instr)
    requires Numbered(i) && Weight(d, i.id) == 0
    ensures One(d, loops, i) == 0
  {
  }

  /** The body of the loop that instruction j ends begins at instruction k. */
  ghost predicate BodyAt(w: Plan, j: nat, k: nat) {
    0 < k <= j < |w.ops| && w.ops[j].RepeatInc? && w.ops[k - 1].Repeat? && w.ops[k - 1].id == w.ops[j].id
    && Always(w.d, w.ops[k..j], Weight(w.d, w.ops[j].id))
  }

  lemma Returning(w: Plan, pr: Prog, j: nat)
    requires Built(w, pr) && j < |w.ops| && w.ops[j].RepeatInc?
    ensures exists k: nat :: BodyAt(w, j, k)
  {
    hide Always, Address, Single;
    assert Aimed(w, j);
    var k :| 0 < k <= j && w.ops[..j][k - 1].Repeat? && w.ops[..j][k - 1].id == w.ops[j].id
        && Always(w.d, w.ops[..j][k..], Weight(w.d, w.ops[j].id));
    assert w.ops[..j][k..] == w.ops[k..j];
    assert BodyAt(w, j, k);
  }

  /** Nothing belongs to a loop before its OP_REPEAT or behind its OP_REPEAT_INC. */
  lemma Alone(w: Plan, pr: Prog, j: nat, k: nat)
    requires Built(w, pr) && j < |w.ops| && k < |w.ops| && Numbered(w.ops[j]) && Numbered(w.ops[k]) && j != k
    requires w.ops[k].id == w.ops[j].id
    ensures if w.ops[j].Repeat? then j < k else k < j
  {
    hide Always, Address;
    assert Single(w.ops);
    var i := if w.ops[j].Repeat? then k else j;
    assert !Twins(w.ops[j], w.ops[k]);
    Returning(w, pr, i);
    var b: nat :| BodyAt(w, i, b);
    var o := if i == k then j else k;
    assert Twins(w.ops[b - 1], w.ops[o]) && Twins(w.ops[o], w.ops[b - 1]);
    assert b - 1 == o;
  }

  lemma Ahead(w: Plan, pr: Prog, j: nat, loops: map<nat, LoopState>, l: LoopState)
    requires Built(w, pr) && j < |w.ops| && w.ops[j].RepeatInc?
    ensures Pend(w.d, loops[w.ops[j].id := l], w.ops[j + 1..]) == Pend(w.d, loops, w.ops[j + 1..])
  {
    hide Built, Pend;
    var rest := w.ops[j + 1..];
    forall k | 0 <= k < |rest| && Numbered(rest[k]) ensures rest[k].id != w.ops[j].id {
      if rest[k].id == w.ops[j].id { Alone(w, pr, j, j + 1 + k); }
    }
    Unconcerned(w.d, loops, w.ops[j].id, l, rest);
  }

  /** Beginning a loop afresh changes nothing of what is to come. */
  lemma Afresh(w: Plan, pr: Prog, j: nat, c: Config, loops: map<nat, LoopState>)
    requires Built(w, pr) && At(w, j, c) && w.ops[j].Repeat?
    requires loops == c.loops[w.ops[j].id := LoopState(0, c.p + Size(w.ops[j]))]
    ensures Due(w, c.p + Size(w.ops[j]), loops) == Due(w, c.p, c.loops)
    ensures Due(w, c.p, loops) == Due(w, c.p, c.loops)
  {
    hide Built, Pend, Due, Size, Always;
    var d, ops, id, l := w.d, w.ops, w.ops[j].id, LoopState(0, c.p + Size(w.ops[j]));
    forall k | 0 <= k < |ops[..j]| && Numbered(ops[..j][k]) ensures ops[..j][k].id != id {
      if ops[k].id == id { Alone(w, pr, j, k); }
    }
    Unconcerned(d, c.loops, id, l, ops[..j]);
    assert exists k: nat :: Always(d, ops, k) by { SumIs(w, pr); }
    var k: nat :| Always(d, ops, k);
    Total(d, c.loops, ops, j, k);
    Total(d, loops, ops, j, k);
    There(w, j, c.loops);
    There(w, j, loops);
    Onward(w, j, c.(loops := loops));
    assert One(d, loops, ops[j]) == 0 by { ScaledZero(Weight(d, id)); }
  }

  lemma SumIs(w: Plan, pr: Prog)
    requires Built(w, pr)
    ensures exists k: nat :: Always(w.d, w.ops, k)
  {
  }

  lemma Total(d: Load, loops: map<nat, LoopState>, ops: seq<Instr>, j: nat, k: nat)
    requires Always(d, ops, k) && j <= |ops|
    ensures Pend(d, loops, ops[..j]) + Pend(d, loops, ops[j..]) == k
  {
    hide Pend;
    assert ops == ops[..j] + ops[j..];
    PendJoin(d, loops, ops[..j], ops[j..]);
  }

  lemma BeginsAt(w: Plan, j: nat, c: Config)
    requires At(w, j, c) && w.ops[j].Repeat?
    ensures Begun(w, w.ops[j].id, c.p + Size(w.ops[j]))
  {
    hide Size, Address;
    Next(w, j, c);
    assert w.ops[j + 1 - 1] == w.ops[j];
  }

  lemma LoopedMore(w: Plan, loops: map<nat, LoopState>, id: nat, l: LoopState)
    requires Looped(w, loops) && Begun(w, id, l.body)
    ensures Looped(w, loops[id := l])
  {
    hide Begun;
  }

  /** OP_REPEAT: a loop that has to turn goes on with its body. */
  lemma RepeatGoes(w: Plan, pr: Prog, t: Subject, a: int, j: nat, c: Config)
    requires Steered(w, a, c) && At(w, j, c) && Built(w, pr) && w.ops[j].Repeat?
    ensures Goes(w, a, Exec(pr, t, w.ops[j], c.p + Size(w.ops[j]), c))
  {
    hide Size, Due, Stands, Begun, Looped, Piled, Steered, Pend, Always;
    var i, next := w.ops[j], c.p + Size(w.ops[j]);
    var s := Exec(pr, t, i, next, c);
    if s.Run? {
      var c1 := c.(loops := c.loops[i.id := LoopState(0, next)], clean := false);
      var c2 := c1.(p := next);
      Settled(w, a, c);
      BeginsAt(w, j, c);
      LoopedMore(w, c.loops, i.id, LoopState(0, next));
      Onward(w, j, c);
      Afresh(w, pr, j, c, c1.loops);
      Stay(w, a, c, c2);
      if pr.ranges[i.id].lower == 0 {
        assert Passes(w.d, i) by { Turning(w, pr, j); }
        Across(w, pr, j, c1);
        var q := if i.greedy then next + i.addr else next;
        Choosing(w, a, c2, KAlt, q);
        assert s.c.stack == c2.stack + [Choose(KAlt, q, c2)];
        Stay(w, a, c2, s.c);
      }
    }
  }

  lemma Turning(w: Plan, pr: Prog, j: nat)
    requires Built(w, pr) && j < |w.ops| && Numbered(w.ops[j])
    ensures Fixed(w.d, w.ops[j].id) && w.d.ranges == pr.ranges
  {
    hide Leads, Returns, Always, Address;
    assert Aimed(w, j);
  }

  /** The loop turns once more, or ends after its last turn. */
  lemma TurnDue(w: Plan, pr: Prog, j: nat, c: Config, loops: map<nat, LoopState>)
    requires Built(w, pr) && At(w, j, c) && w.ops[j].RepeatInc? && w.ops[j].id in c.loops && Looped(w, c.loops)
    requires var l := c.loops[w.ops[j].id]; loops == c.loops[w.ops[j].id := l.(count := l.count + 1)]
    ensures var id, q := w.ops[j].id, c.p + Size(w.ops[j]); var n := loops[id].count;
      Stands(w, q) && Stands(w, loops[id].body) && Looped(w, loops) && Fixed(w.d, id)
      && (Weight(w.d, id) == 0 ==> Due(w, q, c.loops) == Due(w, c.p, c.loops))
      && (Weight(w.d, id) == 0 || n == w.d.ranges[id].lower ==> Due(w, q, loops) == Due(w, c.p, c.loops))
      && (Weight(w.d, id) == 0 || n < w.d.ranges[id].lower ==>
          Due(w, loops[id].body, loops) == Due(w, c.p, c.loops))
  {
    hide Built, Size, Pend, Due, Stands, Looped, Fixed, Always;
    var d, ops, i, id := w.d, w.ops, w.ops[j], w.ops[j].id;
    Turning(w, pr, j);
    Onward(w, j, c);
    Onward(w, j, c.(loops := loops));
    Next(w, j, c);
    There(w, j + 1, c.loops);
    There(w, j + 1, loops);
    Ahead(w, pr, j, c.loops, loops[id]);
    var k := TheBody(w, pr, j, c.loops);
    LoopedMore(w, c.loops, id, loops[id]);
    There(w, j, loops);
    There(w, k, loops);
    RoundDue(w, j, k, loops);
    Steps(d, c.loops, loops, i);
  }

  lemma RoundDue(w: Plan, j: nat, k: nat, loops: map<nat, LoopState>)
    requires BodyAt(w, j, k)
    ensures Pend(w.d, loops, w.ops[k..]) == Weight(w.d, w.ops[j].id) + Pend(w.d, loops, w.ops[j..])
  {
    hide Pend;
    assert w.ops[k..] == w.ops[k..j] + w.ops[j..];
    PendJoin(w.d, loops, w.ops[k..j], w.ops[j..]);
  }

  /** The turns left before and after counting one. */
  lemma Steps(d: Load, loops: map<nat, LoopState>, more: map<nat, LoopState>, i: Instr)
    requires i.RepeatInc? && i.id in loops && Fixed(d, i.id)
    requires more == loops[i.id := loops[i.id].(count := loops[i.id].count + 1)]
    ensures Weight(d, i.id) == 0 ==> One(d, loops, i) == One(d, more, i) == 0
    ensures Weight(d, i.id) > 0 && more[i.id].count == d.ranges[i.id].lower ==> One(d, loops, i) == 0
    ensures Weight(d, i.id) > 0 && more[i.id].count < d.ranges[i.id].lower ==>
      One(d, loops, i) == Weight(d, i.id) + One(d, more, i)
  {
    hide Scaled;
    var left := TurnsLeft(d, loops, i.id);
    ScaledZero(Weight(d, i.id));
    ScaledZero(left);
    ScaledZero(TurnsLeft(d, more, i.id));
    if left > 0 { ScaledStep(Weight(d, i.id), left); }
  }

  /** A running loop goes back to where its body begins. */
  lemma TheBody(w: Plan, pr: Prog, j: nat, loops: map<nat, LoopState>) returns (k: nat)
    requires Built(w, pr) && j < |w.ops| && w.ops[j].RepeatInc? && w.ops[j].id in loops && Looped(w, loops)
    ensures BodyAt(w, j, k) && loops[w.ops[j].id].body == Address(w, k) && Begun(w, w.ops[j].id, Address(w, k))
  {
    hide Address, Always;
    Returning(w, pr, j);
    k :| BodyAt(w, j, k);
    var b: nat :| 0 < b <= |w.ops| && w.ops[b - 1].Repeat? && w.ops[b - 1].id == w.ops[j].id
        && loops[w.ops[j].id].body == Address(w, b);
    assert Twins(w.ops[b - 1], w.ops[k - 1]) && Twins(w.ops[k - 1], w.ops[b - 1]);
    assert Single(w.ops);
    assert b == k;
  }

  /** OP_REPEAT_INC: a loop that opens the group goes on as long as it has to, and no longer. */
  lemma IncGoes(w: Plan, pr: Prog, t: Subject, a: int, j: nat, c: Config)
    requires Steered(w, a, c) && At(w, j, c) && Built(w, pr) && w.ops[j].RepeatInc?
    ensures Goes(w, a, Exec(pr, t, w.ops[j], c.p + Size(w.ops[j]), c))
  {
    hide Size, Due, Stands, Begun, Looped, Piled, Steered, Pend, Always, Aimed, Address;
    var i, next := w.ops[j], c.p + Size(w.ops[j]);
    var s := Exec(pr, t, i, next, c);
    if s.Run? {
      var l := c.loops[i.id];
      var c1 := c.(loops := c.loops[i.id := l.(count := l.count + 1)]);
      Settled(w, a, c);
      TurnDue(w, pr, j, c, c1.loops);
      var n, r := l.count + 1, pr.ranges[i.id];
      if n == r.upper || n < r.lower {
        Stay(w, a, c, s.c);
      } else if i.greedy {
        Choosing(w, a, c, KAlt, next);
        Stay(w, a, c, s.c);
      } else {
        var c2 := c1.(p := l.body);
        Stay(w, a, c, c2);
        Choosing(w, a, c2, KAlt, l.body);
        assert s.c.stack == c2.stack + [Choose(KAlt, l.body, c2)];
        Stay(w, a, c, s.c);
      }
    }
  }

  // ---------------------------------------------------------------- null checks and steps

  lemma SkippedAt(w: Plan, pr: Prog, j: nat, c: Config)
    requires Built(w, pr) && At(w, j, c) && NullEnd(w.ops[j])
    ensures var next := c.p + Size(w.ops[j]); var q := Skipped(pr, next);
      q.Some? ==> Stands(w, q.value) && Due(w, q.value, c.loops) == Due(w, next, c.loops)
  {
    hide Size, Due, Stands, Pend, Single;
    assert Aimed(w, j);
    var next, rest := c.p + Size(w.ops[j]), w.ops[j + 1..];
    Next(w, j, c);
    Onward(w, j + 1, c.(p := next));
    assert rest[0] == w.ops[j + 1];
    PendOne(w.d, c.loops, w.ops[j + 1]);
    assert pr.fetch(Address(w, j + 1)) == Some(w.ops[j + 1]);
  }

  lemma CheckGoes(w: Plan, pr: Prog, t: Subject, a: int, j: nat, c: Config)
    requires Steered(w, a, c) && At(w, j, c) && Built(w, pr) && (w.ops[j].NullCheckStart? || NullEnd(w.ops[j]))
    ensures Goes(w, a, Exec(pr, t, w.ops[j], c.p + Size(w.ops[j]), c))
  {
    hide Size, Due, Stands, Looped, Piled, Steered, Pend, Always, Aimed, Address, Skipped, Backtrack, MemTurn;
    var i, next := w.ops[j], c.p + Size(w.ops[j]);
    var s := Exec(pr, t, i, next, c);
    Settled(w, a, c);
    Failing(w, a, c, |c.stack|);
    Onward(w, j, c);
    assert One(w.d, c.loops, i) == 0 by { SilentIs(w.d, c.loops, i); }
    if NullEnd(i) { SkippedAt(w, pr, j, c); }
    if s.Run? && s != Backtrack(c.stack) { Stay(w, a, c, s.c); }
  }

  lemma EndGoes(w: Plan, pr: Prog, t: Subject, a: int, j: nat, c: Config)
    requires Steered(w, a, c) && At(w, j, c) && Built(w, pr) && w.ops[j].End?
    ensures Goes(w, a, Exec(pr, t, w.ops[j], c.p + Size(w.ops[j]), c))
  {
    hide Size, Stands, Looped, Piled, Always, Address, Due;
    Onward(w, j, c);
    Next(w, j, c);
    There(w, j + 1, c.loops);
    assert Single(w.ops);
    assert w.ops[j + 1..] == [];
  }

  lemma ExecGoes(w: Plan, pr: Prog, t: Subject, a: int, j: nat, c: Config)
    requires Steered(w, a, c) && At(w, j, c) && Built(w, pr)
    ensures Goes(w, Then(w, a, w.ops[j], c.x.s), Exec(pr, t, w.ops[j], c.p + Size(w.ops[j]), c))
  {
    hide Exec, Size, Goes, Steered, Built;
    var i := w.ops[j];
    if i.MemStart? || i.MemEnd? { MemGoes(w, pr, t, a, j, c); }
    else if IsLeaf(i) { LeafGoes(w, pr, t, a, j, c); }
    else if IsJump(i) { JumpGoes(w, pr, t, a, j, c); }
    else if IsBracket(i) { BracketGoes(w, pr, t, a, j, c); }
    else if i.NullCheckStart? || NullEnd(i) { CheckGoes(w, pr, t, a, j, c); }
    else if i.Repeat? { RepeatGoes(w, pr, t, a, j, c); }
    else if i.RepeatInc? { IncGoes(w, pr, t, a, j, c); }
    else if i.End? { EndGoes(w, pr, t, a, j, c); }
    else { RestGoes(w, pr, t, a, j, c); }
  }

  lemma RestGoes(w: Plan, pr: Prog, t: Subject, a: int, j: nat, c: Config)
    requires Steered(w, a, c) && At(w, j, c) && Built(w, pr)
    requires w.ops[j].Finish? || w.ops[j].AnyCharStarOp? || w.ops[j].AnyCharStarPeek?
    ensures Goes(w, a, Exec(pr, t, w.ops[j], c.p + Size(w.ops[j]), c))
  {
    hide Size, Steered, Aimed, Address, Single, Always, ExecStar;
    match w.ops[j]
    case AnyCharStarOp(ml) => StarGoes(w, t, ml, None, a, j, c, c.x.s);
    case AnyCharStarPeek(ml, ch) => StarGoes(w, t, ml, Some(ch), a, j, c, c.x.s);
    case Finish => FinishGoes(w, pr, t, a, c.p + Size(w.ops[j]), c);
  }

  lemma FinishGoes(w: Plan, pr: Prog, t: Subject, a: int, next: int, c: Config)
    ensures Goes(w, a, Exec(pr, t, Finish, next, c))
  {
  }

  /** The array element after one step from c. */
  function After(w: Plan, pr: Prog, a: int, p: int, s: nat): int {
    match FetchAt(pr, p) case Some(i) => Then(w, a, i, s) case None => a
  }

  /** Every step keeps the points in order, and the array element right wherever nothing is to come. */
  lemma StepGoes(w: Plan, pr: Prog, t: Subject, a: int, c: Config)
    requires Steered(w, a, c) && Built(w, pr)
    ensures Goes(w, After(w, pr, a, c.p, c.x.s), Step(pr, t, Run(c)))
  {
    hide Exec, Size, Goes, Piled, Due, Looped, Aimed, Single, Always;
    if c.p == FINISH {
      FinishGoes(w, pr, t, a, c.p + Size(Finish), c);
    } else {
      var j: nat :| j <= |w.ops| && c.p == Address(w, j);
      if j < |w.ops| {
        assert pr.fetch(Address(w, j)) == Some(w.ops[j]);
        ExecGoes(w, pr, t, a, j, c);
      } else {
        StuckGoes(w, a);
      }
    }
  }

  lemma StuckGoes(w: Plan, a: int)
    ensures Goes(w, a, Stuck)
  {
  }
}
