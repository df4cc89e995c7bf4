/** The captures that are not pushed on the stack (regexec.c:1452-1465, 2261-2288): no failure restores mem_start_stk
    and mem_end_stk of such a group, and what match_at reports of it is right all the same if the group is steady. */
module Unpushed {
  import opened Common
  import opened Opcodes
  import opened Codegen
  import opened CodeFits
  import opened Numbering
  import opened Semantics
  import opened Snapshot
  import opened UndoLog
  import opened Undoing
  import opened UndoSteps
  import opened UndoCorrect
  import opened Lengths
  import opened Correctness
  import opened Pending
  import opened StillDue
  import opened JumpTargets
  import opened Tree

  /** The array element of the group. */
  function Cell(w: Plan, m: Mem): int
    requires w.d.num.Some?
  {
    Slot(if w.d.end then m.me else m.ms, w.d.num.value)
  }

  /** No failure restores the group. */
  predicate Loose(w: Plan, pr: Prog) {
    w.d.num.Some? && w.d.num.value !in pr.btStart && w.d.num.value !in pr.btEnd && w.d.num.value <= pr.numMem
  }

  ghost predicate Keeps(w: Plan, a: int, us: UState) {
    w.d.num.Some? && (us.URun? || us.UMatched? ==> Cell(w, us.c.m) == a)
  }

  lemma UndoCell(w: Plan, pr: Prog, m: Mem, level: PopLevel)
    requires Loose(w, pr) && m.stk != [] && Live(pr, m.stk)
    ensures Cell(w, UndoTop(m, level)) == Cell(w, m)
  {
    assert EntryOk(pr, m.stk, |m.stk| - 1);
  }

  lemma {:induction false} BacktrackKeeps(w: Plan, pr: Prog, m: Mem, rep: seq<int>)
    requires Loose(w, pr) && Sound(pr, m, rep)
    ensures Keeps(w, Cell(w, m), UBacktrack(m, pr.level, rep))
    decreases |m.stk|
  {
    hide UndoTop, Live, RepOk, Cell;
    if m.stk != [] {
      SoundUndo(pr, m, rep);
      UndoCell(w, pr, m, All);
      if !m.stk[|m.stk| - 1].Resumes() { BacktrackKeeps(w, pr, UndoTop(m, All), rep); }
    }
  }

  lemma {:induction false} FailToKeeps(w: Plan, pr: Prog, m: Mem, rep: seq<int>, kind: Kind)
    requires Loose(w, pr) && Sound(pr, m, rep)
    ensures Keeps(w, Cell(w, m), UFailTo(m, kind, pr.level, rep))
    decreases |m.stk|
  {
    hide UndoTop, Live, RepOk, Cell, Keeps, UBacktrack;
    if m.stk == [] {
      BadKeeps(w, Cell(w, m));
    } else {
      SoundUndo(pr, m, rep);
      UndoCell(w, pr, m, All);
      var rest := UndoTop(m, All);
      BacktrackKeeps(w, pr, rest, rep);
      FailToKeeps(w, pr, rest, rep, kind);
    }
  }

  lemma BadKeeps(w: Plan, a: int)
    requires w.d.num.Some?
    ensures Keeps(w, a, UBad)
  {
  }

  lemma {:induction false} StarKeeps(w: Plan, pr: Prog, t: Subject, ml: bool, peek: Option<byte>, next: int, u: UConfig,
      begin: nat)
    requires Loose(w, pr) && Sound(pr, u.m, u.rep)
    ensures Keeps(w, Cell(w, u.m), UStar(pr, t, ml, peek, next, u, begin))
    decreases if u.s <= t.End() then t.End() - u.s else 0
  {
    hide UBacktrack, Sound;
    if u.s < t.End() {
      var u1 := if peek.None? || peek.value == t.At(u.s) then Pushed(u, ChoiceOf(KAlt, next, u)) else u;
      PlainSound(pr, u, ChoiceOf(KAlt, next, u));
      if !ml && t.IsNewline(u.s) {
        BacktrackKeeps(w, pr, u1.m, u1.rep);
      } else {
        StarKeeps(w, pr, t, ml, peek, next, u1.(s := u.s + 1, prev := u.s), begin);
      }
    }
  }

  /** Instructions that leave the arrays alone unless they fail. */
  predicate Leaves(i: Instr) {
    i.MemStart? || i.MemEnd? || i.Repeat? || i.RepeatInc? || i.Jump? || HasAddr(i) || i.Pop? || i.PopPos?
        || i.PopStopBt?
    || i.PushPos? || i.PushStopBt? || i.NullCheckStart? || i.KeepOp? || i.Finish? || i.End?
  }

  lemma MemKeeps(w: Plan, pr: Prog, t: Subject, i: Instr, next: int, u: UConfig)
    requires Loose(w, pr) && Sound(pr, u.m, u.rep) && (i.MemStart? || i.MemEnd?)
    requires i.num == w.d.num.value ==> !i.push
    ensures Keeps(w, Then(w, Cell(w, u.m), i, u.s), UExec(pr, t, i, next, u))
  {
    hide Live, RepOk;
  }

  lemma LeavesKeep(w: Plan, pr: Prog, t: Subject, i: Instr, next: int, u: UConfig)
    requires Loose(w, pr) && Leaves(i) && !i.MemStart? && !i.MemEnd?
    ensures Keeps(w, Cell(w, u.m), UExec(pr, t, i, next, u))
  {
    hide VoidTo, FindChoice, FindRepeat, Bump;
  }

  /** The instructions that may fail. */
  lemma FailingKeeps(w: Plan, pr: Prog, t: Subject, i: Instr, next: int, u: UConfig)
    requires Loose(w, pr) && Sound(pr, u.m, u.rep) && !Leaves(i)
    ensures Keeps(w, Cell(w, u.m), UExec(pr, t, i, next, u))
  {
    hide UBacktrack, UFailTo, UStar, FindNull, MemScan, Sound, Cell, AnchorHolds, ClassHas, AnyMatches, Skipped;
    BacktrackKeeps(w, pr, u.m, u.rep);
    FailToKeeps(w, pr, u.m, u.rep, KPosNot);
    FailToKeeps(w, pr, u.m, u.rep, KBehindNot);
    match i
    case AnyCharStarOp(ml) => StarKeeps(w, pr, t, ml, None, next, u, u.s);
    case AnyCharStarPeek(ml, ch) => StarKeeps(w, pr, t, ml, Some(ch), next, u, u.s);
    case _ =>
  }

  /** No instruction but the one that sets it changes the array element. */
  lemma ExecKeeps(w: Plan, pr: Prog, t: Subject, i: Instr, next: int, u: UConfig)
    requires Loose(w, pr) && Sound(pr, u.m, u.rep)
    requires (i.MemStart? || i.MemEnd?) && i.num == w.d.num.value ==> !i.push
    ensures Keeps(w, Then(w, Cell(w, u.m), i, u.s), UExec(pr, t, i, next, u))
  {
    hide UExec, Keeps, Cell, Sound, Leaves;
    if i.MemStart? || i.MemEnd? { MemKeeps(w, pr, t, i, next, u); }
    else if Leaves(i) { LeavesKeep(w, pr, t, i, next, u); }
    else { FailingKeeps(w, pr, t, i, next, u); }
  }

  // ---------------------------------------------------------------- runs

  /** A step of both machines. */
  lemma StepKeeps(w: Plan, pr: Prog, t: Subject, u: UConfig, c: Config)
    requires Loose(w, pr) && Refines(pr, u, c) && !Step(pr, t, Run(c)).Stuck?
    ensures Keeps(w, After(w, pr, Cell(w, u.m), c.p, c.x.s), UStep(pr, t, URun(u)))
  {
    hide UExec, Keeps, Cell, Sound, Refines, Exec;
    RefinesRegs(pr, u, c);
    RefinesSound(pr, u, c);
    match FetchAt(pr, c.p)
    case Some(i) =>
      NotPushed(w, pr, t, i, c.p + Size(i), c);
      ExecKeeps(w, pr, t, i, c.p + Size(i), u);
    case None => assert false;
  }

  lemma NotPushed(w: Plan, pr: Prog, t: Subject, i: Instr, next: int, c: Config)
    requires Loose(w, pr) && !Exec(pr, t, i, next, c).Stuck?
    ensures (i.MemStart? || i.MemEnd?) && i.num == w.d.num.value ==> !i.push
  {
  }

  /** Along a run both machines make, the array element stays right wherever nothing is to come. */
  lemma {:induction false} RunKeeps(w: Plan, pr: Prog, t: Subject, us: UState, s: State, a: int, n: nat)
    requires Loose(w, pr) && Built(w, pr) && Follows(pr, us, s) && Goes(w, a, s) && Keeps(w, a, us)
    requires StepN(pr, t, s, n).Matched?
    ensures var last := UStepN(pr, t, us, n);
      last.UMatched? && Tells(w, Cell(w, last.c.m), StepN(pr, t, s, n).x)
    decreases n
  {
    hide Refines, Step, UStep, Built, Cell, After;
    if n > 0 {
      var us1, s1 := UStep(pr, t, us), Step(pr, t, s);
      if s.Stuck? {
        StuckStays(pr, t, n);
      } else if s1.Stuck? {
        StuckStays(pr, t, n - 1);
      } else if s.Run? {
        StepFollows(pr, t, us.c, s.c);
        StepGoes(w, pr, t, a, s.c);
        StepKeeps(w, pr, t, us.c, s.c);
        RunKeeps(w, pr, t, us1, s1, After(w, pr, a, s.c.p, s.c.x.s), n - 1);
      } else {
        FinalStays(pr, t, us, s);
        FinalSame(pr, t, us, s);
        RunKeeps(w, pr, t, us1, s1, a, n - 1);
      }
    }
  }

  lemma FinalSame(pr: Prog, t: Subject, us: UState, s: State)
    requires Follows(pr, us, s) && !s.Run? && !s.Stuck?
    ensures Step(pr, t, s) == s && UStep(pr, t, us) == us
  {
    hide Refines;
  }

  // ---------------------------------------------------------------- compiled programs

  function PlanOf(n: Node, g: nat, end: bool): Plan { Plan(LoadOf(n, Some(g), end), CodeOf(n)) }

  lemma CodeSingle(n: Node)
    ensures Single(CodeOf(n))
  {
    hide Code, Ranges;
    var code, ops := Code(n, 0, 0), CodeOf(n);
    CodeTidy(n, 0, 0);
    forall i, j | 0 <= i < j < |ops| ensures !Twins(ops[i], ops[j]) {
      if j < |code| { assert !Twins(code[i], code[j]); }
    }
    forall i | 0 <= i < |ops| ensures ops[i].End? ==> i == |ops| - 1 {
      if i < |code| { assert Within(code[i], 0, Reps(n)); }
    }
  }

  lemma PlanTotal(n: Node, g: nat, end: bool)
    requires Steady(n, Some(g))
    ensures Always(LoadOf(n, Some(g), end), CodeOf(n), Opens(n, Some(g)))
  {
    hide Code, Ranges, Steady, Opens, Weights, Always, Carries;
    var d := LoadOf(n, Some(g), end);
    LoadCarries(n, Some(g), end);
    CodePends(d, n, 0, 0);
    AlwaysSilent(d, End);
    AlwaysJoin(d, Code(n, 0, 0), [End], Opens(n, Some(g)), 0);
  }

  lemma PlanBuilt(n: Node, e: Env, g: nat, end: bool)
    requires Compilable(n, e) && Steady(n, Some(g))
    ensures Built(PlanOf(n, g, end), ProgramOf(n, e))
  {
    hide CodeOf, Ranges, Compilable, Steady, Opens, Weights, Always, OneAims, SizeAll, Bytes, Single;
    var w, ops, pr := PlanOf(n, g, end), CodeOf(n), ProgramOf(n, e);
    CodeReads(n, e);
    forall j: nat | j < |ops| ensures pr.fetch(Address(w, j)) == Some(ops[j]) && Aimed(w, j) {
      DecodedAt(pr.fetch, 0, ops, j);
      ProgramAims(n, Some(g), end, j);
    }
    CodeSingle(n);
    PlanTotal(n, g, end);
    EndsThere(n, e);
    assert ops[..|ops|] == ops;
  }

  lemma EndsThere(n: Node, e: Env)
    requires Compilable(n, e)
    ensures ProgramOf(n, e).fetch(SizeAll(CodeOf(n))) == None
  {
    hide Code, Ranges, WellFormed, RepeatMarks, Fits, Length, AllEncodable, Bytes, SizeAll;
    CodeEncodable(n, e, 0, 0);
    CodeFits.One(End);
    Joined(Code(n, 0, 0), [End]);
    BytesSize(CodeOf(n));
  }

  /** What match_at has in the arrays of a steady group that is not pushed is its capture in the most preferred way. */
  lemma CellRight(n: Node, e: Env, t: Subject, s: nat, prev: int, g: nat, end: bool, steps: nat)
    requires Compilable(n, e) && s <= t.End() < TWO_63 && Steady(n, Some(g))
    requires g !in e.btStart && g !in e.btEnd && g <= e.numMem
    requires Meaning(n, t, Initial(s, prev)) != []
    requires StepN(ProgramOf(n, e), t, Run(Start(s, prev)), steps) == Matched(Meaning(n, t, Initial(s, prev))[0])
    ensures var us, w := UStepN(ProgramOf(n, e), t, URun(UStart(ProgramOf(n, e), s, prev)), steps), PlanOf(n, g, end);
      us.UMatched? && Tells(w, Cell(w, us.c.m), Meaning(n, t, Initial(s, prev))[0])
  {
    hide Meaning, Compilable, Steady, Built, Refines, StepN, UStepN, Weights, Ranges, CodeOf, Steered, Reps;
    var pr, w, u, c := ProgramOf(n, e), PlanOf(n, g, end), UStart(ProgramOf(n, e), s, prev), Start(s, prev);
    PlanBuilt(n, e, g, end);
    StartFollows(pr, s, prev);
    StartGoes(w, s, prev);
    RunKeeps(w, pr, t, URun(u), Run(c), INVALID, steps);
  }

  /** At the start nothing is captured, and the bottom choice point has as much to come as the code. */
  lemma StartGoes(w: Plan, s: nat, prev: int)
    requires w.d.num.Some?
    ensures Goes(w, INVALID, Run(Start(s, prev)))
  {
    hide Pend;
    var ch := Start(s, prev).stack[0];
    assert w.ops[..0] == [];
    assert Address(w, 0) == 0;
    assert Point(w, INVALID, 0, ch.x, map[]) && Point(w, INVALID, FINISH, ch.x, map[]);
    assert [ch][..0] == [];
    assert Piled(w, INVALID, [ch], Due(w, 0, map[]));
  }
}
