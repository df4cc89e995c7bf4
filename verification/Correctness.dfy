/** The compiled bytes of a tree, run by match_at, find the tree's most preferred match or none. */
module Correctness {
  import opened Common
  import opened Tree
  import opened Opcodes
  import opened Codegen
  import opened CodeSizes
  import opened CodeFits
  import opened Semantics
  import opened Snapshot
  import opened Yielding
  import opened Lengths
  import opened Placing
  import opened CodeParts
  import opened CompileCorrect
  import opened UndoLog
  import opened Undoing
  import opened UndoCorrect

  /** onig_compile: the code of the tree and OP_END. */
  function CodeOf(n: Node): seq<Instr> { Code(n, 0, 0) + [End] }

  function ProgramOf(n: Node, e: Env): Prog {
    Prog(ReaderOf(Bytes(CodeOf(n))), Ranges(n), e.numMem, e.btStart, e.btEnd,
         PopLevelOf(Reps(n), e.btStart, e.btEnd))
  }

  /** A tree as setup_tree leaves it, small enough for the operand types. */
  predicate Compilable(n: Node, e: Env) {
    WellFormed(n, e) && RepeatMarks(n, false) && Fits(n, 0, 0)
  }

  lemma CodeStands(n: Node, e: Env)
    requires Compilable(n, e)
    ensures CodeAt(ProgramOf(n, e).fetch, 0, Code(n, 0, 0)) && ProgramOf(n, e).fetch(Length(n)) == Some(End)
    ensures RangesAt(ProgramOf(n, e), 0, Ranges(n))
  {
    hide Code, Length, Ranges, Nuls, WellFormed, RepeatMarks, CodeAt, Bytes, AllEncodable, SizeAll;
    var ops := CodeOf(n);
    CodeEncodable(n, e, 0, 0);
    One(End);
    Joined(Code(n, 0, 0), [End]);
    BytesSize(ops);
    assert Bytes(ops)[0..0 + SizeAll(ops)] == Bytes(ops);
    CodeAtBytes(Bytes(ops), 0, ops);
    SplitLast(ReaderOf(Bytes(ops)), 0, Code(n, 0, 0), End);
    CodeSize(n, 0, 0);
    assert Ranges(n)[0..0 + |Ranges(n)|] == Ranges(n);
  }

  /** The registers match_at starts with. */
  function Initial(s: nat, prev: int): St { St(s, prev, s, map[], []) }

  lemma StartPlaced(n: Node, e: Env, t: Subject, s: nat, prev: int)
    requires Compilable(n, e) && s <= t.End() < TWO_63
    ensures Placed(Ctx(ProgramOf(n, e), t, e), n, 0, 0, false, Start(s, prev))
  {
    hide Code, Length, Ranges, Nuls, WellFormed, RepeatMarks, CodeAt, Bytes, SizeAll, Groups, Refs;
    CodeStands(n, e);
  }

  /** Compiler correctness on the idealised machine. */
  lemma SnapshotCorrect(n: Node, e: Env, t: Subject, s: nat, prev: int)
    requires Compilable(n, e) && s <= t.End() < TWO_63
    ensures var ms := Meaning(n, t, Initial(s, prev));
      Reaches(ProgramOf(n, e), t, Run(Start(s, prev)), if ms == [] then Mismatch else Matched(ms[0]))
  {
    hide Meaning, Compilable, Placed, Length, Reaches, ProgramOf, Nuls, Ranges, Arrives;
    var pr, c := ProgramOf(n, e), Start(s, prev);
    var k := Ctx(pr, t, e);
    StartPlaced(n, e, t, s, prev);
    NodeYields(k, n, 0, 0, false, c);
    var ms, f := Meaning(n, t, c.x), NodeFrame(n, 0, 0, c);
    if ms == [] {
      var bottom := c.stack[0];
      assert c.stack == [] + [bottom];
      BacktrackTop([], bottom);
      var d := Config(FINISH, c.x, map[], map[], false, []);
      ReachesStep(pr, t, Run(d));
      ReachesTrans(pr, t, Run(c), Run(d), Mismatch);
    } else {
      var d :| Reaches(pr, t, Run(c), Run(d)) && Arrives(Length(n), ms[0], d, f)
               && Yields(pr, t, Length(n), ms[1..], Backtrack(d.stack), f);
      assert d.p == Length(n) && d.x == ms[0] by { ArrivedThere(Length(n), ms[0], d, f); }
      CodeStands(n, e);
      ReachesStep(pr, t, Run(d));
      ReachesTrans(pr, t, Run(c), Run(d), Matched(d.x));
    }
  }

  lemma ArrivedThere(q: int, y: St, c: Config, f: Frame)
    requires Arrives(q, y, c, f)
    ensures c.p == q && c.x == y
  {
  }

  /** What match_at reports of a match: the end, the reported start and the pushed groups. */
  ghost predicate Reports(pr: Prog, u: UConfig, y: St) {
    u.s == y.s && u.keep == y.keep
    && forall g: nat :: Tracked(pr, g) ==> CapOk(pr, u.m, g, Get(y.caps, g))
  }

  /** match_at on the emitted bytes ends, with the first of all ways the tree can match or with a mismatch. */
  lemma MatchAtCorrect(n: Node, e: Env, t: Subject, s: nat, prev: int) returns (steps: nat)
    requires Compilable(n, e) && s <= t.End() < TWO_63
    ensures var pr, ms := ProgramOf(n, e), Meaning(n, t, Initial(s, prev));
      var us := UStepN(pr, t, URun(UStart(pr, s, prev)), steps);
      if ms == [] then us.UMismatch? else us.UMatched? && Reports(pr, us.c, ms[0])
    ensures var pr, ms := ProgramOf(n, e), Meaning(n, t, Initial(s, prev));
      StepN(pr, t, Run(Start(s, prev)), steps) == if ms == [] then Mismatch else Matched(ms[0])
  {
    hide Meaning, Compilable, Refines;
    var pr, ms := ProgramOf(n, e), Meaning(n, t, Initial(s, prev));
    SnapshotCorrect(n, e, t, s, prev);
    var last := if ms == [] then Mismatch else Matched(ms[0]);
    steps :| StepN(pr, t, Run(Start(s, prev)), steps) == last;
    StartFollows(pr, s, prev);
    RunFollows(pr, t, URun(UStart(pr, s, prev)), Run(Start(s, prev)), steps);
  }

  lemma {:induction false} NeverStuck(pr: Prog, t: Subject, s: State, m: nat, n: nat)
    requires StepN(pr, t, s, n) != Stuck && m <= n
    ensures StepN(pr, t, s, m) != Stuck
  {
    StepNAdd(pr, t, s, m, n - m);
    if StepN(pr, t, s, m) == Stuck { StuckStays(pr, t, n - m); }
  }

  lemma {:induction false} FinalSteps(pr: Prog, t: Subject, s: State, n: nat)
    requires !s.Run?
    ensures StepN(pr, t, s, n) == s
  {
    if n > 0 { FinalSteps(pr, t, s, n - 1); }
  }

  /** What the undo log keeps: saved indices name live entries of their group, and every loop count is the number of
      increments that point at it. */
  ghost predicate Healthy(pr: Prog, u: UConfig) {
    Live(pr, u.m.stk) && LiveArrays(pr, u.m) && RepOk(pr, u.m.stk, u.rep) && Sized(pr, u.m) && |u.rep| == |pr.ranges|
  }

  lemma RefinesHealthy(pr: Prog, u: UConfig, c: Config)
    requires Refines(pr, u, c)
    ensures Healthy(pr, u)
  {
    hide Chain, Live, RepOk, Represents, LiveArrays;
    RepresentsLive(pr, c.x, c.loops, c.marks, u.m);
  }

  /** Every state of every run of compiled code is healthy, and no run leaves the code, its stack or its arrays. */
  lemma AlwaysHealthy(n: Node, e: Env, t: Subject, s: nat, prev: int, steps: nat)
    requires Compilable(n, e) && s <= t.End() < TWO_63
    ensures var pr := ProgramOf(n, e);
      var us := UStepN(pr, t, URun(UStart(pr, s, prev)), steps);
      !us.UBad? && (us.URun? ==> Healthy(pr, us.c))
  {
    hide Meaning, Compilable, Refines, Start, UStart, Healthy;
    var pr, ms := ProgramOf(n, e), Meaning(n, t, Initial(s, prev));
    SnapshotCorrect(n, e, t, s, prev);
    var start := Run(Start(s, prev));
    var last: nat :| StepN(pr, t, start, last) == if ms == [] then Mismatch else Matched(ms[0]);
    if steps <= last {
      NeverStuck(pr, t, start, steps, last);
    } else {
      StepNAdd(pr, t, start, last, steps - last);
      FinalSteps(pr, t, StepN(pr, t, start, last), steps - last);
    }
    StartFollows(pr, s, prev);
    RunFollows(pr, t, URun(UStart(pr, s, prev)), start, steps);
    var us, st := UStepN(pr, t, URun(UStart(pr, s, prev)), steps), StepN(pr, t, start, steps);
    if st.Run? { RefinesHealthy(pr, us.c, st.c); }
  }
}
