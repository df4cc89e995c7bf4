/** onig_compile's back end and one match attempt, put together: the bytes the compiler writes, run by the opcode loop,
    find what the tree means. */
module Engine {
  import opened Common
  import opened Tree
  import opened Opcodes
  import opened Codegen
  import opened CodeFits
  import opened Semantics
  import opened Snapshot
  import opened Lengths
  import opened Placing
  import opened UndoLog
  import opened Undoing
  import opened UndoSteps
  import opened Correctness
  import opened Pending
  import opened Unpushed
  import MatchAt
  import Emitter

  /** The compiled pattern. */
  datatype Regex = Regex(code: seq<byte>, ranges: seq<Range>, numMem: nat, btStart: set<nat>, btEnd: set<nat>,
      level: PopLevel)

  /** reg is what onig_compile makes of the prepared tree n. */
  ghost predicate Compiles(reg: Regex, n: Node, e: Env) {
    reg == Regex(Bytes(CodeOf(n)), Ranges(n), e.numMem, e.btStart, e.btEnd, PopLevelOf(Reps(n), e.btStart, e.btEnd))
  }

  /** compile_tree, OP_END and the choice of the pop level (regcomp.c:5793-5816). */
  method Compile(n: Node, ghost e: Env, numMem: nat, btStart: set<nat>, btEnd: set<nat>) returns (reg: Regex)
    requires Compilable(n, e) && e.numMem == numMem && e.btStart == btStart && e.btEnd == btEnd
    ensures Compiles(reg, n, e)
  {
    hide WellFormed, RepeatMarks, Code, Length, Ranges, Nuls, Encode;
    var c := new Emitter.Compiler(20);
    c.CompileTree(n, e);
    c.Emit(End);
    BytesConcat(Code(n, 0, 0), [End]);
    assert [] + Bytes(Code(n, 0, 0)) + Bytes([End]) == Bytes(CodeOf(n));
    assert [] + Ranges(n) == Ranges(n) && Ranges(n) + [] == Ranges(n);
    var level := if c.numRepeat != 0 || btEnd != {} then All else if btStart != {} then MemOnly else Free;
    reg := Regex(c.p[..c.used], c.repeatRange[..c.numRepeat], numMem, btStart, btEnd, level);
  }

  datatype Result = Match(beg: nat, end: nat) | NoMatch | StackLimitOver

  /** The groups whose capture the region of tree n is sure to name: those that are pushed, and those that every path
      opens equally often. */
  predicate Told(n: Node, e: Env, g: nat) { g in e.btStart || (g !in e.btEnd && Steady(n, Some(g))) }

  /** The region names the captures of y. */
  ghost predicate RegionOf(n: Node, e: Env, y: St, beg: array<int>, end: array<int>)
    reads beg, end
  {
    beg.Length == end.Length == e.numMem + 1
    && forall g: nat :: 1 <= g <= e.numMem && Told(n, e, g) ==>
         (beg[g], end[g]) == match Get(y.caps, g) case Closed(a, b) => (a, b) case _ => (INVALID, INVALID)
  }

  lemma {:induction false} UStepNAdd(pr: Prog, t: Subject, s: UState, m: nat, n: nat)
    ensures UStepN(pr, t, s, m + n) == UStepN(pr, t, UStepN(pr, t, s, m), n)
    decreases m
  {
    hide UStep;
    if m > 0 { UStepNAdd(pr, t, UStep(pr, t, s), m - 1, n); }
  }

  lemma {:induction false} UFinalSteps(pr: Prog, t: Subject, s: UState, n: nat)
    requires !s.URun?
    ensures UStepN(pr, t, s, n) == s
    decreases n
  {
    hide UExec;
    if n > 0 { UFinalSteps(pr, t, s, n - 1); }
  }

  /** The state after one more step, and that a running machine has not used up its steps. */
  lemma OneMoreStep(pr: Prog, t: Subject, start: UState, i: nat, last: nat)
    requires !UStepN(pr, t, start, last).URun?
    ensures UStepN(pr, t, start, i + 1) == UStep(pr, t, UStepN(pr, t, start, i))
    ensures UStepN(pr, t, start, i).URun? ==> i < last
    ensures !UStepN(pr, t, start, i).URun? ==> UStepN(pr, t, start, i) == UStepN(pr, t, start, last)
  {
    hide UStep;
    var s := UStepN(pr, t, start, i);
    UStepNAdd(pr, t, start, i, 1);
    assert UStepN(pr, t, s, 1) == UStepN(pr, t, UStep(pr, t, s), 0);
    if last <= i {
      UStepNAdd(pr, t, start, last, i - last);
      UFinalSteps(pr, t, UStepN(pr, t, start, last), i - last);
    } else if !s.URun? {
      UStepNAdd(pr, t, start, i, last - i);
      UFinalSteps(pr, t, s, last - i);
    }
  }

  /** All groups are closed at the end of a match. */
  lemma EndClosed(n: Node, e: Env, t: Subject, s: nat, prev: int, y: St, g: nat)
    requires Compilable(n, e) && s <= t.End() < TWO_63 && y in Meaning(n, t, Initial(s, prev))
    ensures !Get(y.caps, g).Open?
  {
    hide Meaning, WellFormed, RepeatMarks, Fits;
    var pr := ProgramOf(n, e);
    MeaningOk(Ctx(pr, t, e), n, Groups(n), Initial(s, prev), y);
  }

  lemma ReportedRight(pr: Prog, m: Mem, g: nat, cap: Cap)
    requires CapOk(pr, m, g, cap) && g in pr.btStart && !cap.Open?
    ensures MatchAt.Reported(pr, m, g) == match cap case Closed(a, b) => (a, b) case _ => (INVALID, INVALID)
  {
  }

  /** The same for a group that is not pushed. */
  lemma UnpushedRight(n: Node, e: Env, t: Subject, s: nat, prev: int, g: nat, steps: nat, m: Mem)
    requires Compilable(n, e) && s <= t.End() < TWO_63 && Told(n, e, g) && g !in e.btStart && g <= e.numMem
    requires Meaning(n, t, Initial(s, prev)) != []
    requires StepN(ProgramOf(n, e), t, Run(Start(s, prev)), steps) == Matched(Meaning(n, t, Initial(s, prev))[0])
    requires var us := UStepN(ProgramOf(n, e), t, URun(UStart(ProgramOf(n, e), s, prev)), steps);
      us.UMatched? && us.c.m == m
    ensures MatchAt.Reported(ProgramOf(n, e), m, g)
      == match Get(Meaning(n, t, Initial(s, prev))[0].caps, g) case Closed(a, b) => (a, b) case _ => (INVALID, INVALID)
  {
    hide Meaning, Compilable, Steady, StepN, UStepN, Weights, Ranges, CodeOf, Reps, Bytes;
    var y := Meaning(n, t, Initial(s, prev))[0];
    CellRight(n, e, t, s, prev, g, false, steps);
    CellRight(n, e, t, s, prev, g, true, steps);
    EndClosed(n, e, t, s, prev, y, g);
  }

  lemma Regions(n: Node, e: Env, t: Subject, s: nat, prev: int, steps: nat, u: UConfig)
    requires Compilable(n, e) && s <= t.End() < TWO_63 && Meaning(n, t, Initial(s, prev)) != []
    requires StepN(ProgramOf(n, e), t, Run(Start(s, prev)), steps) == Matched(Meaning(n, t, Initial(s, prev))[0])
    requires UStepN(ProgramOf(n, e), t, URun(UStart(ProgramOf(n, e), s, prev)), steps) == UMatched(u)
    requires Reports(ProgramOf(n, e), u, Meaning(n, t, Initial(s, prev))[0])
    ensures forall g: nat :: 1 <= g <= e.numMem && Told(n, e, g) ==>
      MatchAt.Reported(ProgramOf(n, e), u.m, g)
      == match Get(Meaning(n, t, Initial(s, prev))[0].caps, g) case Closed(a, b) => (a, b) case _ => (INVALID, INVALID)
  {
    hide Meaning, Compilable, Steady, StepN, UStepN, Ranges, CodeOf, Reps, Bytes, CapOk, MatchAt.Reported;
    var y := Meaning(n, t, Initial(s, prev))[0];
    forall g: nat | 1 <= g <= e.numMem && Told(n, e, g)
      ensures MatchAt.Reported(ProgramOf(n, e), u.m, g)
        == match Get(y.caps, g) case Closed(a, b) => (a, b) case _ => (INVALID, INVALID)
    {
      if g in e.btStart {
        EndClosed(n, e, t, s, prev, y, g);
        ReportedRight(ProgramOf(n, e), u.m, g, Get(y.caps, g));
      } else {
        UnpushedRight(n, e, t, s, prev, g, steps, u.m);
      }
    }
  }

  lemma NoSteps(pr: Prog, t: Subject, s: UState)
    ensures UStepN(pr, t, s, 0) == s
  {
  }

  lemma HealthySound(pr: Prog, u: UConfig)
    requires Healthy(pr, u)
    ensures Sound(pr, u.m, u.rep) && LiveArrays(pr, u.m)
  {
    hide Live, LiveArrays, RepOk;
  }

  lemma ReportsLive(pr: Prog, u: UConfig, y: St)
    requires Reports(pr, u, y)
    ensures LiveArrays(pr, u.m)
  {
    forall g: nat | g <= pr.numMem
      ensures g in pr.btStart ==>
          (Slot(u.m.ms, g) == INVALID && Slot(u.m.me, g) == INVALID) || IsStart(u.m.stk, Slot(u.m.ms, g), g)
      ensures g in pr.btEnd ==> Slot(u.m.me, g) == INVALID || IsEnd(u.m.stk, Slot(u.m.me, g), g)
    {
      if Tracked(pr, g) { assert CapOk(pr, u.m, g, Get(y.caps, g)); }
    }
  }

  /** The match attempt, on a stack without a limit, comes to hold at least `limit` entries. */
  ghost predicate Overflows(n: Node, e: Env, t: Subject, s: nat, prev: int, limit: nat)
  {
    Compilable(n, e)
    && exists k: nat :: MatchAt.Deep(UStepN(ProgramOf(n, e), t, URun(UStart(ProgramOf(n, e), s, prev)), k), limit)
  }

  lemma OverflowAt(n: Node, e: Env, t: Subject, s: nat, prev: int, limit: nat, k: nat)
    requires Compilable(n, e)
    requires MatchAt.Deep(UStepN(ProgramOf(n, e), t, URun(UStart(ProgramOf(n, e), s, prev)), k), limit)
    ensures Overflows(n, e, t, s, prev, limit)
  {
  }

  /** One match attempt: match_at on the compiled pattern finds the first of all ways the tree can match, with its
      reported start and captures, or none when there is no way; it always ends. */
  method MatchAtPosition(reg: Regex, ghost n: Node, ghost e: Env, t: Subject, s: nat, prev: int, limit: nat)
    returns (r: Result, beg: array<int>, end: array<int>)
    requires Compilable(n, e) && Compiles(reg, n, e) && s <= t.End() < TWO_63
    requires limit == 0 || 2 * MatchAt.INIT_MATCH_STACK_SIZE <= limit
    ensures r.StackLimitOver? ==> limit != 0 && Overflows(n, e, t, s, prev, limit)
    ensures var ms := Meaning(n, t, Initial(s, prev));
      (r.NoMatch? ==> ms == [])
      && (r.Match? ==> ms != [] && r == Match(Min(ms[0].keep, ms[0].s), ms[0].s) && RegionOf(n, e, ms[0], beg, end))
  {
    hide Meaning, Compilable, UStepN, UStep, StepN, Told, MatchAt.Deep, MatchAt.Reported, Overflows, Healthy, Sound,
         LiveArrays, CodeOf, Ranges, Reps, Bytes, ReaderOf, PopLevelOf, Start, UStart, Get, Steady;
    beg, end := new int[0], new int[0];
    var vm := new MatchAt.Machine(reg.code, reg.ranges, reg.numMem, reg.btStart, reg.btEnd, reg.level, t, limit, s,
        prev);
    ghost var pr := ProgramOf(n, e);
    ghost var start := URun(UStart(pr, s, prev));
    ghost var last := MatchAtCorrect(n, e, t, s, prev);
    ghost var i: nat := 0;
    assert UStepN(pr, t, start, 0) == start by { NoSteps(pr, t, start); }
    assert vm.Reg() == pr;
    var going := true;
    while going
      invariant vm.Valid() && fresh(vm) && fresh(vm.stk) && fresh(vm.ms) && fresh(vm.me) && fresh(vm.rep)
          && vm.Reg() == pr && vm.text == t && vm.limit == limit
      invariant i <= last && going && UStepN(pr, t, start, i) == URun(vm.Config())
      decreases last - i
    {
      AlwaysHealthy(n, e, t, s, prev, i);
      AlwaysHealthy(n, e, t, s, prev, i + 1);
      OneMoreStep(pr, t, start, i, last);
      OneMoreStep(pr, t, start, i + 1, last);
      assert Sound(pr, vm.Config().m, vm.Config().rep) && LiveArrays(pr, vm.Config().m) by {
        HealthySound(pr, vm.Config());
      }
      var st := vm.Turn();
      i := i + 1;
      match st
      case Going =>
      case StackLimit =>
        OverflowAt(n, e, t, s, prev, limit, i);
        return StackLimitOver, beg, end;
      case NoMatch => return NoMatch, beg, end;
      case Found =>
        ghost var y := Meaning(n, t, Initial(s, prev))[0];
        ReportsLive(pr, vm.Config(), y);
        beg, end := vm.Report();
        Regions(n, e, t, s, prev, last, vm.Config());
        return Match(beg[0], end[0]), beg, end;
    }
  }
}
