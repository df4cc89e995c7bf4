/** Where a capture that is not pushed is reported wrong: (a?){3}a on "a".  The loop counts three turns and its group is
    not pushed; the second turn opens the group at 1, fails behind the loop, and the first turn, resumed, ends empty and
    leaves the loop before the group is opened again.  The region says [1, 0). */
module StaleCaptures {
  import opened Common
  import opened Tree
  import opened Opcodes
  import opened Codegen
  import opened CodeFits
  import opened Semantics
  import opened Snapshot
  import opened Lengths
  import opened Correctness
  import opened UndoLog
  import opened Undoing
  import opened UndoSteps
  import opened UndoCorrect
  import opened Pending
  import opened JumpTargets
  import opened StillDue
  import opened Unpushed
  import opened SetupTree
  import opened Engine
  import opened Finder
  import opened PushChoice
  import MatchAt
  import NextNode

  const LETTER: Node := Str([0x61])
  const OPTION: Node := Quant(LETTER, 0, 1, true, NotEmpty, true, None, None)
  const SLOT: Node := Group(1, false, false, OPTION)
  const THRICE: Node := Quant(SLOT, 3, 3, true, EmptyMem, false, None, None)
  /** (a?){3}a, prepared. */
  const TREE: Node := List(Link(THRICE, Last(LETTER)))
  const ONE := Env(map[], map[], 1, {}, {})
  const TEXT := Subject([0x61], 0, 0, false, false)

  // ---------------------------------------------------------------- the tree and its code

  lemma OptionFacts()
    ensures ShapeOf(OPTION).Expand? && Length(OPTION) == 7 && Reps(OPTION) == 0 && Nuls(OPTION) == 0
    ensures MinLen(OPTION, ONE) == 0 && MaxLen(OPTION, ONE) == 1 && Groups(OPTION) == {} && Refs(OPTION) == {}
    ensures Setup(OPTION, ONE, true) == OPTION && Parsed(OPTION, ONE) && WellFormed(OPTION, ONE)
    ensures forall rep: nat, nul: nat :: Code(OPTION, rep, nul) == [Push(2), Exact([0x61])]
  {
    assert Length(LETTER) == 2 && ShapeOf(OPTION).Expand? && Copies(OPTION) == 1;
    assert Times(Ranges(LETTER), 1) == [];
    forall rep: nat, nul: nat ensures Code(OPTION, rep, nul) == [Push(2), Exact([0x61])] {
      assert OptionalCode(LETTER, 0, rep + Reps(LETTER), nul + Nuls(LETTER)) == [];
      assert OptionalCode(LETTER, 1, rep, nul) == [Push(2), Exact([0x61])];
      assert Code(OPTION, rep, nul) == QuantCode(OPTION, rep, nul);
    }
  }

  lemma SlotFacts()
    ensures Length(SLOT) == 13 && Reps(SLOT) == 0 && Nuls(SLOT) == 0 && MinLen(SLOT, ONE) == 0 && MaxLen(SLOT, ONE) == 1
    ensures Groups(SLOT) == {1} && HasMem(SLOT) && NoMemInLook(SLOT) && Marked(SLOT, false) == {}
    ensures Setup(SLOT, ONE, true) == SLOT && Parsed(SLOT, ONE) && WellFormed(SLOT, ONE) && RepeatMarks(SLOT, true)
    ensures Code(SLOT, 1, 1) == [MemStart(1, false), Push(2), Exact([0x61]), MemEnd(1, false)]
  {
    OptionFacts();
    hide Setup, Length, Code, Parsed, WellFormed, MinLen, MaxLen, Groups, Refs, Ranges, Nuls;
    SlotIs();
  }

  lemma SlotIs()
    requires Setup(OPTION, ONE, true) == OPTION && Parsed(OPTION, ONE) && WellFormed(OPTION, ONE) && Length(OPTION) == 7
    requires Groups(OPTION) == {} && Refs(OPTION) == {} && Reps(OPTION) == 0 && Nuls(OPTION) == 0
    requires MinLen(OPTION, ONE) == 0 && MaxLen(OPTION, ONE) == 1 && Code(OPTION, 1, 1) == [Push(2), Exact([0x61])]
    ensures Length(SLOT) == 13 && Reps(SLOT) == 0 && Nuls(SLOT) == 0 && MinLen(SLOT, ONE) == 0 && MaxLen(SLOT, ONE) == 1
    ensures Groups(SLOT) == {1} && HasMem(SLOT) && NoMemInLook(SLOT) && Marked(SLOT, false) == {}
    ensures Setup(SLOT, ONE, true) == SLOT && Parsed(SLOT, ONE) && WellFormed(SLOT, ONE) && RepeatMarks(SLOT, true)
    ensures Code(SLOT, 1, 1) == [MemStart(1, false), Push(2), Exact([0x61]), MemEnd(1, false)]
  {
    assert Marked(OPTION, false) == {} && RepeatMarks(OPTION, true) && NoMemInLook(OPTION);
    assert [MemStart(1, false)] + [Push(2), Exact([0x61])] + [MemEnd(1, false)]
        == [MemStart(1, false), Push(2), Exact([0x61]), MemEnd(1, false)];
  }

  const LOOP: seq<Instr> :=
    [Repeat(true, 0, 22), NullCheckStart(0), MemStart(1, false), Push(2), Exact([0x61]), MemEnd(1, false),
     NullCheckEndMemst(0), RepeatInc(true, false, 0)]

  lemma ThriceFacts()
    ensures ShapeOf(THRICE).Counter? && Length(THRICE) == 29 && Ranges(THRICE) == [Range(3, 3, false)]
        && Nuls(THRICE) == 1
    ensures MinLen(THRICE, ONE) == 0 && Groups(THRICE) == {1} && Marked(THRICE, false) == {} && Early(THRICE, 1)
    ensures Setup(THRICE, ONE, false) == THRICE && Parsed(THRICE, ONE)
    ensures WellFormed(THRICE, ONE) && RepeatMarks(THRICE, false)
    ensures Code(THRICE, 0, 0) == LOOP
  {
    SlotFacts();
    hide Setup, Length, Code, Parsed, WellFormed, MinLen, MaxLen, Groups, Refs, Ranges, Nuls, Marked, RepeatMarks;
    ThriceShape();
    NoHead();
    hide HeadByte, ShapeOf;
    ThriceTree(SLOT);
  }

  lemma ThriceShape()
    requires Length(SLOT) == 13 && Reps(SLOT) == 0 && Nuls(SLOT) == 0
    requires Code(SLOT, 1, 1) == [MemStart(1, false), Push(2), Exact([0x61]), MemEnd(1, false)]
    ensures ShapeOf(THRICE).Counter? && Length(THRICE) == 29 && Ranges(THRICE) == [Range(3, 3, false)]
        && Nuls(THRICE) == 1
    ensures Code(THRICE, 0, 0) == LOOP
  {
    assert ShapeOf(THRICE).Counter? && CheckedLength(THRICE) == 19;
    assert Ranges(SLOT) == [];
    assert [Range(3, 3, false)] + [] == [Range(3, 3, false)];
    var body := [MemStart(1, false), Push(2), Exact([0x61]), MemEnd(1, false)];
    assert CheckedCode(THRICE, 1, 0) == [NullCheckStart(0)] + body + [NullCheckEndMemst(0)];
    assert Code(THRICE, 0, 0) == QuantCode(THRICE, 0, 0);
    assert [Repeat(true, 0, 22)] + ([NullCheckStart(0)] + body + [NullCheckEndMemst(0)]) + [RepeatInc(true, false, 0)]
        == LOOP;
  }

  lemma ThriceTree(b: Node)
    requires b.Group? && Parsed(b, ONE) && Setup(b, ONE, true) == b && WellFormed(b, ONE) && RepeatMarks(b, true)
    requires MinLen(b, ONE) == 0 && HasMem(b) && NoMemInLook(b) && Groups(b) == {1} && Marked(b, false) == {}
    requires HeadByte(b) == None && ShapeOf(Quant(b, 3, 3, true, EmptyMem, false, None, None)).Counter?
    ensures var q := Quant(b, 3, 3, true, EmptyMem, false, None, None);
      MinLen(q, ONE) == 0 && Groups(q) == {1} && Marked(q, false) == {} && Early(q, 1) && Parsed(q, ONE)
      && Setup(q, ONE, false) == q && WellFormed(q, ONE) && RepeatMarks(q, false)
  {
    hide Length, ShapeOf, HeadByte;
    var q := Quant(b, 3, 3, true, EmptyMem, false, None, None);
    assert EmptyInfoOf(q, ONE) == EmptyMem && WithHead(b, 3, 3, true, EmptyMem, false) == q;
    QuantUnfolds(q, ONE, false);
  }

  lemma NoHead()
    ensures HeadByte(SLOT) == None
  {
    assert NextNode.HeadValue(OPTION, true) == None;
  }

  const OPS: seq<Instr> := LOOP + [Exact([0x61]), End]

  lemma TreeFacts()
    ensures Parsed(TREE, ONE) && SetupRoot(TREE, ONE) == TREE && Compilable(TREE, ONE) && CodeOf(TREE) == OPS
    ensures Marked(TREE, false) == {} && Early(TREE, 1) && Ranges(TREE) == [Range(3, 3, false)]
  {
    ThriceFacts();
    hide Setup, Length, Code, Parsed, WellFormed, MinLen, MaxLen, Groups, Refs, Ranges, Nuls, Marked, RepeatMarks,
         Early, LOOP;
    FollowedCode(THRICE);
    FollowedRoot(THRICE);
  }

  /** The code of q and of a letter behind it. */
  lemma FollowedCode(q: Node)
    requires Length(q) == 29 && Ranges(q) == [Range(3, 3, false)] && Nuls(q) == 1
    ensures var m := List(Link(q, Last(LETTER)));
      Fits(m, 0, 0) && CodeOf(m) == Code(q, 0, 0) + [Exact([0x61]), End] && Ranges(m) == [Range(3, 3, false)]
  {
    hide ShapeOf;
    var last := Last(LETTER);
    var ns := Link(q, last);
    assert RangesOf(last) == [] && NulsOf(last) == 0 && ListLength(last) == 2;
    assert ListCode(last, 1, 1) == [Exact([0x61])];
    assert RangesOf(ns) == [Range(3, 3, false)] + [];
    assert ListCode(ns, 0, 0) == Code(q, 0, 0) + [Exact([0x61])];
    assert Length(List(ns)) == ListLength(ns) == 31 && Nuls(List(ns)) == NulsOf(ns) == 1 && Reps(List(ns)) == 1;
    assert Code(q, 0, 0) + [Exact([0x61])] + [End] == Code(q, 0, 0) + [Exact([0x61]), End];
  }

  lemma FollowedRoot(q: Node)
    requires q.Quant? && !Infinite(q.upper) && Parsed(q, ONE) && Setup(q, ONE, false) == q
    requires Groups(q) == {1} && Marked(q, false) == {} && Early(q, 1)
    requires WellFormed(q, ONE) && RepeatMarks(q, false)
    ensures var m := List(Link(q, Last(LETTER)));
      Parsed(m, ONE) && SetupRoot(m, ONE) == m && WellFormed(m, ONE) && RepeatMarks(m, false)
      && Marked(m, false) == {} && Early(m, 1)
  {
    hide ShapeOf;
    var last := Last(LETTER);
    var ns := Link(q, last);
    assert ParsedAll(last, ONE) && WellFormedAll(last, ONE) && RepeatMarksAll(last, false);
    assert MarkedIn(last, false) == {} && GroupsOf(last) == {} && SetupList(last, ONE, false) == last;
    assert GroupsOf(ns) == {1} && EarlyIn(ns, 1);
    assert SetupRoot(q, ONE) == q && NextRoot(q, LETTER) == q;
    assert RootList(ns, ONE) == ns;
  }

  // ---------------------------------------------------------------- the run

  /** The idealised machine and the two array elements of a group. */
  datatype Watch = Watch(s: State, start: int, end: int)

  /** The plans of a group that is not pushed: its openings and its closings. */
  predicate Pair(v: Plan, w: Plan, pr: Prog, g: nat) {
    Loose(v, pr) && Loose(w, pr) && v.d.num == w.d.num == Some(g) && !v.d.end && w.d.end
  }

  function Turn(v: Plan, w: Plan, pr: Prog, t: Subject, z: Watch): Watch {
    match z.s
    case Run(c) => Watch(Step(pr, t, z.s), After(v, pr, z.start, c.p, c.x.s), After(w, pr, z.end, c.p, c.x.s))
    case _ => z
  }

  function Turns(v: Plan, w: Plan, pr: Prog, t: Subject, z: Watch, n: nat): Watch
    decreases n
  {
    if n == 0 then z else Turns(v, w, pr, t, Turn(v, w, pr, t, z), n - 1)
  }

  /** What is watched is what the real machine does. */
  lemma {:induction false} Watched(v: Plan, w: Plan, pr: Prog, t: Subject, g: nat, us: UState, z: Watch, n: nat)
    requires Pair(v, w, pr, g) && Follows(pr, us, z.s) && !z.s.Stuck? && Keeps(v, z.start, us) && Keeps(w, z.end, us)
    requires Turns(v, w, pr, t, z, n).s.Matched?
    ensures var last, u := Turns(v, w, pr, t, z, n), UStepN(pr, t, us, n);
      StepN(pr, t, z.s, n) == last.s && u.UMatched? && Slot(u.c.m.ms, g) == last.start && Slot(u.c.m.me, g) == last.end
    decreases n
  {
    hide Refines, Step, UStep, After;
    if n > 0 {
      var z1, us1 := Turn(v, w, pr, t, z), UStep(pr, t, us);
      if z1.s.Stuck? {
        StuckTurns(v, w, pr, t, z1, n - 1);
      } else if z.s.Run? {
        StepFollows(pr, t, us.c, z.s.c);
        StepKeeps(v, pr, t, us.c, z.s.c);
        StepKeeps(w, pr, t, us.c, z.s.c);
        Watched(v, w, pr, t, g, us1, z1, n - 1);
      } else {
        FinalSame(pr, t, us, z.s);
        Watched(v, w, pr, t, g, us1, z1, n - 1);
      }
    }
  }

  lemma {:induction false} StuckTurns(v: Plan, w: Plan, pr: Prog, t: Subject, z: Watch, n: nat)
    requires z.s.Stuck?
    ensures Turns(v, w, pr, t, z, n) == z
    decreases n
  {
    if n > 0 { StuckTurns(v, w, pr, t, z, n - 1); }
  }

  lemma {:induction false} TurnsAdd(v: Plan, w: Plan, pr: Prog, t: Subject, z: Watch, m: nat, n: nat)
    ensures Turns(v, w, pr, t, z, m + n) == Turns(v, w, pr, t, Turns(v, w, pr, t, z, m), n)
    decreases m
  {
    hide Turn;
    if m > 0 { TurnsAdd(v, w, pr, t, Turn(v, w, pr, t, z), m - 1, n); }
  }

  // ---------------------------------------------------------------- the run

  predicate Loaded(pr: Prog) {
    pr.fetch(0) == Some(Repeat(true, 0, 22)) && pr.fetch(7) == Some(NullCheckStart(0))
    && pr.fetch(10) == Some(MemStart(1, false)) && pr.fetch(13) == Some(Push(2)) && pr.fetch(18) == Some(Exact([0x61]))
    && pr.fetch(20) == Some(MemEnd(1, false)) && pr.fetch(23) == Some(NullCheckEndMemst(0))
    && pr.fetch(26) == Some(RepeatInc(true, false, 0)) && pr.fetch(29) == Some(Exact([0x61]))
        && pr.fetch(31) == Some(End)
    && pr.ranges == [Range(3, 3, false)] && pr.numMem == 1 && pr.btStart == {} && pr.btEnd == {} && pr.level.All?
  }

  const BOTTOM: Choice := Choice(KAlt, FINISH, St(0, -1, 0, map[], []), map[], map[])

  function Now(s: nat, cap: Cap): St { St(s, s - 1, 0, map[1 := cap], []) }

  /** The alternative that skips the letter, pushed in turn k at the position of the same number. */
  function Skip(k: nat): Choice {
    Choice(KAlt, 20, Now(k, Open(k)), map[0 := LoopState(k, 7)], map[0 := Mark(k, 0)])
  }

  function Seen(p: int, x: St, count: nat, pos: nat, clean: bool, stack: seq<Choice>, start: int, end: int): Watch {
    Watch(Run(Config(p, x, map[0 := LoopState(count, 7)], map[0 := Mark(pos, 0)], clean, stack)), start, end)
  }

  /** The run, step by step. */
  function Trace(k: nat): Watch {
    var b, x := BOTTOM, St(0, -1, 0, map[], []);
    if k == 0 then Watch(Run(Start(0, -1)), INVALID, INVALID)
    else if k == 1 then Watch(Run(Config(7, x, map[0 := LoopState(0, 7)], map[], false, [b])), INVALID, INVALID)
    else if k == 2 then Seen(10, x, 0, 0, false, [b], INVALID, INVALID)
    else if k == 3 then Seen(13, Now(0, Open(0)), 0, 0, false, [b], 0, INVALID)
    else if k == 4 then Seen(18, Now(0, Open(0)), 0, 0, true, [b, Skip(0)], 0, INVALID)
    else if k == 5 then Seen(20, Now(1, Open(0)), 0, 0, true, [b, Skip(0)], 0, INVALID)
    else if k == 6 then Seen(23, Now(1, Closed(0, 1)), 0, 0, false, [b, Skip(0)], 0, 1)
    else if k == 7 then Seen(26, Now(1, Closed(0, 1)), 0, 0, false, [b, Skip(0)], 0, 1)
    else if k == 8 then Seen(7, Now(1, Closed(0, 1)), 1, 0, false, [b, Skip(0)], 0, 1)
    else if k == 9 then Seen(10, Now(1, Closed(0, 1)), 1, 1, false, [b, Skip(0)], 0, 1)
    else if k == 10 then Seen(13, Now(1, Open(1)), 1, 1, false, [b, Skip(0)], 1, 1)
    else if k == 11 then Seen(18, Now(1, Open(1)), 1, 1, true, [b, Skip(0), Skip(1)], 1, 1)
    else if k == 12 then Seen(20, Now(1, Open(1)), 1, 1, false, [b, Skip(0)], 1, 1)
    else if k == 13 then Seen(23, Now(1, Closed(1, 1)), 1, 1, false, [b, Skip(0)], 1, 1)
    else if k == 14 then Seen(29, Now(1, Closed(1, 1)), 1, 1, false, [b, Skip(0)], 1, 1)
    else if k == 15 then Seen(20, Now(0, Open(0)), 0, 0, false, [b], 1, 1)
    else if k == 16 then Seen(23, Now(0, Closed(0, 0)), 0, 0, false, [b], 1, 0)
    else if k == 17 then Seen(29, Now(0, Closed(0, 0)), 0, 0, false, [b], 1, 0)
    else if k == 18 then Seen(31, Now(1, Closed(0, 0)), 0, 0, false, [b], 1, 0)
    else Watch(Matched(Now(1, Closed(0, 0))), 1, 0)
  }

  lemma TextHas()
    ensures TEXT.Has(0, [0x61]) && !TEXT.Has(1, [0x61])
  {
    assert TEXT.data[0..1] == [0x61];
  }

  // Each instruction, whatever the counters, the marks and the stack are.

  lemma Letter(v: Plan, w: Plan, pr: Prog, p: int, cap: Cap, n: nat, pos: nat, c: bool, stk: seq<Choice>, a: int,
      b: int)
    requires Pair(v, w, pr, 1) && p >= 0 && pr.fetch(p) == Some(Exact([0x61]))
    ensures Turn(v, w, pr, TEXT, Seen(p, Now(0, cap), n, pos, c, stk, a, b))
         == Seen(p + 2, Now(1, cap), n, pos, c, stk, a, b)
  {
    TextHas();
  }

  lemma NoLetter(v: Plan, w: Plan, pr: Prog, p: int, cap: Cap, n: nat, pos: nat, c: bool, rest: seq<Choice>, ch: Choice,
      a: int, b: int)
    requires Pair(v, w, pr, 1) && p >= 0 && pr.fetch(p) == Some(Exact([0x61])) && ch.Resumes()
    ensures Turn(v, w, pr, TEXT, Seen(p, Now(1, cap), n, pos, c, rest + [ch], a, b))
         == Watch(Run(Config(ch.p, ch.x, ch.loops, ch.marks, false, rest)), a, b)
  {
    TextHas();
    assert (rest + [ch])[..|rest|] == rest;
  }

  lemma Opening(v: Plan, w: Plan, pr: Prog, x: St, n: nat, pos: nat, c: bool, stk: seq<Choice>, a: int, b: int)
    requires Pair(v, w, pr, 1) && Loaded(pr) && x.prev == x.s - 1 && x.keep == 0 && x.log == [] && !Get(x.caps, 1).Open?
    requires x.caps.Keys <= {1}
    ensures Turn(v, w, pr, TEXT, Seen(10, x, n, pos, c, stk, a, b))
         == Seen(13, Now(x.s, Open(x.s)), n, pos, false, stk, x.s, b)
  {
    assert x.caps[1 := Open(x.s)] == map[1 := Open(x.s)];
  }

  lemma Pushing(v: Plan, w: Plan, pr: Prog, k: nat, c: bool, stk: seq<Choice>, a: int, b: int)
    requires Pair(v, w, pr, 1) && Loaded(pr)
    ensures Turn(v, w, pr, TEXT, Seen(13, Now(k, Open(k)), k, k, c, stk, a, b))
         == Seen(18, Now(k, Open(k)), k, k, true, stk + [Skip(k)], a, b)
  {
  }

  lemma Closing(v: Plan, w: Plan, pr: Prog, s: nat, start: nat, n: nat, pos: nat, c: bool, stk: seq<Choice>, a: int,
      b: int)
    requires Pair(v, w, pr, 1) && Loaded(pr)
    ensures Turn(v, w, pr, TEXT, Seen(20, Now(s, Open(start)), n, pos, c, stk, a, b))
         == Seen(23, Now(s, Closed(start, s)), n, pos, false, stk, a, s)
  {
    assert map[1 := Open(start)][1 := Closed(start, s)] == map[1 := Closed(start, s)];
  }

  /** An empty turn skips OP_REPEAT_INC. */
  lemma Checking(v: Plan, w: Plan, pr: Prog, s: nat, cap: Cap, n: nat, pos: nat, c: bool, stk: seq<Choice>, a: int,
      b: int)
    requires Pair(v, w, pr, 1) && Loaded(pr)
    ensures Turn(v, w, pr, TEXT, Seen(23, Now(s, cap), n, pos, c, stk, a, b))
         == Seen(if pos == s then 29 else 26, Now(s, cap), n, pos, c, stk, a, b)
  {
  }

  lemma Counting(v: Plan, w: Plan, pr: Prog, x: St, pos: nat, c: bool, stk: seq<Choice>, a: int, b: int)
    requires Pair(v, w, pr, 1) && Loaded(pr)
    ensures Turn(v, w, pr, TEXT, Seen(26, x, 0, pos, c, stk, a, b)) == Seen(7, x, 1, pos, false, stk, a, b)
  {
    assert map[0 := LoopState(0, 7)][0 := LoopState(1, 7)] == map[0 := LoopState(1, 7)];
  }

  lemma Marking(v: Plan, w: Plan, pr: Prog, x: St, n: nat, marks: map<nat, Mark>, c: bool, stk: seq<Choice>, a: int,
      b: int)
    requires Pair(v, w, pr, 1) && Loaded(pr) && x.log == [] && marks.Keys <= {0}
    ensures Turn(v, w, pr, TEXT, Watch(Run(Config(7, x, map[0 := LoopState(n, 7)], marks, c, stk)), a, b))
         == Seen(10, x, n, x.s, false, stk, a, b)
  {
    assert marks[0 := Mark(x.s, 0)] == map[0 := Mark(x.s, 0)];
  }

  lemma Beginning(v: Plan, w: Plan, pr: Prog)
    requires Pair(v, w, pr, 1) && Loaded(pr)
    ensures Turn(v, w, pr, TEXT, Trace(0)) == Trace(1)
  {
  }

  lemma Ending(v: Plan, w: Plan, pr: Prog, cap: Cap, n: nat, pos: nat, c: bool, stk: seq<Choice>, a: int, b: int)
    requires Pair(v, w, pr, 1) && Loaded(pr)
    ensures Turn(v, w, pr, TEXT, Seen(31, Now(1, cap), n, pos, c, stk, a, b)) == Watch(Matched(Now(1, cap)), a, b)
  {
  }

  // ---------------------------------------------------------------- put together

  lemma FirstTurn(v: Plan, w: Plan, pr: Prog, k: nat)
    requires Pair(v, w, pr, 1) && Loaded(pr) && k < 8
    ensures Turn(v, w, pr, TEXT, Trace(k)) == Trace(k + 1)
  {
    hide Turn, Loaded, Pair, BOTTOM, Skip, Now, Seen;
    var b, l, x := BOTTOM, [BOTTOM] + [Skip(0)], St(0, -1, 0, map[], []);
    assert l == [b, Skip(0)];
    var open, closed := Open(0), Closed(0, 1);
    if k == 0 { Beginning(v, w, pr); }
    else if k == 1 { Marking(v, w, pr, x, 0, map[], false, [b], INVALID, INVALID); }
    else if k == 2 { Opening(v, w, pr, x, 0, 0, false, [b], INVALID, INVALID); }
    else if k == 3 { Pushing(v, w, pr, 0, false, [b], 0, INVALID); }
    else if k == 4 { Fetches(pr); Letter(v, w, pr, 18, open, 0, 0, true, l, 0, INVALID); }
    else if k == 5 { Closing(v, w, pr, 1, 0, 0, 0, true, l, 0, INVALID); }
    else if k == 6 { Checking(v, w, pr, 1, closed, 0, 0, false, l, 0, 1); }
    else { Counting(v, w, pr, Now(1, closed), 0, false, l, 0, 1); }
  }

  lemma Fetches(pr: Prog)
    requires Loaded(pr)
    ensures pr.fetch(18) == pr.fetch(29) == Some(Exact([0x61]))
  {
  }

  lemma NowIs(s: nat, cap: Cap)
    ensures Now(s, cap) == St(s, s - 1, 0, map[1 := cap], [])
  {
  }

  lemma SkipIs(k: nat)
    ensures Skip(k).Resumes() && forall stk: seq<Choice>, a: int, b: int ::
      Watch(Run(Config(Skip(k).p, Skip(k).x, Skip(k).loops, Skip(k).marks, false, stk)), a, b)
      == Seen(20, Now(k, Open(k)), k, k, false, stk, a, b)
  {
  }

  lemma SecondTurn(v: Plan, w: Plan, pr: Prog, k: nat)
    requires Pair(v, w, pr, 1) && Loaded(pr) && 8 <= k < 15
    ensures Turn(v, w, pr, TEXT, Trace(k)) == Trace(k + 1)
  {
    hide Turn, Loaded, Pair, BOTTOM, Skip, Now;
    var b, l := BOTTOM, [BOTTOM] + [Skip(0)];
    assert l == [b, Skip(0)] && l + [Skip(1)] == [b, Skip(0), Skip(1)];
    var was, open, closed := Closed(0, 1), Open(1), Closed(1, 1);
    NowIs(1, was);
    Fetches(pr);
    SkipIs(0);
    SkipIs(1);
    if k == 8 { Marking(v, w, pr, Now(1, was), 1, map[0 := Mark(0, 0)], false, l, 0, 1); }
    else if k == 9 { Opening(v, w, pr, Now(1, was), 1, 1, false, l, 0, 1); }
    else if k == 10 { Pushing(v, w, pr, 1, false, l, 1, 1); }
    else if k == 11 { NoLetter(v, w, pr, 18, open, 1, 1, true, l, Skip(1), 1, 1); }
    else if k == 12 { Closing(v, w, pr, 1, 1, 1, 1, false, l, 1, 1); }
    else if k == 13 { Checking(v, w, pr, 1, closed, 1, 1, false, l, 1, 1); }
    else { NoLetter(v, w, pr, 29, closed, 1, 1, false, [b], Skip(0), 1, 1); }
  }

  lemma LastTurn(v: Plan, w: Plan, pr: Prog, k: nat)
    requires Pair(v, w, pr, 1) && Loaded(pr) && 15 <= k < 19
    ensures Turn(v, w, pr, TEXT, Trace(k)) == Trace(k + 1)
  {
    hide Turn, Loaded, Pair, BOTTOM, Skip, Now, Seen;
    var b, closed := BOTTOM, Closed(0, 0);
    Fetches(pr);
    if k == 15 { Closing(v, w, pr, 0, 0, 0, 0, false, [b], 1, 1); }
    else if k == 16 { Checking(v, w, pr, 0, closed, 0, 0, false, [b], 1, 0); }
    else if k == 17 { Letter(v, w, pr, 29, closed, 0, 0, false, [b], 1, 0); }
    else { Ending(v, w, pr, closed, 0, 0, false, [b], 1, 0); }
  }

  lemma {:induction false} TraceTurns(v: Plan, w: Plan, pr: Prog, k: nat)
    requires Pair(v, w, pr, 1) && Loaded(pr) && k <= 19
    ensures Turns(v, w, pr, TEXT, Trace(0), k) == Trace(k)
  {
    hide Turn, Loaded, Pair, Trace;
    if k > 0 {
      TraceTurns(v, w, pr, k - 1);
      if k <= 8 { FirstTurn(v, w, pr, k - 1); }
      else if k <= 15 { SecondTurn(v, w, pr, k - 1); }
      else { LastTurn(v, w, pr, k - 1); }
      TurnsAdd(v, w, pr, TEXT, Trace(0), k - 1, 1);
      assert Turns(v, w, pr, TEXT, Trace(k), 0) == Trace(k);
      assert Turns(v, w, pr, TEXT, Trace(k - 1), 1) == Turns(v, w, pr, TEXT, Trace(k), 0);
    }
  }

  lemma TreeLoaded()
    ensures Loaded(ProgramOf(TREE, ONE)) && Compilable(TREE, ONE)
    ensures Pair(PlanOf(TREE, 1, false), PlanOf(TREE, 1, true), ProgramOf(TREE, ONE), 1)
  {
    hide CodeOf, Compilable, Bytes, Ranges, CodeAt, Parsed, SetupRoot, Marked, Early, PlanOf, ReaderOf, Reps, OPS;
    TreeFacts();
    CodeReads(TREE, ONE);
    OpsAt(ProgramOf(TREE, ONE).fetch);
    TreeLevel(TREE);
    TreePlans(TREE, ONE);
  }

  lemma TreeLevel(n: Node)
    requires Ranges(n) == [Range(3, 3, false)]
    ensures PopLevelOf(Reps(n), {}, {}).All?
  {
  }

  lemma TreePlans(n: Node, e: Env)
    requires e.btStart == {} && e.btEnd == {} && e.numMem == 1
    ensures Pair(PlanOf(n, 1, false), PlanOf(n, 1, true), ProgramOf(n, e), 1)
  {
    hide CodeOf, Bytes, Ranges, Weights, Reps;
  }

  lemma OpSizes()
    ensures Size(OPS[0]) == 7 && Size(OPS[1]) == 3 && Size(OPS[2]) == 3 && Size(OPS[3]) == 5 && Size(OPS[4]) == 2
    ensures Size(OPS[5]) == 3 && Size(OPS[6]) == 3 && Size(OPS[7]) == 3 && Size(OPS[8]) == 2
  {
  }

  lemma OpsAt(fetch: Reader)
    requires CodeAt(fetch, 0, OPS)
    ensures fetch(0) == Some(Repeat(true, 0, 22)) && fetch(7) == Some(NullCheckStart(0))
    ensures fetch(10) == Some(MemStart(1, false)) && fetch(13) == Some(Push(2)) && fetch(18) == Some(Exact([0x61]))
    ensures fetch(20) == Some(MemEnd(1, false)) && fetch(23) == Some(NullCheckEndMemst(0))
    ensures fetch(26) == Some(RepeatInc(true, false, 0)) && fetch(29) == Some(Exact([0x61])) && fetch(31) == Some(End)
  {
    hide Size, CodeAt;
    OpSizes();
    assert OPS[0..] == OPS;
    FetchStep(fetch, 0, 0);
    FetchStep(fetch, 7, 1);
    FetchStep(fetch, 10, 2);
    FetchStep(fetch, 13, 3);
    FetchStep(fetch, 18, 4);
    FetchStep(fetch, 20, 5);
    FetchStep(fetch, 23, 6);
    FetchStep(fetch, 26, 7);
    FetchStep(fetch, 29, 8);
    FetchStep(fetch, 31, 9);
  }

  lemma FetchStep(fetch: Reader, p: int, j: nat)
    requires j < |OPS| && CodeAt(fetch, p, OPS[j..])
    ensures fetch(p) == Some(OPS[j]) && CodeAt(fetch, p + Size(OPS[j]), OPS[j + 1..])
  {
    hide Size, OPS;
    assert OPS[j..][1..] == OPS[j + 1..];
  }

  /** Any tree whose code is this one. */
  lemma StaleRun(n: Node, e: Env)
    requires Compilable(n, e) && Loaded(ProgramOf(n, e))
    requires Pair(PlanOf(n, 1, false), PlanOf(n, 1, true), ProgramOf(n, e), 1)
    ensures var pr, ms := ProgramOf(n, e), Meaning(n, TEXT, Initial(0, -1));
      var us := UStepN(pr, TEXT, URun(UStart(pr, 0, -1)), 19);
      ms != [] && ms[0] == Now(1, Closed(0, 0))
      && us.UMatched? && us.c.s == 1 && Slot(us.c.m.ms, 1) == 1 && Slot(us.c.m.me, 1) == 0
  {
    hide Compilable, Loaded, Turn, Turns, StepN, UStepN, Meaning, Refines, ProgramOf, PlanOf, Now;
    var v, w, pr, u := PlanOf(n, 1, false), PlanOf(n, 1, true), ProgramOf(n, e), UStart(ProgramOf(n, e), 0, -1);
    var start := Run(Start(0, -1));
    StartFollows(pr, 0, -1);
    NowIs(1, Closed(0, 0));
    TraceTurns(v, w, pr, 19);
    StartCells(v, w, pr);
    Watched(v, w, pr, TEXT, 1, URun(u), Trace(0), 19);
    RunFollows(pr, TEXT, URun(u), start, 19);
    var last := MatchAtCorrect(n, e, TEXT, 0, -1);
    SameEnd(pr, start, 19, last);
  }

  lemma StartCells(v: Plan, w: Plan, pr: Prog)
    requires Pair(v, w, pr, 1)
    ensures Keeps(v, INVALID, URun(UStart(pr, 0, -1))) && Keeps(w, INVALID, URun(UStart(pr, 0, -1)))
  {
  }

  lemma SameEnd(pr: Prog, s: State, m: nat, n: nat)
    requires !StepN(pr, TEXT, s, m).Run? && !StepN(pr, TEXT, s, n).Run?
    ensures StepN(pr, TEXT, s, m) == StepN(pr, TEXT, s, n)
  {
    hide StepN;
    if m <= n {
      StepNAdd(pr, TEXT, s, m, n - m);
      FinalSteps(pr, TEXT, StepN(pr, TEXT, s, m), n - m);
    } else {
      StepNAdd(pr, TEXT, s, n, m - n);
      FinalSteps(pr, TEXT, StepN(pr, TEXT, s, n), m - n);
    }
  }

  /** The region of the group is [1, 0), though the most preferred way has the capture [0, 0). */
  lemma RegionStale()
    ensures Parsed(TREE, ONE) && SetupRoot(TREE, ONE) == TREE && Compilable(TREE, ONE)
    ensures ONE.btStart == Marked(TREE, false) && Early(TREE, 1) && !Told(TREE, ONE, 1)
    ensures var pr, ms := ProgramOf(TREE, ONE), Meaning(TREE, TEXT, Initial(0, -1));
      var us := UStepN(pr, TEXT, URun(UStart(pr, 0, -1)), 19);
      ms != [] && Get(ms[0].caps, 1) == Closed(0, 0)
      && us.UMatched? && us.c.s == ms[0].s && MatchAt.Reported(pr, us.c.m, 1) == (1, 0)
  {
    hide Parsed, SetupRoot, Compilable, Marked, Early, Steady, Meaning, UStepN, UStart, Loaded, Pair, CodeOf, TREE, OPS,
         Ranges, Bytes, Told, Now, MatchAt.Reported;
    TreeFacts();
    TreeLoaded();
    StaleRun(TREE, ONE);
    NowIs(1, Closed(0, 0));
    var pr := ProgramOf(TREE, ONE);
    StaleRegion(pr, UStepN(pr, TEXT, URun(UStart(pr, 0, -1)), 19).c.m);
    EarlyUnsteady(TREE, 1);
    Untold(TREE, ONE, 1);
  }

  lemma StaleRegion(pr: Prog, m: Mem)
    requires pr.btStart == {} && pr.btEnd == {} && Slot(m.ms, 1) == 1 && Slot(m.me, 1) == 0
    ensures MatchAt.Reported(pr, m, 1) == (1, 0)
  {
  }

  lemma Untold(n: Node, e: Env, g: nat)
    requires g !in e.btStart && !Steady(n, Some(g))
    ensures !Told(n, e, g)
  {
    hide Steady;
  }
}
