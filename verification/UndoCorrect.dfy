/** Opcode by opcode: match_at on its undo log does what the idealised machine does on snapshots. */
module UndoCorrect {
  import opened Common
  import opened Opcodes
  import opened Semantics
  import opened Snapshot
  import opened UndoLog
  import opened Undoing
  import opened UndoSteps
  import Tree

  lemma RefinesSound(pr: Prog, u: UConfig, c: Config)
    requires Refines(pr, u, c)
    ensures Sound(pr, u.m, u.rep) && Chain(pr, OpenIn(pr, c.x), u.m, c.stack)
  {
    hide Chain, Live, RepOk, Represents;
  }

  lemma FailFollows(pr: Prog, u: UConfig, c: Config)
    requires Refines(pr, u, c)
    ensures Follows(pr, UFail(pr, u), Backtrack(c.stack))
  {
    hide Refines, Chain, Sound, Follows, Backtrack, UBacktrack;
    RefinesSound(pr, u, c);
    BacktrackFollows(pr, OpenIn(pr, c.x), u.m, u.rep, c.stack);
  }

  /** New registers over the same memory. */
  lemma MoveRefines(pr: Prog, u: UConfig, c: Config, u1: UConfig, c1: Config)
    requires Refines(pr, u, c) && u1.m == u.m && u1.rep == u.rep
    requires u1.p == c1.p && u1.s == c1.x.s && u1.prev == c1.x.prev && u1.keep == c1.x.keep
    requires c1.x.caps == c.x.caps && c1.x.log == c.x.log
    requires c1.loops == c.loops && c1.marks == c.marks && c1.stack == c.stack && (c1.clean ==> c.clean)
    ensures Refines(pr, u1, c1)
  {
    hide Chain, Live, RepOk, VisitsOf, LoopsOf, MarksOf, CapOk;
    assert OpenIn(pr, c1.x) == OpenIn(pr, c.x);
  }

  // ---------------------------------------------------------------- pushing

  lemma PlainPush(pr: Prog, u: UConfig, e: Entry, x: St, loops: map<nat, LoopState>, marks: map<nat, Mark>)
    requires Plain(e) && Sound(pr, u.m, u.rep) && Represents(pr, x, loops, marks, u.m)
    ensures var m1 := Push1(u.m, e);
      Sound(pr, m1, u.rep) && UndoTop(m1, All) == u.m
      && Represents(pr, x, loops, if e.ENull? then marks[e.num := Mark(e.pos, |x.log|)] else marks, m1)
  {
    hide VisitsOf, LoopsOf, MarksOf, CapOk;
    ReadPush(pr, u.m.stk, e);
    StartsVisits(pr, u.m.stk);
    CapsPush(pr, u.m, e, x);
    LivePush(pr, u.m.stk, e);
    Unpush(u.m, e);
  }

  lemma {:induction false} StartsVisits(pr: Prog, stk: seq<Entry>)
    ensures StartsIn(stk) == |VisitsOf(pr, stk)|
  {
    hide Resolve;
    if stk != [] { StartsVisits(pr, stk[..|stk| - 1]); }
  }

  /** A choice point goes on both stacks. */
  lemma ChoiceRefines(pr: Prog, u: UConfig, c: Config, ch: Choice, u1: UConfig, c1: Config)
    requires Refines(pr, u, c) && ch == Choose(ch.kind, ch.p, c)
    requires c1.stack == c.stack + [ch] && c1.x.caps == c.x.caps && c1.x.log == c.x.log && c1.loops == c.loops
        && c1.marks == c.marks
    requires u1.m == Push1(u.m, ChoiceOf(ch.kind, ch.p, u)) && u1.rep == u.rep
    requires u1.p == c1.p && u1.s == c1.x.s && u1.prev == c1.x.prev && u1.keep == c1.x.keep
    ensures Refines(pr, u1, c1)
  {
    hide Chain, Represents, Live, RepOk;
    var e := ChoiceOf(ch.kind, ch.p, u);
    RefinesSound(pr, u, c);
    PlainPush(pr, u, e, c.x, c.loops, c.marks);
    ChainChoice(pr, u.m, e, ch, c.x, c.stack);
    RepresentsMoved(pr, c.x, c1.x, c.loops, c.marks, u1.m);
  }

  lemma RepresentsMoved(pr: Prog, x: St, y: St, loops: map<nat, LoopState>, marks: map<nat, Mark>, m: Mem)
    requires Represents(pr, x, loops, marks, m) && y.caps == x.caps && y.log == x.log
    ensures Represents(pr, y, loops, marks, m) && OpenIn(pr, y) == OpenIn(pr, x)
  {
    hide VisitsOf, LoopsOf, MarksOf, CapOk;
  }

  lemma PushFollows(pr: Prog, u: UConfig, c: Config, alt: int, next: int)
    requires Refines(pr, u, c)
    ensures Follows(pr, UPushAlt(u, alt, next), PushAlt(c, alt, next))
  {
    var us, s := UPushAlt(u, alt, next), PushAlt(c, alt, next);
    ChoiceRefines(pr, u, c, Choose(KAlt, alt, c), us.c, s.c);
  }

  lemma StarFollows(pr: Prog, t: Subject, ml: bool, peek: Option<byte>, next: int, u: UConfig, c: Config, begin: nat)
    requires Refines(pr, u, c)
    ensures Follows(pr, UStar(pr, t, ml, peek, next, u, begin), ExecStar(t, ml, peek, next, c, begin))
    decreases Left(t, c.x)
  {
    hide Refines, Backtrack, UBacktrack;
    RefinesRegs(pr, u, c);
    if u.s < t.End() {
      var push := peek.None? || peek.value == t.At(u.s);
      var u1 := if push then Pushed(u, ChoiceOf(KAlt, next, u)) else u;
      var c1 := if push then c.(stack := c.stack + [Choose(KAlt, next, c)]) else c;
      if push { ChoiceRefines(pr, u, c, Choose(KAlt, next, c), u1, c1); }
      if !ml && t.IsNewline(u.s) {
        FailFollows(pr, u1, c1);
      } else {
        var u2, c2 := u1.(s := u.s + 1, prev := u.s), c1.(x := Advance(c.x, 1));
        MoveRefines(pr, u1, c1, u2, c2);
        StarFollows(pr, t, ml, peek, next, u2, c2, begin);
      }
    } else {
      MoveRefines(pr, u, c, u.(p := next, prev := begin), c.(p := next, x := c.x.(prev := begin), clean := false));
    }
  }

  lemma RefinesRegs(pr: Prog, u: UConfig, c: Config)
    requires Refines(pr, u, c)
    ensures u.p == c.p && u.s == c.x.s && u.prev == c.x.prev && u.keep == c.x.keep
  {
  }

  // ---------------------------------------------------------------- groups

  lemma CapAt(pr: Prog, u: UConfig, c: Config, g: nat)
    requires Refines(pr, u, c) && Tracked(pr, g)
    ensures CapOk(pr, u.m, g, Get(c.x.caps, g)) && g < |u.m.ms| && g < |u.m.me|
  {
    hide Chain, Live, RepOk, VisitsOf, LoopsOf, MarksOf;
  }

  lemma MemStartFollows(pr: Prog, t: Subject, num: nat, push: bool, next: int, u: UConfig, c: Config)
    requires Refines(pr, u, c)
    ensures Follows(pr, UExec(pr, t, MemStart(num, push), next, u), ExecMemStart(pr, num, push, next, c))
  {
    hide Refines;
    var s := ExecMemStart(pr, num, push, next, c);
    if s.Run? {
      if push { OpenPushed(pr, t, num, next, u, c); } else { OpenPlain(pr, t, num, next, u, c); }
    }
  }

  lemma OpenPlain(pr: Prog, t: Subject, num: nat, next: int, u: UConfig, c: Config)
    requires Refines(pr, u, c) && ExecMemStart(pr, num, false, next, c).Run?
    ensures var us := UExec(pr, t, MemStart(num, false), next, u);
      us.URun? && Refines(pr, us.c, ExecMemStart(pr, num, false, next, c).c)
  {
    hide Chain, Live, RepOk, Represents;
    var u1, c1 := UExec(pr, t, MemStart(num, false), next, u).c, ExecMemStart(pr, num, false, next, c).c;
    assert SameTracked(pr, u.m, u1.m);
    RepresentsSame(pr, c.x, c.loops, c.marks, u.m, u1.m);
    RepresentsUntracked(pr, num, c.x, c1.x, c.loops, c.marks, u1.m);
    ChainSame(pr, OpenIn(pr, c.x), u.m, u1.m, c.stack);
  }

  /** What happens to an untracked group does not matter. */
  lemma RepresentsUntracked(pr: Prog, num: nat, x: St, y: St, loops: map<nat, LoopState>, marks: map<nat, Mark>, m: Mem)
    requires Represents(pr, x, loops, marks, m) && num !in pr.btStart && y.log == x.log
    requires num in y.caps && y.caps == x.caps[num := y.caps[num]]
    ensures Represents(pr, y, loops, marks, m) && OpenIn(pr, y) == OpenIn(pr, x)
  {
    hide VisitsOf, LoopsOf, MarksOf;
    forall g: nat | Tracked(pr, g) ensures CapOk(pr, m, g, Get(y.caps, g)) {
      assert CapOk(pr, m, g, Get(x.caps, g));
    }
  }

  /** The capture a new visit replaces is the one its saved indices name. */
  lemma SavedCap(pr: Prog, m: Mem, num: nat, cap: Cap)
    requires num in pr.btStart && CapOk(pr, m, num, cap) && !cap.Open?
    ensures Resolve(pr, m.stk, num, Slot(m.ms, num), Slot(m.me, num)) == cap
  {
  }

  lemma OpenPushed(pr: Prog, t: Subject, num: nat, next: int, u: UConfig, c: Config)
    requires Refines(pr, u, c) && ExecMemStart(pr, num, true, next, c).Run?
    ensures var us := UExec(pr, t, MemStart(num, true), next, u);
      us.URun? && Refines(pr, us.c, ExecMemStart(pr, num, true, next, c).c)
  {
    hide Chain, Live, RepOk, Represents, VisitsOf, LoopsOf, MarksOf, CapOk, Resolve;
    var u1, c1 := UExec(pr, t, MemStart(num, true), next, u).c, ExecMemStart(pr, num, true, next, c).c;
    CapAt(pr, u, c, num);
    OpenLive(pr, num, u.m, u.s, u1.m, u.rep, Get(c.x.caps, num));
    OpenRepresents(pr, num, c.x, c.loops, c.marks, u.m, u1.m);
    OpenUndo(num, u.m, u.s, u1.m);
    assert OpenIn(pr, c1.x) - {num} == OpenIn(pr, c.x);
    ChainPush(pr, OpenIn(pr, c.x), OpenIn(pr, c1.x), u.m, u1.m, c.stack);
  }

  /** STACK_PUSH_MEM_START. */
  predicate Opened(num: nat, m: Mem, s: nat, m1: Mem) {
    m1.stk == m.stk + [EMemStart(num, s, Slot(m.ms, num), Slot(m.me, num))]
    && m1.ms == SetSlot(m.ms, num, |m.stk|) && m1.me == SetSlot(m.me, num, INVALID)
  }

  lemma OpenUndo(num: nat, m: Mem, s: nat, m1: Mem)
    requires Opened(num, m, s, m1)
    ensures UndoTop(m1, All) == m
  {
    assert m1.stk[..|m.stk|] == m.stk;
  }

  lemma OpenLive(pr: Prog, num: nat, m: Mem, s: nat, m1: Mem, rep: seq<int>, cap: Cap)
    requires Opened(num, m, s, m1) && Live(pr, m.stk) && RepOk(pr, m.stk, rep)
    requires Tracked(pr, num) && num in pr.btStart && !pr.level.Free? && CapOk(pr, m, num, cap) && !cap.Open?
    ensures Live(pr, m1.stk) && RepOk(pr, m1.stk, rep)
  {
    LivePush(pr, m.stk, m1.stk[|m.stk|]);
  }

  lemma OpenRepresents(pr: Prog, num: nat, x: St, loops: map<nat, LoopState>, marks: map<nat, Mark>, m: Mem, m1: Mem)
    requires Represents(pr, x, loops, marks, m) && Opened(num, m, x.s, m1) && Tracked(pr, num) && num in pr.btStart
        && Sized(pr, m)
    requires !Get(x.caps, num).Open?
    ensures Represents(pr, OpenGroup(num, true, x), loops, marks, m1)
  {
    hide VisitsOf, LoopsOf, MarksOf, Resolve;
    var e, y := m1.stk[|m.stk|], OpenGroup(num, true, x);
    SavedCap(pr, m, num, Get(x.caps, num));
    ReadPush(pr, m.stk, e);
    CapsPush(pr, m, e, x);
    forall g: nat | Tracked(pr, g) ensures CapOk(pr, m1, g, Get(y.caps, g)) {
      assert CapOk(pr, Push1(m, e), g, Get(x.caps, g));
    }
  }

  lemma MemEndFollows(pr: Prog, t: Subject, num: nat, push: bool, next: int, u: UConfig, c: Config)
    requires Refines(pr, u, c)
    ensures Follows(pr, UExec(pr, t, MemEnd(num, push), next, u), ExecMemEnd(pr, num, push, next, c))
  {
    hide Refines;
    var s := ExecMemEnd(pr, num, push, next, c);
    if s.Run? {
      RefinesRegs(pr, u, c);
      if push { ClosePushed(pr, t, num, next, u, c); } else { ClosePlain(pr, t, num, next, u, c); }
    }
  }

  lemma ClosePlain(pr: Prog, t: Subject, num: nat, next: int, u: UConfig, c: Config)
    requires Refines(pr, u, c) && ExecMemEnd(pr, num, false, next, c).Run?
    ensures var us := UExec(pr, t, MemEnd(num, false), next, u);
      us.URun? && Refines(pr, us.c, ExecMemEnd(pr, num, false, next, c).c)
  {
    hide Chain, Live, RepOk, Represents;
    var u1, c1 := UExec(pr, t, MemEnd(num, false), next, u).c, ExecMemEnd(pr, num, false, next, c).c;
    if Tracked(pr, num) {
      CloseRepresents(pr, num, c.x, c.loops, c.marks, u.m, u1.m);
      assert num in OpenIn(pr, c.x);
      assert ButEnd(pr, num, u.m, u1.m);
      ChainEnd(pr, num, OpenIn(pr, c.x), u.m, u1.m, c.stack);
    } else {
      assert SameTracked(pr, u.m, u1.m);
      RepresentsSame(pr, c.x, c.loops, c.marks, u.m, u1.m);
      RepresentsUntracked(pr, num, c.x, c1.x, c.loops, c.marks, u1.m);
      ChainSame(pr, OpenIn(pr, c.x), u.m, u1.m, c.stack);
    }
    ChainFewer(pr, OpenIn(pr, c.x), OpenIn(pr, c1.x), u1.m, c.stack);
  }

  lemma CloseRepresents(pr: Prog, num: nat, x: St, loops: map<nat, LoopState>, marks: map<nat, Mark>, m: Mem, m1: Mem)
    requires Represents(pr, x, loops, marks, m) && Tracked(pr, num) && num in pr.btStart && num !in pr.btEnd
        && Sized(pr, m)
    requires m1 == m.(me := SetSlot(m.me, num, x.s)) && Get(x.caps, num).Open?
    ensures Represents(pr, CloseGroup(num, x), loops, marks, m1)
  {
    hide VisitsOf, LoopsOf, MarksOf;
    var y := CloseGroup(num, x);
    forall g: nat | Tracked(pr, g) ensures CapOk(pr, m1, g, Get(y.caps, g)) {
      assert CapOk(pr, m, g, Get(x.caps, g));
    }
  }

  /** STACK_PUSH_MEM_END. */
  predicate Ended(num: nat, m: Mem, s: nat, m1: Mem) {
    m1.stk == m.stk + [EMemEnd(num, s, Slot(m.ms, num), Slot(m.me, num))]
    && m1.ms == m.ms && m1.me == SetSlot(m.me, num, |m.stk|)
  }

  lemma EndUndo(num: nat, m: Mem, s: nat, m1: Mem)
    requires Ended(num, m, s, m1)
    ensures UndoTop(m1, All) == m
  {
    assert m1.stk[..|m.stk|] == m.stk;
    assert SetSlot(m.ms, num, Slot(m.ms, num)) == m.ms;
  }

  lemma EndLive(pr: Prog, num: nat, m: Mem, s: nat, m1: Mem, rep: seq<int>, cap: Cap)
    requires Ended(num, m, s, m1) && Live(pr, m.stk) && RepOk(pr, m.stk, rep)
    requires num in pr.btEnd && num <= pr.numMem && pr.level.All? && CapOk(pr, m, num, cap) && cap.Open?
    ensures Live(pr, m1.stk) && RepOk(pr, m1.stk, rep)
  {
    LivePush(pr, m.stk, m1.stk[|m.stk|]);
  }

  lemma EndRepresents(pr: Prog, num: nat, x: St, loops: map<nat, LoopState>, marks: map<nat, Mark>, m: Mem, m1: Mem)
    requires Represents(pr, x, loops, marks, m) && Ended(num, m, x.s, m1) && num in pr.btEnd && num <= pr.numMem
        && Sized(pr, m)
    requires Get(x.caps, num).Open?
    ensures Represents(pr, CloseGroup(num, x), loops, marks, m1)
  {
    hide VisitsOf, LoopsOf, MarksOf, Resolve;
    var e, y := m1.stk[|m.stk|], CloseGroup(num, x);
    ReadPush(pr, m.stk, e);
    CapsPush(pr, m, e, x);
    forall g: nat | Tracked(pr, g) ensures CapOk(pr, m1, g, Get(y.caps, g)) {
      assert CapOk(pr, Push1(m, e), g, Get(x.caps, g));
    }
  }

  lemma ClosePushed(pr: Prog, t: Subject, num: nat, next: int, u: UConfig, c: Config)
    requires Refines(pr, u, c) && ExecMemEnd(pr, num, true, next, c).Run?
    ensures var us := UExec(pr, t, MemEnd(num, true), next, u);
      us.URun? && Refines(pr, us.c, ExecMemEnd(pr, num, true, next, c).c)
  {
    hide Chain, Live, RepOk, Represents, VisitsOf, LoopsOf, MarksOf, CapOk, Resolve;
    var u1, c1 := UExec(pr, t, MemEnd(num, true), next, u).c, ExecMemEnd(pr, num, true, next, c).c;
    CapAt(pr, u, c, num);
    EndLive(pr, num, u.m, u.s, u1.m, u.rep, Get(c.x.caps, num));
    EndRepresents(pr, num, c.x, c.loops, c.marks, u.m, u1.m);
    EndUndo(num, u.m, u.s, u1.m);
    ChainFewer(pr, OpenIn(pr, c.x), OpenIn(pr, c1.x), u.m, c.stack);
    ChainPush(pr, OpenIn(pr, c1.x), OpenIn(pr, c1.x), u.m, u1.m, c.stack);
  }

  lemma BackrefFollows(pr: Prog, t: Subject, num: nat, next: int, u: UConfig, c: Config)
    requires Refines(pr, u, c)
    ensures Follows(pr, UBackref(pr, t, num, next, u), ExecBackref(pr, t, num, next, c))
  {
    hide Refines, Backtrack, UBacktrack, BackrefMeaning;
    var s := ExecBackref(pr, t, num, next, c);
    if !s.Stuck? {
      RefinesRegs(pr, u, c);
      CapAt(pr, u, c, num);
      BackrefAgrees(pr, t, num, next, u, c);
      FailFollows(pr, u, c);
      var ys := BackrefMeaning(t, num, c.x);
      if ys != [] {
        MoveRefines(pr, u, c, UBackref(pr, t, num, next, u).c, c.(p := next, x := ys[0]));
      }
    }
  }

  lemma BackrefAgrees(pr: Prog, t: Subject, num: nat, next: int, u: UConfig, c: Config)
    requires u.s == c.x.s && u.keep == c.x.keep && Tracked(pr, num) && num in pr.btStart
        && CapOk(pr, u.m, num, Get(c.x.caps, num)) && Readable(t, Get(c.x.caps, num))
    ensures var ys := BackrefMeaning(t, num, c.x);
      if ys == [] then UBackref(pr, t, num, next, u) == UFail(pr, u)
      else UBackref(pr, t, num, next, u) == URun(u.(p := next, s := ys[0].s, prev := ys[0].prev))
           && ys[0].keep == c.x.keep && ys[0].caps == c.x.caps && ys[0].log == c.x.log
  {
    hide UFail;
  }

  // ---------------------------------------------------------------- counter loops

  lemma {:induction false} FindLoop(stk: seq<Entry>, id: nat)
    ensures var i := FindRepeat(stk, id);
      (i >= 0 <==> id in LoopsOf(stk)) && (i >= 0 ==> LoopsOf(stk)[id] == LoopState(Max(stk[i].count, 0), stk[i].body))
  {
    if stk != [] { FindLoop(stk[..|stk| - 1], id); }
  }

  /** Counting the innermost entry into a loop. */
  lemma {:induction false} BumpLoop(stk: seq<Entry>, id: nat)
    requires FindRepeat(stk, id) >= 0 && stk[FindRepeat(stk, id)].count >= 0
    ensures var i := FindRepeat(stk, id);
      LoopsOf(Bump(stk, i, 1)) == LoopsOf(stk)[id := LoopState(stk[i].count + 1, stk[i].body)]
  {
    var n, i := |stk| - 1, FindRepeat(stk, id);
    assert Bump(stk, i, 1)[..n] == Bump(stk[..n], i, 1);
    if i < n {
      BumpLoop(stk[..n], id);
    } else {
      assert Bump(stk[..n], i, 1) == stk[..n];
    }
  }

  /** A counter below and the record that counts it. */
  predicate Counted1(m: Mem, si: nat, m1: Mem) {
    si < |m.stk| && m.stk[si].ERepeat? && m1 == m.(stk := Bump(m.stk, si, 1) + [EInc(si)])
  }

  lemma CountUndo(m: Mem, si: nat, m1: Mem)
    requires Counted1(m, si, m1)
    ensures m1.stk != [] && m1.stk[|m1.stk| - 1] == EInc(si) && UndoTop(m1, All) == m
  {
    assert m1.stk[..|m.stk|] == Bump(m.stk, si, 1);
    assert Bump(Bump(m.stk, si, 1), si, -1) == m.stk;
  }

  lemma CountLive(pr: Prog, m: Mem, si: nat, m1: Mem, rep: seq<int>)
    requires Counted1(m, si, m1) && Live(pr, m.stk) && RepOk(pr, m.stk, rep) && pr.level.All?
    ensures Live(pr, m1.stk) && RepOk(pr, m1.stk, rep)
  {
    var b := Bump(m.stk, si, 1);
    forall i | 0 <= i < |m1.stk| ensures EntryOk(pr, m1.stk, i) {
      if i < |m.stk| {
        assert EntryOk(pr, m.stk, i);
        ReadBump(pr, m.stk, si, 1, KAlt);
        IncsPush(b, EInc(si), i);
      }
    }
  }

  lemma CountRepresents(pr: Prog, id: nat, x: St, loops: map<nat, LoopState>, marks: map<nat, Mark>, m: Mem, si: nat,
      m1: Mem)
    requires Represents(pr, x, loops, marks, m) && Counted1(m, si, m1) && si == FindRepeat(m.stk, id)
        && m.stk[si].count >= 0
    ensures id in loops && loops[id] == LoopState(m.stk[si].count, m.stk[si].body)
    ensures Represents(pr, x, loops[id := LoopState(m.stk[si].count + 1, m.stk[si].body)], marks, m1)
  {
    hide VisitsOf, LoopsOf, MarksOf;
    FindLoop(m.stk, id);
    BumpLoop(m.stk, id);
    ReadBump(pr, m.stk, si, 1, KAlt);
    ReadPush(pr, Bump(m.stk, si, 1), EInc(si));
    forall g: nat | Tracked(pr, g) ensures CapOk(pr, m1, g, Get(x.caps, g)) {
      assert CapOk(pr, m, g, Get(x.caps, g));
    }
  }

  /** Counting an iteration, over a memory that already holds the choice points of `stack`. */
  lemma CountRefines(pr: Prog, id: nat, u: UConfig, c: Config, si: nat, u1: UConfig, c1: Config)
    requires Refines(pr, u, c) && si == FindRepeat(u.m.stk, id) && Counted1(u.m, si, u1.m) && pr.level.All?
        && id in c.loops
    requires u1.rep == u.rep && u1.s == u.s && u1.prev == u.prev && u1.keep == u.keep && u1.p == c1.p
    requires c1 == c.(p := c1.p, loops := c.loops[id := c.loops[id].(count := c.loops[id].count + 1)], clean := false)
    ensures Refines(pr, u1, c1)
  {
    hide Chain, Live, RepOk, Represents, Counted1;
    CountedAt(pr, u, c, id);
    CountRepresents(pr, id, c.x, c.loops, c.marks, u.m, si, u1.m);
    CountLive(pr, u.m, si, u1.m, u.rep);
    CountUndo(u.m, si, u1.m);
    ChainPush(pr, OpenIn(pr, c.x), OpenIn(pr, c.x), u.m, u1.m, c.stack);
    assert u1.m.ms == u.m.ms && u1.m.me == u.m.me by { CountArrays(u.m, si, u1.m); }
  }

  lemma CountArrays(m: Mem, si: nat, m1: Mem)
    requires Counted1(m, si, m1)
    ensures m1.ms == m.ms && m1.me == m.me
  {
  }

  /** An active loop has a counter on the stack, the one repeat_stk points at if it is not nested. */
  lemma CountedAt(pr: Prog, u: UConfig, c: Config, id: nat)
    requires Refines(pr, u, c) && id in c.loops
    ensures var si := FindRepeat(u.m.stk, id);
      si >= 0 && id < |pr.ranges| && u.m.stk[si].count >= 0
          && c.loops[id] == LoopState(u.m.stk[si].count, u.m.stk[si].body)
      && (!pr.ranges[id].nested ==> Slot(u.rep, id) == si)
  {
    hide Chain, VisitsOf, LoopsOf, MarksOf, CapOk, FindRepeat;
    FindLoop(u.m.stk, id);
    assert EntryOk(pr, u.m.stk, FindRepeat(u.m.stk, id));
  }

  lemma IncFollows(pr: Prog, t: Subject, greedy: bool, sg: bool, id: nat, next: int, u: UConfig, c: Config)
    requires Refines(pr, u, c)
    ensures Follows(pr, UExec(pr, t, RepeatInc(greedy, sg, id), next, u), ExecRepeatInc(pr, greedy, sg, id, next, c))
  {
    hide Refines, FindRepeat, LoopsOf;
    var s := ExecRepeatInc(pr, greedy, sg, id, next, c);
    if s.Run? {
      CountedAt(pr, u, c, id);
      var si := FindRepeat(u.m.stk, id);
      RefinesRegs(pr, u, c);
      var us := UExec(pr, t, RepeatInc(greedy, sg, id), next, u);
      assert us == if greedy then UInc(pr, id, si, next, u) else UIncLazy(pr, id, si, next, u);
      if greedy { GreedyInc(pr, id, si, next, u, c); } else { LazyInc(pr, id, si, next, u, c); }
    }
  }

  lemma GreedyInc(pr: Prog, id: nat, si: nat, next: int, u: UConfig, c: Config)
    requires Refines(pr, u, c) && id < |pr.ranges| && id in c.loops && pr.level.All?
    requires si == FindRepeat(u.m.stk, id) && u.m.stk[si].count >= 0
        && c.loops[id] == LoopState(u.m.stk[si].count, u.m.stk[si].body)
    ensures Follows(pr, UInc(pr, id, si, next, u), ExecRepeatInc(pr, true, pr.ranges[id].nested, id, next, c))
  {
    hide Refines, FindRepeat, LoopsOf;
    var s := ExecRepeatInc(pr, true, pr.ranges[id].nested, id, next, c);
    var u1 := UInc(pr, id, si, next, u).c;
    var n := u.m.stk[si].count + 1;
    if s.Run? {
      if n == pr.ranges[id].upper || n < pr.ranges[id].lower {
        CountRefines(pr, id, u, c, si, u1, s.c);
      } else {
        var ch := Choose(KAlt, next, c);
        var u2, c2 := Pushed(u, ChoiceOf(KAlt, next, u)), c.(stack := c.stack + [ch]);
        RefinesRegs(pr, u, c);
        ChoiceRefines(pr, u, c, ch, u2, c2);
        FindPush(u.m.stk, ChoiceOf(KAlt, next, u), id);
        assert Counted1(u2.m, si, u1.m) by {
          assert Bump(u2.m.stk, si, 1) == Bump(u.m.stk, si, 1) + [ChoiceOf(KAlt, next, u)];
        }
        CountRefines(pr, id, u2, c2, si, u1, s.c);
      }
    }
  }

  lemma FindPush(stk: seq<Entry>, e: Entry, id: nat)
    requires !e.ERepeat?
    ensures FindRepeat(stk + [e], id) == FindRepeat(stk, id)
  {
    assert (stk + [e])[..|stk|] == stk;
  }

  lemma LazyInc(pr: Prog, id: nat, si: nat, next: int, u: UConfig, c: Config)
    requires Refines(pr, u, c) && id < |pr.ranges| && id in c.loops && pr.level.All?
    requires si == FindRepeat(u.m.stk, id) && u.m.stk[si].count >= 0
        && c.loops[id] == LoopState(u.m.stk[si].count, u.m.stk[si].body)
    ensures Follows(pr, UIncLazy(pr, id, si, next, u), ExecRepeatInc(pr, false, pr.ranges[id].nested, id, next, c))
  {
    hide Refines, FindRepeat, LoopsOf;
    var s := ExecRepeatInc(pr, false, pr.ranges[id].nested, id, next, c);
    var n := u.m.stk[si].count + 1;
    if s.Run? {
      var u1 := u.(p := next, m := u.m.(stk := Bump(u.m.stk, si, 1) + [EInc(si)]));
      var c1 := c.(p := next, loops := c.loops[id := c.loops[id].(count := n)], clean := false);
      if n == pr.ranges[id].upper {
        CountRefines(pr, id, u, c, si, u1, c1);
      } else if n < pr.ranges[id].lower {
        CountRefines(pr, id, u, c, si, UIncLazy(pr, id, si, next, u).c, s.c);
      } else {
        CountRefines(pr, id, u, c, si, u1, c1);
        PushFollows(pr, u1, c1, c.loops[id].body, next);
      }
    }
  }

  lemma RepeatFollows(pr: Prog, t: Subject, greedy: bool, id: nat, addr: int, next: int, u: UConfig, c: Config)
    requires Refines(pr, u, c)
    ensures Follows(pr, URepeat(pr, greedy, id, addr, next, u), ExecRepeat(pr, greedy, id, addr, next, c))
  {
    hide Refines;
    if ExecRepeat(pr, greedy, id, addr, next, c).Run? {
      var u1 := Pushed(u, ERepeat(id, 0, next)).(rep := SetSlot(u.rep, id, |u.m.stk|));
      var c1 := c.(loops := c.loops[id := LoopState(0, next)], clean := false);
      EnterRefines(pr, id, next, u, c, u1, c1);
      if pr.ranges[id].lower > 0 {
        RefinesRegs(pr, u1, c1);
        MoveRefines(pr, u1, c1, u1.(p := next), c1.(p := next));
      } else if greedy {
        PushFollows(pr, u1, c1, next + addr, next);
      } else {
        PushFollows(pr, u1, c1, next, next + addr);
      }
    }
  }

  /** OP_REPEAT puts a new counter on the stack. */
  lemma EnterRefines(pr: Prog, id: nat, next: int, u: UConfig, c: Config, u1: UConfig, c1: Config)
    requires Refines(pr, u, c) && id < |pr.ranges| && (pr.ranges[id].nested || id !in c.loops)
    requires u1 == Pushed(u, ERepeat(id, 0, next)).(rep := SetSlot(u.rep, id, |u.m.stk|))
    requires c1 == c.(loops := c.loops[id := LoopState(0, next)], clean := false)
    ensures Refines(pr, u1, c1)
  {
    hide Chain, Live, RepOk, VisitsOf, LoopsOf, MarksOf, CapOk;
    var e := ERepeat(id, 0, next);
    ReadPush(pr, u.m.stk, e);
    CapsPush(pr, u.m, e, c.x);
    EnterLive(pr, u.m.stk, e, u.rep, c.loops);
    Unpush(u.m, e);
    ChainPush(pr, OpenIn(pr, c.x), OpenIn(pr, c.x), u.m, u1.m, c.stack);
  }

  lemma EnterLive(pr: Prog, stk: seq<Entry>, e: Entry, rep: seq<int>, loops: map<nat, LoopState>)
    requires e.ERepeat? && e.num < |pr.ranges| && e.count == 0 && Live(pr, stk) && RepOk(pr, stk, rep)
        && |rep| == |pr.ranges|
    requires loops == LoopsOf(stk) && (pr.ranges[e.num].nested || e.num !in loops)
    ensures Live(pr, stk + [e]) && RepOk(pr, stk + [e], SetSlot(rep, e.num, |stk|))
  {
    hide LoopsOf;
    forall k | 0 <= k < |stk| && stk[k].EInc? ensures stk[k].si < k {
      assert EntryOk(pr, stk, k);
    }
    NoIncs(stk, |stk|);
    IncsPush(stk, e, |stk|);
    LivePush(pr, stk, e);
    forall i | 0 <= i < |stk| && stk[i].ERepeat? && stk[i].num == e.num ensures e.num in loops {
      RepeatIn(stk, i);
    }
  }

  lemma {:induction false} RepeatIn(stk: seq<Entry>, i: nat)
    requires i < |stk| && stk[i].ERepeat?
    ensures stk[i].num in LoopsOf(stk)
  {
    if i < |stk| - 1 { RepeatIn(stk[..|stk| - 1], i); }
  }

  // ---------------------------------------------------------------- null checks

  lemma {:induction false} FindMark(stk: seq<Entry>, id: nat)
    ensures var i := FindNull(stk, id);
      (i >= 0 <==> id in MarksOf(stk)) && (i >= 0 ==> MarksOf(stk)[id] == Mark(stk[i].pos, StartsIn(stk[..i])))
  {
    if stk != [] {
      FindMark(stk[..|stk| - 1], id);
      var i := FindNull(stk[..|stk| - 1], id);
      if i >= 0 { assert stk[..|stk| - 1][..i] == stk[..i]; }
    }
  }

  /** The visits recorded above entry k. */
  lemma {:induction false} VisitsSplit(pr: Prog, stk: seq<Entry>, k: nat)
    requires k <= |stk|
    ensures StartsIn(stk[..k]) == |VisitsOf(pr, stk[..k])| <= |VisitsOf(pr, stk)|
    ensures VisitsOf(pr, stk)[..StartsIn(stk[..k])] == VisitsOf(pr, stk[..k])
  {
    hide Resolve;
    StartsVisits(pr, stk[..k]);
    if k == |stk| {
      assert stk[..k] == stk;
    } else {
      var n := |stk| - 1;
      VisitsSplit(pr, stk[..n], k);
      assert stk[..n][..k] == stk[..k];
    }
  }

  function Code1(turn: Turn): int {
    match turn case Again => 0 case Leave => 1 case Reject => -1
  }

  /** STACK_NULL_CHECK_MEMST reads the visits above the mark. */
  lemma {:induction false} ScanTurn(pr: Prog, stk: seq<Entry>, k: nat, s: nat, moved: bool)
    requires k <= |stk| && Live(pr, stk)
    requires StartsIn(stk[..k]) <= |VisitsOf(pr, stk)|
    ensures MemScan(pr, stk, k, s, if moved then -1 else 1)
        == Code1(MemTurn(VisitsOf(pr, stk)[StartsIn(stk[..k])..], s, moved))
    decreases |stk| - k
  {
    hide VisitsOf, StartsIn, Resolve, EndPos, Live, MemScan, MemTurn;
    var vs, d := VisitsOf(pr, stk), StartsIn(stk[..k]);
    VisitsSplit(pr, stk, k);
    if k == |stk| {
      assert stk[..k] == stk;
      assert vs[d..] == [];
      ScanEnd(pr, stk, k, s, moved);
    } else {
      VisitsSplit(pr, stk, k + 1);
      StartsNext(pr, stk, k);
      if stk[k].EMemStart? {
        var v := Visit(stk[k].num, Resolve(pr, stk[..k], stk[k].num, stk[k].start, stk[k].end));
        assert vs[d] == vs[..d + 1][d] == v;
        assert vs[d..][1..] == vs[d + 1..];
        var moved1 := ScanStep(pr, stk, k, s, moved, vs[d..]);
        ScanTurn(pr, stk, k + 1, s, moved1);
      } else {
        ScanTurn(pr, stk, k + 1, s, moved);
        ScanSkip(pr, stk, k, s, moved);
      }
    }
  }

  lemma StartsNext(pr: Prog, stk: seq<Entry>, k: nat)
    requires k < |stk|
    ensures StartsIn(stk[..k + 1]) == StartsIn(stk[..k]) + if stk[k].EMemStart? then 1 else 0
    ensures stk[k].EMemStart? ==>
      VisitsOf(pr, stk[..k + 1])
        == VisitsOf(pr, stk[..k]) + [Visit(stk[k].num, Resolve(pr, stk[..k], stk[k].num, stk[k].start, stk[k].end))]
  {
    hide Resolve;
    assert stk[..k + 1][..k] == stk[..k];
    assert stk[..k + 1] == stk[..k] + [stk[k]];
    ReadPush(pr, stk[..k], stk[k]);
  }

  lemma ScanEnd(pr: Prog, stk: seq<Entry>, k: nat, s: nat, moved: bool)
    requires k == |stk|
    ensures MemScan(pr, stk, k, s, if moved then -1 else 1) == Code1(MemTurn([], s, moved))
  {
  }

  lemma ScanSkip(pr: Prog, stk: seq<Entry>, k: nat, s: nat, moved: bool)
    requires k < |stk| && !stk[k].EMemStart?
    ensures MemScan(pr, stk, k, s, if moved then -1 else 1) == MemScan(pr, stk, k + 1, s, if moved then -1 else 1)
  {
  }

  /** One visit: both decide that the loop moved, or both go on to the next visit. */
  lemma ScanStep(pr: Prog, stk: seq<Entry>, k: nat, s: nat, moved: bool, vs: seq<Visit>) returns (moved1: bool)
    requires k < |stk| && stk[k].EMemStart? && Live(pr, stk)
    requires vs != [] && vs[0] == Visit(stk[k].num, Resolve(pr, stk[..k], stk[k].num, stk[k].start, stk[k].end))
    ensures var isnull := if moved then -1 else 1; var isnull1 := if moved1 then -1 else 1;
      var scan, turn := MemScan(pr, stk, k, s, isnull), MemTurn(vs, s, moved);
      (scan == 0 && turn == Again)
      || (scan == MemScan(pr, stk, k + 1, s, isnull1) && turn == MemTurn(vs[1..], s, moved1))
  {
    hide Live;
    assert EntryOk(pr, stk, k) by { LiveAt(pr, stk, k); }
    var num, start, end := stk[k].num, stk[k].start, stk[k].end;
    var endp := EndPos(pr, stk, num, end);
    moved1 := moved || endp != s;
  }

  lemma LiveAt(pr: Prog, stk: seq<Entry>, k: nat)
    requires k < |stk| && Live(pr, stk)
    ensures EntryOk(pr, stk, k)
  {
  }

  lemma NullFollows(pr: Prog, t: Subject, id: nat, mem: bool, next: int, u: UConfig, c: Config)
    requires Refines(pr, u, c)
    ensures Follows(pr, UNullEnd(pr, id, mem, next, u), ExecNullEnd(pr, id, mem, next, c))
  {
    hide Refines, FindNull, MemScan, MemTurn, Backtrack, UBacktrack, Skipped;
    RefinesRegs(pr, u, c);
    var s := ExecNullEnd(pr, id, mem, next, c);
    if !s.Stuck? && id in c.marks && c.marks[id].visits <= |c.x.log| {
      NullAt(pr, u, c, id);
      FailFollows(pr, u, c);
      MoveRefines(pr, u, c, u.(p := next), c.(p := next));
      var q := Skipped(pr, next);
      if q.Some? { MoveRefines(pr, u, c, u.(p := q.value), c.(p := q.value)); }
    }
  }

  lemma NullAt(pr: Prog, u: UConfig, c: Config, id: nat)
    requires Refines(pr, u, c) && id in c.marks && c.marks[id].visits <= |c.x.log|
    ensures var k := FindNull(u.m.stk, id);
      k >= 0 && u.m.stk[k].pos == c.marks[id].pos
      && MemScan(pr, u.m.stk, k, u.s, 1) == Code1(MemTurn(c.x.log[c.marks[id].visits..], c.x.s, false))
  {
    hide Chain, Live, RepOk, VisitsOf, LoopsOf, MarksOf, CapOk, MemScan, MemTurn, StartsIn, FindNull;
    var k := FindNull(u.m.stk, id);
    FindMark(u.m.stk, id);
    ScanTurn(pr, u.m.stk, k, u.s, false);
  }

  // ---------------------------------------------------------------- brackets and the rest

  lemma VoidRefines(pr: Prog, kind: Kind, u: UConfig, c: Config, u1: UConfig, c1: Config)
    requires Refines(pr, u, c) && (kind.KPos? || kind.KStop?) && Bracket(c.stack, kind) >= 0
    requires var ch := c.stack[Bracket(c.stack, kind)];
      c1.stack == c.stack[..Bracket(c.stack, kind)] && c1.loops == c.loops && c1.marks == ch.marks && !c1.clean
    requires c1.x.caps == c.x.caps && c1.x.log == c.x.log
    requires u1.m == u.m.(stk := VoidTo(u.m.stk, kind)) && u1.rep == u.rep
    requires u1.p == c1.p && u1.s == c1.x.s && u1.prev == c1.x.prev && u1.keep == c1.x.keep
    ensures Refines(pr, u1, c1)
  {
    hide Chain, Live, RepOk, VisitsOf, LoopsOf, MarksOf, CapOk, VoidTo, Bracket, FindChoice;
    var v := VoidTo(u.m.stk, kind);
    VoidToVoids(u.m.stk, kind);
    LiveVoided(pr, u.m.stk, v);
    ReadVoided(pr, u.m.stk, v);
    FindBracket(pr, OpenIn(pr, c.x), u.m, c.stack, kind);
    VoidMarks(u.m.stk, kind);
    ChainVoid(pr, OpenIn(pr, c.x), u.m, c.stack, kind);
    assert OpenIn(pr, c1.x) == OpenIn(pr, c.x);
    CapsVoided(pr, u.m, u1.m, c1.x);
    RepVoided(pr, u.m.stk, v, u.rep);
  }

  lemma CapsVoided(pr: Prog, m: Mem, m1: Mem, x: St)
    requires m1.ms == m.ms && m1.me == m.me && Voided(m.stk, m1.stk)
    requires forall g: nat :: Tracked(pr, g) ==> CapOk(pr, m, g, Get(x.caps, g))
    ensures forall g: nat :: Tracked(pr, g) ==> CapOk(pr, m1, g, Get(x.caps, g))
  {
    forall g: nat | Tracked(pr, g) ensures CapOk(pr, m1, g, Get(x.caps, g)) {
      assert CapOk(pr, m, g, Get(x.caps, g));
    }
  }

  lemma RepVoided(pr: Prog, stk: seq<Entry>, v: seq<Entry>, rep: seq<int>)
    requires RepOk(pr, stk, rep) && Voided(stk, v)
    ensures RepOk(pr, v, rep)
  {
  }

  lemma PopBracketFollows(pr: Prog, t: Subject, pos: bool, next: int, u: UConfig, c: Config)
    requires Refines(pr, u, c)
    ensures var i := if pos then PopPos else PopStopBt;
      Follows(pr, UExec(pr, t, i, next, u), Exec(pr, t, i, next, c))
  {
    hide Refines, VoidTo, Bracket, FindChoice, Chain, LoopsOf, VisitsOf, MarksOf;
    var kind := if pos then KPos else KStop;
    var i := if pos then PopPos else PopStopBt;
    RefinesRegs(pr, u, c);
    if Bracket(c.stack, kind) >= 0 {
      RefinesSound(pr, u, c);
      FindBracket(pr, OpenIn(pr, c.x), u.m, c.stack, kind);
      VoidRefines(pr, kind, u, c, UExec(pr, t, i, next, u).c, Exec(pr, t, i, next, c).c);
    }
  }

  /** OP_POP takes the alternative of its own OP_PUSH off both stacks. */
  lemma PopFollows(pr: Prog, t: Subject, next: int, u: UConfig, c: Config)
    requires Refines(pr, u, c)
    ensures Follows(pr, UExec(pr, t, Pop, next, u), Exec(pr, t, Pop, next, c))
  {
    if c.clean && c.stack != [] { PopRefines(pr, next, u, c); }
  }

  lemma PopRefines(pr: Prog, next: int, u: UConfig, c: Config)
    requires Refines(pr, u, c) && c.clean && c.stack != []
    ensures u.m.stk != []
    ensures Refines(pr, u.(p := next, m := u.m.(stk := u.m.stk[..|u.m.stk| - 1])),
                    c.(p := next, clean := false, stack := c.stack[..|c.stack| - 1]))
  {
    hide Chain, VisitsOf, LoopsOf, MarksOf, CapOk, Live, RepOk;
    var n := |u.m.stk| - 1;
    var m1, ch := u.m.(stk := u.m.stk[..n]), c.stack[|c.stack| - 1];
    ChainTop(pr, OpenIn(pr, c.x), u.m, c.stack);
    UndoPlain(u.m);
    LiveUndo(pr, u.m, u.rep);
    ChainFewer(pr, OpenIn(pr, ch.x), OpenIn(pr, c.x), m1, c.stack[..|c.stack| - 1]);
    assert m1.stk + [u.m.stk[n]] == u.m.stk;
    ReadPush(pr, m1.stk, u.m.stk[n]);
    CapsPop(pr, u.m, m1, c.x);
  }

  lemma CapsPop(pr: Prog, m: Mem, m1: Mem, x: St)
    requires m.stk != [] && Plain(m.stk[|m.stk| - 1]) && m1 == m.(stk := m.stk[..|m.stk| - 1])
    requires forall g: nat :: Tracked(pr, g) ==> CapOk(pr, m, g, Get(x.caps, g))
    ensures forall g: nat :: Tracked(pr, g) ==> CapOk(pr, m1, g, Get(x.caps, g))
  {
    forall g: nat | Tracked(pr, g) ensures CapOk(pr, m1, g, Get(x.caps, g)) {
      assert CapOk(pr, m, g, Get(x.caps, g));
    }
  }

  lemma NullStartFollows(pr: Prog, id: nat, next: int, u: UConfig, c: Config)
    requires Refines(pr, u, c)
    ensures Refines(pr, Pushed(u, ENull(id, u.s)).(p := next),
                    c.(p := next, clean := false, marks := c.marks[id := Mark(c.x.s, |c.x.log|)]))
  {
    hide Chain, Represents, Live, RepOk;
    RefinesSound(pr, u, c);
    PlainPush(pr, u, ENull(id, u.s), c.x, c.loops, c.marks);
    ChainPush(pr, OpenIn(pr, c.x), OpenIn(pr, c.x), u.m, Push1(u.m, ENull(id, u.s)), c.stack);
  }

  lemma FailBracketFollows(pr: Prog, kind: Kind, u: UConfig, c: Config)
    requires Refines(pr, u, c)
    ensures Follows(pr, UFailTo(u.m, kind, pr.level, u.rep), FailBracket(kind, c))
  {
    hide Refines, Chain, Sound, Backtrack, UBacktrack, UFailTo;
    RefinesSound(pr, u, c);
    if Bracket(c.stack, kind) >= 0 {
      FailToFollows(pr, OpenIn(pr, c.x), u.m, u.rep, c.stack, kind);
    }
  }

  // ---------------------------------------------------------------- steps and runs

  lemma LeafFollows(pr: Prog, t: Subject, i: Instr, next: int, u: UConfig, c: Config)
    requires Refines(pr, u, c)
    requires i.Exact? || i.CClassOp? || i.AnyChar? || i.KeepOp? || i.Fail? || i.Jump? || i.LookBehind? || i.Finish?
        || i.End?
    ensures Follows(pr, UExec(pr, t, i, next, u), Exec(pr, t, i, next, c))
  {
    hide Refines, Backtrack, UBacktrack;
    RefinesRegs(pr, u, c);
    FailFollows(pr, u, c);
    if i.End? {
      EndFollows(pr, u, c);
    } else {
      var s, us := Exec(pr, t, i, next, c), UExec(pr, t, i, next, u);
      var fails := i.Finish? || i.Fail? || (i.Exact? && !t.Has(u.s, i.bs)) || (i.AnyChar? && !AnyMatches(t, i.ml, c.x))
                   || (i.CClassOp? && !(u.s < t.End() && ClassHas(i.set_, i.neg, t.At(u.s))))
                   || (i.LookBehind? && u.s < i.len);
      if !fails { MoveRefines(pr, u, c, us.c, s.c); }
    }
  }

  lemma EndFollows(pr: Prog, u: UConfig, c: Config)
    requires Refines(pr, u, c)
    ensures Follows(pr, UMatched(u), Matched(c.x))
  {
    hide Chain, Live, RepOk, VisitsOf, LoopsOf, MarksOf, CapOk;
  }

  lemma AnchorFollows(pr: Prog, t: Subject, kind: Tree.AnchorKind, next: int, u: UConfig, c: Config)
    requires Refines(pr, u, c)
    ensures Follows(pr, UAnchor(pr, t, kind, next, u), ExecAnchor(t, kind, next, c))
  {
    hide Refines, Backtrack, UBacktrack;
    RefinesRegs(pr, u, c);
    FailFollows(pr, u, c);
    MoveRefines(pr, u, c, u.(p := next), c.(p := next));
  }

  lemma PushesFollow(pr: Prog, t: Subject, i: Instr, next: int, u: UConfig, c: Config)
    requires Refines(pr, u, c)
    requires i.Push? || i.PushOrJumpExact1? || i.PushIfPeekNext? || i.PushPos? || i.PushPosNot? || i.PushStopBt?
        || i.PushLookBehindNot?
    ensures Follows(pr, UExec(pr, t, i, next, u), Exec(pr, t, i, next, c))
  {
    hide Refines;
    RefinesRegs(pr, u, c);
    var us, s := UExec(pr, t, i, next, u), Exec(pr, t, i, next, c);
    if s.c.stack == c.stack {
      MoveRefines(pr, u, c, us.c, s.c);
    } else {
      ChoiceRefines(pr, u, c, s.c.stack[|c.stack|], us.c, s.c);
    }
  }

  lemma ExecFollows(pr: Prog, t: Subject, i: Instr, next: int, u: UConfig, c: Config)
    requires Refines(pr, u, c)
    ensures Follows(pr, UExec(pr, t, i, next, u), Exec(pr, t, i, next, c))
  {
    hide Refines, Follows, UExec, Exec;
    if IsScan(i) { ScanFollows(pr, t, i, next, u, c); }
    else if IsRegister(i) { RegisterFollows(pr, t, i, next, u, c); }
    else if i.NullCheckStart? || i.NullCheckEnd? || i.NullCheckEndMemst? { CheckFollows(pr, t, i, next, u, c); }
    else if IsPop(i) { PopsFollow(pr, t, i, next, u, c); }
    else { OtherFollows(pr, t, i, next, u, c); }
  }

  /** Groups, back-references and counters. */
  predicate IsRegister(i: Instr) { i.BackrefOp? || i.MemStart? || i.MemEnd? || i.Repeat? || i.RepeatInc? }

  lemma RegisterFollows(pr: Prog, t: Subject, i: Instr, next: int, u: UConfig, c: Config)
    requires Refines(pr, u, c) && IsRegister(i)
    ensures Follows(pr, UExec(pr, t, i, next, u), Exec(pr, t, i, next, c))
  {
    hide Refines, Follows, ExecBackref, UBackref, ExecMemStart, ExecMemEnd, ExecRepeat, URepeat, ExecRepeatInc, UInc;
    hide UIncLazy,
         Bump, FindRepeat, SetSlot, Slot;
    match i
    case BackrefOp(num) => BackrefFollows(pr, t, num, next, u, c);
    case MemStart(num, push) => MemStartFollows(pr, t, num, push, next, u, c);
    case MemEnd(num, push) => MemEndFollows(pr, t, num, push, next, u, c);
    case Repeat(greedy, id, addr) => RepeatFollows(pr, t, greedy, id, addr, next, u, c);
    case RepeatInc(greedy, sg, id) => IncFollows(pr, t, greedy, sg, id, next, u, c);
  }

  lemma CheckFollows(pr: Prog, t: Subject, i: Instr, next: int, u: UConfig, c: Config)
    requires Refines(pr, u, c) && (i.NullCheckStart? || i.NullCheckEnd? || i.NullCheckEndMemst?)
    ensures Follows(pr, UExec(pr, t, i, next, u), Exec(pr, t, i, next, c))
  {
    hide Refines, Follows, ExecNullEnd, UNullEnd;
    match i
    case NullCheckStart(id) => MarkFollows(pr, t, id, next, u, c);
    case NullCheckEnd(id) => NullFollows(pr, t, id, false, next, u, c);
    case NullCheckEndMemst(id) => NullFollows(pr, t, id, true, next, u, c);
  }

  /** Atomic groups and look-around. */
  predicate IsPop(i: Instr) { i.Pop? || i.PopPos? || i.PopStopBt? || i.FailPos? || i.FailLookBehindNot? }

  lemma PopsFollow(pr: Prog, t: Subject, i: Instr, next: int, u: UConfig, c: Config)
    requires Refines(pr, u, c) && IsPop(i)
    ensures Follows(pr, UExec(pr, t, i, next, u), Exec(pr, t, i, next, c))
  {
    hide Refines, Follows, FailBracket, UFailTo, VoidTo, FindChoice, Bracket;
    match i
    case Pop => PopFollows(pr, t, next, u, c);
    case PopPos => PopBracketFollows(pr, t, true, next, u, c);
    case PopStopBt => PopBracketFollows(pr, t, false, next, u, c);
    case FailPos => FailBracketFollows(pr, KPosNot, u, c);
    case FailLookBehindNot => FailBracketFollows(pr, KBehindNot, u, c);
  }

  lemma ScanFollows(pr: Prog, t: Subject, i: Instr, next: int, u: UConfig, c: Config)
    requires Refines(pr, u, c) && IsScan(i)
    ensures Follows(pr, UExec(pr, t, i, next, u), Exec(pr, t, i, next, c))
  {
    hide Refines, Follows, ExecStar, UStar, ExecAnchor, UAnchor;
    RefinesRegs(pr, u, c);
    match i
    case AnyCharStarOp(ml) => StarFollows(pr, t, ml, None, next, u, c, u.s);
    case AnyCharStarPeek(ml, ch) => StarFollows(pr, t, ml, Some(ch), next, u, c, u.s);
    case BeginBufOp => AnchorFollows(pr, t, Tree.BeginBuf, next, u, c);
    case EndBufOp => AnchorFollows(pr, t, Tree.EndBuf, next, u, c);
    case BeginLineOp => AnchorFollows(pr, t, Tree.BeginLine, next, u, c);
    case EndLineOp => AnchorFollows(pr, t, Tree.EndLine, next, u, c);
    case SemiEndBufOp => AnchorFollows(pr, t, Tree.SemiEndBuf, next, u, c);
    case BeginPositionOp => AnchorFollows(pr, t, Tree.BeginPosition, next, u, c);
    case BeginPosOrLineOp => AnchorFollows(pr, t, Tree.AnyCharStar, next, u, c);
  }

  /** The anchors and `.*`. */
  predicate IsScan(i: Instr) {
    i.AnyCharStarOp? || i.AnyCharStarPeek? || i.BeginBufOp? || i.EndBufOp? || i.BeginLineOp? || i.EndLineOp?
        || i.SemiEndBufOp?
    || i.BeginPositionOp? || i.BeginPosOrLineOp?
  }

  lemma MarkFollows(pr: Prog, t: Subject, id: nat, next: int, u: UConfig, c: Config)
    requires Refines(pr, u, c)
    ensures Follows(pr, UExec(pr, t, NullCheckStart(id), next, u), Exec(pr, t, NullCheckStart(id), next, c))
  {
    hide Refines;
    NullStartFollows(pr, id, next, u, c);
  }

  lemma OtherFollows(pr: Prog, t: Subject, i: Instr, next: int, u: UConfig, c: Config)
    requires Refines(pr, u, c)
    requires i.Exact? || i.CClassOp? || i.AnyChar? || i.KeepOp? || i.Fail? || i.Jump? || i.LookBehind? || i.Finish?
             || i.End? || i.Push? || i.PushOrJumpExact1? || i.PushIfPeekNext? || i.PushPos? || i.PushPosNot?
             || i.PushStopBt? || i.PushLookBehindNot?
    ensures Follows(pr, UExec(pr, t, i, next, u), Exec(pr, t, i, next, c))
  {
    hide Refines, Follows, Exec, UExec;
    if i.Exact? || i.CClassOp? || i.AnyChar? || i.KeepOp? || i.Fail? || i.Jump? || i.LookBehind? || i.Finish?
        || i.End? {
      LeafFollows(pr, t, i, next, u, c);
    } else {
      PushesFollow(pr, t, i, next, u, c);
    }
  }

  /** One step of the idealised machine is one step of the real one. */
  lemma StepFollows(pr: Prog, t: Subject, u: UConfig, c: Config)
    requires Refines(pr, u, c)
    ensures Follows(pr, UStep(pr, t, URun(u)), Step(pr, t, Run(c)))
  {
    hide Refines, Follows, Exec, UExec;
    RefinesRegs(pr, u, c);
    match FetchAt(pr, c.p)
    case Some(i) => ExecFollows(pr, t, i, c.p + Size(i), u, c);
    case None => StuckFollows(pr, UBad);
  }

  lemma StuckFollows(pr: Prog, us: UState)
    ensures Follows(pr, us, Stuck)
  {
    hide Refines;
  }

  lemma {:induction false} StuckStays(pr: Prog, t: Subject, n: nat)
    ensures StepN(pr, t, Stuck, n) == Stuck
  {
    if n > 0 { StuckStays(pr, t, n - 1); }
  }

  /** Exact undo over whole runs: as long as the idealised machine is not stuck the real one shadows it. */
  lemma {:induction false} RunFollows(pr: Prog, t: Subject, us: UState, s: State, n: nat)
    requires Follows(pr, us, s)
    ensures Follows(pr, UStepN(pr, t, us, n), StepN(pr, t, s, n))
    decreases n
  {
    hide Refines, Step, UStep;
    if n > 0 {
      if s.Run? {
        StepFollows(pr, t, us.c, s.c);
      } else {
        FinalStays(pr, t, us, s);
      }
      RunFollows(pr, t, UStep(pr, t, us), Step(pr, t, s), n - 1);
    }
  }

  lemma FinalStays(pr: Prog, t: Subject, us: UState, s: State)
    requires Follows(pr, us, s) && !s.Run?
    ensures Follows(pr, UStep(pr, t, us), Step(pr, t, s))
  {
    hide Refines, UExec, Exec;
  }

  /** The initial configurations agree. */
  lemma StartFollows(pr: Prog, s: nat, prev: int)
    ensures Refines(pr, UStart(pr, s, prev), Start(s, prev))
  {
    var u, c := UStart(pr, s, prev), Start(s, prev);
    var e := EChoice(KAlt, FINISH, s, prev, s);
    var m0 := u.m.(stk := []);
    assert u.m.stk == [] + [e];
    assert u.m == Push1(m0, e);
    ReadPush(pr, [], e);
    forall g: nat | Tracked(pr, g) ensures CapOk(pr, m0, g, Unset) && CapOk(pr, u.m, g, Unset) {}
    assert OpenIn(pr, c.x) == {};
    assert Chain(pr, {}, m0, []);
    assert Represents(pr, c.x, map[], map[], m0);
    ChainChoice(pr, m0, e, c.stack[0], c.x, []);
    assert [] + [c.stack[0]] == c.stack;
  }
}
