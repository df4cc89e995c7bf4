/** The undo log refines the snapshots: every step of the idealised machine that does not get stuck is a step of the
    real one, so undoing is exact. */
module UndoSteps {
  import opened Semantics
  import opened Snapshot
  import opened UndoLog
  import opened Undoing

  // ---------------------------------------------------------------- stacks that read the same

  /** v is stk with some choice points and marks voided. */
  ghost predicate Voided(stk: seq<Entry>, v: seq<Entry>) {
    |v| == |stk| && forall i ::
        0 <= i < |stk| ==> v[i] == stk[i] || (v[i] == EVoid && (stk[i].EChoice? || stk[i].ENull?))
  }

  lemma VoidedRest(stk: seq<Entry>, v: seq<Entry>)
    requires Voided(stk, v) && stk != []
    ensures Voided(stk[..|stk| - 1], v[..|v| - 1])
  {
  }

  lemma ResolveVoided(pr: Prog, stk: seq<Entry>, v: seq<Entry>, num: nat, start: int, end: int)
    requires Voided(stk, v)
    ensures Resolve(pr, v, num, start, end) == Resolve(pr, stk, num, start, end)
  {
    assert PosAt(v, start) == PosAt(stk, start) && PosAt(v, end) == PosAt(stk, end);
  }

  lemma {:induction false} ReadVoided(pr: Prog, stk: seq<Entry>, v: seq<Entry>)
    requires Voided(stk, v)
    ensures VisitsOf(pr, v) == VisitsOf(pr, stk) && StartsIn(v) == StartsIn(stk) && LoopsOf(v) == LoopsOf(stk)
    ensures forall i: nat :: IncsOf(v, i) == IncsOf(stk, i)
    decreases |stk|
  {
    hide Resolve, Voided;
    assert |v| == |stk| by { VoidedSize(stk, v); }
    if stk != [] {
      var n := |stk| - 1;
      VoidedTop(stk, v);
      VoidedRest(stk, v);
      ReadVoided(pr, stk[..n], v[..n]);
      if stk[n].EMemStart? { ResolveVoided(pr, stk[..n], v[..n], stk[n].num, stk[n].start, stk[n].end); }
    }
  }

  lemma VoidedSize(stk: seq<Entry>, v: seq<Entry>)
    requires Voided(stk, v)
    ensures |v| == |stk|
  {
  }

  lemma VoidedTop(stk: seq<Entry>, v: seq<Entry>)
    requires Voided(stk, v) && stk != []
    ensures v != []
        && (v[|v| - 1] == stk[|stk| - 1] || (v[|v| - 1] == EVoid && (stk[|stk| - 1].EChoice? || stk[|stk| - 1].ENull?)))
  {
  }

  lemma LiveVoided(pr: Prog, stk: seq<Entry>, v: seq<Entry>)
    requires Live(pr, stk) && Voided(stk, v)
    ensures Live(pr, v)
  {
    ReadVoided(pr, stk, v);
    forall i | 0 <= i < |v| ensures EntryOk(pr, v, i) {
      assert EntryOk(pr, stk, i);
    }
  }

  lemma {:induction false} VoidToVoids(stk: seq<Entry>, kind: Kind)
    ensures Voided(stk, VoidTo(stk, kind))
  {
    if stk != [] {
      var n := |stk| - 1;
      VoidToVoids(stk[..n], kind);
      var v := VoidTo(stk, kind);
      forall i | 0 <= i < |stk| ensures v[i] == stk[i] || (v[i] == EVoid && (stk[i].EChoice? || stk[i].ENull?)) {
        if i < n { assert stk[..n][i] == stk[i]; }
      }
    }
  }

  /** Changing the count of a loop counter. */
  lemma {:induction false} ReadBump(pr: Prog, stk: seq<Entry>, i: int, d: int, kind: Kind)
    ensures var v := Bump(stk, i, d);
      |v| == |stk| && VisitsOf(pr, v) == VisitsOf(pr, stk) && StartsIn(v) == StartsIn(stk) && MarksOf(v) == MarksOf(stk)
      && FindChoice(v, kind) == FindChoice(stk, kind)
    ensures forall k: nat :: IncsOf(Bump(stk, i, d), k) == IncsOf(stk, k)
  {
    hide Resolve;
    if stk != [] {
      var n := |stk| - 1;
      var v := Bump(stk, i, d);
      ReadBump(pr, stk[..n], i, d, kind);
      assert v[..n] == Bump(stk[..n], i, d);
      if stk[n].EMemStart? {
        assert v[n] == stk[n];
        ResolveBump(pr, stk[..n], i, d, stk[n].num, stk[n].start, stk[n].end);
      }
    }
  }

  lemma ResolveBump(pr: Prog, stk: seq<Entry>, i: int, d: int, num: nat, start: int, end: int)
    ensures Resolve(pr, Bump(stk, i, d), num, start, end) == Resolve(pr, stk, num, start, end)
  {
  }

  lemma VoidTop(stk: seq<Entry>, kind: Kind)
    requires stk != [] && (kind.KPos? || kind.KStop?)
    ensures var n, v := |stk| - 1, VoidTo(stk, kind);
      |v| == |stk| && v[n] == (if stk[n].ToVoid() || (stk[n].EChoice? && stk[n].kind == kind) then EVoid else stk[n])
      && v[..n] == (if stk[n].EChoice? && stk[n].kind == kind then stk[..n] else VoidTo(stk[..n], kind))
  {
  }

  lemma {:induction false} BumpVoid(stk: seq<Entry>, i: int, d: int, kind: Kind)
    requires kind.KPos? || kind.KStop?
    ensures VoidTo(Bump(stk, i, d), kind) == Bump(VoidTo(stk, kind), i, d)
  {
    hide VoidTo, Voided;
    var v, w := Bump(stk, i, d), VoidTo(stk, kind);
    if stk != [] {
      var n := |stk| - 1;
      assert v[..n] == Bump(stk[..n], i, d);
      BumpVoid(stk[..n], i, d, kind);
      VoidTop(stk, kind);
      VoidTop(v, kind);
      BumpJoin(w[..n], w[n], i, d);
      assert w == w[..n] + [w[n]];
      assert VoidTo(v, kind) == VoidTo(v, kind)[..n] + [VoidTo(v, kind)[n]];
    }
  }

  lemma BumpJoin(stk: seq<Entry>, e: Entry, i: int, d: int)
    ensures Bump(stk + [e], i, d)
      == Bump(stk, i, d) + [if i == |stk| && e.ERepeat? then e.(count := e.count + d) else e]
  {
  }

  // ---------------------------------------------------------------- brackets

  /** Popping an undo record, a mark or a counter, as the chain sees it. */
  function Below(os: set<nat>, top: Entry): set<nat> {
    if top.EMemStart? then os - {top.num} else os
  }

  /** What lies below the top of a chain. */
  lemma ChainTop(pr: Prog, os: set<nat>, m: Mem, stack: seq<Choice>)
    requires m.stk != [] && Chain(pr, os, m, stack)
    ensures var top := m.stk[|m.stk| - 1];
      if top.EChoice? then
        stack != []
        && (var ch := stack[|stack| - 1];
            SameChoice(ch, top) && os <= OpenIn(pr, ch.x) && Represents(pr, ch.x, ch.loops, ch.marks, UndoTop(m, All))
            && Chain(pr, OpenIn(pr, ch.x), UndoTop(m, All), stack[..|stack| - 1]))
      else Chain(pr, Below(os, top), UndoTop(m, All), stack)
  {
    hide UndoTop, Represents;
  }

  lemma UndoRest(m: Mem)
    requires m.stk != []
    ensures var n := |m.stk| - 1;
      UndoTop(m, All).stk == if m.stk[n].EInc? then Bump(m.stk[..n], m.stk[n].si, -1) else m.stk[..n]
  {
  }

  /** Undoing and voiding commute. */
  lemma UndoVoid(pr: Prog, m: Mem, kind: Kind)
    requires m.stk != [] && (kind.KPos? || kind.KStop?)
        && !(m.stk[|m.stk| - 1].EChoice? && m.stk[|m.stk| - 1].kind == kind)
    ensures UndoTop(m.(stk := VoidTo(m.stk, kind)), All)
      == (var rest := UndoTop(m, All); rest.(stk := VoidTo(rest.stk, kind)))
  {
    var n := |m.stk| - 1;
    var top := m.stk[n];
    var v := VoidTo(m.stk, kind);
    assert v[..n] == VoidTo(m.stk[..n], kind);
    if top.EInc? { BumpVoid(m.stk[..n], top.si, -1, kind); }
  }

  /** Voiding a bracket removes its choice points and nothing else: all undo records inside it survive. */
  lemma {:induction false} ChainVoid(pr: Prog, os: set<nat>, m: Mem, stack: seq<Choice>, kind: Kind)
    requires Chain(pr, os, m, stack) && (kind.KPos? || kind.KStop?) && Bracket(stack, kind) >= 0
    ensures Chain(pr, os, m.(stk := VoidTo(m.stk, kind)), stack[..Bracket(stack, kind)])
    decreases |m.stk|
  {
    hide UndoTop, Represents, VoidTo, Chain;
    assert m.stk != [] by { EmptyChain(pr, os, m, stack); }
    var n := |m.stk| - 1;
    var top, rest, k := m.stk[n], UndoTop(m, All), Bracket(stack, kind);
    var m1 := m.(stk := VoidTo(m.stk, kind));
    ChainTop(pr, os, m, stack);
    UndoSize(m, All);
    VoidTop(m.stk, kind);
    if top.EChoice? {
      var ch, below := stack[|stack| - 1], stack[..|stack| - 1];
      assert ch.kind == top.kind;
      if top.kind == kind {
        ChainFewer(pr, OpenIn(pr, ch.x), os, rest, below);
        assert UndoTop(m1, All) == rest by { UndoPlain(m); UndoPlain(m1); }
        ChainPush(pr, os, os, rest, m1, below);
      } else {
        ChainVoid(pr, OpenIn(pr, ch.x), rest, below, kind);
        var rest1 := rest.(stk := VoidTo(rest.stk, kind));
        ChainFewer(pr, OpenIn(pr, ch.x), os, rest1, below[..k]);
        UndoVoid(pr, m, kind);
        assert below[..k] == stack[..k];
        ChainPush(pr, os, os, rest1, m1, stack[..k]);
      }
    } else {
      ChainVoid(pr, Below(os, top), rest, stack, kind);
      UndoVoid(pr, m, kind);
      ChainPush(pr, Below(os, top), os, rest.(stk := VoidTo(rest.stk, kind)), m1, stack[..k]);
    }
  }

  lemma UndoPlain(m: Mem)
    requires m.stk != [] && Plain(m.stk[|m.stk| - 1])
    ensures UndoTop(m, All) == m.(stk := m.stk[..|m.stk| - 1])
  {
  }

  lemma EmptyChain(pr: Prog, os: set<nat>, m: Mem, stack: seq<Choice>)
    requires Chain(pr, os, m, stack)
    ensures m.stk == [] ==> stack == []
  {
  }

  /** The bracket an end opcode finds on the real stack is the one of the idealised stack. */
  lemma {:induction false} FindBracket(pr: Prog, os: set<nat>, m: Mem, stack: seq<Choice>, kind: Kind)
    requires Chain(pr, os, m, stack) && Bracket(stack, kind) >= 0
    ensures var j := FindChoice(m.stk, kind); var ch := stack[Bracket(stack, kind)];
      0 <= j && SameChoice(ch, m.stk[j]) && ch.marks == MarksOf(m.stk[..j])
    decreases |m.stk|
  {
    hide UndoTop, VisitsOf, MarksOf, LoopsOf, Chain, CapOk;
    assert m.stk != [] by { EmptyChain(pr, os, m, stack); }
    var n := |m.stk| - 1;
    var top, rest, k := m.stk[n], UndoTop(m, All), Bracket(stack, kind);
    ChainTop(pr, os, m, stack);
    UndoRest(m);
    if top.EChoice? && top.kind == kind {
    } else {
      if top.EChoice? {
        FindBracket(pr, OpenIn(pr, stack[|stack| - 1].x), rest, stack[..|stack| - 1], kind);
      } else {
        FindBracket(pr, Below(os, top), rest, stack, kind);
      }
      if top.EInc? { FindBumped(pr, m.stk[..n], top.si, kind); }
      var j := FindChoice(m.stk[..n], kind);
      assert m.stk[..n][..j] == m.stk[..j];
    }
  }

  lemma FindBumped(pr: Prog, stk: seq<Entry>, i: nat, kind: Kind)
    ensures var v := Bump(stk, i, -1); var j := FindChoice(stk, kind);
      FindChoice(v, kind) == j && (j >= 0 ==> v[j] == stk[j] && MarksOf(v[..j]) == MarksOf(stk[..j]))
  {
    hide MarksOf, FindChoice;
    var v, j := Bump(stk, i, -1), FindChoice(stk, kind);
    ReadBump(pr, stk, i, -1, kind);
    if j >= 0 {
      assert v[..j] == Bump(stk[..j], i, -1);
      ReadBump(pr, stk[..j], i, -1, kind);
    }
  }

  lemma {:induction false} VoidMarks(stk: seq<Entry>, kind: Kind)
    requires (kind.KPos? || kind.KStop?) && FindChoice(stk, kind) >= 0
    ensures MarksOf(VoidTo(stk, kind)) == MarksOf(stk[..FindChoice(stk, kind)])
  {
    hide VoidTo;
    var n, j := |stk| - 1, FindChoice(stk, kind);
    VoidTop(stk, kind);
    if !(stk[n].EChoice? && stk[n].kind == kind) {
      VoidMarks(stk[..n], kind);
      assert stk[..n][..j] == stk[..j];
    }
  }

  // ---------------------------------------------------------------- failing

  lemma LevelUndo(pr: Prog, m: Mem)
    requires m.stk != [] && Live(pr, m.stk)
    ensures UndoTop(m, pr.level) == UndoTop(m, All)
  {
    assert EntryOk(pr, m.stk, |m.stk| - 1);
  }

  lemma IncsTop(stk: seq<Entry>, i: nat)
    requires stk != []
    ensures IncsOf(stk, i) == IncsOf(stk[..|stk| - 1], i) + if stk[|stk| - 1] == EInc(i) then 1 else 0
  {
  }

  lemma LiveUndo(pr: Prog, m: Mem, rep: seq<int>)
    requires m.stk != [] && Live(pr, m.stk) && RepOk(pr, m.stk, rep)
    ensures Live(pr, UndoTop(m, All).stk) && RepOk(pr, UndoTop(m, All).stk, rep)
  {
    hide IncsOf, RepOk;
    var n := |m.stk| - 1;
    var top, v := m.stk[n], UndoTop(m, All).stk;
    UndoRest(m);
    forall i | 0 <= i < |v| ensures EntryOk(pr, v, i) {
      assert EntryOk(pr, m.stk, i) && EntryOk(pr, m.stk, n);
      IncsTop(m.stk, i);
      if top.EInc? { ReadBump(pr, m.stk[..n], top.si, -1, KAlt); }
    }
    assert RepOk(pr, v, rep) by { RepUndo(pr, m, rep); }
  }

  lemma RepUndo(pr: Prog, m: Mem, rep: seq<int>)
    requires m.stk != [] && RepOk(pr, m.stk, rep)
    ensures RepOk(pr, UndoTop(m, All).stk, rep)
  {
  }

  /** Going on as s says, or anything at all if the idealised machine is stuck. */
  ghost predicate Follows(pr: Prog, us: UState, s: State) {
    match s
    case Run(c) => us.URun? && Refines(pr, us.c, c)
    case Matched(x) =>
      us.UMatched? && us.c.s == x.s && us.c.keep == x.keep && Sized(pr, us.c.m)
      && forall g: nat :: Tracked(pr, g) ==> CapOk(pr, us.c.m, g, Get(x.caps, g))
    case Mismatch => us.UMismatch?
    case Stuck => true
  }

  /** Whatever a memory must satisfy besides standing for snapshots. */
  ghost predicate Sound(pr: Prog, m: Mem, rep: seq<int>) {
    Sized(pr, m) && |rep| == |pr.ranges| && Live(pr, m.stk) && RepOk(pr, m.stk, rep)
  }

  lemma SoundUndo(pr: Prog, m: Mem, rep: seq<int>)
    requires m.stk != [] && Sound(pr, m, rep)
    ensures Sound(pr, UndoTop(m, All), rep) && UndoTop(m, pr.level) == UndoTop(m, All)
    ensures |UndoTop(m, All).stk| < |m.stk|
  {
    hide Live, RepOk, UndoTop;
    UndoSize(m, All);
    LiveUndo(pr, m, rep);
    LevelUndo(pr, m);
  }

  /** A plain entry keeps a memory sound. */
  lemma PlainSound(pr: Prog, u: UConfig, e: Entry)
    requires Plain(e) && Sound(pr, u.m, u.rep)
    ensures Sound(pr, Push1(u.m, e), u.rep)
  {
    hide IncsOf;
    LivePush(pr, u.m.stk, e);
  }

  /** Exact undo: failing brings back the captures, visits, loop counts and marks of the choice point it resumes. */
  lemma {:induction false} BacktrackFollows(pr: Prog, os: set<nat>, m: Mem, rep: seq<int>, stack: seq<Choice>)
    requires Chain(pr, os, m, stack) && Sound(pr, m, rep)
    ensures Follows(pr, UBacktrack(m, pr.level, rep), Backtrack(stack))
    decreases |m.stk|
  {
    hide UndoTop, Represents, Live, RepOk, Chain;
    if m.stk == [] {
      EmptyChain(pr, os, m, stack);
    } else {
      var top, rest := m.stk[|m.stk| - 1], UndoTop(m, All);
      ChainTop(pr, os, m, stack);
      SoundUndo(pr, m, rep);
      if top.EChoice? {
        var ch := stack[|stack| - 1];
        if !top.Resumes() { BacktrackFollows(pr, OpenIn(pr, ch.x), rest, rep, stack[..|stack| - 1]); }
      } else {
        BacktrackFollows(pr, Below(os, top), rest, rep, stack);
      }
    }
  }

  lemma {:induction false} FailToFollows(pr: Prog, os: set<nat>, m: Mem, rep: seq<int>, stack: seq<Choice>, kind: Kind)
    requires Chain(pr, os, m, stack) && Sound(pr, m, rep) && Bracket(stack, kind) >= 0
    ensures Follows(pr, UFailTo(m, kind, pr.level, rep), Backtrack(stack[..Bracket(stack, kind)]))
    decreases |m.stk|
  {
    hide UndoTop, Represents, Live, RepOk, Chain, Follows, Backtrack, UBacktrack;
    assert m.stk != [] by { EmptyChain(pr, os, m, stack); }
    var top, rest, k := m.stk[|m.stk| - 1], UndoTop(m, All), Bracket(stack, kind);
    ChainTop(pr, os, m, stack);
    SoundUndo(pr, m, rep);
    if top.EChoice? {
      var ch, below := stack[|stack| - 1], stack[..|stack| - 1];
      if top.kind == kind {
        BacktrackFollows(pr, OpenIn(pr, ch.x), rest, rep, below);
      } else {
        FailToFollows(pr, OpenIn(pr, ch.x), rest, rep, below, kind);
        assert below[..k] == stack[..k];
      }
    } else {
      FailToFollows(pr, Below(os, top), rest, rep, stack, kind);
    }
  }
}
