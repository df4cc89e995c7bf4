/** What the undo log stands for.  `Chain` says that undoing entries one after the other brings back, at every choice
    point, exactly the captures, loop counters and marks a snapshot would have stored there. */
module Undoing {
  import opened Common
  import opened Semantics
  import opened Snapshot
  import opened UndoLog

  // ---------------------------------------------------------------- reading a stack

  /** The capture of a group whose start is pushed, from its two array elements. */
  function Resolve(pr: Prog, stk: seq<Entry>, num: nat, start: int, end: int): Cap {
    if start == INVALID then Unset
    else if end == INVALID then Open(PosAt(stk, start))
    else Closed(PosAt(stk, start), Max(EndPos(pr, stk, num, end), 0))
  }

  /** The visits of pushing groups, oldest first, each with the capture it replaced. */
  function VisitsOf(pr: Prog, stk: seq<Entry>): seq<Visit> {
    if stk == [] then []
    else
      var top, rest := stk[|stk| - 1], stk[..|stk| - 1];
      if top.EMemStart? then VisitsOf(pr, rest) + [Visit(top.num, Resolve(pr, rest, top.num, top.start, top.end))]
      else VisitsOf(pr, rest)
  }

  function StartsIn(stk: seq<Entry>): nat {
    if stk == [] then 0
    else (if stk[|stk| - 1].EMemStart? then 1 else 0) + StartsIn(stk[..|stk| - 1])
  }

  function MarksOf(stk: seq<Entry>): map<nat, Mark> {
    if stk == [] then map[]
    else
      var top, rest := stk[|stk| - 1], stk[..|stk| - 1];
      if top.ENull? then MarksOf(rest)[top.num := Mark(top.pos, StartsIn(rest))] else MarksOf(rest)
  }

  function LoopsOf(stk: seq<Entry>): map<nat, LoopState> {
    if stk == [] then map[]
    else
      var top, rest := stk[|stk| - 1], stk[..|stk| - 1];
      if top.ERepeat? then LoopsOf(rest)[top.num := LoopState(Max(top.count, 0), top.body)] else LoopsOf(rest)
  }

  /** The number of increments that point at entry i. */
  function IncsOf(stk: seq<Entry>, i: nat): nat {
    if stk == [] then 0
    else (if stk[|stk| - 1] == EInc(i) then 1 else 0) + IncsOf(stk[..|stk| - 1], i)
  }

  // ---------------------------------------------------------------- invariants

  predicate IsStart(stk: seq<Entry>, i: int, num: nat) { 0 <= i < |stk| && stk[i].EMemStart? && stk[i].num == num }

  predicate IsEnd(stk: seq<Entry>, i: int, num: nat) { 0 <= i < |stk| && stk[i].EMemEnd? && stk[i].num == num }

  /** Saved indices name live entries of their group, increments point at loop counters below them, and the pop level
      undoes every entry there is. */
  predicate EntryOk(pr: Prog, stk: seq<Entry>, i: nat)
    requires i < |stk|
  {
    match stk[i]
    case EMemStart(num, _, start, end) =>
      num in pr.btStart && num <= pr.numMem && !pr.level.Free?
      && (start == INVALID || (start < i && IsStart(stk, start, num)))
      && (end == INVALID || (start != INVALID && end >= 0 && (num in pr.btEnd ==> end < i && IsEnd(stk, end, num))))
    case EMemEnd(num, _, start, end) =>
      num in pr.btEnd && num <= pr.numMem && pr.level.All?
      && (if num in pr.btStart then start < i && IsStart(stk, start, num) && end == INVALID
          else end == INVALID || (end < i && IsEnd(stk, end, num)))
    case EInc(si) => si < i && stk[si].ERepeat? && pr.level.All?
    case ERepeat(num, count, _) => num < |pr.ranges| && count == IncsOf(stk, i)
    case _ => true
  }

  ghost predicate Live(pr: Prog, stk: seq<Entry>) {
    forall i :: 0 <= i < |stk| ==> EntryOk(pr, stk, i)
  }

  /** The array elements of group g say `cap` if its start is pushed; the end of an open group may be stale unless ends
      are pushed. */
  predicate CapOk(pr: Prog, m: Mem, g: nat, cap: Cap) {
    var start, end := Slot(m.ms, g), Slot(m.me, g);
    if g !in pr.btStart then end == INVALID || IsEnd(m.stk, end, g)
    else match cap
    case Unset => start == INVALID && end == INVALID
    case Open(pos) => IsStart(m.stk, start, g) && m.stk[start].pos == pos && (g in pr.btEnd ==> end == INVALID)
    case Closed(pos, last) =>
      IsStart(m.stk, start, g) && m.stk[start].pos == pos
      && (if g in pr.btEnd then IsEnd(m.stk, end, g) && m.stk[end].pos == last else end == last)
  }

  /** The groups some of whose array elements are undone on failure. */
  predicate Tracked(pr: Prog, g: nat) { (g in pr.btStart || g in pr.btEnd) && g <= pr.numMem }

  /** Array elements that hold stack indices name live entries of their group. */
  ghost predicate LiveArrays(pr: Prog, m: Mem) {
    forall g: nat :: g <= pr.numMem ==>
      (g in pr.btStart ==> (Slot(m.ms, g) == INVALID && Slot(m.me, g) == INVALID) || IsStart(m.stk, Slot(m.ms, g), g))
      && (g in pr.btEnd ==> Slot(m.me, g) == INVALID || IsEnd(m.stk, Slot(m.me, g), g))
  }

  /** The groups with pushed starts that are open. */
  function OpenIn(pr: Prog, x: St): set<nat> { set g | g in x.caps && g in pr.btStart && x.caps[g].Open? }

  /** The memory holds the given captures, visits, counters and marks. */
  ghost predicate Represents(pr: Prog, x: St, loops: map<nat, LoopState>, marks: map<nat, Mark>, m: Mem) {
    x.log == VisitsOf(pr, m.stk) && loops == LoopsOf(m.stk) && marks == MarksOf(m.stk)
    && forall g: nat :: Tracked(pr, g) ==> CapOk(pr, m, g, Get(x.caps, g))
  }

  predicate SameChoice(ch: Choice, e: Entry)
    requires e.EChoice?
  {
    ch.kind == e.kind
        && (!ch.kind.KStop? ==> ch.p == e.p && ch.x.s == e.s && ch.x.prev == e.prev && ch.x.keep == e.keep)
  }

  /** Undoing the memory from the top meets the choice points of `stack`, each with what it stored; `os` are the pushing
      groups open at the top. */
  ghost predicate Chain(pr: Prog, os: set<nat>, m: Mem, stack: seq<Choice>)
    decreases |m.stk|
  {
    if m.stk == [] then stack == []
    else
      var top := m.stk[|m.stk| - 1];
      var rest := UndoTop(m, All);
      if top.EChoice? then
        stack != []
        && (var ch := stack[|stack| - 1];
            SameChoice(ch, top) && os <= OpenIn(pr, ch.x) && Represents(pr, ch.x, ch.loops, ch.marks, rest)
            && Chain(pr, OpenIn(pr, ch.x), rest, stack[..|stack| - 1]))
      else Chain(pr, if top.EMemStart? then os - {top.num} else os, rest, stack)
  }

  predicate RepOk(pr: Prog, stk: seq<Entry>, rep: seq<int>) {
    forall i :: 0 <= i < |stk| && stk[i].ERepeat? ==>
      stk[i].num < |pr.ranges| && (!pr.ranges[stk[i].num].nested ==> Slot(rep, stk[i].num) == i)
  }

  predicate Sized(pr: Prog, m: Mem) { |m.ms| == |m.me| == pr.numMem + 1 }

  /** The real configuration u stands for the idealised configuration c. */
  ghost predicate Refines(pr: Prog, u: UConfig, c: Config) {
    u.p == c.p && u.s == c.x.s && u.prev == c.x.prev && u.keep == c.x.keep
    && Sized(pr, u.m) && |u.rep| == |pr.ranges| && Live(pr, u.m.stk) && RepOk(pr, u.m.stk, u.rep)
    && Represents(pr, c.x, c.loops, c.marks, u.m) && Chain(pr, OpenIn(pr, c.x), u.m, c.stack)
    && (c.clean ==> u.m.stk != [] && u.m.stk[|u.m.stk| - 1].EChoice?)
  }

  lemma RepresentsLive(pr: Prog, x: St, loops: map<nat, LoopState>, marks: map<nat, Mark>, m: Mem)
    requires Represents(pr, x, loops, marks, m)
    ensures LiveArrays(pr, m)
  {
    hide VisitsOf, LoopsOf, MarksOf;
    forall g: nat | g <= pr.numMem
      ensures g in pr.btStart ==>
          (Slot(m.ms, g) == INVALID && Slot(m.me, g) == INVALID) || IsStart(m.stk, Slot(m.ms, g), g)
      ensures g in pr.btEnd ==> Slot(m.me, g) == INVALID || IsEnd(m.stk, Slot(m.me, g), g)
    {
      if Tracked(pr, g) { assert CapOk(pr, m, g, Get(x.caps, g)); }
    }
  }

  // ---------------------------------------------------------------- one entry more

  lemma Unpush(m: Mem, e: Entry)
    ensures Push1(m, e).stk[..|m.stk|] == m.stk
  {
  }

  lemma ReadPush(pr: Prog, stk: seq<Entry>, e: Entry)
    ensures var stk1 := stk + [e];
      stk1[|stk1| - 1] == e && stk1[..|stk1| - 1] == stk
      && VisitsOf(pr, stk1)
          == (if e.EMemStart? then VisitsOf(pr, stk) + [Visit(e.num, Resolve(pr, stk, e.num, e.start, e.end))]
                                else VisitsOf(pr, stk))
      && StartsIn(stk1) == StartsIn(stk) + (if e.EMemStart? then 1 else 0)
      && MarksOf(stk1) == (if e.ENull? then MarksOf(stk)[e.num := Mark(e.pos, StartsIn(stk))] else MarksOf(stk))
      && LoopsOf(stk1)
          == (if e.ERepeat? then LoopsOf(stk)[e.num := LoopState(Max(e.count, 0), e.body)] else LoopsOf(stk))
  {
    hide Resolve, Max;
    var stk1 := stk + [e];
    assert stk1[..|stk1| - 1] == stk;
  }

  lemma IncsPush(stk: seq<Entry>, e: Entry, i: nat)
    ensures IncsOf(stk + [e], i) == IncsOf(stk, i) + if e == EInc(i) then 1 else 0
  {
    assert (stk + [e])[..|stk|] == stk;
  }

  lemma {:induction false} NoIncs(stk: seq<Entry>, i: nat)
    requires |stk| <= i && forall k :: 0 <= k < |stk| && stk[k].EInc? ==> stk[k].si < k
    ensures IncsOf(stk, i) == 0
  {
    if stk != [] { NoIncs(stk[..|stk| - 1], i); }
  }

  /** A new entry that points nowhere. */
  predicate Plain(e: Entry) { e.EChoice? || e.ENull? || e.EVoid? }

  lemma LivePush(pr: Prog, stk: seq<Entry>, e: Entry)
    requires Live(pr, stk) && !e.EInc? && EntryOk(pr, stk + [e], |stk|)
    ensures Live(pr, stk + [e])
  {
    var stk1 := stk + [e];
    forall i | 0 <= i < |stk1| ensures EntryOk(pr, stk1, i) {
      if i < |stk| {
        assert EntryOk(pr, stk, i) && stk1[i] == stk[i];
        IncsPush(stk, e, i);
      }
    }
  }

  lemma CapsPush(pr: Prog, m: Mem, e: Entry, x: St)
    requires forall g: nat :: Tracked(pr, g) ==> CapOk(pr, m, g, Get(x.caps, g))
    ensures forall g: nat :: Tracked(pr, g) ==> CapOk(pr, Push1(m, e), g, Get(x.caps, g))
  {
    forall g: nat | Tracked(pr, g) ensures CapOk(pr, Push1(m, e), g, Get(x.caps, g)) {
      assert CapOk(pr, m, g, Get(x.caps, g));
    }
  }

  /** Pushing a choice point: the snapshot taken is the present one. */
  lemma ChainChoice(pr: Prog, m: Mem, e: Entry, ch: Choice, x: St, stack: seq<Choice>)
    requires e.EChoice? && SameChoice(ch, e) && ch.x == x
    requires Represents(pr, x, ch.loops, ch.marks, m) && Chain(pr, OpenIn(pr, x), m, stack)
    ensures Chain(pr, OpenIn(pr, x), Push1(m, e), stack + [ch])
  {
    hide Represents;
    Unpush(m, e);
    assert UndoTop(Push1(m, e), All) == m;
    assert (stack + [ch])[..|stack|] == stack;
  }

  /** Pushing an entry that popping takes back. */
  lemma ChainPush(pr: Prog, os: set<nat>, os1: set<nat>, m: Mem, m1: Mem, stack: seq<Choice>)
    requires m1.stk != [] && UndoTop(m1, All) == m && Chain(pr, os, m, stack)
    requires var e := m1.stk[|m1.stk| - 1];
      !e.EChoice? && os == if e.EMemStart? then os1 - {e.num} else os1
    ensures Chain(pr, os1, m1, stack)
  {
    hide UndoTop;
  }

  /** Fewer open groups ask for less. */
  lemma {:induction false} ChainFewer(pr: Prog, os: set<nat>, os1: set<nat>, m: Mem, stack: seq<Choice>)
    requires Chain(pr, os, m, stack) && os1 <= os
    ensures Chain(pr, os1, m, stack)
    decreases |m.stk|
  {
    hide UndoTop, Represents;
    if m.stk != [] {
      var top := m.stk[|m.stk| - 1];
      if !top.EChoice? {
        assert |UndoTop(m, All).stk| < |m.stk| by { UndoSize(m, All); }
        if top.EMemStart? {
          ChainFewer(pr, os - {top.num}, os1 - {top.num}, UndoTop(m, All), stack);
        } else {
          ChainFewer(pr, os, os1, UndoTop(m, All), stack);
        }
      }
    }
  }

  lemma UndoSize(m: Mem, level: PopLevel)
    requires m.stk != []
    ensures |UndoTop(m, level).stk| == |m.stk| - 1
    ensures |UndoTop(m, level).ms| == |m.ms| && |UndoTop(m, level).me| == |m.me|
  {
  }

  /** Two memories that differ only in the arrays of untracked groups. */
  ghost predicate SameTracked(pr: Prog, m: Mem, m1: Mem) {
    m1.stk == m.stk && |m1.ms| == |m.ms| && |m1.me| == |m.me|
    && forall g: nat ::
        Tracked(pr, g) ==> (g in pr.btStart ==> Slot(m1.ms, g) == Slot(m.ms, g)) && Slot(m1.me, g) == Slot(m.me, g)
  }

  lemma UndoSame(pr: Prog, m: Mem, m1: Mem)
    requires SameTracked(pr, m, m1) && m.stk != []
    ensures SameTracked(pr, UndoTop(m, All), UndoTop(m1, All))
  {
  }

  lemma RepresentsSame(pr: Prog, x: St, loops: map<nat, LoopState>, marks: map<nat, Mark>, m: Mem, m1: Mem)
    requires Represents(pr, x, loops, marks, m) && SameTracked(pr, m, m1)
    ensures Represents(pr, x, loops, marks, m1)
  {
    hide VisitsOf, LoopsOf, MarksOf;
    forall g: nat | Tracked(pr, g) ensures CapOk(pr, m1, g, Get(x.caps, g)) {
      assert CapOk(pr, m, g, Get(x.caps, g));
    }
  }

  lemma {:induction false} ChainSame(pr: Prog, os: set<nat>, m: Mem, m1: Mem, stack: seq<Choice>)
    requires Chain(pr, os, m, stack) && SameTracked(pr, m, m1)
    ensures Chain(pr, os, m1, stack)
    decreases |m.stk|
  {
    hide UndoTop, Represents, SameTracked;
    assert m1.stk == m.stk by { SameStack(pr, m, m1); }
    if m.stk != [] {
      var top := m.stk[|m.stk| - 1];
      var rest, rest1 := UndoTop(m, All), UndoTop(m1, All);
      UndoSize(m, All);
      UndoSame(pr, m, m1);
      if top.EChoice? {
        var ch := stack[|stack| - 1];
        RepresentsSame(pr, ch.x, ch.loops, ch.marks, rest, rest1);
        ChainSame(pr, OpenIn(pr, ch.x), rest, rest1, stack[..|stack| - 1]);
      } else {
        ChainSame(pr, if top.EMemStart? then os - {top.num} else os, rest, rest1, stack);
      }
    }
  }

  lemma SameStack(pr: Prog, m: Mem, m1: Mem)
    requires SameTracked(pr, m, m1)
    ensures m1.stk == m.stk
  {
  }

  // ---------------------------------------------------------------- the end of a group whose end is not pushed

  /** Two memories that differ at most in the end of group g. */
  ghost predicate ButEnd(pr: Prog, g: nat, m: Mem, m1: Mem) {
    m1.stk == m.stk && m1.ms == m.ms && |m1.me| == |m.me|
    && forall h: nat :: Tracked(pr, h) && h != g ==> Slot(m1.me, h) == Slot(m.me, h)
  }

  lemma RepresentsEnd(pr: Prog, g: nat, x: St, loops: map<nat, LoopState>, marks: map<nat, Mark>, m: Mem, m1: Mem)
    requires Represents(pr, x, loops, marks, m) && ButEnd(pr, g, m, m1) && g !in pr.btEnd && Get(x.caps, g).Open?
    ensures Represents(pr, x, loops, marks, m1)
  {
    hide VisitsOf, LoopsOf, MarksOf;
    forall h: nat | Tracked(pr, h) ensures CapOk(pr, m1, h, Get(x.caps, h)) {
      assert CapOk(pr, m, h, Get(x.caps, h));
    }
  }

  lemma UndoEnd(pr: Prog, g: nat, m: Mem, m1: Mem)
    requires ButEnd(pr, g, m, m1) && m.stk != []
    ensures var top := m.stk[|m.stk| - 1];
      if top.EMemStart? && top.num == g then SameTracked(pr, UndoTop(m, All), UndoTop(m1, All))
      else ButEnd(pr, g, UndoTop(m, All), UndoTop(m1, All))
  {
  }

  /** While g is open its end is not read: it may be set without being recorded. */
  lemma {:induction false} ChainEnd(pr: Prog, g: nat, os: set<nat>, m: Mem, m1: Mem, stack: seq<Choice>)
    requires Chain(pr, os, m, stack) && ButEnd(pr, g, m, m1)
    requires Tracked(pr, g) && g !in pr.btEnd && g in os
    ensures Chain(pr, os, m1, stack)
    decreases |m.stk|
  {
    hide UndoTop, Represents, ButEnd, SameTracked;
    assert m1.stk == m.stk by { EndStack(pr, g, m, m1); }
    if m.stk != [] {
      var top := m.stk[|m.stk| - 1];
      var rest, rest1 := UndoTop(m, All), UndoTop(m1, All);
      UndoSize(m, All);
      UndoEnd(pr, g, m, m1);
      if top.EChoice? {
        var ch := stack[|stack| - 1];
        assert Get(ch.x.caps, g).Open?;
        RepresentsEnd(pr, g, ch.x, ch.loops, ch.marks, rest, rest1);
        ChainEnd(pr, g, OpenIn(pr, ch.x), rest, rest1, stack[..|stack| - 1]);
      } else if top.EMemStart? && top.num == g {
        ChainSame(pr, os - {g}, rest, rest1, stack);
      } else {
        ChainEnd(pr, g, if top.EMemStart? then os - {top.num} else os, rest, rest1, stack);
      }
    }
  }

  lemma EndStack(pr: Prog, g: nat, m: Mem, m1: Mem)
    requires ButEnd(pr, g, m, m1)
    ensures m1.stk == m.stk
  {
  }
}
