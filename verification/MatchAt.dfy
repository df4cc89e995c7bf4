/** match_at (regexec.c:1306-2944) as the imperative program it is: an array stack that doubles, capture and repeat
    arrays changed in place, and one loop that decodes and executes opcodes. */
module MatchAt {
  import opened Common
  import opened Opcodes
  import opened Semantics
  import opened Snapshot
  import opened UndoLog
  import opened Undoing
  import opened UndoSteps
  import Codegen
  import Tree

  const INIT_MATCH_STACK_SIZE := 160

  /** How a step ends: the loop goes on, a match, no match, or the stack limit. */
  datatype Status = Going | Found | NoMatch | StackLimit

  /** The step of the specification that ended as `st` in configuration c. */
  ghost predicate Outcome(us: UState, st: Status, c: UConfig, limit: nat) {
    match st
    case Going => us == URun(c)
    case Found => us == UMatched(c)
    case NoMatch => us == UMismatch
    case StackLimit => limit != 0 && Deep(us, limit)
  }

  /** The machine goes on with a stack of at least that many entries. */
  ghost predicate Deep(us: UState, limit: nat) { us.URun? && limit <= |us.c.m.stk| }

  /** From a state whose top entry can be resumed OP_ANYCHAR_STAR pops no more than that entry. */
  lemma {:induction false} StarDeep(pr: Prog, t: Subject, ml: bool, peek: Option<byte>, next: int, u: UConfig,
                                    begin: nat)
    requires u.m.stk != [] && u.m.stk[|u.m.stk| - 1].Resumes()
    ensures Deep(UStar(pr, t, ml, peek, next, u, begin), |u.m.stk| - 1)
    decreases if u.s <= t.End() then t.End() - u.s else 0
  {
    if u.s < t.End() {
      var u1 := if peek.None? || peek.value == t.At(u.s) then Pushed(u, ChoiceOf(KAlt, next, u)) else u;
      if !(!ml && t.IsNewline(u.s)) { StarDeep(pr, t, ml, peek, next, u1.(s := u.s + 1, prev := u.s), begin); }
    }
  }

  lemma TopOk(pr: Prog, m: Mem)
    requires Live(pr, m.stk) && m.stk != []
    ensures EntryOk(pr, m.stk, |m.stk| - 1)
  {
  }

  /** One turn of the voiding loop. */
  lemma VoidStep(stk: seq<Entry>, k: nat, kind: Kind)
    requires k <= |stk| && 0 <= FindChoice(stk[..k], kind) && (kind.KPos? || kind.KStop?)
    ensures 0 < k && FindChoice(stk[..k], kind) < k
    ensures var e := stk[k - 1];
      if e.EChoice? && e.kind == kind then
        FindChoice(stk[..k], kind) == k - 1 && VoidTo(stk[..k], kind) == stk[..k - 1] + [EVoid]
      else FindChoice(stk[..k], kind) == FindChoice(stk[..k - 1], kind)
           && VoidTo(stk[..k], kind) == VoidTo(stk[..k - 1], kind) + [if e.ToVoid() then EVoid else e]
  {
    assert stk[..k][..k - 1] == stk[..k - 1];
  }

  lemma Splice(was: seq<Entry>, k: nat, done: seq<Entry>, v: seq<Entry>)
    requires k < |was|
    ensures (was[..k + 1] + done)[k := EVoid] == was[..k] + ([EVoid] + done)
    ensures (was[..k] + [EVoid]) + done == was[..k] + ([EVoid] + done)
    ensures was[..k + 1] + done == was[..k] + ([was[k]] + done)
    ensures forall e :: (v + [e]) + done == v + ([e] + done)
  {
  }

  predicate IsScanOp(i: Instr) {
    i.AnyCharStarOp? || i.AnyCharStarPeek? || i.BeginBufOp? || i.EndBufOp? || i.BeginLineOp? || i.EndLineOp?
        || i.SemiEndBufOp?
    || i.BeginPositionOp? || i.BeginPosOrLineOp?
  }

  /** One turn of its loop, and its end. */
  lemma StarTurn(pr: Prog, t: Subject, ml: bool, peek: Option<byte>, next: int, u: UConfig, begin: nat)
    requires u.s < t.End()
    ensures var u1 := if peek.None? || peek.value == t.At(u.s) then Pushed(u, ChoiceOf(KAlt, next, u)) else u;
      UStar(pr, t, ml, peek, next, u, begin)
      == if !ml && t.IsNewline(u.s) then UBacktrack(u1.m, pr.level, u1.rep)
         else UStar(pr, t, ml, peek, next, u1.(s := u.s + 1, prev := u.s), begin)
  {
  }

  lemma StarLeaves(pr: Prog, t: Subject, ml: bool, peek: Option<byte>, next: int, u: UConfig, begin: nat)
    requires t.End() <= u.s
    ensures UStar(pr, t, ml, peek, next, u, begin) == URun(u.(p := next, prev := begin))
  {
  }

  lemma StarFull(pr: Prog, t: Subject, ml: bool, peek: Option<byte>, next: int, u: UConfig, begin: nat)
    requires u.s < t.End() && (peek.None? || peek.value == t.At(u.s))
    ensures Deep(UStar(pr, t, ml, peek, next, u, begin), |u.m.stk|)
  {
    var u1 := Pushed(u, ChoiceOf(KAlt, next, u));
    if !(!ml && t.IsNewline(u.s)) { StarDeep(pr, t, ml, peek, next, u1.(s := u.s + 1, prev := u.s), begin); }
  }

  /** What the region says of a group. */
  function Reported(pr: Prog, m: Mem, g: nat): (int, int) {
    var start, end := Slot(m.ms, g), Slot(m.me, g);
    if end == INVALID then (INVALID, INVALID)
    else (if g !in pr.btStart then start else PosAt(m.stk, start), EndPos(pr, m.stk, g, end))
  }

  lemma LiveIndex(stk: seq<Entry>, start: int, end: int, num: nat)
    ensures IsStart(stk, start, num) ==> 0 <= start < |stk| && stk[start].EMemStart?
    ensures IsEnd(stk, end, num) ==> 0 <= end < |stk| && stk[end].EMemEnd?
  {
  }

  class Machine {
    const code: seq<byte>
    const ranges: seq<Codegen.Range>
    const numMem: nat
    const btStart: set<nat>
    const btEnd: set<nat>
    const level: PopLevel
    const text: Subject
    /** MatchStackLimitSize; 0 is no limit. */
    const limit: nat
    const ms: array<int>
    const me: array<int>
    const rep: array<int>
    var stk: array<Entry>
    var top: nat
    /** The stack is no longer the one match_at allocated for itself. */
    var onHeap: bool
    var p: int
    var s: nat
    var prev: int
    var keep: nat

    ghost predicate Valid()
      reads this, stk, ms, me, rep
    {
      top <= stk.Length && 0 < stk.Length && ms.Length == me.Length == numMem + 1 && rep.Length == |ranges|
      && ms != me && ms != rep && me != rep
      && (limit != 0 ==> stk.Length <= limit && (!onHeap ==> 2 * stk.Length <= limit))
    }

    ghost function Reg(): Prog { Prog(ReaderOf(code), ranges, numMem, btStart, btEnd, level) }

    ghost function Memory(): Mem
      reads this, stk, ms, me
      requires top <= stk.Length
    {
      Mem(stk[..top], ms[..], me[..])
    }

    ghost function Config(): UConfig
      reads this, stk, ms, me, rep
      requires top <= stk.Length
    {
      UConfig(p, s, prev, keep, Memory(), rep[..])
    }

    ghost predicate Healthy()
      reads this, stk, ms, me, rep
    {
      Valid() && Sound(Reg(), Memory(), rep[..])
    }

    constructor (code: seq<byte>, ranges: seq<Codegen.Range>, numMem: nat, btStart: set<nat>, btEnd: set<nat>,
                 level: PopLevel, text: Subject, limit: nat, sstart: nat, sprev: int)
      requires limit == 0 || 2 * INIT_MATCH_STACK_SIZE <= limit
      ensures Valid() && fresh(stk) && fresh(ms) && fresh(me) && fresh(rep)
      ensures Reg() == Prog(ReaderOf(code), ranges, numMem, btStart, btEnd, level) && this.text == text
          && this.limit == limit
      ensures Config() == UStart(Reg(), sstart, sprev)
    {
      this.code, this.ranges, this.numMem, this.btStart, this.btEnd := code, ranges, numMem, btStart, btEnd;
      this.level, this.text, this.limit := level, text, limit;
      ms := new int[numMem + 1](_ => INVALID);
      me := new int[numMem + 1](_ => INVALID);
      rep := new int[|ranges|](_ => INVALID);
      stk := new Entry[INIT_MATCH_STACK_SIZE](_ => EVoid);
      onHeap := false;
      p, s, prev, keep := 0, sstart, sprev, sstart;
      top := 1;
      new;
      stk[0] := EChoice(KAlt, FINISH, sstart, sprev, sstart);
      assert ms[..] == Filled(numMem + 1, INVALID);
      assert me[..] == Filled(numMem + 1, INVALID);
      assert rep[..] == Filled(|ranges|, INVALID);
      assert stk[..top] == [stk[0]];
    }

    /** stack_double. */
    method Double() returns (ok: bool)
      requires Valid()
      modifies this`stk, this`onHeap
      ensures Valid() && (stk == old(stk) || fresh(stk)) && Config() == old(Config())
      ensures if ok then old(stk.Length) < stk.Length else limit != 0 && stk == old(stk) && stk.Length == limit
    {
      var n := stk.Length;
      var size := 2 * n;
      if onHeap && limit != 0 && size > limit {
        if n == limit { return false; }
        size := limit;
      }
      var x := new Entry[size](_ => EVoid);
      forall i | 0 <= i < n { x[i] := stk[i]; }
      assert x[..top] == stk[..top];
      stk := x;
      onHeap := true;
      ok := true;
    }

    /** STACK_ENSURE(1) and the push itself. */
    method Push(e: Entry) returns (ok: bool)
      requires Valid()
      modifies this`stk, this`onHeap, this`top, stk
      ensures Valid() && (stk == old(stk) || fresh(stk))
      ensures if ok then Config() == Pushed(old(Config()), e)
              else limit != 0 && old(top) == limit && Config() == old(Config())
    {
      if stk.Length - top < 1 {
        ok := Double();
        if !ok { return; }
      }
      stk[top] := e;
      top := top + 1;
      assert stk[..top] == old(stk[..top]) + [e];
      ok := true;
    }

    /** Takes the top entry off and undoes what it records, as far as `lvl` asks. */
    method PopEntry(lvl: PopLevel) returns (e: Entry)
      requires Healthy() && 0 < top && (lvl == level || lvl.All?)
      modifies this`top, stk, ms, me
      ensures Healthy() && top == old(top) - 1 && e == old(stk[top - 1])
      ensures Memory() == UndoTop(old(Memory()), lvl) && rep[..] == old(rep[..])
    {
      hide Live, RepOk;
      ghost var m := Memory();
      SoundUndo(Reg(), m, rep[..]);
      TopOk(Reg(), m);
      top := top - 1;
      e := stk[top];
      match e
      case EMemStart(num, _, start, end) =>
        if !lvl.Free? { ms[num], me[num] := start, end; }
      case EMemEnd(num, _, start, end) =>
        if lvl.All? { ms[num], me[num] := start, end; }
      case EInc(si) =>
        if lvl.All? { stk[si] := stk[si].(count := stk[si].count - 1); }
      case _ =>
      assert m.stk[..top] == old(stk[..top - 1]);
      assert Memory().stk == UndoTop(m, All).stk;
      assert Memory() == UndoTop(m, All);
      assert rep[..] == old(rep[..]);
    }

    /** STACK_POP and `fail`: undo down to the last choice point and resume it. */
    method Fail()
      requires Healthy() && !UBacktrack(Memory(), level, rep[..]).UBad?
      modifies this, stk, ms, me
      ensures Valid() && stk == old(stk) && URun(Config()) == UBacktrack(old(Memory()), level, old(rep[..]))
    {
      ghost var target := UBacktrack(Memory(), level, rep[..]);
      while true
        invariant Healthy() && stk == old(stk) && rep[..] == old(rep[..])
        invariant UBacktrack(Memory(), level, rep[..]) == target
        decreases top
      {
        var e := PopEntry(level);
        if e.Resumes() {
          p, s, prev, keep := e.p, e.s, e.prev, e.keep;
          return;
        }
      }
    }

    /** STACK_POP_TIL_POS_NOT or STACK_POP_TIL_LOOK_BEHIND_NOT, then `fail`. */
    method FailTo(kind: Kind)
      requires Healthy() && !UFailTo(Memory(), kind, level, rep[..]).UBad?
      modifies this, stk, ms, me
      ensures Valid() && stk == old(stk) && URun(Config()) == UFailTo(old(Memory()), kind, level, old(rep[..]))
    {
      ghost var target := UFailTo(Memory(), kind, level, rep[..]);
      while true
        invariant Healthy() && stk == old(stk) && rep[..] == old(rep[..])
        invariant UFailTo(Memory(), kind, level, rep[..]) == target
        decreases top
      {
        var e := PopEntry(All);
        if e.EChoice? && e.kind == kind {
          Fail();
          return;
        }
      }
    }

    /** STACK_POS_END and STACK_STOP_BT_END, in place. */
    method VoidEnd(kind: Kind) returns (e: Entry)
      requires Valid() && FindChoice(stk[..top], kind) >= 0 && (kind.KPos? || kind.KStop?)
      modifies stk
      ensures e == old(stk[..top])[FindChoice(old(stk[..top]), kind)] && stk[..top] == VoidTo(old(stk[..top]), kind)
    {
      hide VoidTo, FindChoice;
      ghost var was, done := stk[..top], [];
      var k := top;
      assert was[..k] == was;
      while true
        invariant k <= top && |done| == top - k && stk[..top] == was[..k] + done
        invariant 0 <= FindChoice(was, kind) == FindChoice(was[..k], kind)
        invariant VoidTo(was, kind) == VoidTo(was[..k], kind) + done
        decreases k
      {
        VoidStep(was, k, kind);
        k := k - 1;
        assert stk[k] == stk[..top][k] == was[k];
        Splice(was, k, done, VoidTo(was[..k], kind));
        label L:
        if stk[k].ToVoid() {
          stk[k] := EVoid;
          assert stk[..top] == old@L(stk[..top])[k := EVoid];
          done := [EVoid] + done;
        } else if stk[k].EChoice? && stk[k].kind == kind {
          e := stk[k];
          stk[k] := EVoid;
          assert stk[..top] == old@L(stk[..top])[k := EVoid];
          return;
        } else {
          done := [was[k]] + done;
        }
      }
    }

    /** STACK_GET_REPEAT. */
    method GetRepeat(id: nat) returns (k: nat)
      requires Valid() && FindRepeat(stk[..top], id) >= 0
      ensures k == FindRepeat(stk[..top], id)
    {
      k := top;
      while true
        invariant k <= top && FindRepeat(stk[..top], id) == FindRepeat(stk[..k], id)
        decreases k
      {
        k := k - 1;
        assert stk[..k + 1][..k] == stk[..k];
        if stk[k].ERepeat? && stk[k].num == id { return; }
      }
    }

    /** The search of STACK_NULL_CHECK. */
    method GetNull(id: nat) returns (k: nat)
      requires Valid() && FindNull(stk[..top], id) >= 0
      ensures k == FindNull(stk[..top], id)
    {
      k := top;
      while true
        invariant k <= top && FindNull(stk[..top], id) == FindNull(stk[..k], id)
        decreases k
      {
        k := k - 1;
        assert stk[..k + 1][..k] == stk[..k];
        if stk[k].ENull? && stk[k].num == id { return; }
      }
    }

    /** The inner loop of STACK_NULL_CHECK_MEMST. */
    method ScanMem(from: nat) returns (isnull: int)
      requires Healthy() && from <= top
      ensures isnull == MemScan(Reg(), stk[..top], from, s, 1)
    {
      isnull := 1;
      var k := from;
      while k < top
        invariant k <= top && MemScan(Reg(), stk[..top], k, s, isnull) == MemScan(Reg(), stk[..top], from, s, 1)
      {
        var e := stk[k];
        assert EntryOk(Reg(), stk[..top], k);
        if e.EMemStart? {
          if e.end == INVALID { return 0; }
          var endp := if e.num in btEnd then stk[e.end].pos else e.end;
          if stk[e.start].pos != endp { return 0; }
          if endp != s { isnull := -1; }
        }
        k := k + 1;
      }
    }

    // -------------------------------------------------------------- opcodes

    ghost predicate CanExec(i: Instr, next: int)
      reads this, stk, ms, me, rep
    {
      Healthy() && LiveArrays(Reg(), Memory()) && !UExec(Reg(), text, i, next, Config()).UBad?
    }

    /** STRING_CMP_SE against the operand of an exact opcode. */
    method Compare(bs: seq<byte>) returns (same: bool)
      requires s + |bs| <= text.End()
      ensures same == text.Has(s, bs)
    {
      var n := 0;
      while n < |bs|
        invariant 0 <= n <= |bs| && text.data[s..s + n] == bs[..n]
      {
        if text.data[s + n] != bs[n] {
          assert text.data[s..s + |bs|][n] != bs[n];
          return false;
        }
        assert text.data[s..s + n + 1] == text.data[s..s + n] + [text.data[s + n]];
        n := n + 1;
      }
      same := true;
    }

    /** STRING_CMP_SE against the text of a group. */
    method CompareText(start: nat, n: nat) returns (same: bool)
      requires s + n <= text.End() && start + n <= text.End()
      ensures same <==> text.data[s..s + n] == text.data[start..start + n]
    {
      var k := 0;
      while k < n
        invariant 0 <= k <= n && text.data[s..s + k] == text.data[start..start + k]
      {
        if text.data[s + k] != text.data[start + k] {
          assert text.data[s..s + n][k] != text.data[start..start + n][k];
          return false;
        }
        assert text.data[s..s + k + 1] == text.data[s..s + k] + [text.data[s + k]];
        assert text.data[start..start + k + 1] == text.data[start..start + k] + [text.data[start + k]];
        k := k + 1;
      }
      same := true;
    }

    method ExecChar(i: Instr, next: int) returns (st: Status)
      requires CanExec(i, next) && (i.Exact? || i.CClassOp? || i.AnyChar?)
      modifies this, stk, ms, me
      ensures Valid() && stk == old(stk) && Outcome(UExec(Reg(), text, i, next, old(Config())), st, Config(), limit)
          && st == Going
    {
      hide UBacktrack, Sound, LiveArrays;
      var ok, n := false, 1;
      if i.Exact? {
        n := |i.bs|;
        if s + n <= text.End() { ok := Compare(i.bs); }
      } else if s < text.End() {
        ok := if i.CClassOp? then ClassHas(i.set_, i.neg, text.At(s)) else i.ml || !text.IsNewline(s);
      }
      if !ok {
        Fail();
      } else if n > 0 {
        p, s, prev := next, s + n, s + n - 1;
      } else {
        p := next;
      }
      st := Going;
    }

    method ExecAnchor(i: Instr, kind: Tree.AnchorKind, next: int) returns (st: Status)
      requires CanExec(i, next) && UExec(Reg(), text, i, next, Config()) == UAnchor(Reg(), text, kind, next, Config())
      modifies this, stk, ms, me
      ensures Valid() && stk == old(stk) && Outcome(UExec(Reg(), text, i, next, old(Config())), st, Config(), limit)
          && st == Going
    {
      hide UBacktrack, Sound, LiveArrays, UExec;
      if AnchorHolds(kind, text, St(s, prev, keep, map[], [])) { p := next; } else { Fail(); }
      st := Going;
    }

    /** The alternative OP_ANYCHAR_STAR leaves at a position. */
    method PushHere(peek: Option<byte>, next: int) returns (ok: bool)
      requires Healthy()
      modifies this`stk, this`onHeap, this`top, stk
      ensures Valid() && (stk == old(stk) || fresh(stk))
      ensures !ok ==>
          limit != 0 && old(top) == limit && Config() == old(Config()) && (peek.None? || peek.value == text.At(s))
      ensures ok ==>
        Healthy()
        && Config() == (if peek.None? || peek.value == text.At(s)
                        then Pushed(old(Config()), ChoiceOf(KAlt, next, old(Config()))) else old(Config()))
    {
      hide Sound;
      ok := true;
      if peek.None? || peek.value == text.At(s) {
        PlainSound(Reg(), Config(), EChoice(KAlt, next, s, prev, keep));
        ok := Push(EChoice(KAlt, next, s, prev, keep));
      }
    }

    /** OP_ANYCHAR_STAR and its variants. */
    method ExecStar(ml: bool, peek: Option<byte>, next: int) returns (st: Status)
      requires Healthy() && !UStar(Reg(), text, ml, peek, next, Config(), s).UBad?
      modifies this, stk, ms, me
      ensures Valid() && (stk == old(stk) || fresh(stk))
      ensures Outcome(UStar(Reg(), text, ml, peek, next, old(Config()), old(s)), st, Config(), limit)
    {
      hide UBacktrack, Sound, Deep, UStar;
      var begin := s;
      ghost var target := UStar(Reg(), text, ml, peek, next, Config(), begin);
      while s < text.End()
        invariant Healthy() && (stk == old(stk) || fresh(stk)) && !target.UBad?
        invariant UStar(Reg(), text, ml, peek, next, Config(), begin) == target
        decreases text.End() - s
      {
        StarTurn(Reg(), text, ml, peek, next, Config(), begin);
        var ok := PushHere(peek, next);
        if !ok {
          StarFull(Reg(), text, ml, peek, next, Config(), begin);
          return StackLimit;
        }
        if !ml && text.IsNewline(s) {
          Fail();
          return Going;
        }
        s, prev := s + 1, s;
      }
      StarLeaves(Reg(), text, ml, peek, next, Config(), begin);
      p, prev := next, begin;
      st := Going;
    }

    /** OP_PUSH and its relatives push one choice point and go on. */
    method ExecPush(i: Instr, kind: Kind, alt: int, next: int, to: int) returns (st: Status)
      requires CanExec(i, next)
          && UExec(Reg(), text, i, next, Config()) == URun(Pushed(Config(), ChoiceOf(kind, alt, Config())).(p := to))
      modifies this, stk
      ensures Valid() && (stk == old(stk) || fresh(stk))
      ensures Outcome(UExec(Reg(), text, i, next, old(Config())), st, Config(), limit)
    {
      hide UExec, Sound, LiveArrays;
      var ok := Push(EChoice(kind, alt, s, prev, keep));
      if !ok { return StackLimit; }
      p := to;
      st := Going;
    }

    method ExecBehindNot(i: Instr, next: int) returns (st: Status)
      requires CanExec(i, next) && i.PushLookBehindNot?
      modifies this, stk
      ensures Valid() && (stk == old(stk) || fresh(stk))
      ensures Outcome(UExec(Reg(), text, i, next, old(Config())), st, Config(), limit)
    {
      hide Sound, LiveArrays;
      if s < i.len {
        p := next + i.addr;
      } else {
        var ok := Push(EChoice(KBehindNot, next + i.addr, s, prev, keep));
        if !ok { return StackLimit; }
        p, s, prev := next, s - i.len, s - i.len - 1;
      }
      st := Going;
    }

    method ExecBehind(i: Instr, next: int) returns (st: Status)
      requires CanExec(i, next) && i.LookBehind?
      modifies this, stk, ms, me
      ensures Valid() && stk == old(stk) && st == Going
          && Outcome(UExec(Reg(), text, i, next, old(Config())), st, Config(), limit)
    {
      hide UBacktrack, Sound, LiveArrays;
      if s < i.len { Fail(); } else { p, s, prev := next, s - i.len, s - i.len - 1; }
      st := Going;
    }

    /** OP_MEMORY_START and OP_MEMORY_START_PUSH. */
    method ExecMemStart(num: nat, push: bool, next: int) returns (st: Status)
      requires CanExec(MemStart(num, push), next)
      modifies this, stk, ms, me
      ensures Valid() && (stk == old(stk) || fresh(stk))
      ensures Outcome(UExec(Reg(), text, MemStart(num, push), next, old(Config())), st, Config(), limit)
    {
      hide Sound, LiveArrays;
      if push {
        var ok := Push(EMemStart(num, s, ms[num], me[num]));
        if !ok { return StackLimit; }
        ms[num] := top - 1;
        me[num] := INVALID;
      } else {
        ms[num] := s;
      }
      p := next;
      st := Going;
    }

    /** OP_MEMORY_END and OP_MEMORY_END_PUSH. */
    method ExecMemEnd(num: nat, push: bool, next: int) returns (st: Status)
      requires CanExec(MemEnd(num, push), next)
      modifies this, stk, me
      ensures Valid() && (stk == old(stk) || fresh(stk))
      ensures Outcome(UExec(Reg(), text, MemEnd(num, push), next, old(Config())), st, Config(), limit)
    {
      hide Sound, LiveArrays;
      if push {
        var ok := Push(EMemEnd(num, s, ms[num], me[num]));
        if !ok { return StackLimit; }
        me[num] := top - 1;
      } else {
        me[num] := s;
      }
      p := next;
      st := Going;
    }

    /** OP_BACKREF1, OP_BACKREF2 and OP_BACKREFN. */
    method ExecBackref(num: nat, next: int) returns (st: Status)
      requires CanExec(BackrefOp(num), next)
      modifies this, stk, ms, me
      ensures Valid() && stk == old(stk) && st == Going
      ensures Outcome(UExec(Reg(), text, BackrefOp(num), next, old(Config())), st, Config(), limit)
    {
      hide UBacktrack, Sound, IsStart, IsEnd, URefer;
      st := Going;
      if num > numMem || me[num] == INVALID || ms[num] == INVALID {
        Fail();
        return;
      }
      assert num in btStart ==> IsStart(stk[..top], Slot(ms[..], num), num);
      assert num in btEnd ==> IsEnd(stk[..top], Slot(me[..], num), num);
      assert num in btStart ==> 0 <= ms[num] < top && stk[ms[num]].EMemStart? by {
        LiveIndex(stk[..top], ms[num], me[num], num);
      }
      assert num in btEnd ==> 0 <= me[num] < top && stk[me[num]].EMemEnd? by {
        LiveIndex(stk[..top], ms[num], me[num], num);
      }
      var start := if num in btStart then stk[ms[num]].pos else ms[num];
      var end := if num in btEnd then stk[me[num]].pos else me[num];
      ReferTo(start, end, next);
    }

    method ReferTo(start: int, end: int, next: int)
      requires Healthy() && !URefer(Reg(), text, start, end, next, Config()).UBad?
      modifies this, stk, ms, me
      ensures Valid() && stk == old(stk) && URun(Config()) == URefer(Reg(), text, start, end, next, old(Config()))
    {
      hide UBacktrack, Sound;
      var n := end - start;
      if s + n > text.End() {
        Fail();
      } else if n <= 0 {
        p, prev := next, s;
      } else if 0 <= start && end <= text.End() {
        var same := CompareText(start, n);
        if same { p, s, prev := next, s + n, s + n - 1; } else { Fail(); }
      } else {
        Fail();
      }
    }

    /** STACK_PUSH_REPEAT and the entry of repeat_stk. */
    method EnterLoop(id: nat, next: int) returns (ok: bool)
      requires Valid() && id < |ranges|
      modifies this`stk, this`onHeap, this`top, stk, rep
      ensures Valid() && (stk == old(stk) || fresh(stk))
      ensures
        if ok then Config() == Pushed(old(Config()), ERepeat(id, 0, next)).(rep := SetSlot(old(rep[..]), id, old(top)))
        else limit != 0 && old(top) == limit
    {
      rep[id] := top;
      ok := Push(ERepeat(id, 0, next));
    }

    /** OP_REPEAT and OP_REPEAT_NG. */
    method ExecRepeat(greedy: bool, id: nat, addr: int, next: int) returns (st: Status)
      requires Valid() && !URepeat(Reg(), greedy, id, addr, next, Config()).UBad?
      modifies this, stk, rep
      ensures Valid() && (stk == old(stk) || fresh(stk))
      ensures Outcome(URepeat(Reg(), greedy, id, addr, next, old(Config())), st, Config(), limit)
    {
      var ok := EnterLoop(id, next);
      if !ok { return StackLimit; }
      p := next;
      if ranges[id].lower == 0 {
        ok := Push(EChoice(KAlt, if greedy then next + addr else next, s, prev, keep));
        if !ok { return StackLimit; }
        if !greedy { p := next + addr; }
      }
      st := Going;
    }

    /** OP_REPEAT_INC and its three relatives. */
    method ExecRepeatInc(greedy: bool, sg: bool, id: nat, next: int) returns (st: Status)
      requires CanExec(RepeatInc(greedy, sg, id), next)
      modifies this, stk
      ensures Valid() && (stk == old(stk) || fresh(stk))
      ensures Outcome(UExec(Reg(), text, RepeatInc(greedy, sg, id), next, old(Config())), st, Config(), limit)
    {
      hide Sound, LiveArrays, FindRepeat;
      var si: int;
      if sg { si := GetRepeat(id); } else { si := rep[id]; }
      assert 0 <= si < top && stk[si].ERepeat?;
      if greedy { st := CountGreedy(id, si, next); } else { st := CountLazy(id, si, next); }
    }

    method CountGreedy(id: nat, si: nat, next: int) returns (st: Status)
      requires Valid() && id < |ranges| && si < top && stk[si].ERepeat?
      modifies this, stk
      ensures Valid() && (stk == old(stk) || fresh(stk))
      ensures Outcome(UInc(Reg(), id, si, next, old(Config())), st, Config(), limit)
    {
      Increment(si);
      var n, ok := stk[si].count, true;
      var to := if n >= ranges[id].upper then next else stk[si].body;
      if ranges[id].lower <= n < ranges[id].upper {
        ok := Push(EChoice(KAlt, next, s, prev, keep));
        if !ok { return StackLimit; }
      }
      ok := Push(EInc(si));
      if !ok { return StackLimit; }
      p := to;
      st := Going;
    }

    method Increment(si: nat)
      requires Valid() && si < top && stk[si].ERepeat?
      modifies stk
      ensures Valid() && Config() == old(Config()).(m := old(Memory()).(stk := Bump(old(stk[..top]), si, 1)))
      ensures stk[si] == old(stk[si]).(count := old(stk[si]).count + 1)
    {
      stk[si] := stk[si].(count := stk[si].count + 1);
    }

    method CountLazy(id: nat, si: nat, next: int) returns (st: Status)
      requires Valid() && id < |ranges| && si < top && stk[si].ERepeat?
      modifies this, stk
      ensures Valid() && (stk == old(stk) || fresh(stk))
      ensures Outcome(UIncLazy(Reg(), id, si, next, old(Config())), st, Config(), limit)
    {
      Increment(si);
      var n, body, ok := stk[si].count, stk[si].body, true;
      p := next;
      if n <= ranges[id].upper {
        ok := Push(EInc(si));
        if !ok { return StackLimit; }
        if n < ranges[id].upper {
          if n >= ranges[id].lower {
            ok := Push(EChoice(KAlt, body, s, prev, keep));
            if !ok { return StackLimit; }
          } else {
            p := body;
          }
        }
      }
      st := Going;
    }

    /** OP_NULL_CHECK_END and OP_NULL_CHECK_END_MEMST. */
    method ExecNullEnd(i: Instr, id: nat, mem: bool, next: int) returns (st: Status)
      requires CanExec(i, next) && UExec(Reg(), text, i, next, Config()) == UNullEnd(Reg(), id, mem, next, Config())
      modifies this, stk, ms, me
      ensures Valid() && stk == old(stk) && st == Going
      ensures Outcome(UExec(Reg(), text, i, next, old(Config())), st, Config(), limit)
    {
      hide UBacktrack, LiveArrays, UExec, Sound, MemScan, FindNull, Fetch;
      st := Going;
      var k := GetNull(id);
      assert stk[k] == stk[..top][k];
      var isnull := 0;
      if stk[k].pos == s {
        isnull := 1;
        if mem { isnull := ScanMem(k); }
      }
      if isnull == 0 {
        p := next;
      } else if isnull == -1 {
        Fail();
      } else {
        var i := Decode(next);
        p := next + Size(i.value);
      }
    }

    /** The instruction at an address of the code, or at the static OP_FINISH. */
    method Decode(at: int) returns (i: Option<Instr>)
      ensures i == FetchAt(Reg(), at)
    {
      i := if at == FINISH then Some(Finish) else Fetch(code, at);
    }

    method ExecPopBracket(i: Instr, kind: Kind, next: int) returns (st: Status)
      requires CanExec(i, next) && ((i.PopPos? && kind.KPos?) || (i.PopStopBt? && kind.KStop?))
      modifies this, stk
      ensures Valid() && stk == old(stk) && st == Going
      ensures Outcome(UExec(Reg(), text, i, next, old(Config())), st, Config(), limit)
    {
      hide Sound, LiveArrays, VoidTo, FindChoice;
      ghost var was := stk[..top];
      var at, back := s, prev;
      var e := VoidEnd(kind);
      if i.PopPos? { at, back := e.s, e.prev; }
      p, s, prev := next, at, back;
      st := Going;
    }

    /** OP_POP. */
    method ExecPop(next: int)
      requires CanExec(Pop, next)
      modifies this
      ensures Valid() && stk == old(stk) && URun(Config()) == UExec(Reg(), text, Pop, next, old(Config()))
    {
      hide Sound, LiveArrays;
      top := top - 1;
      p := next;
      assert stk[..top] == old(stk[..top])[..top];
    }

    /** OP_NULL_CHECK_START. */
    method ExecNullStart(id: nat, next: int) returns (st: Status)
      requires CanExec(NullCheckStart(id), next)
      modifies this, stk
      ensures Valid() && (stk == old(stk) || fresh(stk))
      ensures Outcome(UExec(Reg(), text, NullCheckStart(id), next, old(Config())), st, Config(), limit)
    {
      hide Sound, LiveArrays;
      var ok := Push(ENull(id, s));
      if !ok { return StackLimit; }
      p := next;
      st := Going;
    }

    /** The switch of the opcode loop. */
    method Execute(i: Instr, next: int) returns (st: Status)
      requires CanExec(i, next)
      modifies this, stk, ms, me, rep
      ensures Valid() && (stk == old(stk) || fresh(stk))
      ensures Outcome(UExec(Reg(), text, i, next, old(Config())), st, Config(), limit)
    {
      hide Sound, LiveArrays, UBacktrack, UFailTo, UStar, UBackref, URepeat, UInc, UIncLazy, UNullEnd, FindRepeat;
      hide FindChoice, VoidTo, UAnchor;
      if i.PushPos? || i.PushStopBt? || i.Push? || i.PushPosNot? || i.PushOrJumpExact1? || i.PushIfPeekNext? {
        st := ExecuteChoice(i, next);
      } else if IsScanOp(i) {
        st := ExecuteScan(i, next);
      } else if i.PopPos? || i.PopStopBt? || i.LookBehind? || i.PushLookBehindNot? || i.FailPos?
                || i.FailLookBehindNot? {
        st := ExecuteLook(i, next);
      } else {
        st := Going;
        match i
        case Finish => st := NoMatch;
        case End => st := Found;
        case Exact(_) => st := ExecChar(i, next);
        case CClassOp(_, _) => st := ExecChar(i, next);
        case AnyChar(_) => st := ExecChar(i, next);
        case BackrefOp(num) => st := ExecBackref(num, next);
        case MemStart(num, push) => st := ExecMemStart(num, push, next);
        case MemEnd(num, push) => st := ExecMemEnd(num, push, next);
        case KeepOp => p, keep := next, s;
        case Fail => Fail();
        case Jump(addr) => p := next + addr;
        case Pop => ExecPop(next);
        case Repeat(greedy, id, addr) => st := ExecRepeat(greedy, id, addr, next);
        case RepeatInc(greedy, sg, id) => st := ExecRepeatInc(greedy, sg, id, next);
        case NullCheckStart(id) => st := ExecNullStart(id, next);
        case NullCheckEnd(id) => st := ExecNullEnd(i, id, false, next);
        case NullCheckEndMemst(id) => st := ExecNullEnd(i, id, true, next);
      }
    }

    method ExecuteLook(i: Instr, next: int) returns (st: Status)
      requires CanExec(i, next)
      requires i.PopPos? || i.PopStopBt? || i.LookBehind? || i.PushLookBehindNot? || i.FailPos? || i.FailLookBehindNot?
      modifies this, stk, ms, me
      ensures Valid() && (stk == old(stk) || fresh(stk))
      ensures Outcome(UExec(Reg(), text, i, next, old(Config())), st, Config(), limit)
    {
      hide Sound, LiveArrays, UBacktrack, UFailTo, FindChoice, VoidTo;
      st := Going;
      match i
      case PopPos => st := ExecPopBracket(i, KPos, next);
      case PopStopBt => st := ExecPopBracket(i, KStop, next);
      case LookBehind(_) => st := ExecBehind(i, next);
      case PushLookBehindNot(_, _) => st := ExecBehindNot(i, next);
      case FailPos => FailTo(KPosNot);
      case FailLookBehindNot => FailTo(KBehindNot);
    }

    method ExecuteChoice(i: Instr, next: int) returns (st: Status)
      requires CanExec(i, next)
      requires i.PushPos? || i.PushStopBt? || i.Push? || i.PushPosNot? || i.PushOrJumpExact1? || i.PushIfPeekNext?
      modifies this, stk
      ensures Valid() && (stk == old(stk) || fresh(stk))
      ensures Outcome(UExec(Reg(), text, i, next, old(Config())), st, Config(), limit)
    {
      hide Sound, LiveArrays;
      if i.PushPos? {
        st := ExecPush(i, KPos, next, next, next);
      } else if i.PushStopBt? {
        st := ExecPush(i, KStop, next, next, next);
      } else if i.PushPosNot? {
        st := ExecPush(i, KPosNot, next + i.addr, next, next);
      } else if i.PushOrJumpExact1? && !(text.At(s) == i.c && s < text.End()) {
        p, st := next + i.addr, Going;
      } else if i.PushIfPeekNext? && text.At(s) != i.c {
        p, st := next, Going;
      } else {
        st := ExecPush(i, KAlt, next + i.addr, next, next);
      }
    }

    method ExecuteScan(i: Instr, next: int) returns (st: Status)
      requires CanExec(i, next) && IsScanOp(i)
      modifies this, stk, ms, me
      ensures Valid() && (stk == old(stk) || fresh(stk))
      ensures Outcome(UExec(Reg(), text, i, next, old(Config())), st, Config(), limit)
    {
      hide Sound, LiveArrays, UStar, UAnchor;
      match i
      case AnyCharStarOp(ml) => st := ExecStar(ml, None, next);
      case AnyCharStarPeek(ml, c) => st := ExecStar(ml, Some(c), next);
      case BeginBufOp => st := ExecAnchor(i, Tree.BeginBuf, next);
      case EndBufOp => st := ExecAnchor(i, Tree.EndBuf, next);
      case BeginLineOp => st := ExecAnchor(i, Tree.BeginLine, next);
      case EndLineOp => st := ExecAnchor(i, Tree.EndLine, next);
      case SemiEndBufOp => st := ExecAnchor(i, Tree.SemiEndBuf, next);
      case BeginPositionOp => st := ExecAnchor(i, Tree.BeginPosition, next);
      case BeginPosOrLineOp => st := ExecAnchor(i, Tree.AnyCharStar, next);
    }

    /** One turn of the opcode loop. */
    method Turn() returns (st: Status)
      requires Healthy() && LiveArrays(Reg(), Memory()) && !UStep(Reg(), text, URun(Config())).UBad?
      modifies this, stk, ms, me, rep
      ensures Valid() && (stk == old(stk) || fresh(stk))
      ensures Outcome(UStep(Reg(), text, URun(old(Config()))), st, Config(), limit)
    {
      hide Sound, LiveArrays, UExec, Fetch;
      var i := Decode(p);
      st := Execute(i.value, p + Size(i.value));
    }

    /** The captures at OP_END: region->beg and region->end of every group, -1 where it did not take part. */
    method Report() returns (beg: array<int>, end: array<int>)
      requires Valid() && LiveArrays(Reg(), Memory())
      ensures fresh(beg) && fresh(end) && beg.Length == end.Length == numMem + 1
      ensures beg[0] == Min(keep, s) && end[0] == s
      ensures forall g: nat :: 1 <= g <= numMem ==> (beg[g], end[g]) == Reported(Reg(), Memory(), g)
    {
      hide IsStart, IsEnd;
      beg := new int[numMem + 1](_ => INVALID);
      end := new int[numMem + 1](_ => INVALID);
      beg[0], end[0] := if keep > s then s else keep, s;
      var g := 1;
      while g <= numMem
        invariant 1 <= g <= numMem + 1 && beg[0] == Min(keep, s) && end[0] == s
        invariant forall h: nat :: 1 <= h < g ==> (beg[h], end[h]) == Reported(Reg(), Memory(), h)
        invariant forall h: nat :: g <= h <= numMem ==> beg[h] == INVALID && end[h] == INVALID
      {
        if me[g] != INVALID {
          LiveIndex(stk[..top], ms[g], me[g], g);
          if g in btStart {
            assert IsStart(stk[..top], Slot(ms[..], g), g);
            beg[g] := stk[ms[g]].pos;
          } else {
            beg[g] := ms[g];
          }
          if g in btEnd {
            assert IsEnd(stk[..top], Slot(me[..], g), g);
            end[g] := stk[me[g]].pos;
          } else {
            end[g] := me[g];
          }
        }
        g := g + 1;
      }
    }
  }
}
