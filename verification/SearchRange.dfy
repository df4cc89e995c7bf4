/** The search anchors \A, \G, \z and \Z narrow the range of starts before the search (regexec.c:4005-4098).  No match
    starts outside what is left. */
module SearchRange {
  import opened Common
  import opened Tree
  import opened Semantics
  import opened Lengths
  import opened LengthFacts
  import opened Correctness
  import opened Engine
  import opened Optimizer
  import opened OptimizerFacts
  import opened AnchorFacts
  import opened Scan
  import CodeFits
  import M = Matches

  /** What is left of the range of starts. */
  datatype Starts = Nowhere | From(start: nat, range: nat)

  /** The label end_buf: the match ends between minEnd and maxEnd, so its length limits where it starts. */
  function NarrowEnd(info: SearchInfo, t: Subject, start: nat, minEnd: nat, maxEnd: nat): Starts
    requires start <= minEnd <= maxEnd == t.End() && 0 < t.End()
  {
    if maxEnd < info.ends.min then Nowhere
    else if t.End() > start then
      var s := if minEnd - start > info.ends.max then minEnd - info.ends.max else start;
      var r := if maxEnd - (t.End() - 1) < info.ends.min then maxEnd - info.ends.min + 1 else t.End();
      if s > r then Nowhere else From(s, r)
    else if 0 < info.ends.min then Nowhere
    else From(start, t.End())
  }

  /** A search from start to the end of a text that is not empty. */
  function Narrow(info: SearchInfo, t: Subject, start: nat): Starts
    requires start <= t.End() && 0 < t.End()
  {
    if BeginPositionBit in info.anchor then From(start, if t.End() > start then start + 1 else start)
    else if BeginBufBit in info.anchor then if start == 0 then From(0, 1) else Nowhere
    else if EndBufBit in info.anchor then NarrowEnd(info, t, start, t.End(), t.End())
    else if SemiEndBufBit in info.anchor then
      if !t.IsNewline(t.End() - 1) then NarrowEnd(info, t, start, t.End(), t.End())
      else if 1 < t.End() && start < t.End() then NarrowEnd(info, t, start, t.End() - 1, t.End())
      else From(start, t.End())
    else if AnyCharStarMlBit in info.anchor && LookBehindBit !in info.anchor then
      From(start, if t.End() > start then start + 1 else start)
    else From(start, t.End())
  }

  /** q is one of the starts left: below the range, or the end of a text that is searched to its end. */
  predicate Within(w: Starts, t: Subject, q: nat) {
    w.From? && w.start <= q && (q < w.range || q == w.range == t.End())
  }

  /** What the regex keeps of the record. */
  lemma ChosenAnchors(opt: Info)
    ensures var h := ChooseHint(opt);
      (BeginBufBit in h.anchor ==> BeginBufBit in opt.anc.left)
      && (BeginPositionBit in h.anchor ==> BeginPositionBit in opt.anc.left)
      && (EndBufBit in h.anchor ==> EndBufBit in opt.anc.right && h.ends == opt.len)
      && (SemiEndBufBit in h.anchor ==> SemiEndBufBit in opt.anc.right && h.ends == opt.len)
  {
    hide SelectExact, CompareExactMap, Threshold, SubAnchors;
  }

  /** Where a match may start and end, as the optimizer found out. */
  lemma MatchAnchored(n: Node, e: Env, t: Subject, q: nat) returns (end: nat)
    requires Compilable(n, e) && NoAhead(n) && q <= t.End() < TWO_63 && MatchesAt(n, t, q)
    ensures var h := HintOf(n, e);
      q <= end <= t.End()
      && (BeginBufBit in h.anchor ==> q == 0) && (BeginPositionBit in h.anchor ==> q == t.gpos)
      && (EndBufBit in h.anchor ==> end == t.End() && In(h.ends, end - q))
      && (SemiEndBufBit in h.anchor ==>
            In(h.ends, end - q) && (end == t.End() || (end + 1 == t.End() && t.IsNewline(end))))
  {
    hide *;
    var x := Initial(q, q - 1);
    var y := FirstMatch(n, e, t, q);
    var opt := OptimizeLeft(n, e, Refs(n), Window(0, 0));
    MatchFacts(n, t, e, x, y);
    InText(t, e, y);
    Anchored(n, t, e, Refs(n), Window(0, 0), q, x, y);
    LengthIn(n, t, e, Refs(n), Window(0, 0), q, x, y);
    Forwards(n, e, x, y);
    ChosenAnchors(opt);
    AnchorsThere(t, opt.anc, q, y.s);
    HintIs(n, e);
    end := y.s;
  }

  lemma FirstMatch(n: Node, e: Env, t: Subject, q: nat) returns (y: St)
    requires Compilable(n, e) && q <= t.End() < TWO_63 && MatchesAt(n, t, q)
    ensures var x := Initial(q, q - 1);
      WellFormed(n, e) && Ok(t, e, x) && NoneOpen(Groups(n), x) && M.CanMatch(n, t, x, y)
      && x.s == q && In(Window(0, 0), x.s - q)
  {
    hide Meaning, M.CanMatch, WellFormed, RepeatMarks, CodeFits.Fits, Groups;
    var x := Initial(q, q - 1);
    y := Meaning(n, t, x)[0];
    WellFormedProper(n, e);
    M.Sound(n, t, x, y);
  }

  lemma Forwards(n: Node, e: Env, x: St, y: St)
    requires LengthOk(n, e, x, y)
    ensures x.s <= y.s
  {
    hide MinLen, MaxLen, CharLen;
  }

  lemma AnchorsThere(t: Subject, a: Anchors, s: int, end: int)
    requires AnchorsOk(t, a, s, end)
    ensures (BeginBufBit in a.left ==> s == 0) && (BeginPositionBit in a.left ==> s == t.gpos)
    ensures EndBufBit in a.right ==> end == t.End()
    ensures SemiEndBufBit in a.right ==> end == t.End() || (end + 1 == t.End() && t.IsNewline(end))
  {
  }

  lemma HintIs(n: Node, e: Env)
    requires WellFormed(n, e) && NoAhead(n)
    ensures HintOf(n, e) == ChooseHint(OptimizeLeft(n, e, Refs(n), Window(0, 0)))
  {
    hide OptimizeLeft, ChooseHint;
  }

  lemma NarrowEndKeeps(info: SearchInfo, t: Subject, start: nat, minEnd: nat, maxEnd: nat, q: nat, end: nat)
    requires start <= minEnd <= maxEnd == t.End() && 0 < t.End() < TWO_63
    requires start <= q <= end && minEnd <= end <= maxEnd && In(info.ends, end - q)
    ensures Within(NarrowEnd(info, t, start, minEnd, maxEnd), t, q)
  {
  }

  /** What the anchors and the length of a match from q to end say keeps q in the range. */
  lemma NarrowWithin(h: SearchInfo, t: Subject, start: nat, q: nat, end: nat)
    requires start <= q <= end <= t.End() && 0 < t.End() < TWO_63 && AnyCharStarMlBit !in h.anchor
    requires (BeginBufBit in h.anchor ==> q == 0) && (BeginPositionBit in h.anchor ==> q == start)
    requires EndBufBit in h.anchor ==> end == t.End() && In(h.ends, end - q)
    requires SemiEndBufBit in h.anchor ==>
      In(h.ends, end - q) && (end == t.End() || (end + 1 == t.End() && t.IsNewline(end)))
    ensures Within(Narrow(h, t, start), t, q)
  {
    if EndBufBit in h.anchor || SemiEndBufBit in h.anchor {
      hide In, Within, NarrowEnd;
      if EndBufBit in h.anchor || !t.IsNewline(t.End() - 1) {
        NarrowEndKeeps(h, t, start, t.End(), t.End(), q, end);
      } else if 1 < t.End() && start < t.End() {
        NarrowEndKeeps(h, t, start, t.End() - 1, t.End(), q, end);
      }
    }
  }

  /** No match starts outside what the search anchors leave. */
  lemma NarrowKeeps(n: Node, e: Env, t: Subject, start: nat, q: nat)
    requires Compilable(n, e) && NoAhead(n) && start <= q <= t.End() && 0 < t.End() < TWO_63 && MatchesAt(n, t, q)
    requires var h := HintOf(n, e);
      (BeginPositionBit in h.anchor ==> t.gpos == start) && AnyCharStarMlBit !in h.anchor
    ensures Within(Narrow(HintOf(n, e), t, start), t, q)
  {
    assert WellFormed(n, e);
    hide *;
    var end := MatchAnchored(n, e, t, q);
    NarrowWithin(HintOf(n, e), t, start, q, end);
  }
}
