/** The forward search (regexec.c:3566-3579, 3666-3794, 4076-4212): the windows that forward_search_range proposes skip
    no match, so the accelerated search finds what trying every position in turn finds. */
module Search {
  import opened Common
  import opened Tree
  import opened Semantics
  import opened Lengths
  import opened Correctness
  import opened Optimizer
  import opened OptimizerFacts
  import opened QuickSearch
  import opened Engine
  import opened Scan
  import opened LineStarts
  import opened SearchRange
  import M = Matches
  import MatchAt

  /** A compiled pattern with what the optimizer found out about it. */
  datatype Pattern = Pattern(reg: Regex, info: SearchInfo, skip: seq<nat>)

  ghost predicate Ready(p: Pattern, n: Node, e: Env) {
    Compilable(n, e) && NoAhead(n) && Compiles(p.reg, n, e) && p.info == HintOf(n, e)
    && (p.info.hint.ExactHint? && |p.info.hint.s| >= 2 ==> SkipTable(p.info.hint.s, p.skip))
  }

  function OneByte(p: int): nat { 1 }

  /** onig_compile: the code, the optimization and the skip table. */
  method Build(n: Node, e: Env) returns (p: Pattern)
    requires Compilable(n, e) && NoAhead(n)
    ensures Ready(p, n, e)
  {
    hide OptimizeLeft, RepeatMarks, CodeFits.Fits, Refs, ChooseHint;
    var reg := Compile(n, e, e.numMem, e.btStart, e.btEnd);
    var opt := OptimizeLeft(n, e, Refs(n), Window(0, 0));
    var info := ChooseHint(opt);
    var skip := [];
    if info.hint.ExactHint? && |info.hint.s| >= 2 {
      ExactFits(n, e);
      var table := new nat[CHAR_TABLE_SIZE];
      SetSkip(info.hint.s, OneByte, table);
      SkipPositive(info.hint.s);
      skip := table[..];
      assert SkipTable(info.hint.s, skip) by { TableRight(info.hint.s, skip); }
    }
    p := Pattern(reg, info, skip);
  }

  lemma TableRight(target: seq<byte>, skip: seq<nat>)
    requires 0 < |target| != 255 && |skip| == CHAR_TABLE_SIZE
    requires forall c :: 0 <= c < CHAR_TABLE_SIZE ==> skip[c] == Stored(target, SkipFor(target, c))
    ensures SkipTable(target, skip)
  {
    SkipPositive(target);
    forall c | 0 <= c < CHAR_TABLE_SIZE ensures skip[c] == SkipFor(target, c) {
      assert RightEntry(target, c);
    }
  }

  // ---------------------------------------------------------------- looking for the hint

  /** No hit in [from, to). */
  ghost predicate NoHit(t: Subject, h: Hint, from: int, to: int) {
    forall q :: from <= q < to ==> !Hit(t, h, q)
  }

  lemma HitThere(t: Subject, h: Hint, from: int, to: int, hit: int)
    requires from <= hit < to && Hit(t, h, hit)
    ensures !NoHit(t, h, from, to)
  {
  }

  /** map_search_se. */
  method MapSearch(t: Subject, bytes: set<byte>, text: nat, range: nat) returns (p: int)
    requires range <= t.End()
    ensures p == -1 ==> NoHit(t, MapHint(bytes), text, range)
    ensures p != -1 ==> text <= p < range && Hit(t, MapHint(bytes), p) && NoHit(t, MapHint(bytes), text, p)
  {
    var s := text;
    while s < range
      invariant text <= s && NoHit(t, MapHint(bytes), text, s)
    {
      if t.data[s] in bytes { return s; }
      s := s + 1;
    }
    p := -1;
  }

  lemma {:induction false} OneByteHeads(s: nat, p: nat)
    requires s <= p
    ensures HeadFrom(OneByte, s, p)
    decreases p - s
  {
    if s < p { OneByteHeads(s + 1, p); }
  }

  /** The first head with an occurrence is the first hit. */
  lemma FirstHeadHits(t: Subject, target: seq<byte>, text: nat, range: nat)
    requires 0 < |target| && range <= t.End()
    ensures var p := FirstHead(t.data, target, OneByte, text, LastStart(t.data, target, range));
      if p == -1 then NoHit(t, ExactHint(target), text, range)
      else text <= p < range && Hit(t, ExactHint(target), p) && NoHit(t, ExactHint(target), text, p)
  {
    hide FirstHead, HeadFrom;
    var end := LastStart(t.data, target, range);
    var p := FirstHead(t.data, target, OneByte, text, end);
    forall q | text <= q < range && Hit(t, ExactHint(target), q) ensures p != -1 && p <= q {
      OneByteHeads(text, q);
      FirstHeadIsFirst(t.data, target, OneByte, text, end, q);
    }
  }

  /** The search routine set_optimize_exact_info chose. */
  method HintSearch(p: Pattern, ghost n: Node, ghost e: Env, t: Subject, text: nat, range: nat) returns (r: int)
    requires Ready(p, n, e) && !p.info.hint.NoHint? && range <= t.End()
    ensures r == -1 ==> NoHit(t, p.info.hint, text, range)
    ensures r != -1 ==> text <= r < range && Hit(t, p.info.hint, r) && NoHit(t, p.info.hint, text, r)
  {
    hide WellFormed, RepeatMarks, CodeFits.Fits, HintOf, NoAhead, CodeOf, NoHit, FirstHead, SkipTable;
    match p.info.hint
    case ExactHint(s) =>
      ExactFits(n, e);
      FirstHeadHits(t, s, text, range);
      if |s| >= 2 { r := QuickSearchBytes(t.data, s, OneByte, p.skip, text, range); }
      else { r := SlowSearch(t.data, s, OneByte, text, range); }
    case MapHint(bytes) => r := MapSearch(t, bytes, text, range);
  }

  // ---------------------------------------------------------------- skipping

  /** A match at q contains a hit within the window. */
  lemma MatchHasHit(n: Node, e: Env, t: Subject, q: nat) returns (p: int)
    requires Compilable(n, e) && NoAhead(n) && q <= t.End() < TWO_63
    requires MatchesAt(n, t, q) && !HintOf(n, e).hint.NoHint?
    ensures var h := HintOf(n, e); q + h.dmin <= p <= q + h.dmax && Hit(t, h.hint, p) && p < t.End()
    ensures HintOf(n, e).hint.ExactHint? ==> p + |HintOf(n, e).hint.s| <= t.End()
  {
    hide Meaning, M.CanMatch, WellFormed, RepeatMarks, CodeFits.Fits, OptimizeLeft, ChooseHint;
    var x := Initial(q, q - 1);
    var y := Meaning(n, t, x)[0];
    WellFormedProper(n, e);
    M.Sound(n, t, x, y);
    HintHolds(n, t, e, x, y);
    var h := HintOf(n, e);
    p :| In(Window(h.dmin, h.dmax), p - x.s) && Hit(t, h.hint, p);
  }

  lemma ExactFits(n: Node, e: Env)
    requires WellFormed(n, e) && NoAhead(n)
    ensures HintOf(n, e).hint.ExactHint? ==> 0 < |HintOf(n, e).hint.s| <= OPT_EXACT_MAXLEN
  {
    hide OptimizeLeft, WellFormed, NoAhead, ChooseHint;
    var opt := OptimizeLeft(n, e, Refs(n), Window(0, 0));
    if !ChooseHint(opt).hint.NoHint? { ChosenIs(opt); }
  }

  /** forward_search_range for single-byte text and no line anchor next to the hint: the next hit and the starts it
      allows. */
  method ForwardSearchRange(p: Pattern, ghost n: Node, ghost e: Env, t: Subject, s: nat, range: nat)
    returns (found: bool, low: int, high: int, lowPrev: int, ghost hit: int)
    requires Ready(p, n, e) && !p.info.hint.NoHint? && p.info.subAnchor == {} && range <= t.End()
    ensures !found ==> NoHit(t, p.info.hint, s + p.info.dmin, range)
    ensures found ==>
        s + p.info.dmin <= hit < range && Hit(t, p.info.hint, hit) && NoHit(t, p.info.hint, s + p.info.dmin, hit)
    ensures found ==> high == hit - p.info.dmin
    ensures found && p.info.dmax != INFINITE_DISTANCE ==> low == hit - p.info.dmax && (s < low ==> lowPrev == low - 1)
  {
    hide Ready, Hit, NoHit;
    low, high, lowPrev, hit := -1, -1, -1, -1;
    var text := s;
    if p.info.dmin > 0 { text := text + p.info.dmin; }
    var r := HintSearch(p, n, e, t, text, range);
    found := r != -1;
    if found {
      hit := r;
      if p.info.dmax == 0 {
        low := r;
        lowPrev := if r > 0 then r - 1 else -1;
      } else if p.info.dmax != INFINITE_DISTANCE {
        low := r - p.info.dmax;
        lowPrev := if low > 0 then low - 1 else -1;
      }
      high := r - p.info.dmin;
    }
  }

  /** No match starts before the window of the next hit. */
  lemma WindowSkips(p: Pattern, n: Node, e: Env, t: Subject, s: nat, hit: int, to: nat)
    requires Ready(p, n, e) && !p.info.hint.NoHint? && t.End() < TWO_63
    requires NoHit(t, p.info.hint, s + p.info.dmin, hit) && (hit < t.End() ==> to <= hit - p.info.dmax)
    requires to <= t.End() + 1 && hit <= t.End()
    ensures NoMatchIn(n, t, s, to)
  {
    hide Compilable, HintOf, NoAhead, MatchesAt, Hit;
    forall q: nat | s <= q < to ensures !MatchesAt(n, t, q) {
      if MatchesAt(n, t, q) {
        var h := MatchHasHit(n, e, t, q);
      }
    }
  }

  /** The text is too short for the hint. */
  lemma TooShort(p: Pattern, n: Node, e: Env, t: Subject, s: nat)
    requires Ready(p, n, e) && t.End() < TWO_63 && s <= t.End() && t.End() - s < p.info.thresholdLen
    ensures NoMatchIn(n, t, s, t.End() + 1)
  {
    ThresholdBound(n, e);
    hide Compilable, HintOf, NoAhead, MatchesAt, Hit;
    forall q: nat | s <= q < t.End() + 1 ensures !MatchesAt(n, t, q) {
      if MatchesAt(n, t, q) { var h := MatchHasHit(n, e, t, q); }
    }
  }

  /** threshold_len never exceeds the distance it stands for, whatever the cast to int did. */
  lemma ThresholdBound(n: Node, e: Env)
    requires WellFormed(n, e) && NoAhead(n)
    ensures var h := HintOf(n, e);
      (h.hint.NoHint? ==> h.thresholdLen == 0) && (h.hint.MapHint? ==> h.thresholdLen <= h.dmin + 1)
      && (h.hint.ExactHint? ==> h.thresholdLen <= h.dmin + |h.hint.s|)
  {
    hide OptimizeLeft, WellFormed, NoAhead, CompareExactMap, SubAnchors, SelectExact;
  }

  /** What match_at reports at s is the most preferred way to match there. */
  ghost predicate Finds(n: Node, e: Env, t: Subject, s: nat, r: Result, beg: array<int>, end: array<int>)
    requires r.Match?
    reads beg, end
  {
    MatchesAt(n, t, s)
    && var y := Meaning(n, t, Initial(s, s - 1))[0];
      r == Match(Min(y.keep, y.s), y.s) && RegionOf(n, e, y, beg, end)
  }

  /** What a search has to return: the first position where match_at finds something, and what it finds there. */
  ghost predicate Answers(n: Node, e: Env, t: Subject, start: nat, r: Result, at: int, beg: array<int>, end: array<int>)
    reads beg, end
  {
    match r
    case StackLimitOver => true
    case NoMatch => FirstStart(n, t, start) == -1
    case Match(_, _) => at == FirstStart(n, t, start) && at != -1 && Finds(n, e, t, at, r, beg, end)
  }

  /** Some attempt from `start` on needs a stack of at least `limit` entries. */
  ghost predicate TooDeep(n: Node, e: Env, t: Subject, start: nat, limit: nat) {
    limit != 0
    && exists at: nat, tg: Subject ::
        start <= at <= t.End() && tg == t.(gpos := tg.gpos) && DeepFrom(n, e, tg, at, limit)
  }

  ghost predicate DeepFrom(n: Node, e: Env, t: Subject, at: nat, limit: nat) {
    Overflows(n, e, t, at, at - 1, limit)
  }

  lemma DeepAt(n: Node, e: Env, t: Subject, tg: Subject, start: nat, at: nat, limit: nat)
    requires limit != 0 && start <= at <= t.End() && tg == t.(gpos := tg.gpos) && DeepFrom(n, e, tg, at, limit)
    ensures TooDeep(n, e, t, start, limit)
  {
  }

  /** MATCH_AND_RETURN_CHECK. */
  method TryAt(p: Pattern, ghost n: Node, ghost e: Env, t: Subject, s: nat, prev: int, limit: nat)
    returns (r: Result, beg: array<int>, end: array<int>)
    requires Ready(p, n, e) && s <= t.End() < TWO_63 && prev == s - 1
    requires limit == 0 || 2 * MatchAt.INIT_MATCH_STACK_SIZE <= limit
    ensures r.StackLimitOver? ==> limit != 0 && DeepFrom(n, e, t, s, limit)
    ensures r.NoMatch? ==> !MatchesAt(n, t, s)
    ensures r.Match? ==> MatchesAt(n, t, s) && Finds(n, e, t, s, r, beg, end)
  {
    hide Compilable, HintOf, NoAhead, Compiles, Meaning, RegionOf, Overflows;
    r, beg, end := MatchAtPosition(p.reg, n, e, t, s, prev, limit);
  }

  /** The search goes line by line: the pattern begins with `.*` as far as the optimizer can see, and its hint, which
      may be anywhere behind the start, is found. */
  ghost predicate LineByLine(info: SearchInfo, t: Subject, start: nat) {
    info.hint != NoHint && info.thresholdLen <= t.End() - start && info.dmax == INFINITE_DISTANCE
    && AnyCharStarBit in info.anchor && 0 < t.End() && !NoHit(t, info.hint, start + info.dmin, t.End())
    && start <= t.End() && Narrow(info, t, start).From?
  }

  /** The search goes forward: the range the search anchors leave is not empty, or they leave none, or the text is
      empty. */
  predicate RunsForward(info: SearchInfo, t: Subject, start: nat) {
    if t.End() == 0 then start == 0
    else start <= t.End() && match Narrow(info, t, start) case Nowhere => true case From(s, r) => s < r
  }

  /** The search anchors the model follows: all but that of multi-line `.*`; that of `.*` not with \G or a look-behind,
      and with \z or \Z only where the length is not bounded. */
  predicate Followed(info: SearchInfo) {
    AnyCharStarMlBit !in info.anchor
    && (AnyCharStarBit in info.anchor ==>
          BeginPositionBit !in info.anchor && LookBehindBit !in info.anchor
          && (EndBufBit in info.anchor || SemiEndBufBit in info.anchor ==> info.ends.max == INFINITE_DISTANCE))
  }

  /** No match starts behind the range. */
  ghost predicate Confined(n: Node, t: Subject, range: nat) {
    range == t.End() || NoMatchIn(n, t, range, t.End() + 1)
  }

  lemma NarrowBounds(info: SearchInfo, t: Subject, start: nat)
    requires start <= t.End() && 0 < t.End() && Narrow(info, t, start).From?
    ensures var w := Narrow(info, t, start); start <= w.start <= w.range <= t.End()
  {
  }

  /** What the search anchors leave out holds no match. */
  lemma RangeConfined(p: Pattern, n: Node, e: Env, t: Subject, start: nat)
    requires Ready(p, n, e) && start <= t.End() && 0 < t.End() < TWO_63
    requires AnyCharStarMlBit !in p.info.anchor && (BeginPositionBit in p.info.anchor ==> t.gpos == start)
    ensures match Narrow(p.info, t, start)
      case Nowhere => NoMatchIn(n, t, start, t.End() + 1)
      case From(s, r) => NoMatchIn(n, t, start, s) && Confined(n, t, r)
  {
    if Narrow(p.info, t, start).From? { NarrowBounds(p.info, t, start); }
    hide *;
    forall q: nat | start <= q <= t.End() && MatchesAt(n, t, q) ensures Within(Narrow(p.info, t, start), t, q) {
      StartWithin(p, n, e, t, start, q);
    }
    OnlyWithin(n, t, start, Narrow(p.info, t, start));
  }

  lemma StartWithin(p: Pattern, n: Node, e: Env, t: Subject, start: nat, q: nat)
    requires Ready(p, n, e) && start <= q <= t.End() && 0 < t.End() < TWO_63 && MatchesAt(n, t, q)
    requires AnyCharStarMlBit !in p.info.anchor && (BeginPositionBit in p.info.anchor ==> t.gpos == start)
    ensures Within(Narrow(p.info, t, start), t, q)
  {
    hide Compilable, HintOf, NoAhead, MatchesAt, Narrow;
    NarrowKeeps(n, e, t, start, q);
  }

  lemma OnlyWithin(n: Node, t: Subject, start: nat, w: Starts)
    requires w.From? ==> start <= w.start <= w.range <= t.End()
    requires forall q: nat :: start <= q <= t.End() && MatchesAt(n, t, q) ==> Within(w, t, q)
    ensures match w
      case Nowhere => NoMatchIn(n, t, start, t.End() + 1)
      case From(s, r) => NoMatchIn(n, t, start, s) && Confined(n, t, r)
  {
    hide MatchesAt;
  }

  /** The same with \G moved along, for patterns that do not begin with it. */
  lemma LinesConfined(p: Pattern, n: Node, e: Env, t: Subject, start: nat)
    requires Ready(p, n, e) && start <= t.End() && 0 < t.End() < TWO_63
    requires Followed(p.info) && AnyCharStarBit in p.info.anchor
    ensures match Narrow(p.info, t, start)
      case Nowhere => NoLineFrom(n, t, start)
      case From(s, r) => s == start && (r == t.End() || NoLineFrom(n, t, r))
  {
    StaysAtStart(p.info, t, start);
    if Narrow(p.info, t, start).From? { NarrowBounds(p.info, t, start); }
    hide *;
    forall q: nat | start <= q <= t.End() && MatchesAt(n, t.(gpos := q), q)
      ensures Within(Narrow(p.info, t, start), t, q) {
      LineWithin(p, n, e, t, start, q);
    }
    LinesWithin(n, t, start, Narrow(p.info, t, start));
  }

  lemma LinesWithin(n: Node, t: Subject, start: nat, w: Starts)
    requires w.From? ==> start == w.start <= w.range <= t.End()
    requires forall q: nat :: start <= q <= t.End() && MatchesAt(n, t.(gpos := q), q) ==> Within(w, t, q)
    ensures match w
      case Nowhere => NoLineFrom(n, t, start)
      case From(s, r) => s == start && (r == t.End() || NoLineFrom(n, t, r))
  {
    hide MatchesAt;
  }

  lemma LineWithin(p: Pattern, n: Node, e: Env, t: Subject, start: nat, q: nat)
    requires Ready(p, n, e) && start <= q <= t.End() && 0 < t.End() < TWO_63
    requires Followed(p.info) && AnyCharStarBit in p.info.anchor && MatchesAt(n, t.(gpos := q), q)
    ensures Within(Narrow(p.info, t, start), t, q)
  {
    hide Compilable, HintOf, NoAhead, MatchesAt, Narrow;
    NarrowKeeps(n, e, t.(gpos := q), start, q);
    SameRange(p.info, t, q, start);
  }

  lemma SameRange(info: SearchInfo, t: Subject, g: nat, start: nat)
    requires start <= t.End() && 0 < t.End()
    ensures Narrow(info, t.(gpos := g), start) == Narrow(info, t, start)
  {
  }

  lemma StaysAtStart(info: SearchInfo, t: Subject, start: nat)
    requires start <= t.End() && 0 < t.End() < TWO_63 && Followed(info) && AnyCharStarBit in info.anchor
    ensures var w := Narrow(info, t, start); w.From? ==> w.start == start
  {
  }

  /** No line start from s on has a match. */
  ghost predicate NoLineFrom(n: Node, t: Subject, s: nat) {
    forall q: nat :: s <= q <= t.End() ==> !MatchesAt(n, t.(gpos := q), q)
  }

  lemma {:induction false} NoneFurther(n: Node, t: Subject, s: nat)
    requires s < t.End() && NoLineFrom(n, t, s)
    ensures FirstLine(n, t, s) == -1
    decreases t.End() - s
  {
    hide MatchesAt;
    if NextLine(t, s) < t.End() { NoneFurther(n, t, NextLine(t, s)); }
  }

  /** What the search line by line returns; \G stands where the match was found. */
  ghost predicate LineAnswers(n: Node, e: Env, t: Subject, start: nat, r: Result, at: int, beg: array<int>,
      end: array<int>)
    requires start < t.End()
    reads beg, end
  {
    match r
    case StackLimitOver => true
    case NoMatch => FirstLine(n, t, start) == -1
    case Match(_, _) => at == FirstLine(n, t, start) && at >= start && Finds(n, e, t.(gpos := at), at, r, beg, end)
  }

  /** For a tree that begins with `.*` that is the first match. */
  lemma LinesAnswer(p: Pattern, n: Node, e: Env, t: Subject, start: nat, r: Result, at: int, beg: array<int>,
      end: array<int>)
    requires Ready(p, n, e) && !p.info.hint.NoHint? && start < t.End() < TWO_63
    requires StarLed(n) && GposInFront(n) && t.gpos == start && LineAnswers(n, e, t, start, r, at, beg, end)
    ensures Answers(n, e, t, start, r, at, beg, end)
  {
    hide Ready, MatchesAt, FirstStart, FirstLine, StarLed, GposInFront, Meaning, RegionOf;
    WindowsEnd(p, n, e, t, t.End());
    LinesEnough(n, t, start);
    if r.Match? {
      LaterLine(n, t, start);
      SameAtLineStart(n, t, start, at);
    }
  }

  /** onig_search to the end of the text. */
  method ForwardSearch(p: Pattern, ghost n: Node, ghost e: Env, t: Subject, start: nat, limit: nat)
    returns (r: Result, at: int, beg: array<int>, end: array<int>)
    requires Ready(p, n, e) && p.info.subAnchor == {} && Followed(p.info)
    requires RunsForward(p.info, t, start) && t.End() < TWO_63
        && (BeginPositionBit in p.info.anchor ==> t.gpos == start)
    requires limit == 0 || 2 * MatchAt.INIT_MATCH_STACK_SIZE <= limit
    ensures r.StackLimitOver? ==> TooDeep(n, e, t, start, limit)
    ensures if LineByLine(p.info, t, start) then start < t.End() && LineAnswers(n, e, t, start, r, at, beg, end)
            else Answers(n, e, t, start, r, at, beg, end)
  {
    hide Ready, MatchesAt, Hit, NoHit, Finds, TooDeep, DeepFrom, FirstStart, FirstLine, LineAnswers, Narrow, Confined;
    hide NoLineFrom;
    if t.End() == 0 {
      r, at, beg, end := EmptySearch(p, n, e, t, limit);
      return;
    }
    RangeConfined(p, n, e, t, start);
    if AnyCharStarBit in p.info.anchor { LinesConfined(p, n, e, t, start); }
    match Narrow(p.info, t, start) {
      case Nowhere =>
        NoStart(n, t, start);
        return NoMatch, -1, new int[0], new int[0];
      case From(s0, range) =>
        NarrowBounds(p.info, t, start);
        r, at, beg, end := RangeSearch(p, n, e, t, start, s0, range, limit);
    }
  }

  /** The forward search over the starts from s0 up to the range. */
  method RangeSearch(p: Pattern, ghost n: Node, ghost e: Env, t: Subject, ghost start: nat, s0: nat, range: nat,
      limit: nat)
    returns (r: Result, at: int, beg: array<int>, end: array<int>)
    requires Ready(p, n, e) && p.info.subAnchor == {} && start <= s0 < range <= t.End() < TWO_63
    requires NoMatchIn(n, t, start, s0) && Confined(n, t, range)
    requires AnyCharStarBit in p.info.anchor ==> s0 == start && (range == t.End() || NoLineFrom(n, t, range))
    requires Narrow(p.info, t, start).From?
    requires limit == 0 || 2 * MatchAt.INIT_MATCH_STACK_SIZE <= limit
    ensures r.StackLimitOver? ==> TooDeep(n, e, t, start, limit)
    ensures if LineByLine(p.info, t, start) then LineAnswers(n, e, t, start, r, at, beg, end)
            else Answers(n, e, t, start, r, at, beg, end)
  {
    hide Ready, MatchesAt, Hit, NoHit, Finds, TooDeep, DeepFrom, FirstStart, FirstLine, LineAnswers, Narrow, Confined;
    hide NoLineFrom;
    var s, prev := s0, s0 - 1;
    if p.info.hint != NoHint {
      if t.End() - s < p.info.thresholdLen {
        TooShort(p, n, e, t, s);
        NoStart(n, t, start);
        return NoMatch, -1, new int[0], new int[0];
      }
      var schRange := if p.info.dmax == INFINITE_DISTANCE then t.End() else Min(range + p.info.dmax, t.End());
      if p.info.dmax != INFINITE_DISTANCE {
        r, at, beg, end := WindowSearch(p, n, e, t, start, s, range, schRange, limit);
        return;
      }
      var found, low, high, lowPrev, hit := ForwardSearchRange(p, n, e, t, s, schRange);
      if !found {
        WindowSkips(p, n, e, t, s, t.End(), t.End() + 1);
        NoStart(n, t, start);
        return NoMatch, -1, new int[0], new int[0];
      }
      HitThere(t, p.info.hint, s + p.info.dmin, t.End(), hit);
      if AnyCharStarBit in p.info.anchor {
        r, at, beg, end := LineSearch(p, n, e, t, s, range, limit);
        return;
      }
    }
    r, at, beg, end := PlainSearch(p, n, e, t, start, s, prev, range, limit);
  }

  /** The loop without a hint, or behind the check for one. */
  method PlainSearch(p: Pattern, ghost n: Node, ghost e: Env, t: Subject, ghost start: nat, s0: nat, prev0: int,
      range: nat, limit: nat)
    returns (r: Result, at: int, beg: array<int>, end: array<int>)
    requires Ready(p, n, e) && start <= s0 < range <= t.End() < TWO_63 && prev0 == s0 - 1
    requires NoMatchIn(n, t, start, s0) && Confined(n, t, range)
    requires limit == 0 || 2 * MatchAt.INIT_MATCH_STACK_SIZE <= limit
    ensures r.StackLimitOver? ==> TooDeep(n, e, t, start, limit)
    ensures Answers(n, e, t, start, r, at, beg, end)
  {
    hide Ready, MatchesAt, Finds, FirstStart, TooDeep, DeepFrom;
    var s, prev := s0, prev0;
    while true
      invariant s0 <= s < range && prev == s - 1 && NoMatchIn(n, t, start, s)
      decreases range - s
    {
      r, beg, end := TryAt(p, n, e, t, s, prev, limit);
      if r != NoMatch {
        if r.Match? { StartIs(n, t, start, s); }
        if r.StackLimitOver? { DeepAt(n, e, t, t, start, s, limit); }
        return r, s, beg, end;
      }
      prev := s;
      s := s + 1;
      if s >= range { break; }
    }
    if s == range {
      r, beg, end := TryAt(p, n, e, t, s, prev, limit);
      if r != NoMatch {
        if r.Match? { StartIs(n, t, start, s); }
        if r.StackLimitOver? { DeepAt(n, e, t, t, start, s, limit); }
        return r, s, beg, end;
      }
    }
    NoStart(n, t, start);
    return NoMatch, -1, new int[0], new int[0];
  }

  /** The search for a pattern that begins with `.*`: \G is moved along, and after a failure on to the next line. */
  method LineSearch(p: Pattern, ghost n: Node, ghost e: Env, t: Subject, start: nat, range: nat, limit: nat)
    returns (r: Result, at: int, beg: array<int>, end: array<int>)
    requires Ready(p, n, e) && start < range <= t.End() < TWO_63 && (range == t.End() || NoLineFrom(n, t, range))
    requires limit == 0 || 2 * MatchAt.INIT_MATCH_STACK_SIZE <= limit
    ensures r.StackLimitOver? ==> TooDeep(n, e, t, start, limit)
    ensures LineAnswers(n, e, t, start, r, at, beg, end)
  {
    hide Ready, MatchesAt, Finds, FirstStart, TooDeep, DeepFrom, NoLineFrom;
    var s: nat, prev: int := start, start - 1;
    ghost var s0;
    while true
      invariant start <= s < range && prev == s - 1 && FirstLine(n, t, start) == FirstLine(n, t, s)
      decreases range - s
    {
      r, beg, end := TryAt(p, n, e, t.(gpos := s), s, prev, limit);
      if r != NoMatch {
        if r.StackLimitOver? { DeepAt(n, e, t, t.(gpos := s), start, s, limit); }
        return r, s, beg, end;
      }
      s0 := s;
      prev := s;
      s := s + 1;
      while !t.IsNewline(prev) && s < range
        invariant s0 < s <= range && prev == s - 1 && NextLine(t, s0) == NextLine(t, prev)
        decreases range - s
      {
        prev := s;
        s := s + 1;
      }
      if s >= range { break; }
    }
    if NextLine(t, s0) < t.End() { NoneBehind(n, t, range, NextLine(t, s0)); }
    return NoMatch, -1, new int[0], new int[0];
  }

  lemma NoneBehind(n: Node, t: Subject, range: nat, s: nat)
    requires range <= s < t.End() && NoLineFrom(n, t, range)
    ensures FirstLine(n, t, s) == -1
  {
    hide MatchesAt, FirstLine;
    NoneFurther(n, t, s);
  }

  /** The search in an empty text: threshold_len decides. */
  method EmptySearch(p: Pattern, ghost n: Node, ghost e: Env, t: Subject, limit: nat)
    returns (r: Result, at: int, beg: array<int>, end: array<int>)
    requires Ready(p, n, e) && t.End() == 0
    requires limit == 0 || 2 * MatchAt.INIT_MATCH_STACK_SIZE <= limit
    ensures r.StackLimitOver? ==> TooDeep(n, e, t, 0, limit)
    ensures Answers(n, e, t, 0, r, at, beg, end)
  {
    hide Ready, MatchesAt, Hit, NoHit, Finds, TooDeep, DeepFrom, FirstStart;
    if p.info.thresholdLen == 0 {
      r, beg, end := TryAt(p, n, e, t, 0, -1, limit);
      at := 0;
      if r.Match? { StartIs(n, t, 0, 0); }
      if r.NoMatch? { NoStart(n, t, 0); }
      if r.StackLimitOver? { DeepAt(n, e, t, t, 0, 0, limit); }
    } else {
      EmptyHasNoHit(p, n, e, t);
      NoStart(n, t, 0);
      return NoMatch, -1, new int[0], new int[0];
    }
  }

  lemma EmptyHasNoHit(p: Pattern, n: Node, e: Env, t: Subject)
    requires Ready(p, n, e) && t.End() == 0 && p.info.thresholdLen != 0
    ensures NoMatchIn(n, t, 0, 1)
  {
    ThresholdBound(n, e);
    hide Compilable, HintOf, NoAhead, MatchesAt, Hit;
    forall q: nat | q < 1 ensures !MatchesAt(n, t, q) {
      if MatchesAt(n, t, q) { var h := MatchHasHit(n, e, t, q); }
    }
  }

  /** Every start of one window in turn. */
  method TryWindow(p: Pattern, ghost n: Node, ghost e: Env, t: Subject, ghost start: nat, s0: nat, prev0: int,
      high: int, limit: nat)
    returns (r: Result, s: nat, prev: int, beg: array<int>, end: array<int>)
    requires Ready(p, n, e) && start <= s0 && prev0 == s0 - 1 && high < t.End() < TWO_63 && NoMatchIn(n, t, start, s0)
    requires limit == 0 || 2 * MatchAt.INIT_MATCH_STACK_SIZE <= limit
    ensures r.StackLimitOver? ==> TooDeep(n, e, t, start, limit)
    ensures r.NoMatch? ==> s == Max(s0, high + 1) && prev == s - 1 && NoMatchIn(n, t, start, s)
    ensures Answers(n, e, t, start, r, s, beg, end) || r.NoMatch?
  {
    hide Ready, MatchesAt, Finds, FirstStart, TooDeep, DeepFrom;
    s, prev, beg, end := s0, prev0, new int[0], new int[0];
    while s <= high
      invariant s0 <= s <= Max(s0, high + 1) && prev == s - 1 && NoMatchIn(n, t, start, s)
    {
      r, beg, end := TryAt(p, n, e, t, s, prev, limit);
      if r != NoMatch {
        if r.Match? { StartIs(n, t, start, s); }
        if r.StackLimitOver? { DeepAt(n, e, t, t, start, s, limit); }
        return;
      }
      prev := s;
      s := s + 1;
    }
    r := NoMatch;
  }

  /** The loop over the windows, for a finite dmax. */
  method WindowSearch(p: Pattern, ghost n: Node, ghost e: Env, t: Subject, ghost start: nat, s0: nat, range: nat,
      schRange: nat, limit: nat)
    returns (r: Result, at: int, beg: array<int>, end: array<int>)
    requires Ready(p, n, e) && !p.info.hint.NoHint? && p.info.subAnchor == {} && p.info.dmax != INFINITE_DISTANCE
    requires start <= s0 < range <= t.End() < TWO_63 && schRange == Min(range + p.info.dmax, t.End())
    requires NoMatchIn(n, t, start, s0) && Confined(n, t, range)
    requires limit == 0 || 2 * MatchAt.INIT_MATCH_STACK_SIZE <= limit
    ensures r.StackLimitOver? ==> TooDeep(n, e, t, start, limit)
    ensures Answers(n, e, t, start, r, at, beg, end)
  {
    hide Ready, MatchesAt, Hit, NoHit, Finds, TooDeep, DeepFrom, FirstStart;
    var s, prev := s0, s0 - 1;
    while true
      invariant s0 <= s < range && prev == s - 1 && NoMatchIn(n, t, start, s)
      decreases range - s
    {
      var found, low, high, lowPrev, hit := ForwardSearchRange(p, n, e, t, s, schRange);
      if !found {
        WindowSkips(p, n, e, t, s, schRange, if schRange == t.End() then t.End() + 1 else range);
        NoStart(n, t, start);
        return NoMatch, -1, new int[0], new int[0];
      }
      if s < low {
        WindowSkips(p, n, e, t, s, hit, low);
        s, prev := low, lowPrev;
      }
      var next;
      r, next, prev, beg, end := TryWindow(p, n, e, t, start, s, prev, high, limit);
      if r != NoMatch { return r, next, beg, end; }
      s := next;
      if s >= range { break; }
    }
    if range == t.End() { WindowsEnd(p, n, e, t, s); }
    NoStart(n, t, start);
    return NoMatch, -1, new int[0], new int[0];
  }

  /** Behind the last window no match can start: not even an empty one at the end of the text. */
  lemma WindowsEnd(p: Pattern, n: Node, e: Env, t: Subject, s: nat)
    requires Ready(p, n, e) && !p.info.hint.NoHint? && t.End() <= s && t.End() < TWO_63
    ensures NoMatchIn(n, t, s, t.End() + 1)
  {
    hide Compilable, HintOf, NoAhead, MatchesAt, Hit;
    forall q: nat | s <= q < t.End() + 1 ensures !MatchesAt(n, t, q) {
      if MatchesAt(n, t, q) { var h := MatchHasHit(n, e, t, q); }
    }
  }
}
