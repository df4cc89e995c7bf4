/** What every match must contain (regcomp.c:4288-5290): optimize_node_left finds an exact string or a set of bytes,
    with a window of distances from the start of the match.  Case-sensitive and without look-ahead. */
module Optimizer {
  import opened Common
  import opened Tree
  import opened Lengths

  const OPT_EXACT_MAXLEN := 24

  /** MinMaxLen. */
  datatype Window = Window(min: nat, max: nat)

  datatype AnchorBit =
    | BeginBufBit | BeginPositionBit | BeginLineBit | EndBufBit | SemiEndBufBit | EndLineBit
    | LookBehindBit | AnyCharStarBit | AnyCharStarMlBit

  datatype Anchors = Anchors(left: set<AnchorBit>, right: set<AnchorBit>)

  /** OptExactInfo: bytes that stand in the window; with `reachEnd` they are the last ones of the node. */
  datatype Exact = Exact(mmd: Window, anc: Anchors, reachEnd: bool, s: seq<byte>)

  /** OptMapInfo: one of these bytes stands in the window, if the value is positive. */
  datatype ByteMap = ByteMap(mmd: Window, anc: Anchors, value: nat, bytes: set<byte>)

  /** NodeOptInfo: `exb` starts where the node starts, `exm` anywhere in its window. */
  datatype Info = Info(len: Window, anc: Anchors, exb: Exact, exm: Exact, chars: ByteMap)

  // ---------------------------------------------------------------- weights

  const BYTE_VALUES: seq<nat> :=
    [ 5,  1,  1,  1,  1,  1,  1,  1,  1, 10, 10,  1,  1, 10,  1,  1,
      1,  1,  1,  1,  1,  1,  1,  1,  1,  1,  1,  1,  1,  1,  1,  1,
     12,  4,  7,  4,  4,  4,  4,  4,  4,  5,  5,  5,  5,  5,  5,  5,
      6,  6,  6,  6,  6,  6,  6,  6,  6,  6,  5,  5,  5,  5,  5,  5,
      5,  6,  6,  6,  6,  7,  6,  6,  6,  6,  6,  6,  6,  6,  6,  6,
      6,  6,  6,  6,  6,  6,  6,  6,  6,  6,  6,  5,  6,  5,  5,  5,
      5,  6,  6,  6,  6,  7,  6,  6,  6,  6,  6,  6,  6,  6,  6,  6,
      6,  6,  6,  6,  6,  6,  6,  6,  6,  6,  6,  5,  5,  5,  5,  1]

  const DISTANCE_VALUES: seq<nat> :=
    [1000,  500,  333,  250,  200,  167,  143,  125,  111,  100,
       91,   83,   77,   71,   67,   63,   59,   56,   53,   50,
       48,   45,   43,   42,   40,   38,   37,   36,   34,   33,
       32,   31,   30,   29,   29,   28,   27,   26,   26,   25,
       24,   24,   23,   23,   22,   22,   21,   21,   20,   20,
       20,   19,   19,   19,   18,   18,   18,   17,   17,   17,
       16,   16,   16,   16,   15,   15,   15,   15,   14,   14,
       14,   14,   14,   14,   13,   13,   13,   13,   13,   13,
       12,   12,   12,   12,   12,   12,   11,   11,   11,   11,
       11,   11,   11,   11,   11,   10,   10,   10,   10,   10]

  /** map_position_value for single-byte encodings. */
  function ByteValue(c: byte): nat { if c < |BYTE_VALUES| then BYTE_VALUES[c] else 4 }

  /** distance_value; the difference is taken modulo 2^64. */
  function DistanceValue(w: Window): nat {
    if w.max == INFINITE_DISTANCE then 0
    else
      var d := (w.max - w.min) % (INFINITE_DISTANCE + 1);
      if d < |DISTANCE_VALUES| then DISTANCE_VALUES[d] else 1
  }

  /** comp_distance_value: positive when the second one is better. */
  function CompareDistance(w1: Window, w2: Window, v1: int, v2: int): int {
    if v2 <= 0 then -1
    else if v1 <= 0 then 1
    else
      var u1, u2 := v1 * DistanceValue(w1), v2 * DistanceValue(w2);
      if u2 > u1 then 1 else if u2 < u1 then -1
      else if w2.min < w1.min then 1 else if w2.min > w1.min then -1 else 0
  }

  // ---------------------------------------------------------------- merging

  const NO_ANCHORS := Anchors({}, {})

  /** clear_opt_exact_info and clear_opt_map_info. */
  const CLEAR_EXACT := Exact(Window(0, 0), NO_ANCHORS, false, [])
  const CLEAR_MAP := ByteMap(Window(0, 0), NO_ANCHORS, 0, {})

  function AddWindow(a: Window, b: Window): Window {
    Window(DistanceAdd(a.min, b.min), DistanceAdd(a.max, b.max))
  }

  /** alt_merge_mml. */
  function JoinWindow(a: Window, b: Window): Window {
    Window(if a.min > b.min then b.min else a.min, if a.max < b.max then b.max else a.max)
  }

  function ConcatAnchors(l: Anchors, r: Anchors, leftLen: nat, rightLen: nat): Anchors {
    Anchors(l.left + (if leftLen == 0 then r.left else {}), r.right + (if rightLen == 0 then l.right else {}))
  }

  function MeetAnchors(a: Anchors, b: Anchors): Anchors { Anchors(a.left * b.left, a.right * b.right) }

  /** is_left_anchor. */
  predicate LeftBit(a: AnchorBit) { !a.EndBufBit? && !a.SemiEndBufBit? && !a.EndLineBit? }

  function AddAnchor(a: Anchors, b: AnchorBit): Anchors {
    if LeftBit(b) then a.(left := a.left + {b}) else a.(right := a.right + {b})
  }

  /** The bytes of s that fit behind k others. */
  function Fitting(s: seq<byte>, k: nat): seq<byte> {
    if k + |s| <= OPT_EXACT_MAXLEN then s else if k <= OPT_EXACT_MAXLEN then s[..OPT_EXACT_MAXLEN - k] else []
  }

  /** concat_opt_exact_info. */
  function ConcatExact(to: Exact, add: Exact): (r: Exact)
    ensures |to.s| <= OPT_EXACT_MAXLEN ==> |r.s| <= OPT_EXACT_MAXLEN
  {
    var reach := |to.s| + |add.s| <= OPT_EXACT_MAXLEN && add.reachEnd;
    var anc := ConcatAnchors(to.anc, add.anc, 1, 1);
    to.(s := to.s + Fitting(add.s, |to.s|), reachEnd := reach, anc := if reach then anc else anc.(right := {}))
  }

  function CommonPrefix(a: seq<byte>, b: seq<byte>): (i: nat)
    ensures i <= |a| && i <= |b| && a[..i] == b[..i]
  {
    if a == [] || b == [] || a[0] != b[0] then 0
    else
      var i := CommonPrefix(a[1..], b[1..]);
      assert a[..i + 1] == [a[0]] + a[1..][..i] && b[..i + 1] == [b[0]] + b[1..][..i];
      i + 1
  }

  /** alt_merge_opt_exact_info. */
  function AltExact(to: Exact, add: Exact): Exact {
    if add.s == [] || to.s == [] || to.mmd != add.mmd then CLEAR_EXACT
    else
      var i := CommonPrefix(to.s, add.s);
      var reach := to.reachEnd && add.reachEnd && i == |add.s| && i == |to.s|;
      var anc := MeetAnchors(to.anc, add.anc);
      to.(s := to.s[..i], reachEnd := reach, anc := if reach then anc else anc.(right := {}))
  }

  /** select_opt_exact_info. */
  function SelectExact(now: Exact, alt: Exact): Exact {
    if alt.s == [] then now
    else if now.s == [] then alt
    else
      var short := |now.s| <= 2 && |alt.s| <= 2;
      var v1 := if short then ByteValue(alt.s[0]) + (if |now.s| > 1 then 5 else 0) else |now.s|;
      var v2 := if short then ByteValue(now.s[0]) + (if |alt.s| > 1 then 5 else 0) else |alt.s|;
      if CompareDistance(now.mmd, alt.mmd, v1 * 2, v2 * 2) > 0 then alt else now
  }

  /** add_char_opt_map_info. */
  function AddChar(m: ByteMap, c: byte): ByteMap {
    if c in m.bytes then m else m.(bytes := m.bytes + {c}, value := m.value + ByteValue(c))
  }

  /** The loop over a bit set. */
  function AddClass(m: ByteMap, bs: seq<byte>, i: nat): ByteMap
    requires |bs| == 32
    decreases 256 - i
  {
    if i >= 256 then m else AddClass(if BitAt(bs, i) then AddChar(m, i) else m, bs, i + 1)
  }

  function TotalValue(bytes: set<byte>, i: nat): nat
    decreases 256 - i
  {
    if i >= 256 then 0 else (if i in bytes then ByteValue(i) else 0) + TotalValue(bytes, i + 1)
  }

  /** select_opt_map_info. */
  function SelectMap(now: ByteMap, alt: ByteMap): ByteMap {
    if alt.value == 0 then now
    else if now.value == 0 then alt
    else if CompareDistance(now.mmd, alt.mmd, 0x8000 / now.value, 0x8000 / alt.value) > 0 then alt else now
  }

  /** alt_merge_opt_map_info. */
  function AltMap(to: ByteMap, add: ByteMap): ByteMap {
    if to.value == 0 then to
    else if add.value == 0 || to.mmd.max < add.mmd.min then CLEAR_MAP
    else ByteMap(JoinWindow(to.mmd, add.mmd), MeetAnchors(to.anc, add.anc),
                 TotalValue(to.bytes + add.bytes, 0), to.bytes + add.bytes)
  }

  /** The strings fit the table of the regex. */
  predicate Sized(i: Info) { |i.exb.s| <= OPT_EXACT_MAXLEN && |i.exm.s| <= OPT_EXACT_MAXLEN }

  /** clear_node_opt_info and set_bound_node_opt_info. */
  function Fresh(mmd: Window): Info {
    Info(Window(0, 0), NO_ANCHORS, CLEAR_EXACT.(mmd := mmd), CLEAR_EXACT, CLEAR_MAP.(mmd := mmd))
  }

  /** concat_left_node_opt_info. */
  function ConcatLeft(to: Info, add: Info): (r: Info)
    ensures Sized(to) && Sized(add) ==> Sized(r)
  {
    var anc := ConcatAnchors(to.anc, add.anc, to.len.max, add.len.max);
    var addExb :=
      if add.exb.s != [] && to.len.max == 0
      then add.exb.(anc := ConcatAnchors(anc, add.exb.anc, to.len.max, add.len.max)) else add.exb;
    var addChars :=
      if add.chars.value > 0 && to.len.max == 0 && add.chars.mmd.max == 0
      then add.chars.(anc := add.chars.anc.(left := add.chars.anc.left + anc.left)) else add.chars;
    var exb := to.exb.(reachEnd := add.len.max == 0 && to.exb.reachEnd);
    var exm := to.exm.(reachEnd := add.len.max == 0 && to.exm.reachEnd);
    var joinB := addExb.s != [] && to.exb.reachEnd;
    var joinM := addExb.s != [] && !to.exb.reachEnd && to.exm.reachEnd;
    Info(AddWindow(to.len, add.len), anc,
         if joinB then ConcatExact(exb, addExb) else exb,
         SelectExact(SelectExact(if joinM then ConcatExact(exm, addExb) else exm,
                                 if joinB || joinM then CLEAR_EXACT else addExb), add.exm),
         SelectMap(to.chars, addChars))
  }

  /** alt_merge_node_opt_info. */
  function AltMerge(to: Info, add: Info): (r: Info)
    ensures Sized(to) && Sized(add) ==> Sized(r)
  {
    Info(JoinWindow(to.len, add.len), MeetAnchors(to.anc, add.anc),
         AltExact(to.exb, add.exb), AltExact(to.exm, add.exm), AltMap(to.chars, add.chars))
  }

  /** The copies of a repeated exact string, from the i-th on. */
  function RepeatExact(acc: Exact, one: Exact, i: nat, lower: nat): (r: Exact)
    ensures |acc.s| <= OPT_EXACT_MAXLEN ==> |r.s| <= OPT_EXACT_MAXLEN
    decreases lower + 1 - i
  {
    if i <= lower && |acc.s| < OPT_EXACT_MAXLEN then RepeatExact(ConcatExact(acc, one), one, i + 1, lower)
    else if i < lower then acc.(reachEnd := false) else acc
  }

  /** A quantifier with a finite upper bound and at least one mandatory turn. */
  function Repeated(one: Info, lower: nat, upper: int): Info {
    var exb := if one.exb.s != [] && one.exb.reachEnd then RepeatExact(one.exb, one.exb, 2, lower) else one.exb;
    one.(exb := exb.(reachEnd := exb.reachEnd && lower == upper),
         exm := one.exm.(reachEnd := one.exm.reachEnd && lower == upper && lower <= 1))
  }

  // ---------------------------------------------------------------- optimize_node_left

  predicate NoAhead(n: Node) {
    match n
    case Quant(target, _, _, _, _, _, _, _) => NoAhead(target)
    case Group(_, _, _, target) => NoAhead(target)
    case Atomic(target, _) => NoAhead(target)
    case Look(look, _, _) => !look.Ahead?
    case List(elems) => NoAheadAll(elems)
    case Alt(elems) => NoAheadAll(elems)
    case _ => true
  }

  predicate NoAheadAll(ns: Nodes) {
    match ns
    case Last(car) => NoAhead(car)
    case Link(car, cdr) => NoAhead(car) && NoAheadAll(cdr)
  }

  function AnchorInfo(kind: AnchorKind): Anchors {
    match kind
    case BeginBuf => AddAnchor(NO_ANCHORS, BeginBufBit)
    case EndBuf => AddAnchor(NO_ANCHORS, EndBufBit)
    case BeginLine => AddAnchor(NO_ANCHORS, BeginLineBit)
    case EndLine => AddAnchor(NO_ANCHORS, EndLineBit)
    case SemiEndBuf => AddAnchor(NO_ANCHORS, SemiEndBufBit)
    case BeginPosition => AddAnchor(NO_ANCHORS, BeginPositionBit)
    case AnyCharStar => NO_ANCHORS
    case Keep => NO_ANCHORS
  }

  /** `refs` are the groups some back-reference names, `mmd` the distance of the node from the start of the match. */
  function OptimizeLeft(n: Node, e: Env, refs: set<nat>, mmd: Window): (r: Info)
    requires WellFormed(n, e) && NoAhead(n)
    ensures Sized(r)
    decreases n, 1
  {
    var opt := Fresh(mmd);
    match n
    case Str(s) =>
      var k := Fitting(s, 0);
      opt.(exb := opt.exb.(s := k, reachEnd := |k| == |s|),
           chars := if s == [] then opt.chars else AddChar(opt.chars, s[0]),
           len := Window(|s|, |s|))
    case CClass(bs, neg) =>
      opt.(chars := if neg then opt.chars else AddClass(opt.chars, bs, 0), len := Window(1, 1))
    case Any(_) => opt.(len := Window(1, 1))
    case Backref(num) => opt.(len := Window(e.MinOf(num), e.MaxOf(num)))
    case Quant(target, lower, upper, greedy, _, _, _, _) =>
      var nopt := OptimizeLeft(target, e, refs, mmd);
      var r :=
        if Infinite(upper) then
          if mmd.max == 0 && target.Any? && greedy
          then opt.(anc := AddAnchor(opt.anc, if target.multiline then AnyCharStarMlBit else AnyCharStarBit)) else opt
        else if lower > 0 then Repeated(nopt, lower, upper) else opt;
      r.(len := QuantWindow(nopt.len, lower, upper))
    case Group(num, _, _, target) =>
      var r := OptimizeLeft(target, e, refs, mmd);
      if num in refs then r.(anc := Anchors(r.anc.left - {AnyCharStarBit, AnyCharStarMlBit}, r.anc.right)) else r
    case Atomic(target, _) => OptimizeLeft(target, e, refs, mmd)
    case Look(look, _, _) => if look.Behind? then opt.(anc := AddAnchor(opt.anc, LookBehindBit)) else opt
    case Anchor(kind) => opt.(anc := AnchorInfo(kind))
    case List(elems) => OptimizeList(elems, e, refs, mmd, opt)
    case Alt(elems) => OptimizeAlt(elems, e, refs, mmd)
  }

  function QuantWindow(len: Window, lower: nat, upper: int): Window {
    Window(DistanceMultiply(len.min, lower),
           if Infinite(upper) then (if len.max > 0 then INFINITE_DISTANCE else 0)
           else if upper < 0 then 0 else DistanceMultiply(len.max, upper))
  }

  function OptimizeList(ns: Nodes, e: Env, refs: set<nat>, mmd: Window, opt: Info): (r: Info)
    requires WellFormedAll(ns, e) && NoAheadAll(ns) && Sized(opt)
    ensures Sized(r)
    decreases ns, 1
  {
    match ns
    case Last(car) => ConcatLeft(opt, OptimizeLeft(car, e, refs, mmd))
    case Link(car, cdr) =>
      var nopt := OptimizeLeft(car, e, refs, mmd);
      OptimizeList(cdr, e, refs, AddWindow(mmd, nopt.len), ConcatLeft(opt, nopt))
  }

  function OptimizeAlt(ns: Nodes, e: Env, refs: set<nat>, mmd: Window): (r: Info)
    requires WellFormedAll(ns, e) && NoAheadAll(ns)
    ensures Sized(r)
    decreases ns, 1
  {
    match ns
    case Last(car) => OptimizeLeft(car, e, refs, mmd)
    case Link(car, cdr) => OptimizeAltRest(cdr, e, refs, mmd, OptimizeLeft(car, e, refs, mmd))
  }

  function OptimizeAltRest(ns: Nodes, e: Env, refs: set<nat>, mmd: Window, opt: Info): (r: Info)
    requires WellFormedAll(ns, e) && NoAheadAll(ns) && Sized(opt)
    ensures Sized(r)
    decreases ns, 1
  {
    match ns
    case Last(car) => AltMerge(opt, OptimizeLeft(car, e, refs, mmd))
    case Link(car, cdr) => OptimizeAltRest(cdr, e, refs, mmd, AltMerge(opt, OptimizeLeft(car, e, refs, mmd)))
  }

  // ---------------------------------------------------------------- what goes into the regex

  datatype Hint = NoHint | ExactHint(s: seq<byte>) | MapHint(bytes: set<byte>)

  /** The fields of regex_t the search reads; `ends` are anchor_dmin and anchor_dmax. */
  datatype SearchInfo = SearchInfo(hint: Hint, dmin: nat, dmax: nat, thresholdLen: int,
                                   anchor: set<AnchorBit>, subAnchor: set<AnchorBit>, ends: Window)

  /** The cast to a 32-bit int. */
  function ToInt(v: nat): int {
    var w := v % 0x1_0000_0000;
    if w < 0x8000_0000 then w else w - 0x1_0000_0000
  }

  function Threshold(w: Window, len: nat): int {
    if w.min == INFINITE_DISTANCE then 0 else ToInt((w.min + len) % (INFINITE_DISTANCE + 1))
  }

  function SubAnchors(a: Anchors): set<AnchorBit> { a.left * {BeginLineBit} + a.right * {EndLineBit} }

  /** comp_opt_exact_or_map_info. */
  function CompareExactMap(e: Exact, m: ByteMap): int {
    if m.value <= 0 then -1 else CompareDistance(e.mmd, m.mmd, 20 * |e.s| * 2, 20 * 5 * 2 / m.value)
  }

  /** set_optimize_info_from_tree. */
  function ChooseHint(opt: Info): SearchInfo {
    var anchor :=
      opt.anc.left * {BeginBufBit, BeginPositionBit, AnyCharStarBit, AnyCharStarMlBit, LookBehindBit}
      + opt.anc.right * {EndBufBit, SemiEndBufBit};
    var ends := if EndBufBit in anchor || SemiEndBufBit in anchor then opt.len else Window(0, 0);
    var e := SelectExact(opt.exb, opt.exm);
    var exact := opt.exb.s != [] || opt.exm.s != [];
    if exact && !(opt.chars.value > 0 && CompareExactMap(e, opt.chars) > 0) then
      SearchInfo(ExactHint(e.s), e.mmd.min, e.mmd.max, Threshold(e.mmd, |e.s|), anchor, SubAnchors(e.anc), ends)
    else if opt.chars.value > 0 then
      SearchInfo(MapHint(opt.chars.bytes), opt.chars.mmd.min, opt.chars.mmd.max, Threshold(opt.chars.mmd, 1), anchor,
                 SubAnchors(opt.chars.anc), ends)
    else
      SearchInfo(NoHint, 0, 0, 0, anchor,
                 opt.anc.left * {BeginLineBit} + (if opt.len.max == 0 then opt.anc.right * {EndLineBit} else {}), ends)
  }

  function HintOf(n: Node, e: Env): SearchInfo
    requires WellFormed(n, e) && NoAhead(n)
  {
    ChooseHint(OptimizeLeft(n, e, Refs(n), Window(0, 0)))
  }
}
