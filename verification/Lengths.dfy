/** The length analyses of regcomp.c:95-115 and 2135-2503, in the fixed-width arithmetic of the source, and
    the conditions under which setup_tree leaves a tree well formed. */
module Lengths {
  import opened Common
  import opened Tree
  import opened Snapshot

  /** ONIG_INFINITE_DISTANCE: all bits of a 64-bit size_t. */
  const INFINITE_DISTANCE: nat := 0xffff_ffff_ffff_ffff

  const TWO_63: nat := 0x8000_0000_0000_0000

  function DistanceAdd(a: nat, b: nat): nat {
    if a == INFINITE_DISTANCE || b == INFINITE_DISTANCE then INFINITE_DISTANCE
    else if a + b <= INFINITE_DISTANCE then a + b else INFINITE_DISTANCE
  }

  function DistanceMultiply(d: nat, m: nat): nat {
    if m == 0 then 0
    else if d < INFINITE_DISTANCE / m then d * m else INFINITE_DISTANCE
  }

  /** Unsigned 64-bit addition. */
  function Wrap(a: nat): nat { a % (INFINITE_DISTANCE + 1) }

  lemma WrapLess(a: nat)
    ensures Wrap(a) <= a && (a <= INFINITE_DISTANCE ==> Wrap(a) == a)
  {
  }

  /** What the analyses know of the other groups: the lengths cached in the group nodes.  `numMem`,
      `btStart` and `btEnd` are the compile-time choices a program carries. */
  datatype Env = Env(mins: map<nat, nat>, maxs: map<nat, nat>, numMem: nat, btStart: set<nat>, btEnd: set<nat>) {
    function MinOf(g: nat): nat { if g in mins then mins[g] else 0 }
    function MaxOf(g: nat): nat { if g in maxs then maxs[g] else INFINITE_DISTANCE }
  }

  /** For patterns without groups. */
  const NO_GROUPS := Env(map[], map[], 0, {}, {})

  /** get_min_match_length; the sum over a list wraps around. */
  function MinLen(n: Node, e: Env): nat {
    match n
    case Str(s) => |s|
    case CClass(_, _) => 1
    case Any(_) => 1
    case Backref(num) => e.MinOf(num)
    case Quant(target, lower, _, _, _, _, _, _) =>
      if lower > 0 then DistanceMultiply(MinLen(target, e), lower) else 0
    case Group(_, _, _, target) => MinLen(target, e)
    case Atomic(target, _) => MinLen(target, e)
    case Look(_, _, _) => 0
    case Anchor(_) => 0
    case List(elems) => MinLenList(elems, e, 0)
    case Alt(elems) => MinLenAlt(elems, e)
  }

  function MinLenList(ns: Nodes, e: Env, sum: nat): nat {
    match ns
    case Last(car) => Wrap(sum + MinLen(car, e))
    case Link(car, cdr) => MinLenList(cdr, e, Wrap(sum + MinLen(car, e)))
  }

  function MinLenAlt(ns: Nodes, e: Env): nat {
    match ns
    case Last(car) => MinLen(car, e)
    case Link(car, cdr) => Min(MinLen(car, e), MinLenAlt(cdr, e))
  }

  /** get_max_match_length. */
  function MaxLen(n: Node, e: Env): nat {
    match n
    case Str(s) => |s|
    case CClass(_, _) => 1
    case Any(_) => 1
    case Backref(num) => e.MaxOf(num)
    case Quant(target, _, upper, _, _, _, _, _) =>
      var max := MaxLen(target, e);
      if upper == 0 || max == 0 then 0
      else if Infinite(upper) || upper < 0 then INFINITE_DISTANCE else DistanceMultiply(max, upper)
    case Group(_, _, _, target) => MaxLen(target, e)
    case Atomic(target, _) => MaxLen(target, e)
    case Look(_, _, _) => 0
    case Anchor(_) => 0
    case List(elems) => MaxLenList(elems, e, 0)
    case Alt(elems) => MaxLenAlt(elems, e)
  }

  function MaxLenList(ns: Nodes, e: Env, sum: nat): nat {
    match ns
    case Last(car) => DistanceAdd(sum, MaxLen(car, e))
    case Link(car, cdr) => MaxLenList(cdr, e, DistanceAdd(sum, MaxLen(car, e)))
  }

  function MaxLenAlt(ns: Nodes, e: Env): nat {
    match ns
    case Last(car) => MaxLen(car, e)
    case Link(car, cdr) => Max(MaxLen(car, e), MaxLenAlt(cdr, e))
  }

  /** get_char_length_tree: the one length all matches have, or None (both VARLEN results). */
  function CharLen(n: Node): Option<nat> {
    match n
    case Str(s) => Some(|s|)
    case CClass(_, _) => Some(1)
    case Any(_) => Some(1)
    case Backref(_) => None
    case Quant(target, lower, upper, _, _, _, _, _) =>
      if lower != upper then None
      else (match CharLen(target) case Some(c) => Some(c * lower) case None => None)
    case Group(_, _, _, target) => CharLen(target)
    case Atomic(target, _) => CharLen(target)
    case Look(_, _, _) => Some(0)
    case Anchor(_) => Some(0)
    case List(elems) => CharLenList(elems)
    case Alt(elems) => CharLenAlt(elems)
  }

  function CharLenList(ns: Nodes): Option<nat> {
    match ns
    case Last(car) => CharLen(car)
    case Link(car, cdr) =>
      var a, b := CharLen(car), CharLenList(cdr);
      if a.Some? && b.Some? then Some(a.value + b.value) else None
  }

  function CharLenAlt(ns: Nodes): Option<nat> {
    match ns
    case Last(car) => CharLen(car)
    case Link(car, cdr) =>
      var a, b := CharLen(car), CharLenAlt(cdr);
      if a.Some? && b.Some? && a.value == b.value then a else None
  }

  /** quantifiers_memory_node_info: a capture group that a repetition of n would set. */
  predicate HasMem(n: Node) {
    match n
    case Quant(target, _, upper, _, _, _, _, _) => upper != 0 && HasMem(target)
    case Group(_, _, _, _) => true
    case Atomic(target, _) => HasMem(target)
    case List(elems) => HasMemIn(elems)
    case Alt(elems) => HasMemIn(elems)
    case _ => false
  }

  predicate HasMemIn(ns: Nodes) {
    match ns
    case Last(car) => HasMem(car)
    case Link(car, cdr) => HasMem(car) || HasMemIn(cdr)
  }

  /** No capture group stands inside a look-around. */
  predicate NoMemInLook(n: Node) {
    match n
    case Quant(target, _, _, _, _, _, _, _) => NoMemInLook(target)
    case Group(_, _, _, target) => NoMemInLook(target)
    case Atomic(target, _) => NoMemInLook(target)
    case Look(_, target, _) => Groups(target) == {}
    case List(elems) => NoMemInLookAll(elems)
    case Alt(elems) => NoMemInLookAll(elems)
    case _ => true
  }

  predicate NoMemInLookAll(ns: Nodes) {
    match ns
    case Last(car) => NoMemInLook(car)
    case Link(car, cdr) => NoMemInLook(car) && NoMemInLookAll(cdr)
  }

  /** The trees setup_tree hands to compile_tree: the empty-loop info is exact, look-behind lengths are known,
      groups carry the push flags of the program and are not nested in themselves nor referred to from inside. */
  predicate WellFormed(n: Node, e: Env) {
    match n
    case Str(s) => Opcodes.Fits32(|s|)
    case CClass(bs, _) => |bs| == 32
    case Any(_) => true
    case Backref(num) => num in e.btStart && 1 <= num <= e.numMem && Opcodes.Fits16(num)
    case Quant(target, lower, upper, greedy, emptyInfo, _, _, _) =>
      WellFormed(target, e) && ProperCounts(lower, upper, greedy)
      && (emptyInfo.NotEmpty? <==> upper == 0 || MinLen(target, e) > 0)
      && (emptyInfo.EmptyMem? ==> HasMem(target) && NoMemInLook(target))
    case Group(num, pushStart, pushEnd, target) =>
      WellFormed(target, e) && num !in Groups(target) && num !in Refs(target) && num <= e.numMem && Opcodes.Fits16(num)
      && pushStart == (num in e.btStart) && pushEnd == (num in e.btEnd)
      && e.MinOf(num) <= MinLen(target, e) && MaxLen(target, e) <= e.MaxOf(num)
    case Atomic(target, simple) =>
      WellFormed(target, e)
      && (simple ==> target.Quant? && SimpleType(target.target) && target.greedy && Infinite(target.upper)
                     && target.lower <= 1 && MinLen(target.target, e) > 0)
    case Look(look, target, charLen) =>
      WellFormed(target, e)
      && (look.Behind? || look.BehindNot? ==> CharLen(target) == Some(charLen) && Opcodes.Fits32(charLen))
    case Anchor(_) => true
    case List(elems) => WellFormedAll(elems, e)
    case Alt(elems) => WellFormedAll(elems, e)
  }

  predicate WellFormedAll(ns: Nodes, e: Env) {
    match ns
    case Last(car) => WellFormed(car, e)
    case Link(car, cdr) => WellFormed(car, e) && WellFormedAll(cdr, e)
  }

  /** The NST_IN_REPEAT flag says exactly which quantifiers stand inside another one. */
  predicate RepeatMarks(n: Node, inRep: bool) {
    match n
    case Quant(target, _, _, _, _, inRepeat, _, _) => inRepeat == inRep && RepeatMarks(target, true)
    case Group(_, _, _, target) => RepeatMarks(target, inRep)
    case Atomic(target, _) => RepeatMarks(target, inRep)
    case Look(_, target, _) => RepeatMarks(target, inRep)
    case List(elems) => RepeatMarksAll(elems, inRep)
    case Alt(elems) => RepeatMarksAll(elems, inRep)
    case _ => true
  }

  predicate RepeatMarksAll(ns: Nodes, inRep: bool) {
    match ns
    case Last(car) => RepeatMarks(car, inRep)
    case Link(car, cdr) => RepeatMarks(car, inRep) && RepeatMarksAll(cdr, inRep)
  }

  lemma {:induction false} WellFormedProper(n: Node, e: Env)
    requires WellFormed(n, e)
    ensures Proper(n)
  {
    match n
    case Quant(target, _, _, _, _, _, _, _) => WellFormedProper(target, e);
    case Group(_, _, _, target) => WellFormedProper(target, e);
    case Atomic(target, _) => WellFormedProper(target, e);
    case Look(_, target, _) => WellFormedProper(target, e);
    case List(elems) => WellFormedProperAll(elems, e);
    case Alt(elems) => WellFormedProperAll(elems, e);
    case _ =>
  }

  lemma {:induction false} WellFormedProperAll(ns: Nodes, e: Env)
    requires WellFormedAll(ns, e)
    ensures ProperAll(ns)
  {
    match ns
    case Last(car) => WellFormedProper(car, e);
    case Link(car, cdr) =>
      WellFormedProper(car, e);
      WellFormedProperAll(cdr, e);
  }
}
