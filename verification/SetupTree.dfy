/** setup_tree (regcomp.c:3842-4130): what it does to the parse tree before compile_tree sees it, and that the trees it
    leaves are well formed. */
module SetupTree {
  import opened Common
  import opened Tree
  import opened Lengths
  import opened NextNode
  import opened LookBehind
  import opened StringExpand
  import Opcodes

  // ---------------------------------------------------------------- what the parser delivers

  /** A quantifier whose target may be empty; a capture-aware check is only arranged for groups outside look-around. */
  function EmptyInfoOf(q: Node, e: Env): EmptyInfo
    requires q.Quant?
  {
    if q.upper != 0 && MinLen(q.target, e) == 0 then (if HasMem(q.target) then EmptyMem else Empty) else NotEmpty
  }

  /** Trees of the parser: counts in range, look-behind bodies with a length, groups not nested in themselves,
      references to groups that exist, no atomic loop over a simple target that may be empty, and no capture inside a
      look-around inside a loop that may be empty. */
  predicate Parsed(n: Node, e: Env) {
    match n
    case Str(s) => Opcodes.Fits32(|s|)
    case CClass(bs, _) => |bs| == 32
    case Any(_) => true
    case Backref(num) => num in e.btStart && 1 <= num <= e.numMem && Opcodes.Fits16(num)
    case Quant(target, lower, upper, greedy, _, _, _, _) =>
      Parsed(target, e) && ProperCounts(lower, upper, greedy)
      && (EmptyInfoOf(n, e).EmptyMem? ==> NoMemInLook(target))
    case Group(num, _, _, target) =>
      Parsed(target, e) && num !in Groups(target) && num !in Refs(target) && num <= e.numMem && Opcodes.Fits16(num)
      && e.MinOf(num) <= MinLen(target, e) && MaxLen(target, e) <= e.MaxOf(num)
    case Atomic(target, _) => Parsed(target, e)
        && (target.Quant? && MaySimple(target.target) ==> 0 < MinLen(target.target, e))
    case Look(look, target, _) =>
      Parsed(target, e)
      && (look.Behind? || look.BehindNot? ==> SetupLookBehind(look, target).Some? && ShortBodies(target))
    case Anchor(_) => true
    case List(elems) => ParsedAll(elems, e)
    case Alt(elems) => ParsedAll(elems, e)
  }

  /** Nodes that are simple, or become a single string. */
  predicate MaySimple(n: Node) { SimpleType(n) || BecomesString(n) }

  predicate BecomesString(n: Node) { n.Str? || (n.Quant? && BecomesString(n.target)) }

  predicate ParsedAll(ns: Nodes, e: Env) {
    match ns
    case Last(car) => Parsed(car, e)
    case Link(car, cdr) => Parsed(car, e) && ParsedAll(cdr, e)
  }

  /** The look-behind lengths fit the operand. */
  predicate ShortBodies(body: Node) {
    if CharLen(body).Some? then Opcodes.Fits32(CharLen(body).value) else body.Alt? && ShortAll(body.elems)
  }

  predicate ShortAll(ns: Nodes) {
    match ns
    case Last(car) => CharLen(car).Some? && Opcodes.Fits32(CharLen(car).value)
    case Link(car, cdr) => CharLen(car).Some? && Opcodes.Fits32(CharLen(car).value) && ShortAll(cdr)
  }

  // ---------------------------------------------------------------- setup_tree

  /** The head byte of a loop that may be empty, if its target is not a quantifier itself. */
  function HeadByte(target: Node): Option<byte> {
    match HeadValue(target, true)
    case Some(v) => HeadKinds(target, true); Some(v.s[0])
    case None => None
  }

  /** The quantifier case behind the string expansion: the head byte is found, or moved out of an inner quantifier. */
  function WithHead(target: Node, lower: nat, upper: int, greedy: bool, info: EmptyInfo, inRep: bool): Node {
    if greedy && !info.NotEmpty? then
      if target.Quant? then
        Quant(target.(headExact := None), lower, upper, greedy, info, inRep, target.headExact, None)
      else Quant(target, lower, upper, greedy, info, inRep, HeadByte(target), None)
    else Quant(target, lower, upper, greedy, info, inRep, None, None)
  }

  /** setup_tree; `inRep` is the IN_REPEAT state. */
  function Setup(n: Node, e: Env, inRep: bool): Node
    requires Parsed(n, e)
    decreases n
  {
    match n
    case Quant(target, lower, upper, greedy, _, _, _, _) =>
      var info, c := EmptyInfoOf(n, e), Setup(target, e, true);
      if c.Str? && 1 < lower then
        Expanded(Quant(c, lower, upper, greedy, info, inRep, None, None), CopyCount(lower, |c.s|, 1))
      else WithHead(c, lower, upper, greedy, info, inRep)
    case Group(num, _, _, target) => Group(num, num in e.btStart, num in e.btEnd, Setup(target, e, inRep))
    case Atomic(target, _) =>
      var t := Setup(target, e, inRep);
      Atomic(t, t.Quant? && Infinite(t.upper) && t.lower <= 1 && t.greedy && SimpleType(t.target))
    case Look(look, target, charLen) =>
      if look.Ahead? || look.AheadNot? then Look(look, Setup(target, e, inRep), charLen)
      else if CharLen(target).Some? then Look(look, Setup(target, e, inRep), CharLen(target).value)
      else
        AltParsed(target, e);
        if look.BehindNot? then List(SetupDivided(look, target.elems, e, inRep))
        else Alt(SetupDivided(look, target.elems, e, inRep))
    case List(elems) => List(SetupList(elems, e, inRep))
    case Alt(elems) => Alt(SetupAlt(elems, e, inRep))
    case _ => n
  }

  lemma QuantUnfolds(q: Node, e: Env, inRep: bool)
    requires q.Quant? && Parsed(q.target, e) && ProperCounts(q.lower, q.upper, q.greedy)
    requires !(Setup(q.target, e, true).Str? && 1 < q.lower)
    requires EmptyInfoOf(q, e).EmptyMem? ==> NoMemInLook(q.target)
    ensures Parsed(q, e)
    ensures Setup(q, e, inRep)
        == WithHead(Setup(q.target, e, true), q.lower, q.upper, q.greedy, EmptyInfoOf(q, e), inRep)
  {
    hide EmptyInfoOf, WithHead;
  }

  lemma AltParsed(n: Node, e: Env)
    requires n.Alt? && Parsed(n, e)
    ensures ParsedAll(n.elems, e)
  {
  }

  lemma FirstParsed(ns: Nodes, e: Env)
    requires ParsedAll(ns, e)
    ensures Parsed(ns.car, e)
  {
  }

  /** Every element, then next_setup on each with the one behind it. */
  function SetupList(ns: Nodes, e: Env, inRep: bool): Nodes
    requires ParsedAll(ns, e)
    decreases ns
  {
    match ns
    case Last(car) => Last(Setup(car, e, inRep))
    case Link(car, cdr) =>
      FirstParsed(cdr, e);
      Link(NextSetup(Setup(car, e, inRep), Setup(cdr.car, e, inRep)), SetupList(cdr, e, inRep))
  }

  function SetupAlt(ns: Nodes, e: Env, inRep: bool): Nodes
    requires ParsedAll(ns, e)
    decreases ns
  {
    match ns
    case Last(car) => Last(Setup(car, e, inRep))
    case Link(car, cdr) => Link(Setup(car, e, inRep), SetupAlt(cdr, e, inRep))
  }

  /** The alternatives of a divided look-behind, each set up as one of its own. */
  function SetupDivided(look: LookKind, ns: Nodes, e: Env, inRep: bool): Nodes
    requires ParsedAll(ns, e) && AllFixed(ns)
    decreases ns
  {
    match ns
    case Last(car) => Last(Look(look, Setup(car, e, inRep), CharLen(car).value))
    case Link(car, cdr) => Link(Look(look, Setup(car, e, inRep), CharLen(car).value), SetupDivided(look, cdr, e, inRep))
  }

  // ---------------------------------------------------------------- what setup_tree keeps

  /** The analyses see the same: the lengths, the groups and the references. */
  ghost predicate Kept(n: Node, m: Node, e: Env) {
    MinLen(m, e) == MinLen(n, e) && MaxLen(m, e) <= MaxLen(n, e) && CharLen(m) == CharLen(n) && HasMem(m) == HasMem(n)
    && (NoMemInLook(n) ==> NoMemInLook(m)) && Groups(m) == Groups(n) && Refs(m) == Refs(n)
  }

  ghost predicate KeptList(ns: Nodes, ms: Nodes, e: Env) {
    (forall sum: nat :: MinLenList(ms, e, sum) == MinLenList(ns, e, sum))
    && (forall sum: nat, more: nat :: sum <= more ==> MaxLenList(ms, e, sum) <= MaxLenList(ns, e, more))
    && CharLenList(ms) == CharLenList(ns) && HasMemIn(ms) == HasMemIn(ns)
    && (NoMemInLookAll(ns) ==> NoMemInLookAll(ms)) && GroupsOf(ms) == GroupsOf(ns) && RefsOf(ms) == RefsOf(ns)
  }

  ghost predicate KeptAlt(ns: Nodes, ms: Nodes, e: Env) {
    MinLenAlt(ms, e) == MinLenAlt(ns, e) && MaxLenAlt(ms, e) <= MaxLenAlt(ns, e) && CharLenAlt(ms) == CharLenAlt(ns)
    && HasMemIn(ms) == HasMemIn(ns) && (NoMemInLookAll(ns) ==> NoMemInLookAll(ms))
    && GroupsOf(ms) == GroupsOf(ns) && RefsOf(ms) == RefsOf(ns)
  }

  /** What a tree has to be for compile_tree, its flags inside a repetition, and that no peek has been arranged. */
  ghost predicate Good(m: Node, e: Env, inRep: bool) {
    WellFormed(m, e) && RepeatMarks(m, inRep) && Unlinked(m)
  }

  ghost predicate GoodAll(ms: Nodes, e: Env, inRep: bool) { WellFormedAll(ms, e) && RepeatMarksAll(ms, inRep) }

  /** next_setup keeps what the analyses see and leaves a well-formed node. */
  lemma {:induction false} NextGood(m: Node, next: Node, e: Env, inRep: bool)
    requires Good(m, e, inRep)
    ensures WellFormed(NextSetup(m, next), e) && RepeatMarks(NextSetup(m, next), inRep)
    ensures Kept(m, NextSetup(m, next), e)
    decreases m
  {
    match m
    case Quant(_, _, _, _, _, _, _, _) => NextQuantGood(m, next, e, inRep);
    case Group(num, pushStart, pushEnd, target) =>
      NextGood(target, next, e, inRep);
      InGroup(m, NextSetup(target, next), e, inRep);
    case _ => SameKept(m, e);
  }

  lemma SameKept(m: Node, e: Env)
    ensures Kept(m, m, e)
  {
    hide MinLen, MaxLen, CharLen, HasMem, NoMemInLook, Groups, Refs;
  }

  lemma NextQuantGood(q: Node, next: Node, e: Env, inRep: bool)
    requires q.Quant? && WellFormed(q, e) && RepeatMarks(q, inRep)
    ensures WellFormed(NextSetup(q, next), e) && RepeatMarks(NextSetup(q, next), inRep)
    ensures Kept(q, NextSetup(q, next), e)
  {
    var q1 := q.(nextHead := PeekOf(next));
    FlagKept(q, q1, e, inRep);
    FlagKept(q, q, e, inRep);
    hide WellFormed, RepeatMarks, MinLen, MaxLen, CharLen, HasMem, NoMemInLook, Groups, Refs, HeadValue, PeekOf, Kept;
    if q.greedy && Infinite(q.upper) && Possessive(q, next) {
      RunConsumes(q, next, e);
      SameLength(q, q1, e);
      WrapKept(q, e, inRep);
      WrapKept(q1, e, inRep);
      KeptBoth(q, q1, Atomic(q1, true), e);
    }
  }

  lemma SameLength(q: Node, q1: Node, e: Env)
    requires q.Quant? && q1.Quant? && q1.target == q.target
    ensures SimpleType(q1.target) == SimpleType(q.target) && MinLen(q1.target, e) == MinLen(q.target, e)
  {
  }

  lemma RunConsumes(q: Node, next: Node, e: Env)
    requires q.Quant? && Possessive(q, next)
    ensures SimpleType(q.target) && 0 < MinLen(q.target, e)
  {
    HeadKinds(q.target, false);
  }

  lemma FlagKept(q: Node, q1: Node, e: Env, inRep: bool)
    requires q.Quant? && q1.Quant? && q1 == q.(nextHead := q1.nextHead) && WellFormed(q, e) && RepeatMarks(q, inRep)
    ensures WellFormed(q1, e) && RepeatMarks(q1, inRep) && Kept(q, q1, e)
  {
  }

  lemma WrapKept(q: Node, e: Env, inRep: bool)
    requires q.Quant? && WellFormed(q, e) && RepeatMarks(q, inRep) && SimpleType(q.target) && q.greedy
        && Infinite(q.upper)
    requires q.lower <= 1 && 0 < MinLen(q.target, e)
    ensures WellFormed(Atomic(q, true), e) && RepeatMarks(Atomic(q, true), inRep) && Kept(q, Atomic(q, true), e)
  {
    hide MinLen, MaxLen, CharLen, HasMem, NoMemInLook, Groups, Refs, RepeatMarks;
    Wrapped(q, e, inRep);
  }

  lemma Wrapped(q: Node, e: Env, inRep: bool)
    ensures Kept(q, Atomic(q, true), e) && RepeatMarks(Atomic(q, true), inRep) == RepeatMarks(q, inRep)
  {
  }

  lemma InGroup(g: Node, m: Node, e: Env, inRep: bool)
    requires g.Group? && WellFormed(g, e) && WellFormed(m, e) && RepeatMarks(m, inRep) && Kept(g.target, m, e)
    ensures var r := Group(g.num, g.pushStart, g.pushEnd, m);
      WellFormed(r, e) && RepeatMarks(r, inRep) && Kept(g, r, e)
  {
  }

  lemma {:induction false} SetupGood(n: Node, e: Env, inRep: bool)
    requires Parsed(n, e)
    ensures Good(Setup(n, e, inRep), e, inRep) && Kept(n, Setup(n, e, inRep), e)
    decreases n, 1
  {
    hide Good, Kept;
    match n
    case Quant(target, lower, upper, greedy, _, _, _, _) =>
      var info := EmptyInfoOf(n, e);
      SetupGood(target, e, true);
      var c := Setup(target, e, true);
      if c.Str? && 1 < lower { StringGood(n, c, info, e, inRep); } else { HeadGood(n, c, info, e, inRep); }
    case Group(_, _, _, target) =>
      SetupGood(target, e, inRep);
      GroupGood(n, Setup(target, e, inRep), e, inRep);
    case Atomic(target, _) =>
      SetupGood(target, e, inRep);
      AtomicTarget(n, e, inRep);
      AtomicGood(n, Setup(target, e, inRep), e, inRep);
    case Look(_, _, _) => LookGood(n, e, inRep);
    case List(elems) =>
      ListGood(elems, e, inRep);
      ListIs(elems, SetupList(elems, e, inRep), e, inRep);
    case Alt(elems) =>
      AltGood(elems, e, inRep);
      AltIs(elems, SetupAlt(elems, e, inRep), e, inRep);
    case _ => LeafGood(n, e, inRep);
  }

  lemma LeafGood(n: Node, e: Env, inRep: bool)
    requires Parsed(n, e) && (n.Str? || n.CClass? || n.Any? || n.Backref? || n.Anchor?)
    ensures Good(n, e, inRep) && Kept(n, n, e)
  {
  }

  lemma HeadGood(q: Node, t: Node, info: EmptyInfo, e: Env, inRep: bool)
    requires q.Quant? && Parsed(q, e) && info == EmptyInfoOf(q, e) && Good(t, e, true) && Kept(q.target, t, e)
    ensures var m := WithHead(t, q.lower, q.upper, q.greedy, info, inRep); Good(m, e, inRep) && Kept(q, m, e)
  {
    var m := WithHead(t, q.lower, q.upper, q.greedy, info, inRep);
    SameBody(t, m.target, e);
    ParsedQuant(q, e);
    assert WellFormed(m.target, e) && RepeatMarks(m.target, true) && Kept(t, m.target, e);
    hide Parsed, Good, WellFormed, RepeatMarks;
    KeptBoth(q.target, t, m.target, e);
    BoundsKept(q, m, e);
    QuantGood(q, m, info, e, inRep);
  }

  lemma QuantGood(q: Node, m: Node, info: EmptyInfo, e: Env, inRep: bool)
    requires q.Quant? && m.Quant? && info == EmptyInfoOf(q, e) && Kept(q.target, m.target, e)
    requires m == Quant(m.target, q.lower, q.upper, q.greedy, info, inRep, m.headExact, None)
    requires ProperCounts(q.lower, q.upper, q.greedy) && (info.EmptyMem? ==> NoMemInLook(q.target))
    requires WellFormed(m.target, e) && RepeatMarks(m.target, true) && MaxLen(m, e) <= MaxLen(q, e)
    requires info.NotEmpty? ==> m.headExact.None?
    ensures Good(m, e, inRep) && Kept(q, m, e)
  {
  }

  lemma ParsedQuant(q: Node, e: Env)
    requires q.Quant? && Parsed(q, e)
    ensures ProperCounts(q.lower, q.upper, q.greedy) && (EmptyInfoOf(q, e).EmptyMem? ==> NoMemInLook(q.target))
  {
  }

  /** The head byte plays no part in the analyses. */
  lemma SameBody(t: Node, u: Node, e: Env)
    requires u == t || (t.Quant? && u == t.(headExact := None))
    requires WellFormed(t, e) && RepeatMarks(t, true)
    ensures WellFormed(u, e) && RepeatMarks(u, true) && Kept(t, u, e)
  {
  }

  /** A smaller target has a smaller bound. */
  lemma BoundsKept(q: Node, m: Node, e: Env)
    requires q.Quant? && m.Quant? && m.lower == q.lower && m.upper == q.upper
        && ProperCounts(q.lower, q.upper, q.greedy)
    requires MaxLen(m.target, e) <= MaxLen(q.target, e)
    ensures MaxLen(m, e) <= MaxLen(q, e)
  {
    var a, b := MaxLen(m.target, e), MaxLen(q.target, e);
    if q.upper > 0 && a != 0 { MultiplyMono(a, b, q.upper); }
  }

  lemma MultiplyMono(a: nat, b: nat, k: nat)
    requires a <= b && 0 < k
    ensures DistanceMultiply(a, k) <= DistanceMultiply(b, k)
  {
    LengthFacts.MulMono(a, b, k);
    if a < INFINITE_DISTANCE / k { ProductSmall(a, k); }
  }

  lemma ProductSmall(a: nat, k: nat)
    requires 0 < k && a < INFINITE_DISTANCE / k
    ensures a * k <= INFINITE_DISTANCE
  {
    var q := INFINITE_DISTANCE / k;
    assert q * k <= INFINITE_DISTANCE;
    LengthFacts.MulMono(a, q, k);
  }

  lemma GroupGood(n: Node, t: Node, e: Env, inRep: bool)
    requires n.Group? && Parsed(n, e) && Good(t, e, inRep) && Kept(n.target, t, e)
    ensures var m := Group(n.num, n.num in e.btStart, n.num in e.btEnd, t); Good(m, e, inRep) && Kept(n, m, e)
  {
  }

  lemma AtomicGood(n: Node, t: Node, e: Env, inRep: bool)
    requires n.Atomic? && Parsed(n, e) && Good(t, e, inRep) && Kept(n.target, t, e)
    requires t.Quant? && SimpleType(t.target) ==> 0 < MinLen(t.target, e)
    ensures var m := Atomic(t, t.Quant? && Infinite(t.upper) && t.lower <= 1 && t.greedy && SimpleType(t.target));
      Good(m, e, inRep) && Kept(n, m, e)
  {
  }

  /** A loop becomes atomic and simple only over a target that consumes something. */
  lemma {:induction false} AtomicTarget(n: Node, e: Env, inRep: bool)
    requires n.Atomic? && Parsed(n, e)
    ensures var t := Setup(n.target, e, inRep); t.Quant? && SimpleType(t.target) ==> 0 < MinLen(t.target, e)
    decreases n, 0
  {
    var q := n.target;
    if q.Quant? && Setup(q, e, inRep).Quant? {
      SetupGood(q.target, e, true);
      var t := Setup(q.target, e, true);
      assert MinLen(Setup(q, e, inRep).target, e) == MinLen(t, e) by { SameHead(t, e); }
      SimpleFrom(q.target, e, true);
    } else {
      assert !Setup(q, e, inRep).Quant?;
    }
  }

  /** What becomes a simple node is one, or a repeated string. */
  lemma {:induction false} SimpleFrom(n: Node, e: Env, inRep: bool)
    requires Parsed(n, e)
    ensures SimpleType(Setup(n, e, inRep)) ==> MaySimple(n)
    ensures Setup(n, e, inRep).Str? ==> BecomesString(n)
    decreases n
  {
    if n.Quant? {
      SimpleFrom(n.target, e, true);
      hide WithHead, EmptyInfoOf;
      HeadIsLoop(Setup(n.target, e, true), n.lower, n.upper, n.greedy, EmptyInfoOf(n, e), inRep);
    }
  }

  lemma HeadIsLoop(c: Node, lower: nat, upper: int, greedy: bool, info: EmptyInfo, inRep: bool)
    ensures WithHead(c, lower, upper, greedy, info, inRep).Quant?
  {
  }

  lemma SameHead(t: Node, e: Env)
    ensures t.Quant? ==> MinLen(t.(headExact := None), e) == MinLen(t, e)
  {
  }

  lemma {:induction false} LookGood(n: Node, e: Env, inRep: bool)
    requires n.Look? && Parsed(n, e)
    ensures Good(Setup(n, e, inRep), e, inRep) && Kept(n, Setup(n, e, inRep), e)
    decreases n, 0
  {
    var t := n.target;
    if n.look.Ahead? || n.look.AheadNot? || CharLen(t).Some? {
      SetupGood(t, e, inRep);
    } else {
      AltParsed(t, e);
      DividedGood(n.look, t.elems, e, inRep);
      DividedKept(n, SetupDivided(n.look, t.elems, e, inRep), e, inRep);
    }
  }

  /** As a list, the nodes have no length. */
  ghost predicate NoLength(ms: Nodes, e: Env) {
    forall sum: nat :: sum <= INFINITE_DISTANCE ==> MinLenList(ms, e, sum) == sum && MaxLenList(ms, e, sum) == sum
  }

  lemma LookAdds(m: Node, e: Env, sum: nat)
    requires m.Look? && sum <= INFINITE_DISTANCE
    ensures Wrap(sum + MinLen(m, e)) == sum && DistanceAdd(sum, MaxLen(m, e)) == sum
  {
  }

  lemma LastNoLength(m: Node, e: Env)
    requires m.Look?
    ensures NoLength(Last(m), e)
  {
    forall sum: nat | sum <= INFINITE_DISTANCE
      ensures MinLenList(Last(m), e, sum) == sum && MaxLenList(Last(m), e, sum) == sum
    {
      LookAdds(m, e, sum);
    }
  }

  lemma LinkNoLength(m: Node, ms: Nodes, e: Env)
    requires m.Look? && NoLength(ms, e)
    ensures NoLength(Link(m, ms), e)
  {
    forall sum: nat | sum <= INFINITE_DISTANCE
      ensures MinLenList(Link(m, ms), e, sum) == sum && MaxLenList(Link(m, ms), e, sum) == sum
    {
      LookAdds(m, e, sum);
      hide Wrap, MinLen, MaxLen, DistanceAdd;
      assert MinLenList(ms, e, sum) == sum && MaxLenList(ms, e, sum) == sum;
      assert MinLenList(Link(m, ms), e, sum) == MinLenList(ms, e, Wrap(sum + MinLen(m, e)));
      assert MaxLenList(Link(m, ms), e, sum) == MaxLenList(ms, e, DistanceAdd(sum, MaxLen(m, e)));
    }
  }

  /** What the analyses see of a divided look-behind. */
  ghost predicate Divided(ns: Nodes, ms: Nodes, e: Env) {
    CharLenAlt(ms) == CharLenList(ms) == Some(0) && MinLenAlt(ms, e) == 0 && MaxLenAlt(ms, e) == 0 && NoLength(ms, e)
    && !HasMemIn(ms) && (GroupsOf(ns) == {} ==> NoMemInLookAll(ms))
    && GroupsOf(ms) == GroupsOf(ns) && RefsOf(ms) == RefsOf(ns)
  }

  /** One look of a divided look-behind. */
  lemma LookFacts(look: LookKind, n: Node, t: Node, e: Env, inRep: bool)
    requires (look.Behind? || look.BehindNot?) && CharLen(n).Some? && Opcodes.Fits32(CharLen(n).value)
    requires Good(t, e, inRep) && Kept(n, t, e)
    ensures var m := Look(look, t, CharLen(n).value);
      WellFormed(m, e) && RepeatMarks(m, inRep) && CharLen(m) == Some(0) && MinLen(m, e) == 0 && MaxLen(m, e) == 0
      && !HasMem(m) && Groups(m) == Groups(n) && Refs(m) == Refs(n) && (Groups(n) == {} ==> NoMemInLook(m))
  {
  }

  lemma {:induction false} DividedGood(look: LookKind, ns: Nodes, e: Env, inRep: bool)
    requires (look.Behind? || look.BehindNot?) && ParsedAll(ns, e) && AllFixed(ns) && ShortAll(ns)
    ensures var ms := SetupDivided(look, ns, e, inRep); GoodAll(ms, e, inRep) && Divided(ns, ms, e)
    decreases ns
  {
    var m := Look(look, Setup(ns.car, e, inRep), CharLen(ns.car).value);
    hide Good, Kept, NoLength, Parsed, Setup, CharLen, MinLen, MaxLen, WellFormed, RepeatMarks, HasMem, NoMemInLook;
    hide Groups, Refs;
    SetupGood(ns.car, e, inRep);
    LookFacts(look, ns.car, Setup(ns.car, e, inRep), e, inRep);
    if ns.Last? {
      LastNoLength(m, e);
    } else {
      DividedGood(look, ns.cdr, e, inRep);
      LinkNoLength(m, SetupDivided(look, ns.cdr, e, inRep), e);
    }
  }

  /** A divided look-behind is seen as the look-behind it was. */
  lemma DividedKept(n: Node, ms: Nodes, e: Env, inRep: bool)
    requires n.Look? && n.target.Alt? && Divided(n.target.elems, ms, e) && GoodAll(ms, e, inRep)
    ensures Good(List(ms), e, inRep) && Kept(n, List(ms), e) && Good(Alt(ms), e, inRep) && Kept(n, Alt(ms), e)
  {
    assert MinLenList(ms, e, 0) == 0 && MaxLenList(ms, e, 0) == 0;
  }

  lemma {:induction false} ListGood(ns: Nodes, e: Env, inRep: bool)
    requires ParsedAll(ns, e)
    ensures GoodAll(SetupList(ns, e, inRep), e, inRep) && KeptList(ns, SetupList(ns, e, inRep), e)
    decreases ns, 1
  {
    hide Good, Kept, Parsed, Setup, NextSetup;
    SetupGood(ns.car, e, inRep);
    var c := Setup(ns.car, e, inRep);
    if ns.Last? {
      LastKept(ns.car, c, e, inRep);
    } else {
      FirstParsed(ns.cdr, e);
      var next := Setup(ns.cdr.car, e, inRep);
      var m := NextSetup(c, next);
      assert WellFormed(c, e) && RepeatMarks(c, inRep) && Unlinked(c) by { GoodParts(c, e, inRep); }
      NextGood(c, next, e, inRep);
      KeptBoth(ns.car, c, m, e);
      ListGood(ns.cdr, e, inRep);
      LinkKept(ns.car, m, ns.cdr, SetupList(ns.cdr, e, inRep), e, inRep);
    }
  }

  lemma GoodParts(m: Node, e: Env, inRep: bool)
    ensures Good(m, e, inRep) <==> WellFormed(m, e) && RepeatMarks(m, inRep) && Unlinked(m)
  {
  }

  lemma KeptBoth(a: Node, b: Node, c: Node, e: Env)
    requires Kept(a, b, e) && Kept(b, c, e)
    ensures Kept(a, c, e)
  {
    hide MinLen, MaxLen, CharLen, HasMem, NoMemInLook, Groups, Refs;
  }

  lemma LastKept(n: Node, m: Node, e: Env, inRep: bool)
    requires Kept(n, m, e) && Good(m, e, inRep)
    ensures GoodAll(Last(m), e, inRep) && KeptList(Last(n), Last(m), e) && KeptAlt(Last(n), Last(m), e)
  {
    hide MinLen, MaxLen, CharLen, HasMem, NoMemInLook, Groups, Refs, WellFormed, RepeatMarks, Wrap;
  }

  lemma LinkKept(n: Node, m: Node, ns: Nodes, ms: Nodes, e: Env, inRep: bool)
    requires Kept(n, m, e) && WellFormed(m, e) && RepeatMarks(m, inRep) && KeptList(ns, ms, e) && GoodAll(ms, e, inRep)
    ensures GoodAll(Link(m, ms), e, inRep) && KeptList(Link(n, ns), Link(m, ms), e)
  {
    hide MinLen, MaxLen, CharLen, HasMem, NoMemInLook, Groups, Refs, WellFormed, RepeatMarks, Wrap;
    forall sum: nat ensures MinLenList(Link(m, ms), e, sum) == MinLenList(Link(n, ns), e, sum) {
      assert MinLenList(Link(m, ms), e, sum) == MinLenList(ms, e, Wrap(sum + MinLen(m, e)));
    }
    forall sum: nat, more: nat | sum <= more
      ensures MaxLenList(Link(m, ms), e, sum) <= MaxLenList(Link(n, ns), e, more) {
      assert DistanceAdd(sum, MaxLen(m, e)) <= DistanceAdd(more, MaxLen(n, e));
    }
  }

  lemma ListIs(ns: Nodes, ms: Nodes, e: Env, inRep: bool)
    requires GoodAll(ms, e, inRep) && KeptList(ns, ms, e)
    ensures Good(List(ms), e, inRep) && Kept(List(ns), List(ms), e)
  {
    hide MinLenList, MaxLenList, CharLenList, HasMemIn, NoMemInLookAll, GroupsOf, RefsOf, WellFormedAll, RepeatMarksAll;
    assert MinLenList(ms, e, 0) == MinLenList(ns, e, 0) && MaxLenList(ms, e, 0) <= MaxLenList(ns, e, 0);
  }

  lemma {:induction false} AltGood(ns: Nodes, e: Env, inRep: bool)
    requires ParsedAll(ns, e)
    ensures GoodAll(SetupAlt(ns, e, inRep), e, inRep) && KeptAlt(ns, SetupAlt(ns, e, inRep), e)
    decreases ns, 1
  {
    hide Good, Kept, Parsed, Setup;
    SetupGood(ns.car, e, inRep);
    var c := Setup(ns.car, e, inRep);
    if ns.Last? {
      LastKept(ns.car, c, e, inRep);
    } else {
      AltGood(ns.cdr, e, inRep);
      AltLinkKept(ns.car, c, ns.cdr, SetupAlt(ns.cdr, e, inRep), e, inRep);
    }
  }

  lemma AltLinkKept(n: Node, m: Node, ns: Nodes, ms: Nodes, e: Env, inRep: bool)
    requires Kept(n, m, e) && Good(m, e, inRep) && KeptAlt(ns, ms, e) && GoodAll(ms, e, inRep)
    ensures GoodAll(Link(m, ms), e, inRep) && KeptAlt(Link(n, ns), Link(m, ms), e)
  {
    hide MinLen, MaxLen, CharLen, HasMem, NoMemInLook, Groups, Refs, WellFormed, RepeatMarks;
  }

  lemma AltIs(ns: Nodes, ms: Nodes, e: Env, inRep: bool)
    requires GoodAll(ms, e, inRep) && KeptAlt(ns, ms, e)
    ensures Good(Alt(ms), e, inRep) && Kept(Alt(ns), Alt(ms), e)
  {
    hide MinLenAlt, MaxLenAlt, CharLenAlt, HasMemIn, NoMemInLookAll, GroupsOf, RefsOf, WellFormedAll, RepeatMarksAll;
  }

  // ---------------------------------------------------------------- repeated strings

  lemma {:induction false} CopiesLength(s: seq<byte>, k: nat)
    ensures |Copies(s, k)| == Scaled(|s|, k)
    decreases k
  {
    hide Scaled;
    if k == 0 {
      ScaledZero(|s|);
    } else {
      CopiesLength(s, k - 1);
      ScaledStep(|s|, k);
    }
  }

  /** Products of two 31-bit numbers are exact. */
  lemma SmallProduct(d: nat, k: nat)
    requires d < 0x8000_0000 && k < 0x8000_0000
    ensures DistanceMultiply(d, k) == Scaled(d, k) < TWO_63
  {
    if k > 0 {
      LengthFacts.MulMono(d, 0x8000_0000, k);
      LengthFacts.Quotient(d, k);
    }
  }

  /** What the analyses see of a list of two. */
  lemma PairIs(a: Node, b: Node, e: Env, inRep: bool)
    requires WellFormed(a, e) && WellFormed(b, e) && RepeatMarks(a, inRep) && RepeatMarks(b, inRep)
    ensures var m := List(Link(a, Last(b)));
      Good(m, e, inRep) && MinLen(m, e) == Wrap(Wrap(MinLen(a, e)) + MinLen(b, e))
      && MaxLen(m, e) == DistanceAdd(DistanceAdd(0, MaxLen(a, e)), MaxLen(b, e))
      && CharLen(m)
          == (if CharLen(a).Some? && CharLen(b).Some? then Some(CharLen(a).value + CharLen(b).value) else None)
      && HasMem(m) == (HasMem(a) || HasMem(b)) && NoMemInLook(m) == (NoMemInLook(a) && NoMemInLook(b))
      && Groups(m) == Groups(a) + Groups(b) && Refs(m) == Refs(a) + Refs(b)
  {
    hide MinLen, MaxLen, CharLen, HasMem, NoMemInLook, Groups, Refs, WellFormed, RepeatMarks, Wrap;
    PairParts(a, b, e, inRep);
    assert MinLenList(Last(b), e, Wrap(MinLen(a, e))) == Wrap(Wrap(MinLen(a, e)) + MinLen(b, e));
    assert MaxLenList(Last(b), e, DistanceAdd(0, MaxLen(a, e)))
        == DistanceAdd(DistanceAdd(0, MaxLen(a, e)), MaxLen(b, e));
  }

  lemma PairParts(a: Node, b: Node, e: Env, inRep: bool)
    ensures var ns := Link(a, Last(b)); var m := List(ns);
      WellFormed(m, e) == WellFormedAll(ns, e) && RepeatMarks(m, inRep) == RepeatMarksAll(ns, inRep) && Unlinked(m)
      && MinLen(m, e) == MinLenList(ns, e, 0) && MaxLen(m, e) == MaxLenList(ns, e, 0) && CharLen(m) == CharLenList(ns)
      && HasMem(m) == HasMemIn(ns) && NoMemInLook(m) == NoMemInLookAll(ns) && Groups(m) == GroupsOf(ns)
          && Refs(m) == RefsOf(ns)
  {
  }

  /** The lengths of a repeated string. */
  ghost predicate RunLengths(q: Node, e: Env)
    requires q.Quant? && q.target.Str?
  {
    var len := |q.target.s|;
    MinLen(q, e) == Scaled(len, q.lower) < TWO_63
    && (if Infinite(q.upper) then MaxLen(q, e) == (if len == 0 then 0 else INFINITE_DISTANCE)
        else q.upper >= 0 && MaxLen(q, e) == Scaled(len, q.upper) < TWO_63)
    && CharLen(q) == (if q.lower == q.upper then Some(Scaled(len, q.lower)) else None)
  }

  lemma RunFacts(q: Node, e: Env)
    requires q.Quant? && q.target.Str? && |q.target.s| < 0x8000_0000 && ProperCounts(q.lower, q.upper, q.greedy)
    ensures RunLengths(q, e) && !HasMem(q) && NoMemInLook(q) && Groups(q) == {} && Refs(q) == {}
  {
    SmallProduct(|q.target.s|, q.lower);
    ScaledZero(|q.target.s|);
    if !Infinite(q.upper) { SmallProduct(|q.target.s|, q.upper); }
  }

  /** The joined copies are one string. */
  lemma JoinedFacts(np: Node, e: Env, inRep: bool)
    requires np.Str? && |np.s| < 0x8000_0000
    ensures WellFormed(np, e) && RepeatMarks(np, inRep) && Unlinked(np)
    ensures MinLen(np, e) == MaxLen(np, e) == |np.s| && CharLen(np) == Some(|np.s|)
    ensures !HasMem(np) && NoMemInLook(np) && Groups(np) == {} && Refs(np) == {}
  {
  }

  lemma RestGood(q: Node, rest: Node, info: EmptyInfo, e: Env, inRep: bool)
    requires q.Quant? && q.target.Str? && 1 < q.lower && Parsed(q, e) && info == EmptyInfoOf(q, e)
    requires rest.Quant? && rest == Quant(q.target, rest.lower, rest.upper, q.greedy, info, inRep, None, None)
    requires rest.lower <= q.lower
    requires if Infinite(q.upper) then Infinite(rest.upper) else rest.lower <= rest.upper <= q.upper && 0 < rest.upper
    ensures WellFormed(rest, e) && RepeatMarks(rest, inRep)
  {
  }

  /** The lengths of the joined copies and of the rest add up. */
  lemma PairKept(q: Node, np: Node, rest: Node, i: nat, e: Env)
    requires q.Quant? && q.target.Str? && np.Str? && rest.Quant? && rest.target == q.target && 1 <= i <= q.lower
    requires i < q.upper || Infinite(q.upper)
    requires rest.lower == q.lower - i && rest.upper == if Infinite(q.upper) then q.upper else q.upper - i
    requires |np.s| == Scaled(|q.target.s|, i) && MinLen(np, e) == MaxLen(np, e) == |np.s|
        && CharLen(np) == Some(|np.s|)
    requires RunLengths(q, e) && RunLengths(rest, e)
    ensures Wrap(Wrap(MinLen(np, e)) + MinLen(rest, e)) == MinLen(q, e)
    ensures DistanceAdd(DistanceAdd(0, MaxLen(np, e)), MaxLen(rest, e)) <= MaxLen(q, e)
    ensures (if CharLen(rest).Some? then Some(CharLen(np).value + CharLen(rest).value) else None) == CharLen(q)
  {
    hide MinLen, MaxLen, CharLen, Wrap, Scaled;
    var len := |q.target.s|;
    ScaledAdd(len, i, rest.lower);
    WrapLess(MinLen(np, e));
    WrapLess(MinLen(np, e) + MinLen(rest, e));
    if Infinite(q.upper) {
      if len == 0 { ScaledZero(i); }
    } else {
      ScaledAdd(len, i, rest.upper);
    }
  }

  lemma OneTimes(len: nat)
    ensures Scaled(len, 1) == len
  {
  }

  lemma ShortCopies(s: seq<byte>, i: nat)
    requires |s| < 0x8000_0000 && (i == 1 || i * |s| <= EXPAND_STRING_MAX_LENGTH)
    ensures |Copies(s, i)| == Scaled(|s|, i) < 0x8000_0000
  {
    CopiesLength(s, i);
    if i == 1 { OneTimes(|s|); }
  }

  /** A repetition of what has become a string. */
  lemma StringGood(n: Node, c: Node, info: EmptyInfo, e: Env, inRep: bool)
    requires n.Quant? && c.Str? && 1 < n.lower && Parsed(n, e) && info == EmptyInfoOf(n, e)
    requires Good(c, e, true) && Kept(n.target, c, e)
    ensures var m := Expanded(Quant(c, n.lower, n.upper, n.greedy, info, inRep, None, None),
        CopyCount(n.lower, |c.s|, 1));
      Good(m, e, inRep) && Kept(n, m, e)
  {
    var q := Quant(c, n.lower, n.upper, n.greedy, info, inRep, None, None);
    StringLoopGood(n, c, e, inRep);
    ParsedQuant(n, e);
    assert WellFormed(c, e) && RepeatMarks(c, true) && MaxLen(c, e) <= MaxLen(n.target, e);
    BoundsKept(n, q, e);
    hide Parsed, Good, Kept, WellFormed, RepeatMarks, MinLen, MaxLen, CharLen, HasMem, NoMemInLook, Groups, Refs;
    hide EmptyInfoOf;
    hide Expanded;
    QuantGood(n, q, info, e, inRep);
    ExpandGood(q, info, CopyCount(n.lower, |c.s|, 1), e, inRep);
    KeptBoth(n, q, Expanded(q, CopyCount(n.lower, |c.s|, 1)), e);
  }

  /** A loop over what has become a string is like a parsed one. */
  lemma StringLoopGood(n: Node, c: Node, e: Env, inRep: bool)
    requires n.Quant? && c.Str? && Parsed(n, e) && Good(c, e, true) && Kept(n.target, c, e)
    ensures var q := Quant(c, n.lower, n.upper, n.greedy, EmptyInfoOf(n, e), inRep, None, None);
      Parsed(c, e) && Parsed(q, e) && EmptyInfoOf(q, e) == EmptyInfoOf(n, e) && WellFormed(q, e)
  {
    var q := Quant(c, n.lower, n.upper, n.greedy, EmptyInfoOf(n, e), inRep, None, None);
    ParsedQuant(n, e);
    assert WellFormed(c, e) && RepeatMarks(c, true) && MaxLen(c, e) <= MaxLen(n.target, e);
    assert Parsed(c, e) && EmptyInfoOf(q, e) == EmptyInfoOf(n, e) != EmptyMem;
    BoundsKept(n, q, e);
    StringParsed(q, e);
    hide Parsed, Kept, WellFormed, RepeatMarks, MinLen, MaxLen, CharLen, HasMem, NoMemInLook, Groups, Refs, EmptyInfoOf;
    QuantGood(n, q, q.emptyInfo, e, inRep);
  }

  lemma StringParsed(q: Node, e: Env)
    requires q.Quant? && Parsed(q.target, e) && ProperCounts(q.lower, q.upper, q.greedy) && !EmptyInfoOf(q, e).EmptyMem?
    ensures Parsed(q, e)
  {
  }

  lemma ExpandGood(q: Node, info: EmptyInfo, i: nat, e: Env, inRep: bool)
    requires q.Quant? && q.target.Str? && 1 < q.lower && Parsed(q, e) && info == EmptyInfoOf(q, e)
    requires 1 <= i <= q.lower && (i == 1 || i * |q.target.s| <= EXPAND_STRING_MAX_LENGTH)
    ensures var m := Expanded(Quant(q.target, q.lower, q.upper, q.greedy, info, inRep, None, None), i);
      Good(m, e, inRep) && Kept(q, m, e)
  {
    ShortCopies(q.target.s, i);
    JoinedGood(q, info, i, e, inRep);
  }

  lemma JoinedGood(q: Node, info: EmptyInfo, i: nat, e: Env, inRep: bool)
    requires q.Quant? && q.target.Str? && 1 < q.lower && Parsed(q, e) && info == EmptyInfoOf(q, e) && 1 <= i <= q.lower
    requires |Copies(q.target.s, i)| == Scaled(|q.target.s|, i) < 0x8000_0000
    ensures var m := Expanded(Quant(q.target, q.lower, q.upper, q.greedy, info, inRep, None, None), i);
      Good(m, e, inRep) && Kept(q, m, e)
  {
    var l, u := q.lower, q.upper;
    var np := Str(Copies(q.target.s, i));
    assert |q.target.s| < 0x8000_0000 && ProperCounts(l, u, q.greedy);
    var rest := Quant(q.target, l - i, if Infinite(u) then u else u - i, q.greedy, info, inRep, None, None);
    if i < u || Infinite(u) { RestGood(q, rest, info, e, inRep); }
    hide Parsed, EmptyInfoOf, MinLen, MaxLen, CharLen, HasMem, NoMemInLook, Groups, Refs, WellFormed, RepeatMarks;
    hide Copies, Scaled, RunLengths, Wrap, DistanceAdd;
    JoinedFacts(np, e, inRep);
    RunFacts(q, e);
    if i < u || Infinite(u) {
      RunFacts(rest, e);
      PairIs(np, rest, e, inRep);
      PairKept(q, np, rest, i, e);
    } else {
      assert i == l == u;
      WholeKept(q, np, i, e);
    }
  }

  /** All copies joined. */
  lemma WholeKept(q: Node, np: Node, i: nat, e: Env)
    requires q.Quant? && q.target.Str? && np.Str? && i == q.lower == q.upper && RunLengths(q, e)
    requires |np.s| == Scaled(|q.target.s|, i) && MinLen(np, e) == MaxLen(np, e) == |np.s|
        && CharLen(np) == Some(|np.s|)
    ensures MinLen(np, e) == MinLen(q, e) && MaxLen(np, e) == MaxLen(q, e) && CharLen(np) == CharLen(q)
  {
    hide MinLen, MaxLen, CharLen;
  }
}
