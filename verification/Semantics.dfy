/** What a tree means: the list of all ways it can match from a given state, in the order of preference in
    which the backtracking matcher finds them.  An iteration that consumed nothing ends its loop. */
module Semantics {
  import opened Common
  import opened Tree
  import Codegen

  /** A capture: never set, opened at a position, or closed. */
  datatype Cap = Unset | Open(start: nat) | Closed(start: nat, end: nat)

  /** One visit to a pushing group, with the capture it replaced; the capture-aware null check reads these. */
  datatype Visit = Visit(num: nat, was: Cap)

  /** The registers of the matcher that a node can change: the position, the position match_at remembers as
      that of the previous character, the start of the reported match, the captures and the visits so far. */
  datatype St = St(s: nat, prev: int, keep: nat, caps: map<nat, Cap>, log: seq<Visit>)

  function Get(caps: map<nat, Cap>, num: nat): Cap {
    if num in caps then caps[num] else Unset
  }

  function Advance(x: St, n: nat): St {
    if n == 0 then x else x.(s := x.s + n, prev := x.s + n - 1)
  }

  /** How many characters are left; the measure of every unbounded loop. */
  function Left(t: Subject, x: St): nat {
    if x.s <= t.End() then t.End() - x.s else 0
  }

  // -------------------------------------------------------------------- leaves

  predicate ClassHas(bs: seq<byte>, neg: bool, c: byte) {
    |bs| == 32 && BitAt(bs, c) != neg
  }

  predicate AnyMatches(t: Subject, ml: bool, x: St) {
    x.s < t.End() && (ml || !t.IsNewline(x.s))
  }

  function BackrefMeaning(t: Subject, num: nat, x: St): seq<St> {
    match Get(x.caps, num)
    case Closed(start, end) =>
      if start <= end <= t.End() && t.Has(x.s, t.data[start..end])
      then [AfterBackref(x, end - start)] else []
    case _ => []
  }

  /** match_at leaves `sprev` on the current position when the group was empty. */
  function AfterBackref(x: St, n: nat): St {
    x.(s := x.s + n, prev := if n == 0 then x.s else x.s + n - 1)
  }

  predicate AnchorHolds(kind: AnchorKind, t: Subject, x: St) {
    match kind
    case BeginBuf => x.s == 0
    case EndBuf => x.s == t.End()
    case BeginLine => AtLineStart(t, x)
    case EndLine => if x.s == t.End() then !t.noteol else t.IsNewline(x.s)
    case SemiEndBuf => if x.s == t.End() then !t.noteol else t.IsNewline(x.s) && x.s + 1 == t.End()
    case BeginPosition => x.s == t.gpos
    case AnyCharStar => x.s == t.gpos || AtLineStart(t, x)
    case Keep => true
  }

  predicate AtLineStart(t: Subject, x: St) {
    if x.s == 0 then !t.notbol else t.IsNewline(x.prev)
  }

  function AnchorMeaning(kind: AnchorKind, t: Subject, x: St): seq<St> {
    if !AnchorHolds(kind, t, x) then []
    else if kind == Keep then [x.(keep := x.s)] else [x]
  }

  /** The opcodes for `.*`: one way for every length, the longest first.  Reaching the end of the text
      leaves `sprev` where the opcode began; `peek` drops the ways whose next character is another one. */
  function StarMeaning(t: Subject, ml: bool, peek: Option<byte>, x: St, begin: nat): seq<St>
    decreases Left(t, x)
  {
    if x.s < t.End() then
      var here := if peek.None? || peek.value == t.At(x.s) then [x] else [];
      if !ml && t.IsNewline(x.s) then here
      else StarMeaning(t, ml, peek, Advance(x, 1), begin) + here
    else [x.(prev := begin)]
  }

  // -------------------------------------------------------------------- loops

  /** What happens after one iteration of a loop. */
  datatype Turn = Again | Leave | Reject

  /** OP_NULL_CHECK_END and OP_NULL_CHECK_END_MEMST. */
  function TurnOf(q: Node, x: St, y: St): Turn
    requires q.Quant?
  {
    if q.emptyInfo.NotEmpty? || y.s != x.s then Again
    else if q.emptyInfo.Empty? then Leave
    else if |x.log| <= |y.log| then MemTurn(y.log[|x.log|..], y.s, false) else Leave
  }

  /** STACK_NULL_CHECK_MEMST: the iteration counts as empty when every group it visited held an empty capture
      before; an empty capture elsewhere makes the match fail. */
  function MemTurn(visits: seq<Visit>, s: nat, moved: bool): Turn {
    if visits == [] then (if moved then Reject else Leave)
    else match visits[0].was
      case Closed(start, end) =>
        if start != end then Again else MemTurn(visits[1..], s, moved || end != s)
      case _ => Again
  }

  /** The groups whose capture is not the empty one at the current position. */
  function Dirty(gs: set<nat>, x: St): set<nat> {
    set g | g in gs && Get(x.caps, g) != Closed(x.s, x.s)
  }

  /** An unbounded loop only turns again on progress; WellFormed trees always make some. */
  predicate Progress(q: Node, t: Subject, x: St, y: St)
    requires q.Quant?
  {
    Left(t, y) < Left(t, x)
    || (Left(t, y) == Left(t, x) && |Dirty(Groups(q.target), y)| < |Dirty(Groups(q.target), x)|)
  }

  function Meaning(n: Node, t: Subject, x: St): seq<St>
    decreases n, 5
  {
    match n
    case Str(s) => if t.Has(x.s, s) then [Advance(x, |s|)] else []
    case CClass(bs, neg) => if x.s < t.End() && ClassHas(bs, neg, t.At(x.s)) then [Advance(x, 1)] else []
    case Any(ml) => if AnyMatches(t, ml, x) then [Advance(x, 1)] else []
    case Backref(num) => BackrefMeaning(t, num, x)
    case Quant(_, _, _, _, _, _, _, _) => QuantMeaning(n, t, x)
    case Group(num, pushStart, _, target) => CloseAll(num, Meaning(target, t, OpenGroup(num, pushStart, x)))
    case Atomic(target, simple) =>
      if simple && target.Quant? then
        AtomicLoopAll(target.target, t, TimesMeaning(target.target, t, target.lower, [x]))
      else First(Meaning(target, t, x))
    case Look(look, target, charLen) =>
      (match look
       case Ahead => Returned(x, Meaning(target, t, x))
       case AheadNot => if Meaning(target, t, x) == [] then [x] else []
       case Behind => if x.s < charLen then [] else Meaning(target, t, StepBack(x, charLen))
       case BehindNot =>
         if x.s < charLen || Meaning(target, t, StepBack(x, charLen)) == [] then [x] else [])
    case Anchor(kind) => AnchorMeaning(kind, t, x)
    case List(elems) => ListMeaning(elems, t, x)
    case Alt(elems) => AltMeaning(elems, t, x)
  }

  function ListMeaning(ns: Nodes, t: Subject, x: St): seq<St>
    decreases ns, 5
  {
    match ns
    case Last(car) => Meaning(car, t, x)
    case Link(car, cdr) => ListMeaningAll(cdr, t, Meaning(car, t, x))
  }

  function ListMeaningAll(ns: Nodes, t: Subject, xs: seq<St>): seq<St>
    decreases ns, 6, |xs|
  {
    if xs == [] then [] else ListMeaning(ns, t, xs[0]) + ListMeaningAll(ns, t, xs[1..])
  }

  function AltMeaning(ns: Nodes, t: Subject, x: St): seq<St>
    decreases ns, 5
  {
    match ns
    case Last(car) => Meaning(car, t, x)
    case Link(car, cdr) => Meaning(car, t, x) + AltMeaning(cdr, t, x)
  }

  function MeaningAll(n: Node, t: Subject, xs: seq<St>): seq<St>
    decreases n, 6, |xs|
  {
    if xs == [] then [] else Meaning(n, t, xs[0]) + MeaningAll(n, t, xs[1..])
  }

  /** `k` copies in a row. */
  function TimesMeaning(n: Node, t: Subject, k: nat, xs: seq<St>): seq<St>
    decreases n, 7, k
  {
    if k == 0 then xs else TimesMeaning(n, t, k - 1, MeaningAll(n, t, xs))
  }

  function OpenGroup(num: nat, pushStart: bool, x: St): St {
    x.(caps := x.caps[num := Open(x.s)],
       log := if pushStart then x.log + [Visit(num, Get(x.caps, num))] else x.log)
  }

  function CloseGroup(num: nat, y: St): St {
    match Get(y.caps, num)
    case Open(start) => y.(caps := y.caps[num := Closed(start, y.s)])
    case _ => y
  }

  function CloseAll(num: nat, ys: seq<St>): seq<St> {
    if ys == [] then [] else [CloseGroup(num, ys[0])] + CloseAll(num, ys[1..])
  }

  function First(ys: seq<St>): seq<St> {
    if ys == [] then [] else [ys[0]]
  }

  /** After a look-ahead the position is the old one; captures and \K inside it stay. */
  function Returned(x: St, ys: seq<St>): seq<St> {
    if ys == [] then [] else [ys[0].(s := x.s, prev := x.prev)]
  }

  function StepBack(x: St, n: nat): St
    requires n <= x.s
  {
    x.(s := x.s - n, prev := x.s - n - 1)
  }

  /** (?>a*) compiled as PUSH a POP JUMP: the longest run of a simple target. */
  function AtomicLoop(n: Node, t: Subject, x: St): St
    decreases n, 7, Left(t, x)
  {
    var ys := Meaning(n, t, x);
    if ys == [] || Left(t, ys[0]) >= Left(t, x) then x else AtomicLoop(n, t, ys[0])
  }

  function AtomicLoopAll(n: Node, t: Subject, xs: seq<St>): seq<St>
    decreases n, 8, |xs|
  {
    if xs == [] then [] else [AtomicLoop(n, t, xs[0])] + AtomicLoopAll(n, t, xs[1..])
  }

  function QuantMeaning(q: Node, t: Subject, x: St): seq<St>
    requires q.Quant?
    decreases q, 4
  {
    match Codegen.ShapeOf(q)
    case AnyStar => StarAll(q, t, TimesMeaning(q.target, t, q.lower, [x]))
    case EnterLoop => LoopTurns(q, t, x, Meaning(q.target, t, x))
    case PushLoop => LoopAll(q, t, TimesMeaning(q.target, t, q.lower, [x]))
    case Expand => OptionalAll(q.target, t, Max(q.upper - q.lower, 0), TimesMeaning(q.target, t, q.lower, [x]))
    case LazyOption => [x] + Meaning(q.target, t, x)
    case Counter =>
      var first := CountTurns(q, t, x, 0, Meaning(q.target, t, x));
      if q.lower > 0 then first else if q.greedy then first + [x] else [x] + first
  }

  function StarAll(q: Node, t: Subject, xs: seq<St>): seq<St>
    requires q.Quant?
  {
    if xs == [] then []
    else StarMeaning(t, q.target.Any? && q.target.multiline, q.nextHead, xs[0], xs[0].s) + StarAll(q, t, xs[1..])
  }

  /** The head of a push/jump loop: body first or exit first; a greedy loop may look at the next character. */
  function Loop(q: Node, t: Subject, x: St): seq<St>
    requires q.Quant?
    decreases q, 2, Left(t, x), |Dirty(Groups(q.target), x)|, 2, 0
  {
    if !q.greedy then [x] + LoopTurns(q, t, x, Meaning(q.target, t, x))
    else if q.headExact.Some? then
      if x.s < t.End() && t.At(x.s) == q.headExact.value
      then LoopTurns(q, t, x, Meaning(q.target, t, x)) + [x] else [x]
    else if q.nextHead.Some? && t.At(x.s) != q.nextHead.value then
      LoopTurns(q, t, x, Meaning(q.target, t, x))
    else LoopTurns(q, t, x, Meaning(q.target, t, x)) + [x]
  }

  /** The loop continued after every way `ys` of running the body from x. */
  function LoopTurns(q: Node, t: Subject, x: St, ys: seq<St>): seq<St>
    requires q.Quant?
    decreases q, 2, Left(t, x), |Dirty(Groups(q.target), x)|, 1, |ys|
  {
    if ys == [] then [] else LoopTurn(q, t, x, ys[0]) + LoopTurns(q, t, x, ys[1..])
  }

  function LoopTurn(q: Node, t: Subject, x: St, y: St): seq<St>
    requires q.Quant?
    decreases q, 2, Left(t, x), |Dirty(Groups(q.target), x)|, 0, 0
  {
    match TurnOf(q, x, y)
    case Again => if Progress(q, t, x, y) then Loop(q, t, y) else [y]
    case Leave => [y]
    case Reject => []
  }

  function LoopAll(q: Node, t: Subject, xs: seq<St>): seq<St>
    requires q.Quant?
    decreases q, 3, |xs|
  {
    if xs == [] then [] else Loop(q, t, xs[0]) + LoopAll(q, t, xs[1..])
  }

  /** Up to k further optional copies. */
  function Optional(n: Node, t: Subject, k: nat, x: St): seq<St>
    decreases n, 8, k, 0
  {
    if k == 0 then [x] else OptionalAll(n, t, k - 1, Meaning(n, t, x)) + [x]
  }

  function OptionalAll(n: Node, t: Subject, k: nat, xs: seq<St>): seq<St>
    decreases n, 8, k, 1, |xs|
  {
    if xs == [] then [] else Optional(n, t, k, xs[0]) + OptionalAll(n, t, k, xs[1..])
  }

  /** The counter loop OP_REPEAT ... OP_REPEAT_INC after `c` full iterations and one more run of the body. */
  function CountTurns(q: Node, t: Subject, x: St, c: nat, ys: seq<St>): seq<St>
    requires q.Quant? && (c == 0 || c < Codegen.UpperCount(q.upper))
    decreases q, 3, Codegen.UpperCount(q.upper) - c, 1, |ys|
  {
    if ys == [] then []
    else
      (match TurnOf(q, x, ys[0])
       case Again => Counted(q, t, c + 1, ys[0])
       case Leave => [ys[0]]
       case Reject => [])
      + CountTurns(q, t, x, c, ys[1..])
  }

  /** What OP_REPEAT_INC does once the count is c. */
  function Counted(q: Node, t: Subject, c: nat, y: St): seq<St>
    requires q.Quant? && 0 < c
    decreases q, 3, Max(Codegen.UpperCount(q.upper) - c + 1, 0), 0, 0
  {
    if c >= Codegen.UpperCount(q.upper) then [y]
    else
      var more := CountTurns(q, t, y, c, Meaning(q.target, t, y));
      if c < q.lower then more else if q.greedy then more + [y] else [y] + more
  }
}
