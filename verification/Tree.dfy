/** The parse tree handed to the compiler (regparse.h:87-200), for a single-byte encoding, case-sensitive
    matching and no subexpression calls. */
module Tree {
  import opened Common

  const REPEAT_INFINITE := -1

  /** What setup_tree found out about a repeated target (regparse.h:110-113). */
  datatype EmptyInfo = NotEmpty | Empty | EmptyMem

  datatype LookKind = Ahead | AheadNot | Behind | BehindNot

  datatype AnchorKind =
    | BeginBuf | EndBuf | BeginLine | EndLine | SemiEndBuf | BeginPosition | AnyCharStar | Keep

  datatype Node =
    | Str(s: seq<byte>)
    | CClass(bs: seq<byte>, neg: bool)
    | Any(multiline: bool)
    | Backref(num: nat)
    | Quant(target: Node, lower: nat, upper: int, greedy: bool,
            emptyInfo: EmptyInfo, inRepeat: bool,
            headExact: Option<byte>, nextHead: Option<byte>)
    | Group(num: nat, pushStart: bool, pushEnd: bool, target: Node)
    | Atomic(target: Node, simple: bool)
    | Look(look: LookKind, target: Node, charLen: nat)
    | Anchor(kind: AnchorKind)
    | List(elems: Nodes)
    | Alt(elems: Nodes)

  /** A cons list that is never empty, as NT_LIST and NT_ALT cells are. */
  datatype Nodes = Last(car: Node) | Link(car: Node, cdr: Nodes)

  predicate Infinite(upper: int) { upper == REPEAT_INFINITE }

  /** BITSET_AT: bit c of a 256-bit set stored in 32 bytes. */
  predicate BitAt(bs: seq<byte>, c: byte)
    requires |bs| == 32
  {
    (bs[c / 8] / Pow2(c % 8)) % 2 == 1
  }

  function Pow2(k: nat): (r: nat)
    ensures r > 0
  {
    if k == 0 then 1 else 2 * Pow2(k - 1)
  }

  /** IS_NODE_TYPE_SIMPLE. */
  predicate SimpleType(n: Node) {
    n.Str? || n.CClass? || n.Any? || n.Backref?
  }

  /** The capture groups of a node. */
  function Groups(n: Node): set<nat> {
    match n
    case Quant(target, _, _, _, _, _, _, _) => Groups(target)
    case Group(num, _, _, target) => {num} + Groups(target)
    case Atomic(target, _) => Groups(target)
    case Look(_, target, _) => Groups(target)
    case List(elems) => GroupsOf(elems)
    case Alt(elems) => GroupsOf(elems)
    case _ => {}
  }

  function GroupsOf(ns: Nodes): set<nat> {
    match ns
    case Last(car) => Groups(car)
    case Link(car, cdr) => Groups(car) + GroupsOf(cdr)
  }

  /** The groups a node refers back to. */
  function Refs(n: Node): set<nat> {
    match n
    case Backref(num) => {num}
    case Quant(target, _, _, _, _, _, _, _) => Refs(target)
    case Group(_, _, _, target) => Refs(target)
    case Atomic(target, _) => Refs(target)
    case Look(_, target, _) => Refs(target)
    case List(elems) => RefsOf(elems)
    case Alt(elems) => RefsOf(elems)
    case _ => {}
  }

  function RefsOf(ns: Nodes): set<nat> {
    match ns
    case Last(car) => Refs(car)
    case Link(car, cdr) => Refs(car) + RefsOf(cdr)
  }

  /** The repeat counts the parser produces: lower <= upper, both C ints; a lazy {0,0} is left out because
      OP_REPEAT_NG runs its body all the same (see the README). */
  predicate ProperCounts(lower: nat, upper: int, greedy: bool) {
    lower < 0x8000_0000
    && (Infinite(upper) || lower <= upper < 0x8000_0000)
    && (greedy || upper != 0)
  }

  predicate Proper(n: Node) {
    match n
    case Quant(target, lower, upper, greedy, _, _, _, _) => ProperCounts(lower, upper, greedy) && Proper(target)
    case Group(_, _, _, target) => Proper(target)
    case Atomic(target, _) => Proper(target)
    case Look(_, target, _) => Proper(target)
    case List(elems) => ProperAll(elems)
    case Alt(elems) => ProperAll(elems)
    case _ => true
  }

  predicate ProperAll(ns: Nodes) {
    match ns
    case Last(car) => Proper(car)
    case Link(car, cdr) => Proper(car) && ProperAll(cdr)
  }
}
