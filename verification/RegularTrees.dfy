/** The parse trees whose ways are exactly their words: what their loops may do when a turn consumes nothing. */
module RegularTrees {
  import opened Tree
  import opened Semantics
  import opened Lengths
  import opened Order
  import opened SetupTree
  import opened Preference
  import opened CountWords
  import opened Visits
  import opened Language
  import opened Remembered

  // ---------------------------------------------------------------- what the theorem is about

  /** No empty match visits a pushed group. */
  predicate Quiet(n: Node, e: Env) {
    Groups(n) !! e.btStart || Solid(n)
    || match n
       case Quant(target, _, _, _, _, _, _, _) => Quiet(target, e)
       case Group(num, _, _, target) => num !in e.btStart && Quiet(target, e)
       case List(elems) => QuietAll(elems, e)
       case Alt(elems) => QuietAll(elems, e)
       case _ => false
  }

  predicate QuietAll(ns: Nodes, e: Env) {
    match ns
    case Last(car) => Quiet(car, e)
    case Link(car, cdr) => Quiet(car, e) && QuietAll(cdr, e)
  }

  /** A loop that has to turn, reads captures to see whether its turns were empty, and cannot avoid to. */
  predicate Reading(n: Node, e: Env)
    requires n.Quant? && Parsed(n, e)
  {
    QuantParsed(n, e);
    var q := Remaining(n);
    1 <= q.lower && EmptyInfoOf(q, e).EmptyMem? && !PolicyIn(q, e).Free? && !Quiet(q.target, e) && !Idle(q.target, e)
  }

  /** Empty turns make no difference: loops that read captures have one group to read, and a count of at least 2 has a
      body that can be empty everywhere or nowhere. */
  predicate EvenTurns(n: Node, e: Env)
    requires n.Quant? && Parsed(n, e)
  {
    QuantParsed(n, e);
    var q := Remaining(n);
    (Reading(n, e) ==> LoneGroup(q.target, e))
    && (PolicyIn(q, e).Checked? && 2 <= q.lower ==> Nullable(q.target) || Solid(q.target))
  }

  /** The groups that loops over one group read. */
  function Loners(n: Node, e: Env): set<nat>
    requires Parsed(n, e)
  {
    match n
    case Quant(target, _, _, _, _, _, _, _) =>
      (if Reading(n, e) && target.Group? then {target.num} else {}) + Loners(target, e)
    case Group(_, _, _, target) => Loners(target, e)
    case Look(_, target, _) => Loners(target, e)
    case List(elems) => LonersOf(elems, e)
    case Alt(elems) => LonersOf(elems, e)
    case _ => {}
  }

  function LonersOf(ns: Nodes, e: Env): set<nat>
    requires ParsedAll(ns, e)
  {
    match ns
    case Last(car) => Loners(car, e)
    case Link(car, cdr) => Loners(car, e) + LonersOf(cdr, e)
  }

  /** These groups hold no empty capture. */
  predicate Fresh(gs: set<nat>, x: St) { forall g: nat :: g in gs ==> !Blank(Get(x.caps, g)) }

  /** No atomic group, no back-reference and even turns.  A group that a loop reads is not captured before the loop
      starts, and no line anchor meets the end of a `.*` with nothing consumed in between. */
  predicate Regular(n: Node, e: Env)
    requires Parsed(n, e)
  {
    match n
    case Quant(target, _, _, _, _, _, _, _) =>
      Regular(target, e) && EvenTurns(n, e) && Loners(target, e) == {} && (Keeping(target) || !LineFirst(target))
    case Group(_, _, _, target) => Regular(target, e)
    case Look(_, target, _) => Regular(target, e)
    case List(elems) => RegularAll(elems, e) && Apart(elems, e) && Settled(elems)
    case Alt(elems) => RegularAll(elems, e)
    case _ => n.Str? || n.CClass? || n.Any? || n.Anchor?
  }

  predicate RegularAll(ns: Nodes, e: Env)
    requires ParsedAll(ns, e)
  {
    match ns
    case Last(car) => Regular(car, e)
    case Link(car, cdr) => Regular(car, e) && RegularAll(cdr, e)
  }

  predicate Apart(ns: Nodes, e: Env)
    requires ParsedAll(ns, e)
  {
    ns.Link? ==> LonersOf(ns.cdr, e) !! Groups(ns.car) && Apart(ns.cdr, e)
  }

  /** A line anchor that may come first only stands behind what keeps the remembered position right. */
  predicate Settled(ns: Nodes) { ns.Link? ==> (Keeping(ns.car) || !LineFirstIn(ns.cdr)) && Settled(ns.cdr) }

  // ---------------------------------------------------------------- which trees are regular

  /** A repetition that has to turn, over a body whose empty matches may visit pushed groups. */
  predicate Captive(n: Node, e: Env) {
    n.Quant? && 0 < n.lower && !Quiet(n.target, e) && !Idle(n.target, e)
  }

  function Captives(n: Node, e: Env): set<nat> {
    match n
    case Quant(target, _, _, _, _, _, _, _) =>
      (if Captive(n, e) && target.Group? then {target.num} else {}) + Captives(target, e)
    case Group(_, _, _, target) => Captives(target, e)
    case Look(_, target, _) => Captives(target, e)
    case List(elems) => CaptivesOf(elems, e)
    case Alt(elems) => CaptivesOf(elems, e)
    case _ => {}
  }

  function CaptivesOf(ns: Nodes, e: Env): set<nat> {
    match ns
    case Last(car) => Captives(car, e)
    case Link(car, cdr) => Captives(car, e) + CaptivesOf(cdr, e)
  }

  /** Repetitions that have to turn can make empty turns without a visit, make none, or turn over one group that is not
      captured before; no lengths, policies or code sizes are looked at. */
  predicate Calm(n: Node, e: Env) {
    match n
    case Quant(target, _, _, _, _, _, _, _) =>
      Calm(target, e) && Captives(target, e) == {} && (Captive(n, e) ==> LoneGroup(target, e))
    case Group(_, _, _, target) => Calm(target, e)
    case List(elems) => CalmAll(elems, e) && CalmApart(elems, e)
    case Alt(elems) => CalmAll(elems, e)
    case _ => true
  }

  predicate CalmAll(ns: Nodes, e: Env) {
    match ns
    case Last(car) => Calm(car, e)
    case Link(car, cdr) => Calm(car, e) && CalmAll(cdr, e)
  }

  predicate CalmApart(ns: Nodes, e: Env) {
    ns.Link? ==> CaptivesOf(ns.cdr, e) !! Groups(ns.car) && CalmApart(ns.cdr, e)
  }

  lemma {:induction false} LonersCaptive(n: Node, e: Env)
    requires Parsed(n, e)
    ensures Loners(n, e) <= Captives(n, e)
    decreases n
  {
    hide PolicyIn, EmptyInfoOf, Quiet, Idle;
    match n
    case Quant(target, _, _, _, _, _, _, _) => LonersCaptive(target, e);
    case Group(_, _, _, target) => LonersCaptive(target, e);
    case Look(_, target, _) => LonersCaptive(target, e);
    case List(elems) => AllCaptive(elems, e);
    case Alt(elems) => AllCaptive(elems, e);
    case _ =>
  }

  lemma {:induction false} AllCaptive(ns: Nodes, e: Env)
    requires ParsedAll(ns, e)
    ensures LonersOf(ns, e) <= CaptivesOf(ns, e)
    decreases ns
  {
    hide Parsed, Loners, Captives;
    LonersCaptive(ns.car, e);
    if ns.Link? { AllCaptive(ns.cdr, e); }
  }

  lemma {:induction false} NoLineFirst(n: Node)
    requires AnchorFree(n)
    ensures !LineFirst(n)
    decreases n
  {
    match n
    case Quant(target, _, _, _, _, _, _, _) => NoLineFirst(target);
    case Group(_, _, _, target) => NoLineFirst(target);
    case List(elems) => NoneLineFirst(elems);
    case Alt(elems) => NoneLineFirst(elems);
    case _ =>
  }

  lemma {:induction false} NoneLineFirst(ns: Nodes)
    requires AnchorFreeAll(ns)
    ensures !LineFirstIn(ns) && !LineFirstSome(ns) && Settled(ns)
    decreases ns
  {
    NoLineFirst(ns.car);
    if ns.Link? { NoneLineFirst(ns.cdr); }
  }

  lemma {:induction false} AnchorFreeRegular(n: Node, e: Env)
    requires Parsed(n, e) && AnchorFree(n) && Calm(n, e)
    ensures Regular(n, e)
    decreases n
  {
    match n
    case Quant(target, _, _, _, _, _, _, _) =>
      AnchorFreeRegular(target, e);
      AnchorFreeEven(target);
      LonersCaptive(target, e);
      NoLineFirst(target);
      CalmEven(n, e);
    case Group(_, _, _, target) => AnchorFreeRegular(target, e);
    case List(elems) =>
      AllRegular(elems, e);
      AllApart(elems, e);
      NoneLineFirst(elems);
    case Alt(elems) => AllRegular(elems, e);
    case _ =>
  }

  lemma CalmEven(n: Node, e: Env)
    requires n.Quant? && Parsed(n, e) && (Nullable(n.target) || Solid(n.target))
    requires Captive(n, e) ==> LoneGroup(n.target, e)
    ensures EvenTurns(n, e)
  {
    hide Parsed, PolicyIn, EmptyInfoOf, Quiet, Idle, LoneGroup, Nullable, Solid;
  }

  lemma {:induction false} AllRegular(ns: Nodes, e: Env)
    requires ParsedAll(ns, e) && AnchorFreeAll(ns) && CalmAll(ns, e)
    ensures RegularAll(ns, e)
    decreases ns
  {
    hide Parsed, Regular, Calm;
    AnchorFreeRegular(ns.car, e);
    if ns.Link? { AllRegular(ns.cdr, e); }
  }

  lemma {:induction false} AllApart(ns: Nodes, e: Env)
    requires ParsedAll(ns, e) && CalmApart(ns, e)
    ensures Apart(ns, e)
    decreases ns
  {
    hide Parsed, Loners, Captives, Groups;
    if ns.Link? {
      AllCaptive(ns.cdr, e);
      AllApart(ns.cdr, e);
    }
  }

  /** Where no group is pushed there is nothing to read. */
  lemma {:induction false} NothingPushed(n: Node, e: Env)
    requires Parsed(n, e) && Groups(n) !! e.btStart
    ensures Loners(n, e) == {} && Quiet(n, e)
    decreases n
  {
    hide PolicyIn, EmptyInfoOf, Idle;
    match n
    case Quant(target, _, _, _, _, _, _, _) => NothingPushed(target, e);
    case Group(_, _, _, target) => NothingPushed(target, e);
    case Look(_, target, _) => NothingPushed(target, e);
    case List(elems) => NonePushed(elems, e);
    case Alt(elems) => NonePushed(elems, e);
    case _ =>
  }

  lemma {:induction false} NonePushed(ns: Nodes, e: Env)
    requires ParsedAll(ns, e) && GroupsOf(ns) !! e.btStart
    ensures LonersOf(ns, e) == {} && Apart(ns, e)
    decreases ns
  {
    hide Parsed, Loners;
    NothingPushed(ns.car, e);
    if ns.Link? { NonePushed(ns.cdr, e); }
  }
}
