/** The language of a parse tree, with no states, no preference and no opcodes: from which position to which it matches.
    For trees without atomic groups and back-references, match_at finds a match exactly when there is one. */
module Language {
  import opened Common
  import opened Tree
  import opened Semantics
  import opened Lengths
  import opened SetupTree
  import opened LoopWords

  /** A line starts at i. */
  predicate LineStartAt(t: Subject, i: nat) {
    if i == 0 then !t.notbol else i <= |t.data| && t.data[i - 1] == 0x0a
  }

  /** The anchors, read off the text. */
  predicate HoldsAt(kind: AnchorKind, t: Subject, i: nat) {
    match kind
    case BeginBuf => i == 0
    case EndBuf => i == |t.data|
    case BeginLine => LineStartAt(t, i)
    case EndLine => if i == |t.data| then !t.noteol else i < |t.data| && t.data[i] == 0x0a
    case SemiEndBuf => if i == |t.data| then !t.noteol else i + 1 == |t.data| && t.data[i] == 0x0a
    case BeginPosition => i == t.gpos
    case AnyCharStar => i == t.gpos || LineStartAt(t, i)
    case Keep => true
  }

  ghost predicate In(n: Node, t: Subject, i: nat, j: nat)
    decreases n, 1
  {
    match n
    case Str(s) => i + |s| <= |t.data| && t.data[i..i + |s|] == s && j == i + |s|
    case CClass(bs, neg) => i < t.End() && ClassHas(bs, neg, t.At(i)) && j == i + 1
    case Any(ml) => i < |t.data| && (ml || t.data[i] != 0x0a) && j == i + 1
    case Quant(target, _, _, _, _, _, _, _) => exists k: nat :: Allowed(n, k) && Turns(Words(target, t), k, i, j)
    case Group(_, _, _, target) => In(target, t, i, j)
    case Look(look, target, _) =>
      j == i
      && (match look
          case Ahead => Starting(Words(target, t), i)
          case AheadNot => !Starting(Words(target, t), i)
          case Behind => Ending(Words(target, t), i)
          case BehindNot => !Ending(Words(target, t), i))
    case Anchor(kind) => HoldsAt(kind, t, i) && j == i
    case List(elems) => InList(elems, t, i, j)
    case Alt(elems) => InAlt(elems, t, i, j)
    case _ => false
  }

  ghost predicate AltEndsAt(ns: Nodes, t: Subject, j: nat)
    decreases ns, 2
  {
    match ns
    case Last(car) => Ending(Words(car, t), j)
    case Link(car, cdr) => Ending(Words(car, t), j) || AltEndsAt(cdr, t, j)
  }

  ghost function Words(n: Node, t: Subject): Rel
    decreases n, 2
  {
    (i: nat, j: nat) => In(n, t, i, j)
  }

  ghost predicate InList(ns: Nodes, t: Subject, i: nat, j: nat)
    decreases ns, 1
  {
    match ns
    case Last(car) => In(car, t, i, j)
    case Link(car, cdr) => exists m: nat :: In(car, t, i, m) && InList(cdr, t, m, j)
  }

  ghost predicate InAlt(ns: Nodes, t: Subject, i: nat, j: nat)
    decreases ns, 1
  {
    match ns
    case Last(car) => In(car, t, i, j)
    case Link(car, cdr) => In(car, t, i, j) || InAlt(cdr, t, i, j)
  }

  // ---------------------------------------------------------------- empty words

  /** The node matches the empty string at every position. */
  predicate Nullable(n: Node) {
    match n
    case Str(s) => s == []
    case Quant(target, lower, _, _, _, _, _, _) => lower == 0 || Nullable(target)
    case Group(_, _, _, target) => Nullable(target)
    case Anchor(kind) => kind.Keep?
    case List(elems) => NullableAll(elems)
    case Alt(elems) => NullableSome(elems)
    case _ => false
  }

  predicate NullableAll(ns: Nodes) {
    match ns
    case Last(car) => Nullable(car)
    case Link(car, cdr) => Nullable(car) && NullableAll(cdr)
  }

  predicate NullableSome(ns: Nodes) {
    match ns
    case Last(car) => Nullable(car)
    case Link(car, cdr) => Nullable(car) || NullableSome(cdr)
  }

  /** The node matches the empty string nowhere. */
  predicate Solid(n: Node) {
    match n
    case Str(s) => s != []
    case CClass(_, _) => true
    case Any(_) => true
    case Quant(target, lower, _, _, _, _, _, _) => 0 < lower && Solid(target)
    case Group(_, _, _, target) => Solid(target)
    case List(elems) => SolidSome(elems)
    case Alt(elems) => SolidAll(elems)
    case _ => false
  }

  predicate SolidSome(ns: Nodes) {
    match ns
    case Last(car) => Solid(car)
    case Link(car, cdr) => Solid(car) || SolidSome(cdr)
  }

  predicate SolidAll(ns: Nodes) {
    match ns
    case Last(car) => Solid(car)
    case Link(car, cdr) => Solid(car) && SolidAll(cdr)
  }

  /** No anchor but \K, no look-around, no atomic group and no back-reference. */
  predicate AnchorFree(n: Node) {
    match n
    case Quant(target, _, _, _, _, _, _, _) => AnchorFree(target)
    case Group(_, _, _, target) => AnchorFree(target)
    case Anchor(kind) => kind.Keep?
    case List(elems) => AnchorFreeAll(elems)
    case Alt(elems) => AnchorFreeAll(elems)
    case _ => n.Str? || n.CClass? || n.Any?
  }

  predicate AnchorFreeAll(ns: Nodes) {
    match ns
    case Last(car) => AnchorFree(car)
    case Link(car, cdr) => AnchorFree(car) && AnchorFreeAll(cdr)
  }

  /** Without anchors, a node that can be empty somewhere can be empty everywhere. */
  lemma {:induction false} AnchorFreeEven(n: Node)
    requires AnchorFree(n)
    ensures Nullable(n) || Solid(n)
    decreases n
  {
    match n
    case Quant(target, _, _, _, _, _, _, _) => AnchorFreeEven(target);
    case Group(_, _, _, target) => AnchorFreeEven(target);
    case List(elems) => AllEven(elems);
    case Alt(elems) => AllEven(elems);
    case _ =>
  }

  lemma {:induction false} AllEven(ns: Nodes)
    requires AnchorFreeAll(ns)
    ensures (NullableAll(ns) || SolidSome(ns)) && (NullableSome(ns) || SolidAll(ns))
    decreases ns
  {
    AnchorFreeEven(ns.car);
    if ns.Link? { AllEven(ns.cdr); }
  }

  lemma {:induction false} NullableIn(n: Node, e: Env, t: Subject, i: nat)
    requires Parsed(n, e) && Nullable(n) && i <= t.End()
    ensures In(n, t, i, i)
    decreases n
  {
    match n
    case Str(_) => assert t.data[i..i] == [];
    case Quant(target, lower, _, _, _, _, _, _) =>
      if lower > 0 { NullableIn(target, e, t, i); }
      IdleTurns(Words(target, t), lower, i);
      assert Allowed(n, lower);
    case Group(_, _, _, target) => NullableIn(target, e, t, i);
    case Anchor(_) =>
    case List(elems) => NullableList(elems, e, t, i);
    case Alt(elems) => NullableAlt(elems, e, t, i);
  }

  lemma {:induction false} NullableList(ns: Nodes, e: Env, t: Subject, i: nat)
    requires ParsedAll(ns, e) && NullableAll(ns) && i <= t.End()
    ensures InList(ns, t, i, i)
    decreases ns
  {
    NullableIn(ns.car, e, t, i);
    if ns.Link? { NullableList(ns.cdr, e, t, i); }
  }

  lemma {:induction false} NullableAlt(ns: Nodes, e: Env, t: Subject, i: nat)
    requires ParsedAll(ns, e) && NullableSome(ns) && i <= t.End()
    ensures InAlt(ns, t, i, i)
    decreases ns
  {
    if Nullable(ns.car) { NullableIn(ns.car, e, t, i); } else { NullableAlt(ns.cdr, e, t, i); }
  }

  /** Words go forward and stay in the text. */
  lemma {:induction false} WordWithin(n: Node, t: Subject, i: nat, j: nat)
    requires In(n, t, i, j) && i <= t.End()
    ensures i <= j <= t.End() && (Solid(n) ==> i < j)
    decreases n, 1
  {
    match n
    case Quant(target, lower, _, _, _, _, _, _) =>
      var k: nat :| Allowed(n, k) && Turns(Words(target, t), k, i, j);
      WordsForward(target, t);
      TurnsWithin(Words(target, t), t, k, i, j);
      if Solid(n) {
        var m: nat :| Words(target, t)(i, m) && Turns(Words(target, t), k - 1, m, j);
        WordWithin(target, t, i, m);
        TurnsWithin(Words(target, t), t, k - 1, m, j);
      }
    case Group(_, _, _, target) => WordWithin(target, t, i, j);
    case List(elems) => ListWithin(elems, t, i, j);
    case Alt(elems) => AltWithin(elems, t, i, j);
    case _ =>
  }

  lemma {:induction false} WordsForward(n: Node, t: Subject)
    ensures Forward(Words(n, t), t)
    decreases n, 2
  {
    hide In;
    forall i: nat, j: nat | Words(n, t)(i, j) && i <= t.End() ensures i <= j <= t.End() { WordWithin(n, t, i, j); }
  }

  lemma {:induction false} ListWithin(ns: Nodes, t: Subject, i: nat, j: nat)
    requires InList(ns, t, i, j) && i <= t.End()
    ensures i <= j <= t.End() && (SolidSome(ns) ==> i < j)
    decreases ns, 1
  {
    hide In, Solid;
    if ns.Last? {
      WordWithin(ns.car, t, i, j);
    } else {
      var m: nat :| In(ns.car, t, i, m) && InList(ns.cdr, t, m, j);
      WordWithin(ns.car, t, i, m);
      ListWithin(ns.cdr, t, m, j);
    }
  }

  lemma {:induction false} AltWithin(ns: Nodes, t: Subject, i: nat, j: nat)
    requires InAlt(ns, t, i, j) && i <= t.End()
    ensures i <= j <= t.End() && (SolidAll(ns) ==> i < j)
    decreases ns, 1
  {
    hide In, Solid;
    if In(ns.car, t, i, j) { WordWithin(ns.car, t, i, j); } else { AltWithin(ns.cdr, t, i, j); }
  }

  // ---------------------------------------------------------------- words of one length

  lemma {:induction false} FixedWord(n: Node, t: Subject, i: nat, j: nat)
    requires CharLen(n).Some? && In(n, t, i, j)
    ensures j == i + CharLen(n).value
    decreases n, 1
  {
    match n
    case Quant(target, lower, _, _, _, _, _, _) => FixedLoop(n, t, i, j);
    case Group(_, _, _, target) => FixedWord(target, t, i, j);
    case List(elems) => FixedList(elems, t, i, j);
    case Alt(elems) => FixedAlt(elems, t, i, j);
    case _ =>
  }

  lemma {:induction false} FixedLoop(q: Node, t: Subject, i: nat, j: nat)
    requires q.Quant? && CharLen(q).Some? && In(q, t, i, j)
    ensures j == i + CharLen(q).value
    decreases q, 0
  {
    var c, R := CharLen(q.target).value, Words(q.target, t);
    forall a: nat, b: nat | R(a, b) ensures b == a + c { FixedWord(q.target, t, a, b); }
    var k: nat :| Allowed(q, k) && Turns(R, k, i, j);
    FixedTurns(R, c, k, i, j);
  }

  lemma {:induction false} FixedTurns(R: Rel, c: nat, k: nat, i: nat, j: nat)
    requires Turns(R, k, i, j) && forall a: nat, b: nat :: R(a, b) ==> b == a + c
    ensures j == i + c * k
    decreases k
  {
    if k > 0 {
      var m: nat :| R(i, m) && Turns(R, k - 1, m, j);
      FixedTurns(R, c, k - 1, m, j);
      assert c * k == c + c * (k - 1);
    }
  }

  lemma {:induction false} FixedList(ns: Nodes, t: Subject, i: nat, j: nat)
    requires CharLenList(ns).Some? && InList(ns, t, i, j)
    ensures j == i + CharLenList(ns).value
    decreases ns, 1
  {
    hide In, CharLen;
    if ns.Last? {
      FixedWord(ns.car, t, i, j);
    } else {
      var m: nat :| In(ns.car, t, i, m) && InList(ns.cdr, t, m, j);
      FixedWord(ns.car, t, i, m);
      FixedList(ns.cdr, t, m, j);
    }
  }

  lemma {:induction false} FixedAlt(ns: Nodes, t: Subject, i: nat, j: nat)
    requires CharLenAlt(ns).Some? && InAlt(ns, t, i, j)
    ensures j == i + CharLenAlt(ns).value
    decreases ns, 1
  {
    hide In, CharLen;
    if In(ns.car, t, i, j) { FixedWord(ns.car, t, i, j); } else { FixedAlt(ns.cdr, t, i, j); }
  }
}
