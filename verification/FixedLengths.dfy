/** When get_char_length_tree and setup_look_behind turn a pattern down (regcomp.c:2381-2503, 3256-3276): a tree has no
    length exactly if it has words of two lengths once its zero-width tests are left out, and a look-behind is refused
    exactly if its body has and is not an alternation of bodies that each have one. */
module FixedLengths {
  import opened Common
  import opened Tree
  import opened Semantics
  import opened Lengths
  import opened LoopWords
  import opened Language
  import opened LookBehind

  type Word = seq<byte>

  /** w is a word of n wherever it stands. */
  ghost predicate Accepts(n: Node, w: Word) { forall t: Subject, i: nat :: t.Has(i, w) ==> In(n, t, i, i + |w|) }

  ghost predicate AcceptsList(ns: Nodes, w: Word) {
    forall t: Subject, i: nat :: t.Has(i, w) ==> InList(ns, t, i, i + |w|)
  }

  ghost predicate AcceptsAlt(ns: Nodes, w: Word) {
    forall t: Subject, i: nat :: t.Has(i, w) ==> InAlt(ns, t, i, i + |w|)
  }

  ghost predicate TwoLengths(n: Node) { exists u: Word, v: Word :: Accepts(n, u) && Accepts(n, v) && |u| != |v| }

  /** All words are empty. */
  predicate OnlyEmpty(n: Node) {
    match n
    case Str(s) => s == []
    case Quant(target, _, upper, _, _, _, _, _) => upper == 0 || OnlyEmpty(target)
    case Group(_, _, _, target) => OnlyEmpty(target)
    case Anchor(_) => true
    case List(elems) => OnlyEmptyAll(elems)
    case Alt(elems) => OnlyEmptyAll(elems)
    case _ => false
  }

  predicate OnlyEmptyAll(ns: Nodes) {
    match ns
    case Last(car) => OnlyEmpty(car)
    case Link(car, cdr) => OnlyEmpty(car) && OnlyEmptyAll(cdr)
  }

  /** Every set has a byte, only what has a word that is not empty is repeated a varying number of times, and only what
      has one length is repeated no times. */
  ghost predicate Rich(n: Node) {
    match n
    case CClass(bs, neg) => exists c: byte :: ClassHas(bs, neg, c)
    case Quant(target, lower, upper, _, _, _, _, _) =>
      Rich(target) && (lower != upper ==> !OnlyEmpty(target)) && (upper == 0 ==> !TwoLengths(target))
    case Group(_, _, _, target) => Rich(target)
    case List(elems) => RichAll(elems)
    case Alt(elems) => RichAll(elems)
    case _ => true
  }

  ghost predicate RichAll(ns: Nodes) {
    match ns
    case Last(car) => Rich(car)
    case Link(car, cdr) => Rich(car) && RichAll(cdr)
  }

  // ---------------------------------------------------------------- putting words together

  lemma HasJoin(t: Subject, i: nat, u: Word, v: Word)
    requires t.Has(i, u + v)
    ensures t.Has(i, u) && t.Has(i + |u|, v)
  {
    var w := t.data[i..i + |u + v|];
    assert w[..|u|] == u && w[|u|..] == v;
  }

  lemma ListJoin(car: Node, cdr: Nodes, u: Word, v: Word)
    requires Accepts(car, u) && AcceptsList(cdr, v)
    ensures AcceptsList(Link(car, cdr), u + v)
  {
    hide In;
    forall t: Subject, i: nat | t.Has(i, u + v) ensures InList(Link(car, cdr), t, i, i + |u + v|) {
      HasJoin(t, i, u, v);
      assert In(car, t, i, i + |u|) && InList(cdr, t, i + |u|, i + |u| + |v|);
    }
  }

  /** w, k times. */
  function Copies(w: Word, k: nat): (r: Word)
    ensures |r| == Scaled(|w|, k)
  {
    if k == 0 then ScaledZero(|w|); [] else ScaledStep(|w|, k); w + Copies(w, k - 1)
  }

  lemma {:induction false} TurnsCopies(n: Node, w: Word, k: nat, t: Subject, i: nat)
    requires Accepts(n, w) && t.Has(i, Copies(w, k))
    ensures Turns(Words(n, t), k, i, i + |Copies(w, k)|)
    decreases k
  {
    if k > 0 {
      HasJoin(t, i, w, Copies(w, k - 1));
      TurnsCopies(n, w, k - 1, t, i + |w|);
      assert Words(n, t)(i, i + |w|);
    }
  }

  lemma CopiesAccepted(q: Node, w: Word, k: nat)
    requires q.Quant? && Accepts(q.target, w) && Allowed(q, k)
    ensures Accepts(q, Copies(w, k))
  {
    forall t: Subject, i: nat | t.Has(i, Copies(w, k)) ensures In(q, t, i, i + |Copies(w, k)|) {
      TurnsCopies(q.target, w, k, t, i);
    }
  }

  // ---------------------------------------------------------------- some word

  /** A word, and one that is not empty if there is one. */
  lemma {:induction false} SomeWord(n: Node) returns (w: Word)
    requires AnchorFree(n) && Rich(n) && Proper(n)
    ensures Accepts(n, w) && (!OnlyEmpty(n) ==> w != [])
    decreases n
  {
    match n
    case Str(s) => w := s;
    case CClass(bs, neg) =>
      var c: byte :| ClassHas(bs, neg, c);
      w := [c];
      ClassWord(bs, neg, c);
    case Any(ml) =>
      w := [0x61];
      AnyWord(ml);
    case Quant(target, lower, upper, _, _, _, _, _) =>
      var u := SomeWord(target);
      var k := if lower == 0 && upper != 0 then 1 else lower;
      w := Copies(u, k);
      CopiesAccepted(n, u, k);
      if !OnlyEmpty(n) { ScaledStep(|u|, k); }
    case Group(_, _, _, target) =>
      w := SomeWord(target);
      GroupAccepts(n, w);
    case Anchor(_) =>
      w := [];
    case List(elems) =>
      w := SomeList(elems);
      ListAccepts(elems, w);
    case Alt(elems) =>
      w := SomeAlt(elems);
      AltAccepts(elems, w);
  }

  lemma GroupAccepts(g: Node, w: Word)
    requires g.Group?
    ensures Accepts(g, w) <==> Accepts(g.target, w)
  {
    forall t: Subject, i: nat | t.Has(i, w) ensures In(g, t, i, i + |w|) <==> In(g.target, t, i, i + |w|) {
    }
  }

  lemma ListAccepts(ns: Nodes, w: Word)
    ensures Accepts(List(ns), w) <==> AcceptsList(ns, w)
  {
    forall t: Subject, i: nat | t.Has(i, w) ensures In(List(ns), t, i, i + |w|) <==> InList(ns, t, i, i + |w|) {
    }
  }

  lemma AltAccepts(ns: Nodes, w: Word)
    ensures Accepts(Alt(ns), w) <==> AcceptsAlt(ns, w)
  {
    forall t: Subject, i: nat | t.Has(i, w) ensures In(Alt(ns), t, i, i + |w|) <==> InAlt(ns, t, i, i + |w|) {
    }
  }

  lemma ClassWord(bs: seq<byte>, neg: bool, c: byte)
    requires ClassHas(bs, neg, c)
    ensures Accepts(CClass(bs, neg), [c])
  {
    forall t: Subject, i: nat | t.Has(i, [c]) ensures In(CClass(bs, neg), t, i, i + 1) {
      assert t.data[i..i + 1][0] == c;
    }
  }

  lemma AnyWord(ml: bool)
    ensures Accepts(Any(ml), [0x61])
  {
    forall t: Subject, i: nat | t.Has(i, [0x61]) ensures In(Any(ml), t, i, i + 1) {
      assert t.data[i..i + 1][0] == 0x61;
    }
  }

  lemma {:induction false} SomeList(ns: Nodes) returns (w: Word)
    requires AnchorFreeAll(ns) && RichAll(ns) && ProperAll(ns)
    ensures AcceptsList(ns, w) && (!OnlyEmptyAll(ns) ==> w != [])
    decreases ns
  {
    hide Accepts;
    var u := SomeWord(ns.car);
    match ns
    case Last(car) =>
      w := u;
      LastAccepts(car, w);
    case Link(car, cdr) =>
      var v := SomeList(cdr);
      w := u + v;
      ListJoin(car, cdr, u, v);
  }

  lemma LastAccepts(car: Node, w: Word)
    ensures (AcceptsList(Last(car), w) <==> Accepts(car, w)) && (AcceptsAlt(Last(car), w) <==> Accepts(car, w))
  {
    forall t: Subject, i: nat | t.Has(i, w)
      ensures InList(Last(car), t, i, i + |w|) <==> In(car, t, i, i + |w|)
      ensures InAlt(Last(car), t, i, i + |w|) <==> In(car, t, i, i + |w|)
    {
    }
  }

  lemma {:induction false} SomeAlt(ns: Nodes) returns (w: Word)
    requires AnchorFreeAll(ns) && RichAll(ns) && ProperAll(ns)
    ensures AcceptsAlt(ns, w) && (!OnlyEmptyAll(ns) ==> w != [])
    decreases ns
  {
    hide Accepts;
    w := SomeWord(ns.car);
    match ns
    case Last(car) => LastAccepts(car, w);
    case Link(car, cdr) =>
      if OnlyEmpty(car) {
        w := SomeAlt(cdr);
        LinkAccepts(car, cdr, w);
      } else {
        LinkAccepts(car, cdr, w);
      }
  }

  lemma LinkAccepts(car: Node, cdr: Nodes, w: Word)
    ensures Accepts(car, w) || AcceptsAlt(cdr, w) ==> AcceptsAlt(Link(car, cdr), w)
  {
    forall t: Subject, i: nat | t.Has(i, w)
      ensures InAlt(Link(car, cdr), t, i, i + |w|) <==> In(car, t, i, i + |w|) || InAlt(cdr, t, i, i + |w|)
    {
    }
  }

  // ---------------------------------------------------------------- words of two lengths

  /** A tree without a length has words of two lengths. */
  lemma {:induction false} Unfixed(n: Node) returns (u: Word, v: Word)
    requires AnchorFree(n) && Rich(n) && Proper(n) && CharLen(n).None?
    ensures Accepts(n, u) && Accepts(n, v) && |u| != |v|
    decreases n
  {
    match n
    case Quant(target, lower, upper, _, _, _, _, _) =>
      if lower != upper {
        var w := SomeWord(target);
        u, v := Copies(w, lower), Copies(w, lower + 1);
        CopiesAccepted(n, w, lower);
        CopiesAccepted(n, w, lower + 1);
        ScaledStep(|w|, lower + 1);
      } else {
        var a, b := Unfixed(target);
        TwoAre(target, a, b);
        u, v := Copies(a, lower), Copies(b, lower);
        CopiesAccepted(n, a, lower);
        CopiesAccepted(n, b, lower);
        ScaledDiffers(|a|, |b|, lower);
      }
    case Group(_, _, _, target) =>
      u, v := Unfixed(target);
      GroupAccepts(n, u);
      GroupAccepts(n, v);
    case List(elems) =>
      u, v := UnfixedList(elems);
      ListAccepts(elems, u);
      ListAccepts(elems, v);
    case Alt(elems) =>
      u, v := UnfixedAlt(elems);
      AltAccepts(elems, u);
      AltAccepts(elems, v);
  }

  lemma {:induction false} ScaledDiffers(a: nat, b: nat, k: nat)
    requires a != b && 0 < k
    ensures Scaled(a, k) != Scaled(b, k)
    decreases k
  {
    if a < b { ScaledLess(a, b, k); } else { ScaledLess(b, a, k); }
  }

  lemma {:induction false} ScaledLess(a: nat, b: nat, k: nat)
    requires a < b && 0 < k
    ensures Scaled(a, k) < Scaled(b, k)
    decreases k
  {
    ScaledStep(a, k);
    ScaledStep(b, k);
    if k == 1 {
      ScaledZero(a);
      ScaledZero(b);
    } else {
      ScaledLess(a, b, k - 1);
    }
  }

  lemma {:induction false} UnfixedList(ns: Nodes) returns (u: Word, v: Word)
    requires AnchorFreeAll(ns) && RichAll(ns) && ProperAll(ns) && CharLenList(ns).None?
    ensures AcceptsList(ns, u) && AcceptsList(ns, v) && |u| != |v|
    decreases ns
  {
    hide Accepts, CharLen, AcceptsList;
    match ns
    case Last(car) =>
      u, v := Unfixed(car);
      LastAccepts(car, u);
      LastAccepts(car, v);
    case Link(car, cdr) =>
      var a, b, c, d;
      if CharLen(car).None? {
        a, b := Unfixed(car);
        c := SomeList(cdr);
        d := c;
      } else {
        c, d := UnfixedList(cdr);
        a := SomeWord(car);
        b := a;
      }
      u, v := a + c, b + d;
      ListJoin(car, cdr, a, c);
      ListJoin(car, cdr, b, d);
  }

  lemma {:induction false} UnfixedAlt(ns: Nodes) returns (u: Word, v: Word)
    requires AnchorFreeAll(ns) && RichAll(ns) && ProperAll(ns) && CharLenAlt(ns).None?
    ensures AcceptsAlt(ns, u) && AcceptsAlt(ns, v) && |u| != |v|
    decreases ns
  {
    hide Accepts, CharLen, AcceptsAlt;
    match ns
    case Last(car) =>
      u, v := Unfixed(car);
      LastAccepts(car, u);
      LastAccepts(car, v);
    case Link(car, cdr) =>
      if CharLen(car).None? {
        u, v := Unfixed(car);
      } else if CharLenAlt(cdr).None? {
        u, v := UnfixedAlt(cdr);
      } else {
        u := SomeWord(car);
        v := SomeAlt(cdr);
        OneLength(car, u);
        OneAltLength(cdr, v);
      }
      LinkAccepts(car, cdr, u);
      LinkAccepts(car, cdr, v);
  }

  /** The text that is the word. */
  function Alone(w: Word): (t: Subject)
    ensures t.Has(0, w) && t.End() == |w|
  {
    assert w[0..0 + |w|] == w;
    Subject(w, 0, 0, false, false)
  }

  lemma OneLength(n: Node, w: Word)
    requires CharLen(n).Some? && Accepts(n, w)
    ensures |w| == CharLen(n).value
  {
    hide CharLen, In;
    assert In(n, Alone(w), 0, 0 + |w|);
    FixedWord(n, Alone(w), 0, |w|);
  }

  lemma OneAltLength(ns: Nodes, w: Word)
    requires CharLenAlt(ns).Some? && AcceptsAlt(ns, w)
    ensures |w| == CharLenAlt(ns).value
  {
    hide CharLen, CharLenAlt, InAlt;
    assert InAlt(ns, Alone(w), 0, 0 + |w|);
    FixedAlt(ns, Alone(w), 0, |w|);
  }

  lemma TwoAre(n: Node, u: Word, v: Word)
    requires Accepts(n, u) && Accepts(n, v) && |u| != |v|
    ensures TwoLengths(n)
  {
  }

  lemma OneOnly(n: Node)
    requires CharLen(n).Some?
    ensures !TwoLengths(n)
  {
    hide Accepts, CharLen;
    forall w: Word | Accepts(n, w) ensures |w| == CharLen(n).value { OneLength(n, w); }
  }

  lemma FreeExact(n: Node)
    requires AnchorFree(n) && Rich(n) && Proper(n)
    ensures CharLen(n).None? <==> TwoLengths(n)
    ensures CharLen(n).Some? ==> exists w: Word :: Accepts(n, w) && |w| == CharLen(n).value
  {
    hide *;
    if CharLen(n).None? {
      var u, v := Unfixed(n);
      TwoAre(n, u, v);
    } else {
      var w := SomeWord(n);
      OneLength(n, w);
      OneOnly(n);
    }
  }

  // ---------------------------------------------------------------- the two answers

  /** The tree without its anchors and look-around, and with plain groups for atomic ones. */
  function Bare(n: Node): Node {
    match n
    case Quant(target, lower, upper, greedy, info, inRepeat, head, next) =>
      Quant(Bare(target), lower, upper, greedy, info, inRepeat, head, next)
    case Group(num, pushStart, pushEnd, target) => Group(num, pushStart, pushEnd, Bare(target))
    case Atomic(target, _) => Bare(target)
    case Look(_, _, _) => Str([])
    case Anchor(_) => Str([])
    case List(elems) => List(BareAll(elems))
    case Alt(elems) => Alt(BareAll(elems))
    case _ => n
  }

  function BareAll(ns: Nodes): Nodes {
    match ns
    case Last(car) => Last(Bare(car))
    case Link(car, cdr) => Link(Bare(car), BareAll(cdr))
  }

  /** No back-reference takes part in the length. */
  predicate NoBackref(n: Node) {
    match n
    case Backref(_) => false
    case Quant(target, _, _, _, _, _, _, _) => NoBackref(target)
    case Group(_, _, _, target) => NoBackref(target)
    case Atomic(target, _) => NoBackref(target)
    case List(elems) => NoBackrefAll(elems)
    case Alt(elems) => NoBackrefAll(elems)
    case _ => true
  }

  predicate NoBackrefAll(ns: Nodes) {
    match ns
    case Last(car) => NoBackref(car)
    case Link(car, cdr) => NoBackref(car) && NoBackrefAll(cdr)
  }

  lemma {:induction false} BareFacts(n: Node)
    requires NoBackref(n) && Proper(n)
    ensures CharLen(Bare(n)) == CharLen(n) && AnchorFree(Bare(n)) && Proper(Bare(n))
    decreases n
  {
    match n
    case Quant(target, _, _, _, _, _, _, _) => BareFacts(target);
    case Group(_, _, _, target) => BareFacts(target);
    case Atomic(target, _) => BareFacts(target);
    case List(elems) => BareAllFacts(elems);
    case Alt(elems) => BareAllFacts(elems);
    case _ =>
  }

  lemma {:induction false} BareAllFacts(ns: Nodes)
    requires NoBackrefAll(ns) && ProperAll(ns)
    ensures CharLenList(BareAll(ns)) == CharLenList(ns) && CharLenAlt(BareAll(ns)) == CharLenAlt(ns)
    ensures AnchorFreeAll(BareAll(ns)) && ProperAll(BareAll(ns)) && (AllFixed(BareAll(ns)) <==> AllFixed(ns))
    decreases ns
  {
    BareFacts(ns.car);
    if ns.Link? { BareAllFacts(ns.cdr); }
  }

  /** get_char_length_tree finds the length if there is one, and only then. */
  lemma CharLenExact(n: Node)
    requires NoBackref(n) && Rich(Bare(n)) && Proper(n)
    ensures CharLen(n).None? <==> TwoLengths(Bare(n))
    ensures CharLen(n).Some? ==> exists w: Word :: Accepts(Bare(n), w) && |w| == CharLen(n).value
  {
    hide *;
    BareFacts(n);
    FreeExact(Bare(n));
  }

  /** Some alternative has words of two lengths. */
  ghost predicate SomeUnfixed(ns: Nodes) {
    match ns
    case Last(car) => TwoLengths(car)
    case Link(car, cdr) => TwoLengths(car) || SomeUnfixed(cdr)
  }

  lemma {:induction false} AllFixedExact(ns: Nodes)
    requires AnchorFreeAll(ns) && RichAll(ns) && ProperAll(ns)
    ensures AllFixed(ns) <==> !SomeUnfixed(ns)
    decreases ns
  {
    hide TwoLengths, CharLen;
    FreeExact(ns.car);
    if ns.Link? { AllFixedExact(ns.cdr); }
  }

  /** setup_look_behind refuses a body exactly if it has words of two lengths and is not an alternation of bodies with
      one length each. */
  lemma RefusedExact(look: LookKind, body: Node)
    requires NoBackref(body) && Rich(Bare(body)) && Proper(body)
    ensures SetupLookBehind(look, body).None?
            <==> TwoLengths(Bare(body)) && (body.Alt? ==> SomeUnfixed(BareAll(body.elems)))
  {
    hide TwoLengths, CharLen, SomeUnfixed, AllFixed;
    CharLenExact(body);
    if body.Alt? {
      BareAllFacts(body.elems);
      AllFixedExact(BareAll(body.elems));
    }
  }

  /** What is not rich has a length that is not found: nothing at most once. */
  lemma NothingRefused()
    ensures var q := Quant(Str([]), 0, 1, true, Empty, false, None, None);
      CharLen(q).None? && !TwoLengths(q) && SetupLookBehind(Behind, q).None?
  {
    var q := Quant(Str([]), 0, 1, true, Empty, false, None, None);
    forall w | Accepts(q, w) ensures w == [] { EmptyTurns(q, w); }
  }

  /** And what would be repeated, if it were not repeated no times, has two lengths. */
  lemma NoTimesRefused()
    ensures var one := Quant(Str([0x61]), 0, 1, true, NotEmpty, false, None, None);
      var q := Quant(one, 0, 0, true, NotEmpty, false, None, None);
      CharLen(q).None? && !TwoLengths(q) && SetupLookBehind(Behind, q).None?
  {
    var one := Quant(Str([0x61]), 0, 1, true, NotEmpty, false, None, None);
    var q := Quant(one, 0, 0, true, NotEmpty, false, None, None);
    forall w | Accepts(q, w) ensures w == [] { NoTurns(q, w); }
  }

  lemma NoTurns(q: Node, w: Word)
    requires q.Quant? && q.lower == 0 && q.upper == 0 && Accepts(q, w)
    ensures w == []
  {
    hide Accepts;
    var t := Alone(w);
    AloneIn(q, w);
    assert exists k: nat :: Allowed(q, k) && Turns(Words(q.target, t), k, 0, |w|);
    var k: nat :| Allowed(q, k) && Turns(Words(q.target, t), k, 0, |w|);
    assert k == 0;
  }

  lemma AloneIn(n: Node, w: Word)
    requires Accepts(n, w)
    ensures In(n, Alone(w), 0, |w|)
  {
    hide In;
    assert In(n, Alone(w), 0, 0 + |w|);
  }

  lemma EmptyTurns(q: Node, w: Word)
    requires q.Quant? && q.target == Str([]) && Accepts(q, w)
    ensures w == []
  {
    var t := Alone(w);
    assert In(q, t, 0, 0 + |w|);
    var k: nat :| Allowed(q, k) && Turns(Words(q.target, t), k, 0, |w|);
    FixedTurns(Words(q.target, t), 0, k, 0, |w|);
  }
}
