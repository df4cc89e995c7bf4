/** The heads setup_tree relies on are no stricter a condition than needed: next to a loop over another byte, every
    quantifier with a wrong head loses a match. */
module WrongHeads {
  import opened Common
  import opened Tree
  import opened Semantics
  import opened Lengths
  import opened LengthFacts
  import opened Correctness
  import opened NextNode
  import opened Scan
  import opened LineStarts
  import opened SetupTree
  import opened Preference
  import opened Visits
  import M = Matches

  /** A quantifier that has to turn and relies on the head byte of a node inside that is all right itself. */
  predicate Headed(q: Node) {
    q.Quant? && 0 < q.lower && q.headExact.Some? && HeadOrigin(q).Some? && InnermostRight(q) && HeadsFine(q.target)
    && (OriginKind(q); q.headExact.value == HeadOrigin(q).value.s[0])
  }

  /** The head was moved out of a quantifier that may turn zero times. */
  predicate WrongHead(q: Node) { Headed(q) && !HeadsRight(q) }

  function Loop1(c: byte): Node { Quant(Str([c]), 0, REPEAT_INFINITE, true, NotEmpty, false, None, None) }

  /** c* made possessive. */
  function Run1(c: byte, peek: Option<byte>): Node {
    Atomic(Quant(Str([c]), 0, REPEAT_INFINITE, true, NotEmpty, false, None, peek), true)
  }

  /** c*nc */
  function Around(n: Node, c: byte): Nodes { Link(Loop1(c), Link(n, Last(Str([c])))) }

  function Only(c: byte): Subject { Subject([c], 0, 0, false, false) }

  /** A quantifier with a wrong head need not match anything. */
  lemma {:induction false} WrongIdle(n: Node, e: Env, inRep: bool)
    requires Parsed(n, e)
    requires var m := Setup(n, e, inRep); m.Quant? && InnermostRight(m) && (m.lower == 0 || !OriginRight(m))
    ensures Idle(n, e)
    decreases n
  {
    QuantStays(n, e, inRep);
    if n.lower != 0 {
      TargetStays(n, e, inRep);
      var m, d := Setup(n, e, inRep), Setup(n.target, e, true);
      hide Setup, Parsed, HeadsRight;
      SameInside(d, m.target);
      WrongIdle(n.target, e, true);
    }
  }

  lemma TargetStays(n: Node, e: Env, inRep: bool)
    requires n.Quant? && Parsed(n, e) && Setup(n, e, inRep).Quant?
    ensures Parsed(n.target, e)
    ensures var m, d := Setup(n, e, inRep), Setup(n.target, e, true);
      m.target == d || (d.Quant? && m.target == d.(headExact := None))
  {
    hide EmptyInfoOf, HeadByte;
  }

  lemma SameInside(d: Node, k: Node)
    requires k == d || (d.Quant? && k == d.(headExact := None))
    ensures k.Quant? ==> d.Quant? && d.lower == k.lower
    ensures k.Quant? ==> InnermostRight(d) == InnermostRight(k) && OriginRight(d) == OriginRight(k)
  {
  }

  // ---------------------------------------------------------------- the parse tree matches c

  lemma LeafWays(c: byte, e: Env, x: St)
    ensures Parsed(Str([c]), e) && Parsed(Loop1(c), e) && Idle(Loop1(c), e)
    ensures x.s == 0 ==> Pref(Str([c]), e, Only(c), x) == [Advance(x, 1)]
  {
    assert Only(c).data[0..1] == [c];
  }

  lemma AroundParsed(n: Node, e: Env, c: byte)
    requires Parsed(n, e)
    ensures var ns := Around(n, c);
      ParsedAll(ns, e) && ParsedAll(ns.cdr, e) && ParsedAll(ns.cdr.cdr, e) && Parsed(List(ns), e)
  {
    LeafWays(c, e, Initial(0, -1));
    hide Parsed;
    assert ParsedAll(Last(Str([c])), e);
    ListParsed(Around(n, c), e);
  }

  lemma ListParsed(ns: Nodes, e: Env)
    requires ParsedAll(ns, e)
    ensures Parsed(List(ns), e)
  {
    hide ParsedAll;
  }

  /** It finds c by letting the loop and n match nothing. */
  lemma AroundMatches(n: Node, e: Env, c: byte)
    requires Parsed(n, e) && Idle(n, e) && Parsed(List(Around(n, c)), e)
    ensures Pref(List(Around(n, c)), e, Only(c), Initial(0, -1)) != []
  {
    var t, x, ns := Only(c), Initial(0, -1), Around(n, c);
    AroundParsed(n, e, c);
    LeafWays(c, e, x);
    assert Pref(List(ns), e, t, x) == PrefList(ns, e, t, x);
    var y := IdleWay(Loop1(c), e, t, x);
    var z := IdleWay(n, e, t, y);
    LeafWays(c, e, z);
    var w := Advance(z, 1);
    hide Pref, Parsed, Idle;
    assert w in PrefList(ns.cdr.cdr, e, t, z);
    FlatIn(Pref(n, e, t, y), (v: St) => PrefList(ns.cdr.cdr, e, t, v), z, w);
    FlatIn(Pref(Loop1(c), e, t, x), (v: St) => PrefList(ns.cdr, e, t, v), y, w);
  }

  // ---------------------------------------------------------------- the prepared tree does not

  lemma LeafSetup(c: byte, e: Env)
    ensures Parsed(Str([c]), e) && Setup(Str([c]), e, false) == Str([c])
    ensures Parsed(Loop1(c), e) && Setup(Loop1(c), e, false) == Loop1(c)
  {
    assert Parsed(Str([c]), e) && EmptyInfoOf(Loop1(c), e) == NotEmpty;
    QuantUnfolds(Loop1(c), e, false);
  }

  lemma AroundSetup(n: Node, e: Env, c: byte)
    requires Parsed(n, e) && Parsed(List(Around(n, c)), e)
    ensures var q := Setup(n, e, false);
      Setup(List(Around(n, c)), e, false)
      == List(Link(NextSetup(Loop1(c), q), Link(NextSetup(q, Str([c])), Last(Str([c])))))
  {
    var ns := Around(n, c);
    AroundParsed(n, e, c);
    LeafSetup(c, e);
    assert Setup(List(ns), e, false) == List(SetupList(ns, e, false));
    hide Parsed, Setup, NextSetup;
    assert SetupList(ns.cdr.cdr, e, false) == Last(Str([c]));
  }

  /** The loop becomes possessive. */
  lemma BecomesAtomic(q: Node, c: byte)
    requires WrongHead(q) && HeadOrigin(q).value.Str? && HeadOrigin(q).value.s != [] && HeadOrigin(q).value.s[0] != c
    ensures exists peek: Option<byte> :: NextSetup(Loop1(c), q) == Run1(c, peek)
  {
    var v := HeadOrigin(q).value;
    assert HeadValue(q, false) == Some(v) && HeadValue(Str([c]), false) == Some(Str([c]));
    assert IsNotIncluded(Str([c]), v) by { assert [c][0] != v.s[0]; }
    var l := Loop1(c);
    assert Possessive(l, q) && Possessive(l.(nextHead := PeekOf(q)), q);
    hide PeekOf, Possessive, HeadValue;
    assert NextSetup(l, q) == Run1(c, PeekOf(q));
  }

  /** It takes c and gives nothing back. */
  lemma TakesAll(c: byte, peek: Option<byte>, x: St)
    requires x.s == 0
    ensures Meaning(Run1(c, peek), Only(c), x) == [Advance(x, 1)]
  {
    var t, y := Only(c), Advance(x, 1);
    assert t.data[0..1] == [c];
    assert Meaning(Str([c]), t, x) == [y] && Meaning(Str([c]), t, y) == [];
    assert AtomicLoop(Str([c]), t, y) == y && AtomicLoop(Str([c]), t, x) == y;
    assert TimesMeaning(Str([c]), t, 0, [x]) == [x] && AtomicLoopAll(Str([c]), t, [x][1..]) == [];
  }

  /** Behind the end there is no c. */
  lemma {:induction false} NoneLeft(c: byte, ys: seq<St>)
    requires forall y :: y in ys ==> 1 <= y.s
    ensures ListMeaningAll(Last(Str([c])), Only(c), ys) == []
    decreases |ys|
  {
    if ys != [] {
      assert ys[0] in ys && Only(c).End() == 1;
      assert ListMeaning(Last(Str([c])), Only(c), ys[0]) == Meaning(Str([c]), Only(c), ys[0]) == [];
      NoneLeft(c, ys[1..]);
    }
  }

  lemma GoesForward(q: Node, t: Subject, e: Env, x: St)
    requires WellFormed(q, e) && Ok(t, e, x) && NoneOpen(Groups(q), x)
    ensures forall y :: y in Meaning(q, t, x) ==> x.s <= y.s
  {
    hide Meaning, WellFormed, Groups, MinLen, MaxLen, CharLen, Ok;
    WellFormedProper(q, e);
    forall y | y in Meaning(q, t, x) ensures x.s <= y.s {
      M.Sound(q, t, x, y);
      MatchFacts(q, t, e, x, y);
    }
  }

  lemma StartOk(c: byte, e: Env, gs: set<nat>)
    ensures var y := Advance(Initial(0, -1), 1); Ok(Only(c), e, y) && NoneOpen(gs, y)
  {
    hide *;
    var t, x := Only(c), Initial(0, -1);
    FirstWay(c, e);
    FirstLive(t, e, gs);
    assert Groups(Str([c])) <= gs;
    StaysLive(Str([c]), t, e, gs, x, Advance(x, 1));
    LiveIs(t, e, gs, Advance(x, 1));
  }

  lemma FirstWay(c: byte, e: Env)
    ensures WellFormed(Str([c]), e) && Groups(Str([c])) == {} && Only(c).End() == 1
    ensures Advance(Initial(0, -1), 1) in Meaning(Str([c]), Only(c), Initial(0, -1))
  {
    assert Only(c).data[0..1] == [c];
  }

  lemma LiveIs(t: Subject, e: Env, gs: set<nat>, y: St)
    requires Live(t, e, gs, y)
    ensures Ok(t, e, y) && NoneOpen(gs, y)
  {
    hide Ok;
  }

  lemma FirstLive(t: Subject, e: Env, gs: set<nat>)
    requires t.End() <= 1
    ensures Live(t, e, gs, Initial(0, -1))
  {
  }

  /** One way of the first element. */
  lemma OneFirst(a: Node, ns: Nodes, t: Subject, x: St, y: St)
    requires Meaning(a, t, x) == [y]
    ensures ListMeaning(Link(a, ns), t, x) == ListMeaning(ns, t, y)
  {
    hide Meaning;
    assert ListMeaningAll(ns, t, [y][1..]) == [];
  }

  lemma LinkIs(a: Node, ns: Nodes, t: Subject, x: St)
    ensures ListMeaning(Link(a, ns), t, x) == ListMeaningAll(ns, t, Meaning(a, t, x))
  {
    hide Meaning;
  }

  lemma AroundFails(q: Node, c: byte, e: Env, peek: Option<byte>)
    requires WellFormed(q, e)
    ensures ListMeaning(Link(Run1(c, peek), Link(q, Last(Str([c])))), Only(c), Initial(0, -1)) == []
  {
    hide *;
    var t, x := Only(c), Initial(0, -1);
    var y := Advance(x, 1);
    AtStart();
    TakesAll(c, peek, x);
    StartOk(c, e, Groups(q));
    GoesForward(q, t, e, y);
    NoneLeft(c, Meaning(q, t, y));
    LinkIs(q, Last(Str([c])), t, y);
    OneFirst(Run1(c, peek), Link(q, Last(Str([c]))), t, x, y);
  }

  lemma AtStart()
    ensures Initial(0, -1).s == 0 && Advance(Initial(0, -1), 1).s == 1
  {
  }

  /** Every quantifier whose head is wrong loses a match next to a loop over another byte: c*nc does not match "c" any
      more, although the parse tree does. */
  lemma WrongHeadLoses(n: Node, e: Env, c: byte)
    requires Parsed(n, e) && WrongHead(Setup(n, e, false)) && Setup(n, e, false).headExact != Some(c)
    ensures var p, t := List(Around(n, c)), Only(c);
      Parsed(p, e) && Pref(p, e, t, Initial(0, -1)) != [] && !MatchesAt(Setup(p, e, false), t, 0)
  {
    var q := Setup(n, e, false);
    OriginKind(q);
    WrongOrigin(q);
    WrongIdle(n, e, false);
    AroundParsed(n, e, c);
    AroundMatches(n, e, c);
    AroundSetup(n, e, c);
    BecomesAtomic(q, c);
    SetupGood(n, e, false);
    var r := NextSetup(q, Str([c]));
    assert WellFormed(r, e) by { NextGood(q, Str([c]), e, false); }
    var peek: Option<byte> :| NextSetup(Loop1(c), q) == Run1(c, peek);
    hide *;
    AroundFails(r, c, e, peek);
    NoListMatch(Link(Run1(c, peek), Link(r, Last(Str([c])))), Only(c));
  }

  lemma WrongOrigin(q: Node)
    requires WrongHead(q)
    ensures !OriginRight(q)
  {
  }

  /** If it is right, nothing is lost. */
  lemma RightHeadKeeps(n: Node, e: Env, c: byte)
    requires Parsed(n, e) && Headed(Setup(n, e, false)) && HeadsRight(Setup(n, e, false))
    ensures var p, t := List(Around(n, c)), Only(c);
      Parsed(p, e) && (Pref(p, e, t, Initial(0, -1)) != [] <==> MatchesAt(Setup(p, e, false), t, 0))
  {
    var q, l, s, p, t := Setup(n, e, false), Loop1(c), Str([c]), List(Around(n, c)), Only(c);
    AroundParsed(n, e, c);
    AroundSetup(n, e, c);
    HeadedFine(q);
    LeafFine(c);
    FirstLive(t, e, Groups(p));
    NextFine(l, q);
    NextFine(q, s);
    hide Parsed, Setup, Pref, HeadsFine, HeadsRight, NextSetup, Meaning, Live, Groups;
    AroundFine(NextSetup(l, q), NextSetup(q, s), s);
    SetupMeans(p, e, false, t, Initial(0, -1));
  }

  lemma HeadedFine(q: Node)
    requires Headed(q) && HeadsRight(q)
    ensures AllRight(q)
  {
    hide HeadOrigin, InnermostRight;
  }

  lemma LeafFine(c: byte)
    ensures AllRight(Loop1(c)) && AllRight(Str([c]))
  {
  }

  lemma AroundFine(a: Node, b: Node, c: Node)
    requires AllRight(a) && AllRight(b) && AllRight(c)
    ensures HeadsFine(List(Link(a, Link(b, Last(c)))))
  {
    hide HeadsRight;
    assert HeadsFineList(Last(c)) && HeadsFineList(Link(b, Last(c)));
  }

  /** The condition on heads is exact: next to a loop over another byte a match is lost exactly if the head is wrong. */
  lemma HeadExact(n: Node, e: Env, c: byte)
    requires Parsed(n, e) && Headed(Setup(n, e, false)) && Setup(n, e, false).headExact != Some(c)
    ensures var p, t := List(Around(n, c)), Only(c);
      Parsed(p, e)
      && (HeadsRight(Setup(n, e, false))
          <==> (Pref(p, e, t, Initial(0, -1)) != [] ==> MatchesAt(Setup(p, e, false), t, 0)))
  {
    if HeadsRight(Setup(n, e, false)) { RightHeadKeeps(n, e, c); } else { WrongHeadLoses(n, e, c); }
  }

  lemma NoListMatch(ns: Nodes, t: Subject)
    requires ListMeaning(ns, t, Initial(0, -1)) == []
    ensures !MatchesAt(List(ns), t, 0)
  {
    ListWays(ns, t, Initial(0, -1));
    hide Meaning, ListMeaning;
  }
}
