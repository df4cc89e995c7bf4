/** From the parse tree to the answer (regcomp.c:3282-3349, 3842-3867, 5739; regexec.c:4076-4212): setup_tree, the
    implicit anchor at the root, onig_compile and onig_search together find the first position where the parse tree has
    a way to match, and report its most preferred way there. */
module Finder {
  import opened Common
  import opened Tree
  import opened Semantics
  import opened Lengths
  import opened Correctness
  import opened Engine
  import opened NextNode
  import opened Scan
  import opened LineStarts
  import opened Search
  import opened SetupTree
  import opened Preference
  import opened LoopWords
  import opened Language
  import opened RegularTrees
  import opened WordWays
  import Codegen
  import CodeFits
  import MatchAt
  import Optimizer

  // ---------------------------------------------------------------- setup_tree at the root

  /** next_setup with `in_root`: a `.*` that is still there gets the anchor (?:^|\G) in front. */
  function NextRoot(node: Node, next: Node): Node {
    var r := NextSetup(node, next);
    if StarQuant(r) then List(Link(Anchor(AnyCharStar), Last(r))) else r
  }

  /** setup_tree with IN_ROOT, which is handed on to the first element of a list. */
  function SetupRoot(n: Node, e: Env): Node
    requires Parsed(n, e)
    decreases n
  {
    if n.List? then List(RootList(n.elems, e)) else Setup(n, e, false)
  }

  function RootList(ns: Nodes, e: Env): Nodes
    requires ParsedAll(ns, e)
    decreases ns
  {
    match ns
    case Last(car) => Last(SetupRoot(car, e))
    case Link(car, cdr) =>
      FirstParsed(cdr, e);
      Link(NextRoot(SetupRoot(car, e), Setup(cdr.car, e, false)), SetupList(cdr, e, false))
  }

  /** a is p, or p with the anchor in front of its leading `.*`. */
  predicate Rooted(a: Node, p: Node) {
    a == p || (StarQuant(p) && a == List(Link(Anchor(AnyCharStar), Last(p))))
    || (a.List? && p.List? && Rooted(a.elems.car, p.elems.car)
        && (if a.elems.Last? then p.elems.Last? else p.elems.Link? && a.elems.cdr == p.elems.cdr))
  }

  lemma {:induction false} RootIs(n: Node, e: Env)
    requires Parsed(n, e)
    ensures Rooted(SetupRoot(n, e), Setup(n, e, false))
    decreases n
  {
    if n.List? { RootListIs(n.elems, e); }
  }

  lemma {:induction false} RootListIs(ns: Nodes, e: Env)
    requires ParsedAll(ns, e)
    ensures Rooted(List(RootList(ns, e)), List(SetupList(ns, e, false)))
    decreases ns
  {
    hide Parsed, HeadValue;
    RootIs(ns.car, e);
    if ns.Link? {
      FirstParsed(ns.cdr, e);
      var next := Setup(ns.cdr.car, e, false);
      NextIs(Setup(ns.car, e, false), next);
      NextIs(SetupRoot(ns.car, e), next);
      BothLists(ns.car, e);
      hide Setup, NextSetup;
      assert Rooted(NextRoot(SetupRoot(ns.car, e), next), NextSetup(Setup(ns.car, e, false), next));
    }
  }

  lemma BothLists(n: Node, e: Env)
    requires Parsed(n, e)
    ensures if n.List? then SetupRoot(n, e).List? && Setup(n, e, false).List? else SetupRoot(n, e) == Setup(n, e, false)
  {
  }

  // ---------------------------------------------------------------- the anchor changes nothing

  /** The anchor cuts off the ways that start inside a line. */
  lemma {:induction false} RootCuts(a: Node, p: Node, t: Subject, x: St)
    requires Rooted(a, p)
    ensures Meaning(a, t, x) == if a == p || AnchorHolds(AnyCharStar, t, x) then Meaning(p, t, x) else []
    decreases a
  {
    if a != p {
      if StarQuant(p) {
        AnchorInFront(p, t, x);
      } else {
        RootCuts(a.elems.car, p.elems.car, t, x);
        ListWays(a.elems, t, x);
        ListWays(p.elems, t, x);
        hide Meaning, Rooted;
        if a.elems.Link? {
          LineStarts.ListUnfolds(a.elems, t, x);
          LineStarts.ListUnfolds(p.elems, t, x);
        }
      }
    }
  }

  lemma AnchorInFront(q: Node, t: Subject, x: St)
    ensures Meaning(List(Link(Anchor(AnyCharStar), Last(q))), t, x)
            == if AnchorHolds(AnyCharStar, t, x) then Meaning(q, t, x) else []
  {
    var ns := Link(Anchor(AnyCharStar), Last(q));
    assert Meaning(ns.car, t, x) == if AnchorHolds(AnyCharStar, t, x) then [x] else [];
    hide Meaning, AnchorHolds;
    ListWays(ns, t, x);
    LineStarts.ListUnfolds(ns, t, x);
    assert ListMeaningAll(Last(q), t, [x][1..]) == [];
    assert ListMeaningAll(Last(q), t, [x]) == ListMeaning(Last(q), t, x) == Meaning(q, t, x);
  }

  lemma {:induction false} RootStarLed(a: Node, p: Node)
    requires Rooted(a, p) && a != p
    ensures StarLed(p) && Leads(p) == {}
    decreases a
  {
    if !StarQuant(p) { RootStarLed(a.elems.car, p.elems.car); }
  }

  lemma {:induction false} RootGood(a: Node, p: Node, e: Env)
    requires Rooted(a, p) && WellFormed(p, e) && RepeatMarks(p, false)
    ensures WellFormed(a, e) && RepeatMarks(a, false)
    decreases a
  {
    if a != p && !StarQuant(p) { RootGood(a.elems.car, p.elems.car, e); }
  }

  /** The first match stays. */
  lemma FirstStays(a: Node, p: Node, t: Subject, start: nat, r: nat)
    requires Rooted(a, p) && t.gpos == start <= r <= t.End() && MatchesAt(p, t, r)
    requires start < r ==> !MatchesAt(p, t, r - 1)
    ensures Meaning(a, t, Initial(r, r - 1)) == Meaning(p, t, Initial(r, r - 1)) && MatchesAt(a, t, r)
  {
    RootCuts(a, p, t, Initial(r, r - 1));
    hide Meaning, Rooted, StarLed, MatchesAt, Leads;
    if a != p {
      RootStarLed(a, p);
      if r > start && !t.IsNewline(r - 1) { SlideBack(p, t, r); }
      assert AnchorHolds(AnyCharStar, t, Initial(r, r - 1)) || (r == 0 && t.notbol);
    }
    SameMatch(a, p, t, r);
  }

  lemma SameMatch(a: Node, p: Node, t: Subject, r: nat)
    requires Meaning(a, t, Initial(r, r - 1)) == Meaning(p, t, Initial(r, r - 1))
    ensures MatchesAt(a, t, r) <==> MatchesAt(p, t, r)
  {
    hide Meaning;
  }

  /** No match is added. */
  lemma NoneAdded(a: Node, p: Node, t: Subject, i: nat)
    requires Rooted(a, p) && MatchesAt(a, t, i)
    ensures MatchesAt(p, t, i)
  {
    RootCuts(a, p, t, Initial(i, i - 1));
    hide Meaning, Rooted;
  }

  /** A search from \G finds the same, with the anchor and without. */
  lemma ImplicitAnchor(a: Node, p: Node, t: Subject, start: nat)
    requires Rooted(a, p) && t.gpos == start
    ensures FirstStart(a, t, start) == FirstStart(p, t, start)
    ensures var s := FirstStart(p, t, start);
        s != -1 ==> Meaning(a, t, Initial(s, s - 1)) == Meaning(p, t, Initial(s, s - 1))
  {
    hide Meaning, Rooted, FirstStart, MatchesAt;
    var r := FirstStart(p, t, start);
    forall i: nat | MatchesAt(a, t, i) ensures MatchesAt(p, t, i) { NoneAdded(a, p, t, i); }
    if r != -1 { FirstStays(a, p, t, start, r); }
  }

  // ---------------------------------------------------------------- the search

  /** The ways to match from position i, best first. */
  function Ways(n: Node, e: Env, t: Subject, i: nat): seq<St>
    requires Parsed(n, e)
  {
    Pref(n, e, t, Initial(i, i - 1))
  }

  /** The prepared tree has the ways of the parse tree. */
  lemma SetupWays(n: Node, e: Env, t: Subject, i: nat)
    requires Parsed(n, e) && HeadsFine(Setup(n, e, false)) && i <= t.End() < Codegen.INFINITE_COUNT
    ensures Meaning(Setup(n, e, false), t, Initial(i, i - 1)) == Ways(n, e, t, i)
    ensures MatchesAt(Setup(n, e, false), t, i) <==> Ways(n, e, t, i) != []
  {
    hide Meaning, Pref, Setup, Parsed, HeadsFine;
    InitialLive(t, e, Groups(n), i);
    SetupMeans(n, e, false, t, Initial(i, i - 1));
  }

  /** The scan with the prepared tree finds the first position with a way, and has the same ways there. */
  lemma RootMeans(n: Node, e: Env, t: Subject, start: nat)
    requires Parsed(n, e) && HeadsFine(Setup(n, e, false)) && t.gpos == start && t.End() < Codegen.INFINITE_COUNT
    ensures var a := SetupRoot(n, e); var r := FirstStart(a, t, start);
      if r == -1 then forall i: nat :: start <= i <= t.End() ==> Ways(n, e, t, i) == []
      else start <= r <= t.End() && Meaning(a, t, Initial(r, r - 1)) == Ways(n, e, t, r) != []
           && forall i: nat :: start <= i < r ==> Ways(n, e, t, i) == []
  {
    hide *;
    var a, p := SetupRoot(n, e), Setup(n, e, false);
    RootIs(n, e);
    ImplicitAnchor(a, p, t, start);
    forall i: nat | i <= t.End()
      ensures Meaning(p, t, Initial(i, i - 1)) == Ways(n, e, t, i) && (MatchesAt(p, t, i) <==> Ways(n, e, t, i) != [])
    {
      SetupWays(n, e, t, i);
    }
  }

  /** A pattern that has a word somewhere has a way there. */
  lemma WaysAreWords(n: Node, e: Env, t: Subject, i: nat)
    requires Parsed(n, e) && Regular(n, e) && i <= t.End() < Codegen.INFINITE_COUNT
    ensures Ways(n, e, t, i) != [] <==> Starting(Words(n, t), i)
  {
    InitialLive(t, e, Loners(n, e), i);
    InitialPoised(n, i);
    hide Pref, In, Regular, Parsed, Loners, Fresh;
    AheadWords(n, e, t, Initial(i, i - 1));
  }

  /** What the search needs to know about the prepared tree: its operands fit, it has no look-ahead for the optimizer to
      read, no line anchor next to its hint, and if its search anchor is that of `.*` it begins with it. */
  predicate Searchable(a: Node, e: Env) {
    Compilable(a, e) && Optimizer.NoAhead(a)
    && var h := Optimizer.HintOf(a, e);
       h.subAnchor == {} && Followed(h) && (Optimizer.AnyCharStarBit in h.anchor ==> StarLed(a) && GposInFront(a))
  }

  /** onig_search takes its forward branch: the search anchors leave starts to try, or none at all. */
  predicate SearchesForward(a: Node, e: Env, t: Subject, start: nat)
    requires Searchable(a, e)
  {
    RunsForward(Optimizer.HintOf(a, e), t, start)
  }

  /** The prepared tree can be compiled if its operands fit. */
  lemma RootCompilable(n: Node, e: Env)
    requires Parsed(n, e)
    ensures Compilable(SetupRoot(n, e), e) <==> CodeFits.Fits(SetupRoot(n, e), 0, 0)
  {
    hide Setup, SetupRoot, Rooted, Parsed, WellFormed, RepeatMarks, CodeFits.Fits;
    RootIs(n, e);
    SetupGood(n, e, false);
    GoodParts(Setup(n, e, false), e, false);
    RootGood(SetupRoot(n, e), Setup(n, e, false), e);
  }

  lemma SearchParts(a: Node, e: Env)
    requires Searchable(a, e)
    ensures Compilable(a, e) && Optimizer.NoAhead(a)
  {
  }

  lemma ReadyInfo(p: Pattern, a: Node, e: Env)
    requires Ready(p, a, e) && Optimizer.NoAhead(a)
    ensures p.info == Optimizer.HintOf(a, e)
  {
    hide Compiles, Optimizer.HintOf, Optimizer.NoAhead;
  }

  /** onig_search with the compiled pattern. */
  method FindIn(p: Pattern, ghost a: Node, ghost e: Env, t: Subject, start: nat, limit: nat)
    returns (r: Result, at: int, beg: array<int>, end: array<int>)
    requires Ready(p, a, e) && Searchable(a, e) && t.gpos == start && t.End() < Codegen.INFINITE_COUNT
    requires SearchesForward(a, e, t, start)
    requires limit == 0 || 2 * MatchAt.INIT_MATCH_STACK_SIZE <= limit
    ensures r.StackLimitOver? ==> TooDeep(a, e, t, start, limit)
    ensures r.NoMatch? ==> FirstStart(a, t, start) == -1
    ensures r.Match? ==>
        at == FirstStart(a, t, start) && at != -1
        && var ys := Meaning(a, t, Initial(at, at - 1));
           ys != [] && r == Match(Min(ys[0].keep, ys[0].s), ys[0].s) && RegionOf(a, e, ys[0], beg, end)
  {
    hide Compilable, Optimizer.NoAhead, Optimizer.HintOf, StarLed, GposInFront, Compiles, FirstStart, RegionOf, Meaning;
    hide FirstLine, NoHit, Followed, RunsForward, Ready, TooDeep;
    ReadyInfo(p, a, e);
    r, at, beg, end := ForwardSearch(p, a, e, t, start, limit);
    if LineByLine(p.info, t, start) { LinesAnswer(p, a, e, t, start, r, at, beg, end); }
  }

  /** onig_new and onig_search: the first position where the parse tree has a way to match, and its best way there. */
  method Find(n: Node, e: Env, t: Subject, start: nat, limit: nat)
    returns (r: Result, at: int, beg: array<int>, end: array<int>)
    requires Parsed(n, e) && HeadsFine(Setup(n, e, false)) && Searchable(SetupRoot(n, e), e)
    requires t.gpos == start && t.End() < Codegen.INFINITE_COUNT && SearchesForward(SetupRoot(n, e), e, t, start)
    requires limit == 0 || 2 * MatchAt.INIT_MATCH_STACK_SIZE <= limit
    ensures r.StackLimitOver? ==> TooDeep(SetupRoot(n, e), e, t, start, limit)
    ensures r.NoMatch? ==> forall i: nat :: start <= i <= t.End() ==> Ways(n, e, t, i) == []
    ensures r.Match? ==>
        start <= at <= t.End() && (forall i: nat :: start <= i < at ==> Ways(n, e, t, i) == [])
            && Ways(n, e, t, at) != []
        && var y := Ways(n, e, t, at)[0];
           r == Match(Min(y.keep, y.s), y.s) && RegionOf(SetupRoot(n, e), e, y, beg, end)
  {
    hide *;
    var a := SetupRoot(n, e);
    RootMeans(n, e, t, start);
    SearchParts(a, e);
    var p := Build(a, e);
    r, at, beg, end := FindIn(p, a, e, t, start, limit);
  }
}
