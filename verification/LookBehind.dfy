/** Look-behind (regcomp.c:2381-2503, 3227-3280; regexec.c:2833-2864): stepping back the one length all matches have, or
    dividing the alternatives of different lengths, finds exactly the matches that end at the current position. */
module LookBehind {
  import opened Common
  import opened Tree
  import opened Semantics
  import opened Lengths
  import opened LengthFacts
  import M = Matches

  /** The state at an earlier position. */
  function BackTo(x: St, p: nat): St { x.(s := p, prev := p - 1) }

  /** What a look-behind is for: y is a way to match `body` from some earlier position up to x. */
  ghost predicate EndsHere(body: Node, t: Subject, x: St, y: St) {
    exists p: nat :: p <= x.s && y in Meaning(body, t, BackTo(x, p)) && y.s == x.s
  }

  // ---------------------------------------------------------------- setup_look_behind

  /** All alternatives have a length, if not the same one. */
  predicate AllFixed(ns: Nodes) {
    match ns
    case Last(car) => CharLen(car).Some?
    case Link(car, cdr) => CharLen(car).Some? && AllFixed(cdr)
  }

  /** divide_look_behind_alternatives, and the lengths the second pass of setup_tree stores. */
  function Divide(look: LookKind, ns: Nodes): Nodes
    requires AllFixed(ns)
  {
    match ns
    case Last(car) => Last(Look(look, car, CharLen(car).value))
    case Link(car, cdr) => Link(Look(look, car, CharLen(car).value), Divide(look, cdr))
  }

  /** setup_look_behind; None is ONIGERR_INVALID_LOOK_BEHIND_PATTERN. */
  function SetupLookBehind(look: LookKind, body: Node): Option<Node> {
    if CharLen(body).Some? then Some(Look(look, body, CharLen(body).value))
    else if body.Alt? && AllFixed(body.elems) then
      Some(if look.BehindNot? then List(Divide(look, body.elems)) else Alt(Divide(look, body.elems)))
    else None
  }

  // ---------------------------------------------------------------- one length

  lemma BackOk(t: Subject, e: Env, x: St, p: nat)
    requires Ok(t, e, x) && p <= x.s
    ensures Ok(t, e, BackTo(x, p))
  {
  }

  /** A way to match has the fixed length. */
  lemma FixedLength(body: Node, t: Subject, e: Env, x: St, y: St)
    requires WellFormed(body, e) && CharLen(body).Some? && Ok(t, e, x) && NoneOpen(Groups(body), x)
    requires y in Meaning(body, t, x)
    ensures y.s == x.s + CharLen(body).value
  {
    hide Meaning, WellFormed, CharLen, MinLen, MaxLen, Ok, M.CanMatch;
    WellFormedProper(body, e);
    M.Sound(body, t, x, y);
    MatchFacts(body, t, e, x, y);
  }

  /** Stepping back the fixed length finds exactly the matches that end here. */
  lemma BehindExact(body: Node, t: Subject, e: Env, x: St, y: St)
    requires WellFormed(body, e) && CharLen(body).Some? && Ok(t, e, x) && NoneOpen(Groups(body), x)
    ensures y in Meaning(Look(Behind, body, CharLen(body).value), t, x) <==> EndsHere(body, t, x, y)
  {
    var n := CharLen(body).value;
    BehindUnfolds(body, n, t, x);
    hide Meaning, WellFormed, CharLen, Ok, Groups;
    if n <= x.s {
      assert StepBack(x, n) == BackTo(x, x.s - n);
      if y in Meaning(body, t, BackTo(x, x.s - n)) {
        BackOk(t, e, x, x.s - n);
        FixedLength(body, t, e, BackTo(x, x.s - n), y);
        assert EndsHere(body, t, x, y);
      }
    }
    if EndsHere(body, t, x, y) {
      var p: nat :| p <= x.s && y in Meaning(body, t, BackTo(x, p)) && y.s == x.s;
      BackOk(t, e, x, p);
      FixedLength(body, t, e, BackTo(x, p), y);
    }
  }

  lemma BehindUnfolds(body: Node, n: nat, t: Subject, x: St)
    ensures Meaning(Look(Behind, body, n), t, x) == if x.s < n then [] else Meaning(body, t, StepBack(x, n))
    ensures Meaning(Look(BehindNot, body, n), t, x) == if Meaning(Look(Behind, body, n), t, x) == [] then [x] else []
  {
  }

  /** The negative form holds exactly when nothing ends here. */
  lemma BehindNotExact(body: Node, t: Subject, e: Env, x: St)
    requires WellFormed(body, e) && CharLen(body).Some? && Ok(t, e, x) && NoneOpen(Groups(body), x)
    ensures Meaning(Look(BehindNot, body, CharLen(body).value), t, x)
            == if exists y :: EndsHere(body, t, x, y) then [] else [x]
  {
    hide Meaning, WellFormed, CharLen, Ok, Groups;
    var n := CharLen(body).value;
    BehindUnfolds(body, n, t, x);
    var ys := Meaning(Look(Behind, body, n), t, x);
    forall y: St ensures y in ys <==> EndsHere(body, t, x, y) { BehindExact(body, t, e, x, y); }
    if ys != [] { assert ys[0] in ys; }
  }

  // ---------------------------------------------------------------- divided alternatives

  lemma EndsHereAlt(ns: Nodes, t: Subject, x: St, y: St)
    requires ns.Link?
    ensures EndsHere(Alt(ns), t, x, y) <==> EndsHere(ns.car, t, x, y) || EndsHere(Alt(ns.cdr), t, x, y)
  {
    forall p: nat ensures y in Meaning(Alt(ns), t, BackTo(x, p))
        <==> y in Meaning(ns.car, t, BackTo(x, p)) || y in Meaning(Alt(ns.cdr), t, BackTo(x, p)) {
      assert Meaning(Alt(ns), t, BackTo(x, p))
          == Meaning(ns.car, t, BackTo(x, p)) + AltMeaning(ns.cdr, t, BackTo(x, p));
    }
  }

  lemma EndsHereLast(ns: Nodes, t: Subject, x: St, y: St)
    requires ns.Last?
    ensures EndsHere(Alt(ns), t, x, y) <==> EndsHere(ns.car, t, x, y)
  {
    forall p: nat ensures Meaning(Alt(ns), t, BackTo(x, p)) == Meaning(ns.car, t, BackTo(x, p)) {
    }
  }

  /** (?<=A|B) divided into (?<=A)|(?<=B). */
  lemma {:induction false} DividedExact(ns: Nodes, t: Subject, e: Env, x: St, y: St)
    requires WellFormedAll(ns, e) && AllFixed(ns) && Ok(t, e, x) && NoneOpen(GroupsOf(ns), x)
    ensures y in AltMeaning(Divide(Behind, ns), t, x) <==> EndsHere(Alt(ns), t, x, y)
    decreases ns
  {
    hide Meaning, WellFormed, CharLen, Ok, EndsHere;
    BehindExact(ns.car, t, e, x, y);
    match ns
    case Last(car) => EndsHereLast(ns, t, x, y);
    case Link(car, cdr) =>
      DividedExact(cdr, t, e, x, y);
      EndsHereAlt(ns, t, x, y);
  }

  /** (?<!A|B) divided into (?<!A)(?<!B). */
  lemma {:induction false} DividedNotExact(ns: Nodes, t: Subject, e: Env, x: St)
    requires WellFormedAll(ns, e) && AllFixed(ns) && Ok(t, e, x) && NoneOpen(GroupsOf(ns), x)
    ensures ListMeaning(Divide(BehindNot, ns), t, x) == if exists y :: EndsHere(Alt(ns), t, x, y) then [] else [x]
    decreases ns
  {
    hide Meaning, WellFormed, CharLen, Ok, EndsHere;
    BehindNotExact(ns.car, t, e, x);
    match ns
    case Last(car) =>
      forall y: St ensures EndsHere(Alt(ns), t, x, y) <==> EndsHere(car, t, x, y) { EndsHereLast(ns, t, x, y); }
    case Link(car, cdr) =>
      DividedNotExact(cdr, t, e, x);
      forall y: St ensures EndsHere(Alt(ns), t, x, y) <==> EndsHere(car, t, x, y) || EndsHere(Alt(cdr), t, x, y) {
        EndsHereAlt(ns, t, x, y);
      }
      assert ListMeaningAll(Divide(BehindNot, cdr), t, [x][1..]) == [];
      assert ListMeaningAll(Divide(BehindNot, cdr), t, [x]) == ListMeaning(Divide(BehindNot, cdr), t, x);
  }

  /** Whatever setup_look_behind makes of a look-behind, it means what the look-behind is for. */
  lemma LookBehindExact(look: LookKind, body: Node, t: Subject, e: Env, x: St)
    requires look.Behind? || look.BehindNot?
    requires WellFormed(body, e) && Ok(t, e, x) && NoneOpen(Groups(body), x) && SetupLookBehind(look, body).Some?
    ensures var ys := Meaning(SetupLookBehind(look, body).value, t, x);
      if look.Behind? then forall y: St :: y in ys <==> EndsHere(body, t, x, y)
      else ys == if exists y :: EndsHere(body, t, x, y) then [] else [x]
  {
    var r := SetupLookBehind(look, body).value;
    if CharLen(body).Some? {
      BehindNotExact(body, t, e, x);
      forall y: St ensures y in Meaning(Look(Behind, body, CharLen(body).value), t, x) <==> EndsHere(body, t, x, y) {
        BehindExact(body, t, e, x, y);
      }
    } else {
      var ns := body.elems;
      assert body == Alt(ns);
      DividedNotExact(ns, t, e, x);
      forall y: St ensures y in AltMeaning(Divide(Behind, ns), t, x) <==> EndsHere(body, t, x, y) {
        DividedExact(ns, t, e, x, y);
      }
    }
  }
}
