/** The order in which a repetition prefers its ways, without opcodes and code sizes: the turns are made by a function f
    from a state to the ways of the body, best first.  Every way compile_quantifier_node has of writing a repetition
    (regcomp.c:1034-1158) realises it; only repetitions of a body that may be empty depend on which one was taken. */
module Order {
  import opened Common
  import opened Tree
  import opened Semantics
  import opened Lengths
  import opened LengthFacts
  import opened Yielding
  import opened Placing
  import Codegen
  import M = Matches

  type Body = St -> seq<St>

  // ---------------------------------------------------------------- sequencing

  lemma {:induction false} FlatJoin(xs: seq<St>, ys: seq<St>, F: Body)
    ensures FlatMap(xs + ys, F) == FlatMap(xs, F) + FlatMap(ys, F)
    decreases |xs|
  {
    if xs == [] {
      assert xs + ys == ys;
    } else {
      assert (xs + ys)[0] == xs[0] && (xs + ys)[1..] == xs[1..] + ys;
      FlatJoin(xs[1..], ys, F);
    }
  }

  lemma {:induction false} FlatSame(xs: seq<St>, F: Body, G: Body)
    requires forall y :: y in xs ==> F(y) == G(y)
    ensures FlatMap(xs, F) == FlatMap(xs, G)
    decreases |xs|
  {
    if xs != [] {
      assert xs[0] in xs;
      FlatSame(xs[1..], F, G);
    }
  }

  /** First F and then G, or both at once. */
  lemma {:induction false} FlatFlat(xs: seq<St>, F: Body, G: Body)
    ensures FlatMap(FlatMap(xs, F), G) == FlatMap(xs, (y: St) => FlatMap(F(y), G))
    decreases |xs|
  {
    if xs != [] {
      FlatFlat(xs[1..], F, G);
      FlatJoin(F(xs[0]), FlatMap(xs[1..], F), G);
    }
  }

  lemma {:induction false} FlatUnit(xs: seq<St>)
    ensures FlatMap(xs, (y: St) => [y]) == xs
    decreases |xs|
  {
    if xs != [] { FlatUnit(xs[1..]); }
  }

  lemma FlatOne(x: St, F: Body)
    ensures FlatMap([x], F) == F(x)
  {
    assert FlatMap([x][1..], F) == [];
  }

  // ---------------------------------------------------------------- repetitions

  /** Any number of turns; a turn that consumed nothing ends the loop, as TurnOf says. */
  function Forever(q: Node, f: Body, t: Subject, x: St): seq<St>
    requires q.Quant?
    decreases Left(t, x), |Dirty(Groups(q.target), x)|, 1
  {
    var more := FlatMap(f(x), (y: St) => ForeverTurn(q, f, t, x, y));
    if q.greedy then more + [x] else [x] + more
  }

  function ForeverTurn(q: Node, f: Body, t: Subject, x: St, y: St): seq<St>
    requires q.Quant?
    decreases Left(t, x), |Dirty(Groups(q.target), x)|, 0
  {
    match TurnOf(q, x, y)
    case Again => if Progress(q, t, x, y) then Forever(q, f, t, y) else [y]
    case Leave => [y]
    case Reject => []
  }

  /** l mandatory turns and then up to m further ones, or any number if m is negative.  A greedy unbounded `.` leaves
      the state StarMeaning describes. */
  function Iter(q: Node, f: Body, t: Subject, l: nat, m: int, x: St): seq<St>
    requires q.Quant?
    decreases l, if m < 0 then 0 else m
  {
    if l > 0 then FlatMap(f(x), (y: St) => Iter(q, f, t, l - 1, m, y))
    else if m < 0 then
      if q.target.Any? && q.greedy then StarMeaning(t, q.target.multiline, None, x, x.s) else Forever(q, f, t, x)
    else if m == 0 then [x]
    else
      var more := FlatMap(f(x), (y: St) => Iter(q, f, t, 0, m - 1, y));
      if q.greedy then more + [x] else [x] + more
  }

  /** The turns when each of them is checked for having consumed something: after c of them and one more run. */
  function CheckTurn(q: Node, f: Body, t: Subject, x: St, c: nat, y: St): seq<St>
    requires q.Quant? && (c == 0 || c < Codegen.UpperCount(q.upper))
    decreases Codegen.UpperCount(q.upper) - c, 0
  {
    match TurnOf(q, x, y)
    case Again => CheckAt(q, f, t, c + 1, y)
    case Leave => [y]
    case Reject => []
  }

  function CheckAt(q: Node, f: Body, t: Subject, c: nat, y: St): seq<St>
    requires q.Quant? && 0 < c
    decreases Codegen.UpperCount(q.upper) - c, 1
  {
    if c >= Codegen.UpperCount(q.upper) then [y]
    else
      var more := FlatMap(f(y), (z: St) => CheckTurn(q, f, t, y, c, z));
      if c < q.lower then more else if q.greedy then more + [y] else [y] + more
  }

  /** How turns that consume nothing are treated: not at all before the optional ones, from the first on in a loop, or
      from the first on in a count. */
  datatype Policy = Free | Entered | Checked

  function PolicyOf(shape: Codegen.Shape): Policy {
    match shape
    case EnterLoop => Entered
    case Counter => Checked
    case _ => Free
  }

  function Rest(q: Node): int
    requires q.Quant?
  {
    if Infinite(q.upper) then -1 else Max(q.upper - q.lower, 0)
  }

  /** All ways of a repetition, in order of preference. */
  function Ordered(q: Node, f: Body, t: Subject, policy: Policy, x: St): seq<St>
    requires q.Quant?
  {
    match policy
    case Free => Iter(q, f, t, q.lower, Rest(q), x)
    case Entered => FlatMap(f(x), (y: St) => ForeverTurn(q, f, t, x, y))
    case Checked =>
      var first := FlatMap(f(x), (y: St) => CheckTurn(q, f, t, x, 0, y));
      if q.lower > 0 then first else if q.greedy then first + [x] else [x] + first
  }

  // ---------------------------------------------------------------- what is compiled realises it

  /** The head byte of a loop, if there is one, stands wherever the body matches; no byte is peeked at. */
  ghost predicate Guarded(q: Node, t: Subject)
    requires q.Quant?
  {
    q.nextHead.None?
    && (q.headExact.Some? ==>
          forall y: St :: !(y.s < t.End() && t.At(y.s) == q.headExact.value) ==> Meaning(q.target, t, y) == [])
  }

  lemma {:induction false} LoopOrdered(q: Node, t: Subject, x: St)
    requires q.Quant? && Guarded(q, t)
    ensures Loop(q, t, x) == Forever(q, MeaningOf(q.target, t), t, x)
    decreases Left(t, x), |Dirty(Groups(q.target), x)|, 1
  {
    hide Meaning;
    var f := MeaningOf(q.target, t);
    var ys := Meaning(q.target, t, x);
    TurnsOrdered(q, t, x);
    assert Forever(q, f, t, x) == if q.greedy then LoopTurns(q, t, x, ys) + [x] else [x] + LoopTurns(q, t, x, ys);
    if ys == [] { assert LoopTurns(q, t, x, ys) == []; }
  }

  lemma {:induction false} TurnsOrdered(q: Node, t: Subject, x: St)
    requires q.Quant? && Guarded(q, t)
    ensures LoopTurns(q, t, x, Meaning(q.target, t, x))
            == FlatMap(Meaning(q.target, t, x), (y: St) => ForeverTurn(q, MeaningOf(q.target, t), t, x, y))
    decreases Left(t, x), |Dirty(Groups(q.target), x)|, 0
  {
    hide Meaning, Loop, Forever, Guarded;
    var f, ys := MeaningOf(q.target, t), Meaning(q.target, t, x);
    TurnsFlat(q, t, x, ys);
    forall y | y in ys ensures TurnTo(q, t, x)(y) == ForeverTurn(q, f, t, x, y) {
      if TurnOf(q, x, y).Again? && Progress(q, t, x, y) { LoopOrdered(q, t, y); }
    }
    FlatSame(ys, TurnTo(q, t, x), (y: St) => ForeverTurn(q, f, t, x, y));
  }

  /** The mandatory copies in front. */
  lemma {:induction false} CopiesOrdered(q: Node, t: Subject, l: nat, m: int, xs: seq<St>)
    requires q.Quant?
    ensures var f := MeaningOf(q.target, t);
      FlatMap(TimesMeaning(q.target, t, l, xs), (y: St) => Iter(q, f, t, 0, m, y))
      == FlatMap(xs, (y: St) => Iter(q, f, t, l, m, y))
    decreases l
  {
    hide Meaning;
    if l > 0 {
      var f := MeaningOf(q.target, t);
      var G := (y: St) => Iter(q, f, t, l - 1, m, y);
      CopiesOrdered(q, t, l - 1, m, MeaningAll(q.target, t, xs));
      MeaningAllFlat(q.target, t, xs);
      FlatFlat(xs, f, G);
      FlatSame(xs, (y: St) => FlatMap(f(y), G), (y: St) => Iter(q, f, t, l, m, y));
    }
  }

  lemma {:induction false} OptionalOrdered(q: Node, t: Subject, m: nat, x: St)
    requires q.Quant? && q.greedy
    ensures Optional(q.target, t, m, x) == Iter(q, MeaningOf(q.target, t), t, 0, m, x)
    decreases m
  {
    hide Meaning;
    if m > 0 {
      var f, ys := MeaningOf(q.target, t), Meaning(q.target, t, x);
      OptionalAllFlat(q.target, t, m - 1, ys);
      forall y | y in ys ensures OptionalOf(q.target, t, m - 1)(y) == Iter(q, f, t, 0, m - 1, y) {
        OptionalOrdered(q, t, m - 1, y);
      }
      FlatSame(ys, OptionalOf(q.target, t, m - 1), (y: St) => Iter(q, f, t, 0, m - 1, y));
    }
  }

  lemma {:induction false} CountOrdered(q: Node, t: Subject, c: nat, x: St)
    requires q.Quant? && (c == 0 || c < Codegen.UpperCount(q.upper))
    ensures CountTurns(q, t, x, c, Meaning(q.target, t, x))
            == FlatMap(Meaning(q.target, t, x), (y: St) => CheckTurn(q, MeaningOf(q.target, t), t, x, c, y))
    decreases Codegen.UpperCount(q.upper) - c
  {
    hide Meaning;
    var f, ys := MeaningOf(q.target, t), Meaning(q.target, t, x);
    CountFlat(q, t, x, c, ys);
    forall y | y in ys ensures CountOf(q, t, x, c)(y) == CheckTurn(q, f, t, x, c, y) {
      if TurnOf(q, x, y).Again? && c + 1 < Codegen.UpperCount(q.upper) { CountOrdered(q, t, c + 1, y); }
    }
    FlatSame(ys, CountOf(q, t, x, c), (y: St) => CheckTurn(q, f, t, x, c, y));
  }

  /** Whatever the repetition is compiled to: its ways and their order, for any body. */
  lemma QuantOrdered(q: Node, t: Subject, x: St)
    requires q.Quant? && ProperCounts(q.lower, q.upper, q.greedy) && Guarded(q, t)
    ensures QuantMeaning(q, t, x) == Ordered(q, MeaningOf(q.target, t), t, PolicyOf(Codegen.ShapeOf(q)), x)
  {
    var n, f, m := q.target, MeaningOf(q.target, t), Rest(q);
    var vs, G := TimesMeaning(n, t, q.lower, [x]), (y: St) => Iter(q, f, t, 0, m, y);
    hide Meaning, Codegen.Length, Loop, Forever, Guarded, TimesMeaning, CountTurns, Optional;
    CopiesOrdered(q, t, q.lower, m, [x]);
    FlatOne(x, (y: St) => Iter(q, f, t, q.lower, m, y));
    match Codegen.ShapeOf(q)
    case AnyStar =>
      StarAllFlat(q, t, vs);
      assert q.nextHead.None? by { NoPeek(q, t); }
      FlatSame(vs, StarOf(q, t), G);
    case EnterLoop => TurnsOrdered(q, t, x);
    case PushLoop =>
      LoopAllFlat(q, t, vs);
      forall y | y in vs ensures LoopOf(q, t)(y) == G(y) { LoopOrdered(q, t, y); }
      FlatSame(vs, LoopOf(q, t), G);
    case Expand =>
      OptionalAllFlat(n, t, m, vs);
      forall y | y in vs ensures OptionalOf(n, t, m)(y) == G(y) { OptionalOrdered(q, t, m, y); }
      FlatSame(vs, OptionalOf(n, t, m), G);
    case LazyOption =>
      FlatUnit(Meaning(n, t, x));
      FlatSame(Meaning(n, t, x), (y: St) => [y], (y: St) => Iter(q, f, t, 0, 0, y));
    case Counter => CountOrdered(q, t, 0, x);
  }

  lemma NoPeek(q: Node, t: Subject)
    requires q.Quant? && Guarded(q, t)
    ensures q.nextHead.None?
  {
  }

  // ---------------------------------------------------------------- bodies that are never empty

  /** A turn of a loop whose body is never empty goes forward. */
  lemma Moves(q: Node, t: Subject, e: Env, x: St, y: St)
    requires q.Quant? && WellFormed(q, e) && q.emptyInfo.NotEmpty? && q.upper != 0
    requires Ok(t, e, x) && NoneOpen(Groups(q), x) && y in Meaning(q.target, t, x)
    ensures x.s < y.s <= t.End() && Ok(t, e, y) && NoneOpen(Groups(q), y)
    ensures TurnOf(q, x, y).Again? && Progress(q, t, x, y)
  {
    var n := q.target;
    assert WellFormed(n, e) && 0 < MinLen(n, e) && Groups(q) == Groups(n);
    hide Meaning, WellFormed, MinLen, MaxLen, CharLen, Groups;
    WellFormedProper(n, e);
    M.Sound(n, t, x, y);
    MatchFacts(n, t, e, x, y);
  }

  /** After c checked turns: the rest of the count. */
  function After(q: Node, f: Body, t: Subject, c: nat, y: St): seq<St>
    requires q.Quant?
  {
    Iter(q, f, t, Max(q.lower - c, 0), if Infinite(q.upper) then -1 else Max(q.upper - Max(q.lower, c), 0), y)
  }

  /** What is left of the count is one turn and what is left after it. */
  lemma AfterTurn(q: Node, f: Body, t: Subject, c: nat, x: St)
    requires q.Quant? && ProperCounts(q.lower, q.upper, q.greedy)
    requires !(q.target.Any? && q.greedy && Infinite(q.upper)) && (Infinite(q.upper) || c < q.upper)
    ensures var more := FlatMap(f(x), (y: St) => After(q, f, t, c + 1, y));
      if c < q.lower then After(q, f, t, c, x) == more
      else if Infinite(q.upper) then
        After(q, f, t, c, x) == Forever(q, f, t, x) && more == FlatMap(f(x), (y: St) => Iter(q, f, t, 0, -1, y))
      else After(q, f, t, c, x) == if q.greedy then more + [x] else [x] + more
  {
    hide Forever;
    var l, m := Max(q.lower - c, 0), if Infinite(q.upper) then -1 else Max(q.upper - Max(q.lower, c), 0);
    var next := (y: St) => After(q, f, t, c + 1, y);
    if c < q.lower {
      FlatSame(f(x), next, (y: St) => Iter(q, f, t, l - 1, m, y));
    } else if Infinite(q.upper) {
      FlatSame(f(x), next, (y: St) => Iter(q, f, t, 0, -1, y));
    } else {
      FlatSame(f(x), next, (y: St) => Iter(q, f, t, 0, m - 1, y));
    }
  }

  /** The count is no limit that matters: finite, or larger than what is left of the text. */
  ghost predicate Within(q: Node, t: Subject, c: nat, y: St)
    requires q.Quant?
  {
    if Infinite(q.upper) then c + Left(t, y) < Codegen.INFINITE_COUNT else c <= q.upper
  }

  lemma {:induction false} CheckedIsFree(q: Node, t: Subject, e: Env, c: nat, y: St)
    requires q.Quant? && WellFormed(q, e) && q.emptyInfo.NotEmpty? && q.upper != 0
        && !(q.target.Any? && q.greedy && Infinite(q.upper))
    requires Ok(t, e, y) && NoneOpen(Groups(q), y) && 0 < c && Within(q, t, c, y)
    ensures CheckAt(q, MeaningOf(q.target, t), t, c, y) == After(q, MeaningOf(q.target, t), t, c, y)
    decreases Left(t, y), 1
  {
    var f := MeaningOf(q.target, t);
    assert ProperCounts(q.lower, q.upper, q.greedy);
    hide Meaning, WellFormed, Forever, After, CheckTurn, ForeverTurn;
    if c < Codegen.UpperCount(q.upper) {
      TurnsAreFree(q, t, e, c, y);
      AfterTurn(q, f, t, c, y);
      if q.lower <= c && Infinite(q.upper) {
        LastTurns(q, t, e, y);
        ForeverIs(q, f, t, y);
      }
    } else {
      CountDone(q, f, t, c, y);
    }
  }

  lemma ForeverIs(q: Node, f: Body, t: Subject, x: St)
    requires q.Quant?
    ensures var more := FlatMap(f(x), (y: St) => ForeverTurn(q, f, t, x, y));
      Forever(q, f, t, x) == if q.greedy then more + [x] else [x] + more
  {
  }

  lemma CountDone(q: Node, f: Body, t: Subject, c: nat, y: St)
    requires q.Quant? && ProperCounts(q.lower, q.upper, q.greedy) && Within(q, t, c, y)
        && Codegen.UpperCount(q.upper) <= c
    ensures After(q, f, t, c, y) == [y]
  {
  }

  /** One more turn, checked or not. */
  lemma {:induction false} TurnsAreFree(q: Node, t: Subject, e: Env, c: nat, x: St)
    requires q.Quant? && WellFormed(q, e) && q.emptyInfo.NotEmpty? && q.upper != 0
        && !(q.target.Any? && q.greedy && Infinite(q.upper))
    requires Ok(t, e, x) && NoneOpen(Groups(q), x) && Within(q, t, c, x)
    requires c == 0 || c < Codegen.UpperCount(q.upper)
    ensures var f := MeaningOf(q.target, t);
      FlatMap(f(x), (y: St) => CheckTurn(q, f, t, x, c, y)) == FlatMap(f(x), (y: St) => After(q, f, t, c + 1, y))
    decreases Left(t, x), 0
  {
    assert ProperCounts(q.lower, q.upper, q.greedy);
    hide Meaning, WellFormed, CheckAt, After, Groups, Ok;
    var f := MeaningOf(q.target, t);
    forall y | y in f(x) ensures CheckTurn(q, f, t, x, c, y) == After(q, f, t, c + 1, y) {
      Moves(q, t, e, x, y);
      assert Within(q, t, c + 1, y) by { CountFits(q, t, e, c, x, y); }
      CheckedIsFree(q, t, e, c + 1, y);
    }
    FlatSame(f(x), (y: St) => CheckTurn(q, f, t, x, c, y), (y: St) => After(q, f, t, c + 1, y));
  }

  lemma CountFits(q: Node, t: Subject, e: Env, c: nat, x: St, y: St)
    requires q.Quant? && ProperCounts(q.lower, q.upper, q.greedy) && q.upper != 0 && Within(q, t, c, x)
        && x.s < y.s <= t.End()
    requires c == 0 || c < Codegen.UpperCount(q.upper)
    ensures Within(q, t, c + 1, y)
  {
  }

  lemma LastTurns(q: Node, t: Subject, e: Env, x: St)
    requires q.Quant? && WellFormed(q, e) && q.emptyInfo.NotEmpty? && Infinite(q.upper) && !(q.target.Any? && q.greedy)
    requires Ok(t, e, x) && NoneOpen(Groups(q), x)
    ensures var f := MeaningOf(q.target, t);
      FlatMap(f(x), (y: St) => Iter(q, f, t, 0, -1, y)) == FlatMap(f(x), (y: St) => ForeverTurn(q, f, t, x, y))
  {
    hide Meaning, WellFormed, Forever;
    var f := MeaningOf(q.target, t);
    forall y | y in f(x) ensures Iter(q, f, t, 0, -1, y) == ForeverTurn(q, f, t, x, y) { Moves(q, t, e, x, y); }
    FlatSame(f(x), (y: St) => Iter(q, f, t, 0, -1, y), (y: St) => ForeverTurn(q, f, t, x, y));
  }

  /** A loop the compiler enters in the middle. */
  lemma EnteredIsFree(q: Node, t: Subject, e: Env, x: St)
    requires q.Quant? && WellFormed(q, e) && q.emptyInfo.NotEmpty? && Infinite(q.upper) && q.lower == 1
    requires !(q.target.Any? && q.greedy) && Ok(t, e, x) && NoneOpen(Groups(q), x)
    ensures Ordered(q, MeaningOf(q.target, t), t, Entered, x) == Ordered(q, MeaningOf(q.target, t), t, Free, x)
  {
    hide Meaning, WellFormed, Forever;
    LastTurns(q, t, e, x);
  }

  /** A count. */
  lemma CountedIsFree(q: Node, t: Subject, e: Env, x: St)
    requires q.Quant? && WellFormed(q, e) && q.emptyInfo.NotEmpty? && q.upper != 0
        && !(q.target.Any? && q.greedy && Infinite(q.upper))
    requires Ok(t, e, x) && NoneOpen(Groups(q), x) && t.End() < Codegen.INFINITE_COUNT
    ensures Ordered(q, MeaningOf(q.target, t), t, Checked, x) == Ordered(q, MeaningOf(q.target, t), t, Free, x)
  {
    var f := MeaningOf(q.target, t);
    assert ProperCounts(q.lower, q.upper, q.greedy);
    FreeIsAfter(q, f, t, x);
    hide Meaning, WellFormed, Forever, After, CheckTurn, ForeverTurn, Iter;
    TurnsAreFree(q, t, e, 0, x);
    AfterTurn(q, f, t, 0, x);
    if q.lower == 0 && Infinite(q.upper) {
      LastTurns(q, t, e, x);
      ForeverIs(q, f, t, x);
    }
  }

  lemma FreeIsAfter(q: Node, f: Body, t: Subject, x: St)
    requires q.Quant? && ProperCounts(q.lower, q.upper, q.greedy)
    ensures Ordered(q, f, t, Free, x) == After(q, f, t, 0, x)
  {
  }

  /** A repetition of a body that is never empty has one order of preference, whatever it is compiled to and however
      long the code is. */
  lemma PlainOrder(q: Node, t: Subject, e: Env, x: St)
    requires q.Quant? && WellFormed(q, e) && q.emptyInfo.NotEmpty? && Guarded(q, t)
    requires Ok(t, e, x) && NoneOpen(Groups(q), x) && t.End() < Codegen.INFINITE_COUNT
    ensures QuantMeaning(q, t, x) == Ordered(q, MeaningOf(q.target, t), t, Free, x)
  {
    hide Meaning, Iter, CheckTurn, ForeverTurn, Guarded, Codegen.Length;
    QuantOrdered(q, t, x);
    match PolicyOf(Codegen.ShapeOf(q))
    case Free =>
    case Entered => EnteredIsFree(q, t, e, x);
    case Checked => CountedIsFree(q, t, e, x);
  }

  /** The dedicated opcode for `.*` makes the same turns; only the previous position it remembers at the end of the text
      is another one. */
  lemma {:induction false} StarTurns(q: Node, t: Subject, x: St, begin: nat)
    requires q.Quant? && q.target.Any? && q.greedy && q.emptyInfo.NotEmpty?
    ensures var a, b := StarMeaning(t, q.target.multiline, None, x, begin), Forever(q, MeaningOf(q.target, t), t, x);
      |a| == |b| && forall i :: 0 <= i < |a| ==> a[i] == b[i] || (b[i].s >= t.End() && a[i] == b[i].(prev := begin))
    decreases Left(t, x)
  {
    var ml := q.target.multiline;
    var f, y := MeaningOf(q.target, t), Advance(x, 1);
    if AnyMatches(t, ml, x) {
      StarTurns(q, t, y, begin);
      assert f(x) == [y];
      FlatOne(y, (z: St) => ForeverTurn(q, f, t, x, z));
      assert ForeverTurn(q, f, t, x, y) == Forever(q, f, t, y);
    } else {
      assert f(x) == [];
    }
  }
}
