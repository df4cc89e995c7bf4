/** From which position to which a counted repetition leads: exactly which runs of turns OP_REPEAT_INC counts, for any
    body and any null check, and what they make of the turns that consume nothing. */
module CountWords {
  import opened Tree
  import opened Semantics
  import opened Yielding
  import opened Placing
  import opened Order
  import opened LoopWords
  import opened Common
  import Codegen

  // ---------------------------------------------------------------- the capture-aware null check

  /** A capture of nothing. */
  predicate Blank(c: Cap) { c.Closed? && c.start == c.end }

  lemma {:induction false} MemTurnExact(visits: seq<Visit>, s: nat, moved: bool)
    ensures MemTurn(visits, s, moved).Again? <==> exists v: Visit :: v in visits && !Blank(v.was)
    ensures MemTurn(visits, s, moved).Leave? <==> !moved && forall v: Visit :: v in visits ==> v.was == Closed(s, s)
    decreases |visits|
  {
    if visits != [] {
      MemTurnExact(visits[1..], s, moved || (visits[0].was.Closed? && visits[0].was.end != s));
      assert forall v: Visit :: v in visits <==> v == visits[0] || v in visits[1..];
      assert visits[0] in visits;
    }
  }

  /** OP_NULL_CHECK_END_MEMST after an empty turn: it is rejected exactly if every group it visited held an empty
      capture, and one of them elsewhere; it leaves the loop exactly if all of them held the empty capture here. */
  lemma RejectExact(q: Node, x: St, y: St)
    requires q.Quant? && q.emptyInfo.EmptyMem? && y.s == x.s && |x.log| <= |y.log|
    ensures var visits := y.log[|x.log|..];
      (TurnOf(q, x, y).Reject? <==> (forall v: Visit :: v in visits ==> Blank(v.was))
                                    && exists v: Visit :: v in visits && v.was != Closed(x.s, x.s))
      && (TurnOf(q, x, y).Leave? <==> forall v: Visit :: v in visits ==> v.was == Closed(x.s, x.s))
      && (TurnOf(q, x, y).Again? <==> exists v: Visit :: v in visits && !Blank(v.was))
  {
    MemTurnExact(y.log[|x.log|..], y.s, false);
  }

  // ---------------------------------------------------------------- runs

  ghost predicate Counting(q: Node, f: Body, x: St, y: St)
    requires q.Quant?
  {
    y in f(x) && TurnOf(q, x, y).Again?
  }

  ghost predicate Leaving(q: Node, f: Body, x: St, y: St)
    requires q.Quant?
  {
    y in f(x) && TurnOf(q, x, y).Leave?
  }

  /** c counted turns lead from x to y. */
  ghost predicate Run(q: Node, f: Body, c: nat, x: St, y: St)
    requires q.Quant?
    decreases c
  {
    if c == 0 then x == y else exists z: St :: Counting(q, f, x, z) && Run(q, f, c - 1, z, y)
  }

  /** Some empty turn from y leaves the loop. */
  ghost predicate Exits(q: Node, f: Body, y: St, j: nat)
    requires q.Quant?
  {
    exists z: St :: Leaving(q, f, y, z) && z.s == j
  }

  /** After c turns the count may end at y: it is in range, or an empty turn breaks it off. */
  ghost predicate Stops(q: Node, f: Body, c: nat, y: St, j: nat)
    requires q.Quant?
  {
    (q.lower <= c && y.s == j) || (c < Codegen.UpperCount(q.upper) && Exits(q, f, y, j))
  }

  /** Some run from y, after c turns already made, stops at j. */
  ghost predicate Finds(q: Node, f: Body, c: nat, y: St, j: nat)
    requires q.Quant?
  {
    exists k: nat, z: St :: Run(q, f, k, y, z) && c + k <= Codegen.UpperCount(q.upper) && Stops(q, f, c + k, z, j)
  }

  /** Some counted turn from x leads on to j. */
  ghost predicate GoesOnTo(q: Node, f: Body, c: nat, x: St, j: nat)
    requires q.Quant?
  {
    exists z: St :: Counting(q, f, x, z) && Finds(q, f, c + 1, z, j)
  }

  lemma FindsMore(q: Node, f: Body, c: nat, y: St, j: nat)
    requires q.Quant? && c <= Codegen.UpperCount(q.upper)
    ensures Finds(q, f, c, y, j) <==> Stops(q, f, c, y, j) || GoesOnTo(q, f, c, y, j)
  {
    hide Stops, Counting;
    if k: nat, z: St :| Run(q, f, k, y, z) && c + k <= Codegen.UpperCount(q.upper) && Stops(q, f, c + k, z, j) {
      if k > 0 {
        var w: St :| Counting(q, f, y, w) && Run(q, f, k - 1, w, z);
        assert c + k == c + 1 + (k - 1);
        assert Finds(q, f, c + 1, w, j);
      }
    }
    if Stops(q, f, c, y, j) {
      assert Run(q, f, 0, y, y) && c + 0 == c;
    }
    if w: St :| Counting(q, f, y, w) && Finds(q, f, c + 1, w, j) {
      var k: nat, z: St :| Run(q, f, k, w, z) && c + 1 + k <= Codegen.UpperCount(q.upper)
          && Stops(q, f, c + 1 + k, z, j);
      assert c + 1 + k == c + (k + 1) && Run(q, f, k + 1, y, z);
    }
  }

  lemma {:induction false} FindsAfter(q: Node, f: Body, c: nat, d: nat, x: St, y: St, j: nat)
    requires q.Quant? && Run(q, f, d, x, y) && c + d <= Codegen.UpperCount(q.upper) && Finds(q, f, c + d, y, j)
    ensures Finds(q, f, c, x, j)
    decreases d
  {
    hide Finds, Stops, Counting;
    if d > 0 {
      var z: St :| Counting(q, f, x, z) && Run(q, f, d - 1, z, y);
      assert c + 1 + (d - 1) == c + d;
      FindsAfter(q, f, c + 1, d - 1, z, y, j);
      FindsMore(q, f, c, x, j);
    }
  }

  /** What OP_REPEAT_INC makes of the count c. */
  lemma {:induction false} CheckAtRuns(q: Node, f: Body, t: Subject, c: nat, y: St, j: nat)
    requires q.Quant? && 0 < c <= Codegen.UpperCount(q.upper) && q.lower <= Codegen.UpperCount(q.upper)
    ensures Ends(CheckAt(q, f, t, c, y), j) <==> Finds(q, f, c, y, j)
    decreases Codegen.UpperCount(q.upper) - c, 1
  {
    hide Ends, CheckTurn, Finds, GoesOnTo, Exits;
    EndsOne(y, j);
    FindsMore(q, f, c, y, j);
    if c == Codegen.UpperCount(q.upper) {
      if GoesOnTo(q, f, c, y, j) { TooMany(q, f, c, y, j); }
    } else {
      CheckTurnRuns(q, f, t, c, y, j);
      EndsOr(q, FlatMap(f(y), (z: St) => CheckTurn(q, f, t, y, c, z)), y, j);
    }
  }

  lemma TooMany(q: Node, f: Body, c: nat, y: St, j: nat)
    requires q.Quant? && c == Codegen.UpperCount(q.upper)
    ensures !GoesOnTo(q, f, c, y, j)
  {
  }

  /** One turn and what follows it. */
  lemma {:induction false} CheckTurnRuns(q: Node, f: Body, t: Subject, c: nat, x: St, j: nat)
    requires q.Quant? && c < Codegen.UpperCount(q.upper) && q.lower <= Codegen.UpperCount(q.upper)
    ensures Ends(FlatMap(f(x), (y: St) => CheckTurn(q, f, t, x, c, y)), j)
        <==> Exits(q, f, x, j) || GoesOnTo(q, f, c, x, j)
    decreases Codegen.UpperCount(q.upper) - c, 0
  {
    hide Ends, CheckAt, Finds;
    var F := (y: St) => CheckTurn(q, f, t, x, c, y);
    FlatEnds(f(x), F, j);
    NoEnd(j);
    forall y | y in f(x) ensures Ends(F(y), j)
        <==> (Leaving(q, f, x, y) && y.s == j) || (Counting(q, f, x, y) && Finds(q, f, c + 1, y, j)) {
      EndsOne(y, j);
      CheckAtRuns(q, f, t, c + 1, y, j);
    }
  }

  /** Where a checked count leads, for any body: exactly where a run of counted turns stops. */
  lemma CountRuns(q: Node, f: Body, t: Subject, x: St, j: nat)
    requires q.Quant? && q.upper != 0 && q.lower <= Codegen.UpperCount(q.upper)
    ensures Ends(Ordered(q, f, t, Checked, x), j) <==> Finds(q, f, 0, x, j)
  {
    hide Ends, CheckTurn, Finds, GoesOnTo, Exits;
    FindsMore(q, f, 0, x, j);
    CheckTurnRuns(q, f, t, 0, x, j);
    EndsOr(q, FlatMap(f(x), (y: St) => CheckTurn(q, f, t, x, 0, y)), x, j);
  }

  // ---------------------------------------------------------------- runs of a body that leads along a relation

  lemma {:induction false} RunTurns(q: Node, f: Body, R: Rel, t: Subject, c: nat, x: St, y: St)
    requires q.Quant? && Speaks(f, R, t) && Forward(R, t) && x.s <= t.End() && Run(q, f, c, x, y)
    ensures Turns(R, c, x.s, y.s) && x.s <= y.s <= t.End()
    decreases c
  {
    hide Speaks, Forward, TurnOf;
    if c > 0 {
      var z: St :| Counting(q, f, x, z) && Run(q, f, c - 1, z, y);
      WayIs(f, R, t, x, z);
      RunTurns(q, f, R, t, c - 1, z, y);
    }
  }

  /** Leaving takes an empty turn. */
  lemma ExitEmpty(q: Node, f: Body, R: Rel, t: Subject, y: St, j: nat)
    requires q.Quant? && Speaks(f, R, t) && Forward(R, t) && y.s <= t.End() && Exits(q, f, y, j)
    ensures y.s == j && R(j, j)
  {
    hide Speaks, Forward;
    var z: St :| Leaving(q, f, y, z) && z.s == j;
    WayIs(f, R, t, y, z);
  }

  lemma StopsThere(q: Node, f: Body, R: Rel, t: Subject, c: nat, y: St, j: nat)
    requires q.Quant? && Speaks(f, R, t) && Forward(R, t) && y.s <= t.End() && Stops(q, f, c, y, j)
    ensures y.s == j && (c < q.lower ==> R(j, j))
  {
    hide Speaks, Forward, Exits;
    if Exits(q, f, y, j) { ExitEmpty(q, f, R, t, y, j); }
  }

  /** Steps are counted whatever the null check; they lead into I. */
  lemma {:induction false} StepsRun(q: Node, f: Body, R: Rel, t: Subject, I: Inv, c: nat, x: St, j: nat) returns (y: St)
    requires q.Quant? && Speaks(f, R, t) && Forward(R, t) && x.s <= t.End() && Steps(R, c, x.s, j)
    requires forall a: St, b: St :: a.s <= t.End() && b in f(a) && a.s < b.s ==> I(b)
    ensures Run(q, f, c, x, y) && y.s == j && (0 < c ==> I(y)) && (c == 0 ==> y == x)
    decreases c
  {
    hide Speaks, Forward;
    y := x;
    if c > 0 {
      var m: nat :| x.s < m && R(x.s, m) && Steps(R, c - 1, m, j);
      var z := WayTo(f, R, t, x, m);
      WayIs(f, R, t, x, z);
      assert Steps(R, c - 1, z.s, j);
      y := StepsRun(q, f, R, t, I, c - 1, z, j);
      assert Counting(q, f, x, z) && I(z);
    }
  }

  /** Steps go forward, so their number is limited by the text. */
  lemma {:induction false} StepsFew(R: Rel, t: Subject, c: nat, i: nat, j: nat)
    requires Forward(R, t) && Steps(R, c, i, j) && i <= t.End()
    ensures c <= j - i && j <= t.End()
    decreases c
  {
    if c > 0 {
      var m: nat :| i < m && R(i, m) && Steps(R, c - 1, m, j);
      StepsFew(R, t, c - 1, m, j);
    }
  }

  /** The bounds of the count. */
  predicate Bounded(q: Node)
    requires q.Quant?
  {
    (Infinite(q.upper) || q.lower <= q.upper) && q.lower <= Codegen.INFINITE_COUNT
  }

  // ---------------------------------------------------------------- when empty turns always leave

  /** Where a checked count leads if every empty turn leaves it: its steps are enough for the lower bound, or an empty
      turn can be made at the very end. */
  ghost predicate Counts(q: Node, R: Rel, i: nat, j: nat)
    requires q.Quant?
  {
    exists c: nat :: (Infinite(q.upper) || c <= q.upper) && Steps(R, c, i, j) && (q.lower <= c || R(j, j))
  }

  /** Every empty turn leaves the loop: the plain null check, or one that reads captures but sees no visit. */
  ghost predicate Breaking(q: Node, f: Body, t: Subject)
    requires q.Quant?
  {
    forall x: St, y: St :: x.s <= t.End() && y in f(x) && y.s == x.s ==> TurnOf(q, x, y).Leave?
  }

  lemma {:induction false} RunSteps(q: Node, f: Body, R: Rel, t: Subject, c: nat, x: St, y: St)
    requires q.Quant? && Speaks(f, R, t) && Forward(R, t) && Breaking(q, f, t) && x.s <= t.End() && Run(q, f, c, x, y)
    ensures Steps(R, c, x.s, y.s) && y.s <= t.End()
    decreases c
  {
    hide Speaks, Forward, TurnOf;
    if c > 0 {
      var z: St :| Counting(q, f, x, z) && Run(q, f, c - 1, z, y);
      WayIs(f, R, t, x, z);
      RunSteps(q, f, R, t, c - 1, z, y);
    }
  }

  /** Where a checked count leads. */
  lemma CountEnds(q: Node, f: Body, R: Rel, t: Subject, x: St, j: nat)
    requires q.Quant? && Breaking(q, f, t) && Speaks(f, R, t) && Forward(R, t) && x.s <= t.End()
    requires Bounded(q) && q.upper != 0 && t.End() < Codegen.INFINITE_COUNT
    ensures Ends(Ordered(q, f, t, Checked, x), j) <==> Counts(q, R, x.s, j)
  {
    hide Ends, Speaks, Forward, Ordered, Breaking, Run, Exits, TurnOf;
    CountRuns(q, f, t, x, j);
    if k: nat, z: St :| Run(q, f, k, x, z) && 0 + k <= Codegen.UpperCount(q.upper) && Stops(q, f, 0 + k, z, j) {
      RunSteps(q, f, R, t, k, x, z);
      if Exits(q, f, z, j) { ExitEmpty(q, f, R, t, z, j); }
    }
    if c: nat :| (Infinite(q.upper) || c <= q.upper) && Steps(R, c, x.s, j) && (q.lower <= c || R(j, j)) {
      var y := StepsRun(q, f, R, t, (_: St) => true, c, x, j);
      StepsFew(R, t, c, x.s, j);
      if c < q.lower { BreaksOff(q, f, R, t, y); }
      assert Run(q, f, c, x, y) && 0 + c <= Codegen.UpperCount(q.upper) && Stops(q, f, 0 + c, y, j);
    }
  }

  lemma BreaksOff(q: Node, f: Body, R: Rel, t: Subject, y: St)
    requires q.Quant? && Breaking(q, f, t) && Speaks(f, R, t) && y.s <= t.End() && R(y.s, y.s)
    ensures Exits(q, f, y, y.s)
  {
    hide Speaks;
    var z := WayTo(f, R, t, y, y.s);
    assert Leaving(q, f, y, z);
  }

  /** Such a count misses a word exactly if no allowed number of steps leads there, and the empty turns that would fill
      it up can only be made before the end of the word. */
  lemma CountMisses(q: Node, R: Rel, t: Subject, i: nat, j: nat)
    requires q.Quant? && (Infinite(q.upper) || q.lower <= q.upper) && Forward(R, t) && i <= t.End()
    ensures Counts(q, R, i, j) ==> exists k: nat :: Allowed(q, k) && Turns(R, k, i, j)
    ensures (exists k: nat :: Allowed(q, k) && Turns(R, k, i, j)) && !Counts(q, R, i, j)
        <==> !R(j, j) && (forall c: nat :: Allowed(q, c) ==> !Steps(R, c, i, j))
             && exists c: nat :: c < q.lower && Pauses(R, c, i, j)
  {
    TurnsBySteps(q, R, t, i, j);
    forall c: nat | Steps(R, c, i, j) && R(j, j) ensures Pauses(R, c, i, j) { PauseAtEnd(R, c, i, j); }
    forall c: nat | Pauses(R, c, i, j) ensures Steps(R, c, i, j) { Stretch(R, c, c, i, j); }
    if c: nat :| (Infinite(q.upper) || c <= q.upper) && Steps(R, c, i, j) && (q.lower <= c || R(j, j)) {
      assert (Infinite(q.upper) || c <= q.upper) && Steps(R, c, i, j) && (q.lower <= c || Pauses(R, c, i, j));
    }
  }

  lemma {:induction false} PauseAtEnd(R: Rel, c: nat, i: nat, j: nat)
    requires Steps(R, c, i, j) && R(j, j)
    ensures Pauses(R, c, i, j)
    decreases c
  {
    if c > 0 {
      var m: nat :| i < m && R(i, m) && Steps(R, c - 1, m, j);
      PauseAtEnd(R, c - 1, m, j);
    }
  }

  // ---------------------------------------------------------------- when only a second empty turn leaves

  /** c turns in a row, no two empty ones one after the other; the first may be empty only if it is free to. */
  ghost predicate Rests(R: Rel, c: nat, free: bool, i: nat, j: nat)
    decreases c
  {
    if c == 0 then i == j else exists m: nat :: R(i, m) && (i < m || free) && Rests(R, c - 1, i < m, m, j)
  }

  /** In the states of I a free empty turn is counted and leads to a state that is not free, where the next one leaves;
      turns that consume something lead to free states. */
  ghost predicate Resting(q: Node, f: Body, t: Subject, I: Inv, free: Inv)
    requires q.Quant?
  {
    forall x: St, y: St :: x.s <= t.End() && I(x) && y in f(x) ==>
      I(y) && (if x.s != y.s then free(y) else !free(y) && TurnOf(q, x, y) == if free(x) then Again else Leave)
  }

  lemma {:induction false} RunRests(q: Node, f: Body, R: Rel, t: Subject, I: Inv, free: Inv, c: nat, x: St, y: St)
    requires q.Quant? && Speaks(f, R, t) && Forward(R, t) && Resting(q, f, t, I, free)
    requires x.s <= t.End() && I(x) && Run(q, f, c, x, y)
    ensures Rests(R, c, free(x), x.s, y.s) && y.s <= t.End()
    decreases c
  {
    hide Speaks, Forward, TurnOf;
    if c > 0 {
      var z: St :| Counting(q, f, x, z) && Run(q, f, c - 1, z, y);
      WayIs(f, R, t, x, z);
      assert free(z) == (x.s < z.s);
      RunRests(q, f, R, t, I, free, c - 1, z, y);
    }
  }

  lemma {:induction false} RestsRun(q: Node, f: Body, R: Rel, t: Subject, I: Inv, free: Inv, c: nat, x: St, j: nat)
    returns (y: St)
    requires q.Quant? && Speaks(f, R, t) && Forward(R, t) && Resting(q, f, t, I, free)
    requires x.s <= t.End() && I(x) && Rests(R, c, free(x), x.s, j)
    ensures Run(q, f, c, x, y) && y.s == j <= t.End() && I(y)
    decreases c
  {
    hide Speaks, Forward;
    y := x;
    if c > 0 {
      var m: nat :| R(x.s, m) && (x.s < m || free(x)) && Rests(R, c - 1, x.s < m, m, j);
      var z := WayTo(f, R, t, x, m);
      WayIs(f, R, t, x, z);
      assert free(z) == (x.s < z.s);
      y := RestsRun(q, f, R, t, I, free, c - 1, z, j);
      assert Counting(q, f, x, z);
    }
  }

  /** Where a checked count leads if the second of two empty turns leaves it. */
  lemma RestEnds(q: Node, f: Body, R: Rel, t: Subject, I: Inv, free: Inv, x: St, j: nat)
    requires q.Quant? && Resting(q, f, t, I, free) && Speaks(f, R, t) && Forward(R, t) && x.s <= t.End() && I(x)
    requires Bounded(q) && q.upper != 0
    ensures Ends(Ordered(q, f, t, Checked, x), j)
        <==> exists c: nat ::
            c <= Codegen.UpperCount(q.upper) && Rests(R, c, free(x), x.s, j) && (q.lower <= c || R(j, j))
  {
    hide Ends, Speaks, Forward, Ordered, Resting, Run, Exits, TurnOf;
    CountRuns(q, f, t, x, j);
    if k: nat, z: St :| Run(q, f, k, x, z) && 0 + k <= Codegen.UpperCount(q.upper) && Stops(q, f, 0 + k, z, j) {
      RunRests(q, f, R, t, I, free, k, x, z);
      if Exits(q, f, z, j) { ExitEmpty(q, f, R, t, z, j); }
    }
    if c: nat :| c <= Codegen.UpperCount(q.upper) && Rests(R, c, free(x), x.s, j) && (q.lower <= c || R(j, j)) {
      var y := RestsRun(q, f, R, t, I, free, c, x, j);
      if c < q.lower {
        RestsOff(q, f, R, t, I, free, c, y);
      } else {
        assert Run(q, f, 0, y, y) by { NoRun(q, f, y); }
        assert 0 + c + 0 == c && Stops(q, f, 0 + c + 0, y, j);
      }
      hide Finds;
      FindsAfter(q, f, 0, c, x, y, j);
    }
  }

  lemma NoRun(q: Node, f: Body, y: St)
    requires q.Quant?
    ensures Run(q, f, 0, y, y)
  {
  }

  /** Two empty turns end the count. */
  lemma RestsOff(q: Node, f: Body, R: Rel, t: Subject, I: Inv, free: Inv, c: nat, y: St)
    requires q.Quant? && Resting(q, f, t, I, free) && Speaks(f, R, t) && y.s <= t.End() && I(y) && R(y.s, y.s)
    requires c < q.lower <= Codegen.UpperCount(q.upper)
    ensures Finds(q, f, c, y, y.s)
  {
    hide Speaks, Finds, Run;
    var z := WayTo(f, R, t, y, y.s);
    FindsMore(q, f, c, y, y.s);
    if free(y) {
      var w := WayTo(f, R, t, z, y.s);
      FindsMore(q, f, c + 1, z, y.s);
      assert Counting(q, f, y, z);
      if c + 1 < q.lower { assert Leaving(q, f, z, w); }
    } else {
      assert Leaving(q, f, y, z);
    }
  }

  // ---------------------------------------------------------------- any repetition

  lemma {:induction false} NoPause(R: Rel, t: Subject, c: nat, i: nat, j: nat)
    requires Forward(R, t) && i <= t.End() && forall p: nat :: p <= t.End() ==> !R(p, p)
    ensures !Pauses(R, c, i, j)
    decreases c
  {
    if Pauses(R, c, i, j) {
      var m: nat :| i < m && R(i, m) && Pauses(R, c - 1, m, j);
      NoPause(R, t, c - 1, m, j);
    }
  }

  /** Empty turns make no difference to a checked count: at most one turn has to be made, or turns can be empty
      everywhere, or nowhere. */
  ghost predicate Even(q: Node, R: Rel, t: Subject)
    requires q.Quant?
  {
    q.lower <= 1 || (forall p: nat :: p <= t.End() ==> R(p, p)) || (forall p: nat :: p <= t.End() ==> !R(p, p))
  }

  lemma EvenCounts(q: Node, R: Rel, t: Subject, i: nat, j: nat)
    requires q.Quant? && (Infinite(q.upper) || q.lower <= q.upper) && Forward(R, t) && i <= t.End() && Even(q, R, t)
    ensures (exists k: nat :: Allowed(q, k) && Turns(R, k, i, j)) ==> Counts(q, R, i, j)
  {
    hide Counts;
    CountMisses(q, R, t, i, j);
    if k: nat :| Allowed(q, k) && Turns(R, k, i, j) {
      TurnsWithin(R, t, k, i, j);
      if !Counts(q, R, i, j) {
        var c: nat :| c < q.lower && Pauses(R, c, i, j);
        if q.lower <= 1 {
          Stretch(R, c, c, i, j);
        } else if forall p: nat :: p <= t.End() ==> !R(p, p) {
          NoPause(R, t, c, i, j);
        }
      }
    }
  }

  /** Whatever its null check does, a checked count finds nothing but words. */
  lemma CountSound(q: Node, f: Body, R: Rel, t: Subject, x: St, j: nat)
    requires q.Quant? && Speaks(f, R, t) && Forward(R, t) && x.s <= t.End()
    requires Bounded(q) && q.upper != 0 && Ends(Ordered(q, f, t, Checked, x), j)
    ensures exists k: nat :: Allowed(q, k) && Turns(R, k, x.s, j)
  {
    hide Ends, Speaks, Forward, Ordered, Exits;
    CountRuns(q, f, t, x, j);
    var k: nat, z: St :| Run(q, f, k, x, z) && 0 + k <= Codegen.UpperCount(q.upper) && Stops(q, f, 0 + k, z, j);
    hide Run;
    RunTurns(q, f, R, t, k, x, z);
    if Exits(q, f, z, j) { ExitEmpty(q, f, R, t, z, j); }
    assert Turns(R, k, x.s, j);
    if k < q.lower {
      IdleTurns(R, q.lower - k, j);
      TurnsJoin(R, k, q.lower - k, x.s, j, j);
      assert Allowed(q, q.lower) && Turns(R, q.lower, x.s, j);
    } else {
      assert Allowed(q, k);
    }
  }

  /** Empty turns that are not rejected fill up the count, or leave. */
  lemma {:induction false} IdleFinds(q: Node, f: Body, R: Rel, t: Subject, I: Inv, c: nat, y: St)
    requires q.Quant? && Lasting(q, f, R, t, I) && y.s <= t.End() && I(y) && R(y.s, y.s)
    requires c <= Codegen.UpperCount(q.upper) && q.lower <= Codegen.UpperCount(q.upper)
    ensures Finds(q, f, c, y, y.s)
    decreases Codegen.UpperCount(q.upper) - c
  {
    hide Finds, Run;
    FindsMore(q, f, c, y, y.s);
    if c < q.lower {
      assert Idles(q, f, I, y);
      var z: St :| z in f(y) && z.s == y.s && I(z) && !TurnOf(q, y, z).Reject?;
      if TurnOf(q, y, z).Leave? {
        assert Leaving(q, f, y, z);
      } else {
        IdleFinds(q, f, R, t, I, c + 1, z);
        assert Counting(q, f, y, z);
      }
    }
  }

  /** If empty turns can be made where they are needed, a checked count finds every word that steps and empty turns at
      the end make up. */
  lemma CountComplete(q: Node, f: Body, R: Rel, t: Subject, I: Inv, x: St, j: nat)
    requires q.Quant? && Speaks(f, R, t) && Forward(R, t) && x.s <= t.End() < Codegen.INFINITE_COUNT
    requires Bounded(q) && q.upper != 0 && Counts(q, R, x.s, j)
    requires 1 <= q.lower ==> Lasting(q, f, R, t, I) && (I(x) || x.s < j)
    ensures Ends(Ordered(q, f, t, Checked, x), j)
  {
    hide Ends, Speaks, Forward, Ordered, Finds, Run, Exits, TurnOf;
    CountRuns(q, f, t, x, j);
    var c: nat :| (Infinite(q.upper) || c <= q.upper) && Steps(R, c, x.s, j) && (q.lower <= c || R(j, j));
    hide Steps;
    StepsFew(R, t, c, x.s, j);
    assert c <= Codegen.UpperCount(q.upper);
    StepsFind(q, f, R, t, I, c, x, j);
  }

  lemma StepsFind(q: Node, f: Body, R: Rel, t: Subject, I: Inv, c: nat, x: St, j: nat)
    requires q.Quant? && Speaks(f, R, t) && Forward(R, t) && x.s <= j <= t.End() && Steps(R, c, x.s, j)
    requires q.lower <= Codegen.UpperCount(q.upper) && c <= Codegen.UpperCount(q.upper)
    requires q.lower <= c || (R(j, j) && Lasting(q, f, R, t, I) && (I(x) || x.s < j))
    ensures Finds(q, f, 0, x, j)
  {
    hide *;
    if q.lower <= c {
      var y := StepsRun(q, f, R, t, (_: St) => true, c, x, j);
      FindsHere(q, f, c, y);
      FindsAfter(q, f, 0, c, x, y, j);
    } else {
      StepsLead(q, f, R, t, I);
      var y := StepsRun(q, f, R, t, I, c, x, j);
      NoStep(R, c, x.s, j);
      IdleFinds(q, f, R, t, I, c, y);
      FindsAfter(q, f, 0, c, x, y, j);
    }
  }

  lemma FindsHere(q: Node, f: Body, c: nat, y: St)
    requires q.Quant? && q.lower <= c <= Codegen.UpperCount(q.upper)
    ensures Finds(q, f, c, y, y.s)
  {
    hide Finds;
    FindsMore(q, f, c, y, y.s);
  }

  lemma StepsLead(q: Node, f: Body, R: Rel, t: Subject, I: Inv)
    requires q.Quant? && Lasting(q, f, R, t, I)
    ensures forall a: St, b: St :: a.s <= t.End() && b in f(a) && a.s < b.s ==> I(b)
  {
    hide Idles;
  }

  lemma NoStep(R: Rel, c: nat, i: nat, j: nat)
    requires Steps(R, c, i, j)
    ensures i == j <==> c == 0
  {
    if c > 0 {
      var m: nat :| i < m && R(i, m) && Steps(R, c - 1, m, j);
      StepsTurn(R, c - 1, m, j);
    }
  }

  /** Every word is reached, if not with enough turns. */
  lemma WordReached(q: Node, f: Body, R: Rel, t: Subject, k: nat, x: St, j: nat) returns (c: nat, y: St)
    requires q.Quant? && Speaks(f, R, t) && Forward(R, t) && x.s <= t.End() < Codegen.INFINITE_COUNT
    requires Allowed(q, k) && Turns(R, k, x.s, j)
    ensures Run(q, f, c, x, y) && y.s == j <= t.End() && c <= Codegen.UpperCount(q.upper)
  {
    assert Infinite(q.upper) || k <= q.upper;
    hide *;
    c := Strip(R, t, k, x.s, j);
    StepsFew(R, t, c, x.s, j);
    UpperIs(q.upper);
    y := StepsRun(q, f, R, t, (_: St) => true, c, x, j);
  }

  /** A word at whose end the body can be empty is only missed if a run gets there with too few turns and has an empty
      turn rejected. */
  lemma LostByReject(q: Node, f: Body, R: Rel, t: Subject, k: nat, x: St, j: nat) returns (c: nat, y: St, z: St)
    requires q.Quant? && Speaks(f, R, t) && Forward(R, t) && x.s <= t.End() < Codegen.INFINITE_COUNT
    requires Bounded(q) && q.upper != 0 && R(j, j) && Allowed(q, k) && Turns(R, k, x.s, j)
    requires !Ends(Ordered(q, f, t, Checked, x), j)
    ensures c < q.lower && Run(q, f, c, x, y) && Rejected(q, f, y, z) && z.s == y.s == j
  {
    hide *;
    BoundedIs(q);
    CountRuns(q, f, t, x, j);
    var d, u := WordReached(q, f, R, t, k, x, j);
    NotFound(q, f, d, x, u, j);
    var b, v, w := FirstReject(q, f, R, t, d, u);
    RunOn(q, f, d, b, x, u, v);
    c, y, z := d + b, v, w;
  }

  lemma NotFound(q: Node, f: Body, d: nat, x: St, y: St, j: nat)
    requires q.Quant? && Run(q, f, d, x, y) && d <= Codegen.UpperCount(q.upper) && !Finds(q, f, 0, x, j)
    ensures !Finds(q, f, d, y, j)
  {
    hide *;
    assert 0 + d == d;
    if Finds(q, f, d, y, j) { FindsAfter(q, f, 0, d, x, y, j); }
  }

  lemma UpperIs(upper: int)
    ensures Codegen.UpperCount(upper) == if Infinite(upper) || upper < 0 then Codegen.INFINITE_COUNT else upper
  {
  }

  lemma BoundedIs(q: Node)
    requires q.Quant? && Bounded(q)
    ensures q.lower <= Codegen.UpperCount(q.upper)
  {
  }

  ghost predicate Rejected(q: Node, f: Body, x: St, y: St)
    requires q.Quant?
  {
    y in f(x) && TurnOf(q, x, y).Reject?
  }

  lemma {:induction false} RunOn(q: Node, f: Body, c: nat, d: nat, x: St, y: St, z: St)
    requires q.Quant? && Run(q, f, c, x, y) && Run(q, f, d, y, z)
    ensures Run(q, f, c + d, x, z)
    decreases c
  {
    hide Counting;
    if c > 0 {
      var w: St :| Counting(q, f, x, w) && Run(q, f, c - 1, w, y);
      RunOn(q, f, c - 1, d, w, y, z);
    }
  }

  lemma LeaveFinds(q: Node, f: Body, c: nat, y: St, z: St)
    requires q.Quant? && z in f(y) && TurnOf(q, y, z).Leave? && c <= Codegen.UpperCount(q.upper)
    requires q.lower <= Codegen.UpperCount(q.upper) && z.s == y.s
    ensures Finds(q, f, c, y, y.s)
  {
    hide Finds;
    FindsMore(q, f, c, y, y.s);
    if c < q.lower { assert Leaving(q, f, y, z); }
  }

  /** Counted empty turns from y until one is rejected. */
  lemma {:induction false} FirstReject(q: Node, f: Body, R: Rel, t: Subject, c: nat, y: St) returns (d: nat, u: St,
      v: St)
    requires q.Quant? && Speaks(f, R, t) && y.s <= t.End() && R(y.s, y.s)
    requires c <= Codegen.UpperCount(q.upper) && q.lower <= Codegen.UpperCount(q.upper) && !Finds(q, f, c, y, y.s)
    ensures c + d < q.lower && Run(q, f, d, y, u) && Rejected(q, f, u, v) && v.s == u.s == y.s
    decreases Codegen.UpperCount(q.upper) - c
  {
    hide Finds, Speaks, Run;
    FindsMore(q, f, c, y, y.s);
    var z := WayTo(f, R, t, y, y.s);
    if TurnOf(q, y, z).Reject? {
      d, u, v := 0, y, z;
      NoRun(q, f, y);
    } else if TurnOf(q, y, z).Leave? {
      LeaveFinds(q, f, c, y, z);
    } else {
      assert Counting(q, f, y, z);
      d, u, v := FirstReject(q, f, R, t, c + 1, z);
      RunOne(q, f, y, z);
      RunOn(q, f, 1, d, y, z, u);
      d := d + 1;
    }
  }

  lemma RunOne(q: Node, f: Body, x: St, y: St)
    requires q.Quant? && Counting(q, f, x, y)
    ensures Run(q, f, 1, x, y)
  {
    assert Run(q, f, 0, y, y);
  }

  /** A loop that has to turn, entered where every empty turn is rejected, does not match the empty string. */
  lemma RejectsEmpty(q: Node, f: Body, R: Rel, t: Subject, policy: Policy, x: St)
    requires q.Quant? && Speaks(f, R, t) && Forward(R, t) && x.s <= t.End() && Bounded(q) && q.upper != 0
    requires 1 <= q.lower && !policy.Free?
    requires forall y: St :: y in f(x) && y.s == x.s ==> TurnOf(q, x, y).Reject?
    ensures !Ends(Ordered(q, f, t, policy, x), x.s)
  {
    hide Ends, Speaks, Forward, ForeverTurn, CheckTurn, TurnOf, Run;
    if policy.Entered? {
      FlatEnds(f(x), (y: St) => ForeverTurn(q, f, t, x, y), x.s);
      if y: St :| y in f(x) && Ends(ForeverTurn(q, f, t, x, y), x.s) { RejectedTurn(q, f, R, t, x, y); }
    } else if Ends(Ordered(q, f, t, Checked, x), x.s) {
      CountRuns(q, f, t, x, x.s);
      FindsMore(q, f, 0, x, x.s);
      assert !Exits(q, f, x, x.s);
      var z: St :| Counting(q, f, x, z) && Finds(q, f, 0 + 1, z, x.s);
      WayIs(f, R, t, x, z);
      FindsForward(q, f, R, t, 1, z, x.s);
    }
  }

  lemma FindsForward(q: Node, f: Body, R: Rel, t: Subject, c: nat, x: St, j: nat)
    requires q.Quant? && Speaks(f, R, t) && Forward(R, t) && x.s <= t.End() && Finds(q, f, c, x, j)
    ensures x.s <= j
  {
    hide Speaks, Forward, Stops, TurnOf;
    var k: nat, z: St :| Run(q, f, k, x, z) && Stops(q, f, c + k, z, j);
    RunTurns(q, f, R, t, k, x, z);
    StopsThere(q, f, R, t, c + k, z, j);
  }

  lemma RejectedTurn(q: Node, f: Body, R: Rel, t: Subject, x: St, y: St)
    requires q.Quant? && Speaks(f, R, t) && Forward(R, t) && x.s <= t.End() && y in f(x)
    requires y.s == x.s ==> TurnOf(q, x, y).Reject?
    ensures !Ends(ForeverTurn(q, f, t, x, y), x.s)
  {
    hide Ends, Speaks, Forward, TurnOf, Forever;
    WayIs(f, R, t, x, y);
    NoEnd(x.s);
    if x.s < y.s && Ends(ForeverTurn(q, f, t, x, y), x.s) {
      TurnLeads(q, f, R, t, x, y, x.s);
      var k: nat :| Steps(R, k, y.s, x.s);
      StepsTurn(R, k, y.s, x.s);
    }
  }

  /** A repetition leads where an allowed number of turns leads, if empty turns make no difference and, where they are
      checked and needed, can be made. */
  lemma OrderedEnds(q: Node, f: Body, R: Rel, t: Subject, I: Inv, policy: Policy, x: St, j: nat)
    requires q.Quant? && Bounded(q) && StarIsAny(q, R, t)
    requires Speaks(f, R, t) && Forward(R, t) && x.s <= t.End() < Codegen.INFINITE_COUNT
    requires policy.Entered? ==> q.lower == 1 && Infinite(q.upper)
    requires policy.Checked? ==> q.upper != 0 && Even(q, R, t)
    requires !policy.Free? && 1 <= q.lower ==> Lasting(q, f, R, t, I) && (I(x) || x.s < j)
    ensures Ends(Ordered(q, f, t, policy, x), j) <==> exists k: nat :: Allowed(q, k) && Turns(R, k, x.s, j)
  {
    hide Ends, Speaks, Forward, Counts, Iter, CheckTurn, ForeverTurn, Even, Lasting;
    match policy
    case Free =>
      IterEnds(q, f, R, t, q.lower, Rest(q), x, j);
      assert forall k: nat :: q.lower <= k && (Rest(q) < 0 || k <= q.lower + Rest(q)) && Turns(R, k, x.s, j)
                              <==> Allowed(q, k) && Turns(R, k, x.s, j);
    case Entered =>
      EnteredEnds(q, f, R, t, I, x, j);
      assert forall k: nat :: 1 <= k && Turns(R, k, x.s, j) <==> Allowed(q, k) && Turns(R, k, x.s, j);
    case Checked =>
      EvenCounts(q, R, t, x.s, j);
      if Ends(Ordered(q, f, t, policy, x), j) { CountSound(q, f, R, t, x, j); }
      if Counts(q, R, x.s, j) { CountComplete(q, f, R, t, I, x, j); }
  }

  /** The counter loop OP_REPEAT ... OP_REPEAT_INC with null checks every empty turn of which leaves: exactly where it
      leads. */
  lemma CounterEnds(q: Node, R: Rel, t: Subject, x: St, j: nat)
    requires q.Quant? && Codegen.ShapeOf(q).Counter? && Breaking(q, MeaningOf(q.target, t), t) && Guarded(q, t)
    requires ProperCounts(q.lower, q.upper, q.greedy) && q.upper != 0 && x.s <= t.End() < Codegen.INFINITE_COUNT
    requires Speaks(MeaningOf(q.target, t), R, t) && Forward(R, t)
    ensures Ends(Meaning(q, t, x), j) <==> Counts(q, R, x.s, j)
  {
    assert Meaning(q, t, x) == QuantMeaning(q, t, x);
    hide Ends, Speaks, Forward, Meaning, QuantMeaning, Guarded, Ordered, Codegen.ShapeOf, Breaking, Counts;
    QuantOrdered(q, t, x);
    CountEnds(q, MeaningOf(q.target, t), R, t, x, j);
  }

  /** The counter loop with any null check: it ends at j exactly when a run of its counted turns stops there. */
  lemma CounterRuns(q: Node, t: Subject, x: St, j: nat)
    requires q.Quant? && Codegen.ShapeOf(q).Counter? && Guarded(q, t)
    requires ProperCounts(q.lower, q.upper, q.greedy) && q.upper != 0
    ensures Ends(Meaning(q, t, x), j) <==> Finds(q, MeaningOf(q.target, t), 0, x, j)
  {
    assert Meaning(q, t, x) == QuantMeaning(q, t, x);
    hide Ends, Meaning, QuantMeaning, Guarded, Ordered, Codegen.ShapeOf, Finds;
    QuantOrdered(q, t, x);
    CountRuns(q, MeaningOf(q.target, t), t, x, j);
  }
}
