/** From which position to which a repetition leads, given from which to which its body does: the turns that count, the
    turns that consume something, and what each way of treating empty turns makes of them. */
module LoopWords {
  import opened Common
  import opened Tree
  import opened Semantics
  import opened Yielding
  import opened Placing
  import opened Order

  /** From one position to another. */
  type Rel = (nat, nat) -> bool

  /** Some way in ys ends at j. */
  ghost predicate Ends(ys: seq<St>, j: nat) { exists y: St :: y in ys && y.s == j }

  /** The body leads from every position exactly to where R says. */
  ghost predicate Speaks(f: Body, R: Rel, t: Subject) {
    forall x: St, j: nat :: x.s <= t.End() ==> (Ends(f(x), j) <==> R(x.s, j))
  }

  /** Forwards, and not out of the text. */
  ghost predicate Forward(R: Rel, t: Subject) {
    forall i: nat, j: nat :: R(i, j) && i <= t.End() ==> i <= j <= t.End()
  }

  /** Something starts at i. */
  ghost predicate Starting(R: Rel, i: nat) { exists j: nat :: R(i, j) }

  /** Something ends at j. */
  ghost predicate Ending(R: Rel, j: nat) { exists i: nat :: i <= j && R(i, j) }

  /** k turns in a row. */
  ghost predicate Turns(R: Rel, k: nat, i: nat, j: nat)
    decreases k
  {
    if k == 0 then i == j else exists m: nat :: R(i, m) && Turns(R, k - 1, m, j)
  }

  /** k turns, each of which consumes something. */
  ghost predicate Steps(R: Rel, k: nat, i: nat, j: nat)
    decreases k
  {
    if k == 0 then i == j else exists m: nat :: i < m && R(i, m) && Steps(R, k - 1, m, j)
  }

  // ---------------------------------------------------------------- turns

  lemma {:induction false} TurnsWithin(R: Rel, t: Subject, k: nat, i: nat, j: nat)
    requires Forward(R, t) && Turns(R, k, i, j) && i <= t.End()
    ensures i <= j <= t.End()
    decreases k
  {
    if k > 0 {
      var m: nat :| R(i, m) && Turns(R, k - 1, m, j);
      TurnsWithin(R, t, k - 1, m, j);
    }
  }

  lemma {:induction false} TurnsJoin(R: Rel, a: nat, b: nat, i: nat, m: nat, j: nat)
    requires Turns(R, a, i, m) && Turns(R, b, m, j)
    ensures Turns(R, a + b, i, j)
    decreases a
  {
    if a > 0 {
      var p: nat :| R(i, p) && Turns(R, a - 1, p, m);
      TurnsJoin(R, a - 1, b, p, m, j);
    }
  }

  /** A turn that consumes nothing can be made any number of times. */
  lemma {:induction false} IdleTurns(R: Rel, k: nat, i: nat)
    requires k == 0 || R(i, i)
    ensures Turns(R, k, i, i)
    decreases k
  {
    if k > 0 { IdleTurns(R, k - 1, i); }
  }

  lemma {:induction false} StepsTurn(R: Rel, k: nat, i: nat, j: nat)
    requires Steps(R, k, i, j)
    ensures Turns(R, k, i, j) && i <= j
    decreases k
  {
    if k > 0 {
      var m: nat :| i < m && R(i, m) && Steps(R, k - 1, m, j);
      StepsTurn(R, k - 1, m, j);
    }
  }

  /** The c steps pass a position at which a turn can consume nothing. */
  ghost predicate Pauses(R: Rel, c: nat, i: nat, j: nat)
    decreases c
  {
    (R(i, i) && Steps(R, c, i, j)) || (0 < c && exists m: nat :: i < m && R(i, m) && Pauses(R, c - 1, m, j))
  }

  /** The turns that consume nothing can be left out; if there was one, the others pass its position. */
  lemma {:induction false} Strip(R: Rel, t: Subject, k: nat, i: nat, j: nat) returns (c: nat)
    requires Forward(R, t) && Turns(R, k, i, j) && i <= t.End()
    ensures c <= k && Steps(R, c, i, j) && (c < k ==> Pauses(R, c, i, j))
    decreases k
  {
    if k == 0 {
      c := 0;
    } else {
      var m: nat :| R(i, m) && Turns(R, k - 1, m, j);
      c := Strip(R, t, k - 1, m, j);
      if i < m { c := c + 1; }
    }
  }

  /** A pause can be stretched. */
  lemma {:induction false} Stretch(R: Rel, c: nat, k: nat, i: nat, j: nat)
    requires Pauses(R, c, i, j) && c <= k
    ensures Turns(R, k, i, j) && Steps(R, c, i, j)
    decreases c
  {
    if R(i, i) && Steps(R, c, i, j) {
      StepsTurn(R, c, i, j);
      IdleTurns(R, k - c, i);
      TurnsJoin(R, k - c, c, i, i, j);
    } else {
      var m: nat :| i < m && R(i, m) && Pauses(R, c - 1, m, j);
      Stretch(R, c - 1, k - 1, m, j);
    }
  }

  /** The count is one the repetition allows. */
  predicate Allowed(q: Node, k: nat)
    requires q.Quant?
  {
    q.lower <= k && (Infinite(q.upper) || k <= q.upper)
  }

  /** The words of a repetition, by their steps: as many as the count asks for, or a pause to fill it up. */
  lemma TurnsBySteps(q: Node, R: Rel, t: Subject, i: nat, j: nat)
    requires q.Quant? && (Infinite(q.upper) || q.lower <= q.upper) && Forward(R, t) && i <= t.End()
    ensures (exists k: nat :: Allowed(q, k) && Turns(R, k, i, j))
        <==> exists c: nat ::
            (Infinite(q.upper) || c <= q.upper) && Steps(R, c, i, j) && (q.lower <= c || Pauses(R, c, i, j))
  {
    if k: nat :| Allowed(q, k) && Turns(R, k, i, j) {
      var c := Strip(R, t, k, i, j);
      assert (Infinite(q.upper) || c <= q.upper) && Steps(R, c, i, j) && (q.lower <= c || Pauses(R, c, i, j));
    }
    if c: nat :| (Infinite(q.upper) || c <= q.upper) && Steps(R, c, i, j) && (q.lower <= c || Pauses(R, c, i, j)) {
      StepsTurn(R, c, i, j);
      if c < q.lower { Stretch(R, c, q.lower, i, j); }
      assert Allowed(q, Max(q.lower, c)) && Turns(R, Max(q.lower, c), i, j);
    }
  }

  // ---------------------------------------------------------------- where ways end

  lemma EndsSum(xs: seq<St>, ys: seq<St>, j: nat)
    ensures Ends(xs + ys, j) <==> Ends(xs, j) || Ends(ys, j)
  {
    forall y: St ensures y in xs + ys <==> y in xs || y in ys {}
    if Ends(xs, j) {
      var y :| y in xs && y.s == j;
      assert y in xs + ys;
    }
    if Ends(ys, j) {
      var y :| y in ys && y.s == j;
      assert y in xs + ys;
    }
  }

  lemma EndsOne(x: St, j: nat)
    ensures Ends([x], j) <==> x.s == j
  {
    assert x in [x];
  }

  lemma {:induction false} FlatEnds(xs: seq<St>, F: Body, j: nat)
    ensures Ends(FlatMap(xs, F), j) <==> exists y: St :: y in xs && Ends(F(y), j)
    decreases |xs|
  {
    hide Ends;
    if xs == [] {
      assert !Ends([], j) by { NoEnd(j); }
    } else {
      FlatEnds(xs[1..], F, j);
      EndsSum(F(xs[0]), FlatMap(xs[1..], F), j);
      assert forall y: St :: y in xs <==> y == xs[0] || y in xs[1..];
    }
  }

  lemma NoEnd(j: nat)
    ensures !Ends([], j)
  {
  }

  /** What is tried with and without one more way. */
  lemma EndsOr(q: Node, more: seq<St>, x: St, j: nat)
    requires q.Quant?
    ensures Ends(if q.greedy then more + [x] else [x] + more, j) <==> Ends(more, j) || x.s == j
  {
    hide Ends;
    EndsOne(x, j);
    EndsSum(more, [x], j);
    EndsSum([x], more, j);
  }

  /** A way of the body. */
  lemma WayIs(f: Body, R: Rel, t: Subject, x: St, y: St)
    requires Speaks(f, R, t) && Forward(R, t) && x.s <= t.End() && y in f(x)
    ensures R(x.s, y.s) && x.s <= y.s <= t.End()
  {
    assert Ends(f(x), y.s);
  }

  lemma WayTo(f: Body, R: Rel, t: Subject, x: St, m: nat) returns (y: St)
    requires Speaks(f, R, t) && x.s <= t.End() && R(x.s, m)
    ensures y in f(x) && y.s == m
  {
    assert Ends(f(x), m);
    y :| y in f(x) && y.s == m;
  }

  // ---------------------------------------------------------------- loops

  /** A step leads back to the loop. */
  lemma GoesOn(q: Node, f: Body, t: Subject, x: St, y: St)
    requires q.Quant? && x.s < y.s <= t.End()
    ensures ForeverTurn(q, f, t, x, y) == Forever(q, f, t, y)
  {
    hide Forever;
  }

  /** A loop leads where its steps lead; what it makes of empty turns does not matter. */
  lemma {:induction false} ForeverEnds(q: Node, f: Body, R: Rel, t: Subject, x: St, j: nat)
    requires q.Quant? && Speaks(f, R, t) && Forward(R, t) && x.s <= t.End()
    ensures Ends(Forever(q, f, t, x), j) <==> exists k: nat :: Steps(R, k, x.s, j)
    decreases Left(t, x), |Dirty(Groups(q.target), x)|
  {
    hide Ends, Speaks, Forward, Groups;
    var F := (y: St) => ForeverTurn(q, f, t, x, y);
    ForeverIs(q, f, t, x);
    EndsOr(q, FlatMap(f(x), F), x, j);
    FlatEnds(f(x), F, j);
    assert Steps(R, 0, x.s, x.s);
    if y: St :| y in f(x) && Ends(ForeverTurn(q, f, t, x, y), j) {
      WayIs(f, R, t, x, y);
      TurnLeads(q, f, R, t, x, y, j);
    }
    if k: nat :| Steps(R, k, x.s, j) {
      if k > 0 {
        var m: nat :| x.s < m && R(x.s, m) && Steps(R, k - 1, m, j);
        var y := WayTo(f, R, t, x, m);
        WayIs(f, R, t, x, y);
        assert Steps(R, k - 1, y.s, j);
        ForeverEnds(q, f, R, t, y, j);
        GoesOn(q, f, t, x, y);
        assert F(y) == Forever(q, f, t, y);
      }
    }
  }

  lemma {:induction false} TurnLeads(q: Node, f: Body, R: Rel, t: Subject, x: St, y: St, j: nat)
    requires q.Quant? && Speaks(f, R, t) && Forward(R, t) && x.s <= y.s <= t.End() && R(x.s, y.s)
    requires Ends(ForeverTurn(q, f, t, x, y), j)
    ensures (exists k: nat :: Steps(R, k, x.s, j)) && (exists k: nat :: Steps(R, k, y.s, j))
    decreases Left(t, x), |Dirty(Groups(q.target), x)|, 0
  {
    hide Ends, Speaks, Forward, Groups;
    if TurnOf(q, x, y).Again? && Progress(q, t, x, y) {
      ForeverEnds(q, f, R, t, y, j);
    } else {
      EndsOne(y, j);
      NoEnd(j);
      assert Steps(R, 0, y.s, j);
    }
    var k: nat :| Steps(R, k, y.s, j);
    if x.s < y.s { assert Steps(R, k + 1, x.s, j); }
  }

  /** Any number of turns is any number of steps. */
  lemma AnyTurns(R: Rel, t: Subject, i: nat, j: nat)
    requires Forward(R, t) && i <= t.End()
    ensures (exists k: nat :: Turns(R, k, i, j)) <==> exists k: nat :: Steps(R, k, i, j)
  {
    if k: nat :| Turns(R, k, i, j) {
      var c := Strip(R, t, k, i, j);
      assert Steps(R, c, i, j);
    }
    if k: nat :| Steps(R, k, i, j) {
      StepsTurn(R, k, i, j);
      assert Turns(R, k, i, j);
    }
  }

  /** R is what `.` does. */
  ghost predicate AnyRel(R: Rel, t: Subject, ml: bool) {
    forall i: nat, j: nat :: R(i, j) <==> i < t.End() && (ml || !t.IsNewline(i)) && j == i + 1
  }

  lemma NoTurn(R: Rel, k: nat, i: nat, j: nat)
    requires Turns(R, k, i, j) && forall m: nat :: !R(i, m)
    ensures i == j
  {
  }

  lemma {:induction false} StarEnds(R: Rel, t: Subject, ml: bool, x: St, begin: nat, j: nat)
    requires AnyRel(R, t, ml) && x.s <= t.End()
    ensures Ends(StarMeaning(t, ml, None, x, begin), j) <==> exists k: nat :: Turns(R, k, x.s, j)
    decreases Left(t, x)
  {
    hide Ends;
    assert Turns(R, 0, x.s, x.s);
    if x.s < t.End() {
      EndsOne(x, j);
      if ml || !t.IsNewline(x.s) {
        StarEnds(R, t, ml, Advance(x, 1), begin, j);
        EndsSum(StarMeaning(t, ml, None, Advance(x, 1), begin), [x], j);
        if k: nat :| Turns(R, k, Advance(x, 1).s, j) { assert R(x.s, x.s + 1) && Turns(R, k + 1, x.s, j); }
        if k: nat :| Turns(R, k, x.s, j) {
          if k > 0 {
            var m: nat :| R(x.s, m) && Turns(R, k - 1, m, j);
            assert Turns(R, k - 1, Advance(x, 1).s, j);
          }
        }
      } else if k: nat :| Turns(R, k, x.s, j) {
        NoTurn(R, k, x.s, j);
      }
    } else {
      EndsOne(x.(prev := begin), j);
      if k: nat :| Turns(R, k, x.s, j) { NoTurn(R, k, x.s, j); }
    }
  }

  /** The dedicated opcode is only used for `.`, which always consumes something. */
  ghost predicate StarIsAny(q: Node, R: Rel, t: Subject)
    requires q.Quant?
  {
    q.target.Any? ==> AnyRel(R, t, q.target.multiline)
  }

  lemma {:induction false} IterEnds(q: Node, f: Body, R: Rel, t: Subject, l: nat, m: int, x: St, j: nat)
    requires q.Quant? && Speaks(f, R, t) && Forward(R, t) && x.s <= t.End() && StarIsAny(q, R, t)
    ensures Ends(Iter(q, f, t, l, m, x), j) <==> exists k: nat :: l <= k && (m < 0 || k <= l + m) && Turns(R, k, x.s, j)
    decreases l, if m < 0 then 0 else m, 0
  {
    hide Ends, Speaks, Forward, Forever;
    if l > 0 {
      IterMore(q, f, R, t, l - 1, m, x, j);
    } else if m < 0 {
      AnyTurns(R, t, x.s, j);
      if q.target.Any? && q.greedy {
        StarEnds(R, t, q.target.multiline, x, x.s, j);
      } else {
        ForeverEnds(q, f, R, t, x, j);
      }
    } else {
      assert Turns(R, 0, x.s, x.s);
      EndsOne(x, j);
      if m > 0 {
        IterMore(q, f, R, t, 0, m - 1, x, j);
        EndsOr(q, FlatMap(f(x), (y: St) => Iter(q, f, t, 0, m - 1, y)), x, j);
      }
    }
  }

  /** One turn and then the rest. */
  lemma {:induction false} IterMore(q: Node, f: Body, R: Rel, t: Subject, l: nat, m: int, x: St, j: nat)
    requires q.Quant? && Speaks(f, R, t) && Forward(R, t) && x.s <= t.End() && StarIsAny(q, R, t)
    ensures Ends(FlatMap(f(x), (y: St) => Iter(q, f, t, l, m, y)), j)
        <==> exists k: nat :: 1 <= k && l + 1 <= k && (m < 0 || k <= l + 1 + m) && Turns(R, k, x.s, j)
    decreases l, if m < 0 then 0 else m, 1
  {
    hide Ends, Speaks, Forward, Forever, Iter;
    var F := (y: St) => Iter(q, f, t, l, m, y);
    FlatEnds(f(x), F, j);
    if y: St :| y in f(x) && Ends(F(y), j) {
      WayIs(f, R, t, x, y);
      IterEnds(q, f, R, t, l, m, y, j);
      var k: nat :| l <= k && (m < 0 || k <= l + m) && Turns(R, k, y.s, j);
      assert Turns(R, k + 1, x.s, j);
    }
    if k: nat :| 1 <= k && l + 1 <= k && (m < 0 || k <= l + 1 + m) && Turns(R, k, x.s, j) {
      var p: nat :| R(x.s, p) && Turns(R, k - 1, p, j);
      var y := WayTo(f, R, t, x, p);
      WayIs(f, R, t, x, y);
      assert Turns(R, k - 1, y.s, j);
      IterEnds(q, f, R, t, l, m, y, j);
      assert F(y) == Iter(q, f, t, l, m, y);
    }
  }

  // ---------------------------------------------------------------- empty turns that are not rejected

  /** Some states. */
  type Inv = St -> bool

  /** A turn from x that consumes nothing, is not rejected and keeps I. */
  ghost predicate Idles(q: Node, f: Body, I: Inv, x: St)
    requires q.Quant?
  {
    exists y: St :: y in f(x) && y.s == x.s && I(y) && !TurnOf(q, x, y).Reject?
  }

  /** Every turn that consumes something leads into I, and where the body can be empty in I it can idle. */
  ghost predicate Lasting(q: Node, f: Body, R: Rel, t: Subject, I: Inv)
    requires q.Quant?
  {
    (forall x: St, y: St :: x.s <= t.End() && y in f(x) && x.s < y.s ==> I(y))
    && forall x: St :: x.s <= t.End() && I(x) && R(x.s, x.s) ==> Idles(q, f, I, x)
  }

  /** A loop that is entered in the middle: its first turn may be empty, but is made. */
  lemma EnteredEnds(q: Node, f: Body, R: Rel, t: Subject, I: Inv, x: St, j: nat)
    requires q.Quant? && Speaks(f, R, t) && Forward(R, t) && x.s <= t.End()
    requires Lasting(q, f, R, t, I) && (I(x) || x.s < j)
    ensures Ends(Ordered(q, f, t, Entered, x), j) <==> exists k: nat :: 1 <= k && Turns(R, k, x.s, j)
  {
    hide Ends, Speaks, Forward, Forever;
    var F := (y: St) => ForeverTurn(q, f, t, x, y);
    FlatEnds(f(x), F, j);
    if y: St :| y in f(x) && Ends(F(y), j) {
      WayIs(f, R, t, x, y);
      TurnLeads(q, f, R, t, x, y, j);
      var k: nat :| Steps(R, k, y.s, j);
      StepsTurn(R, k, y.s, j);
      assert Turns(R, k + 1, x.s, j);
    }
    if k: nat :| 1 <= k && Turns(R, k, x.s, j) {
      var c := Strip(R, t, k, x.s, j);
      if c == 0 {
        assert Idles(q, f, I, x);
        var y: St :| y in f(x) && y.s == x.s && !TurnOf(q, x, y).Reject?;
        Stays(q, f, R, t, x, y);
      } else {
        var m: nat :| x.s < m && R(x.s, m) && Steps(R, c - 1, m, j);
        var y := WayTo(f, R, t, x, m);
        WayIs(f, R, t, x, y);
        assert Steps(R, c - 1, y.s, j);
        ForeverEnds(q, f, R, t, y, j);
        GoesOn(q, f, t, x, y);
        assert F(y) == Forever(q, f, t, y);
      }
    }
  }

  /** An empty turn leaves the loop, or goes on in it. */
  lemma Stays(q: Node, f: Body, R: Rel, t: Subject, x: St, y: St)
    requires q.Quant? && !TurnOf(q, x, y).Reject? && Speaks(f, R, t) && Forward(R, t) && x.s == y.s <= t.End()
    ensures Ends(ForeverTurn(q, f, t, x, y), x.s)
  {
    hide Ends, Speaks, Forward;
    EndsOne(y, x.s);
    if TurnOf(q, x, y).Again? && Progress(q, t, x, y) {
      assert Steps(R, 0, y.s, x.s);
      ForeverEnds(q, f, R, t, y, x.s);
    }
  }
}
