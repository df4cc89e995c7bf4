/** What a repetition of a body that may be empty prefers depends on the length of its code (regcomp.c:1052-1158): up
    to 50 bytes the copies are written out and empty turns are turns, beyond that they are counted and an empty turn
    leaves the loop.  (?:|ab?){0,2} and (?:|ab?){0,3} differ in nothing but the bound, and (?=b|\z) picks ends of 1 and
    of 4. */
module CodeSizeOrder {
  import opened Common
  import opened Tree
  import opened Semantics
  import Codegen
  import opened Correctness
  import opened Order
  import opened Placing
  import opened Yielding

  const A := Str([0x61])
  const B := Str([0x62])
  const MAYBE_B := Quant(B, 0, 1, true, NotEmpty, false, None, None)
  const AB := List(Link(A, Last(MAYBE_B)))
  /** |ab? */
  const BODY := Alt(Link(Str([]), Last(AB)))
  const TWICE := Quant(BODY, 0, 2, true, Empty, false, None, None)
  const THRICE := Quant(BODY, 0, 3, true, Empty, false, None, None)
  const GUARD := Look(Ahead, Alt(Link(B, Last(Anchor(EndBuf)))), 0)
  const ABAB := Subject([0x61, 0x62, 0x61, 0x62], 0, 0, false, false)

  lemma Sizes()
    ensures Codegen.ShapeOf(TWICE) == Codegen.Expand && Codegen.ShapeOf(THRICE) == Codegen.Counter
    ensures Codegen.ShapeOf(MAYBE_B) == Codegen.Expand
  {
    assert Codegen.Length(B) == 2 && Codegen.Length(A) == 2 && Codegen.Length(Str([])) == 0;
    assert Codegen.Length(MAYBE_B) == 7 by { ScaledZero(2); }
    assert Codegen.ListLength(Last(MAYBE_B)) == 7;
    assert Codegen.Length(AB) == 9;
    assert Codegen.AltLength(Last(AB)) == 9;
    assert Codegen.Length(BODY) == 19;
  }

  /** One byte at a state. */
  lemma ByteWays(c: byte, x: St)
    requires x.s <= 4
    ensures Meaning(Str([c]), ABAB, x) == if x.s < 4 && ABAB.data[x.s] == c then [Advance(x, 1)] else []
  {
    if x.s < 4 { assert ABAB.data[x.s..x.s + 1] == [ABAB.data[x.s]]; }
  }

  lemma MaybeWays(x: St)
    requires x.s < 4 && ABAB.data[x.s] == 0x62
    ensures Meaning(MAYBE_B, ABAB, x) == [Advance(x, 1), x]
  {
    Sizes();
    ByteWays(0x62, x);
    hide Codegen.ShapeOf;
    var y := Advance(x, 1);
    assert TimesMeaning(B, ABAB, 0, [x]) == [x];
    assert OptionalAll(B, ABAB, 0, [y][1..]) == [];
    assert Optional(B, ABAB, 1, x) == [y, x];
    assert OptionalAll(B, ABAB, 1, [x][1..]) == [];
    assert OptionalAll(B, ABAB, 1, [x]) == [y, x];
    assert Meaning(MAYBE_B, ABAB, x) == QuantMeaning(MAYBE_B, ABAB, x);
  }

  /** The ways of the body: nothing, ab, a. */
  lemma BodyWays(x: St)
    requires x.s == 0 || x.s == 2 || x.s == 4
    ensures Meaning(BODY, ABAB, x) == if x.s == 4 then [x] else [x, Advance(Advance(x, 1), 1), Advance(x, 1)]
  {
    ByteWays(0x61, x);
    var y := Advance(x, 1);
    if x.s < 4 {
      MaybeWays(y);
      assert ListMeaningAll(Last(MAYBE_B), ABAB, [y][1..]) == [];
      assert ListMeaningAll(Last(MAYBE_B), ABAB, [y]) == ListMeaning(Last(MAYBE_B), ABAB, y);
    }
    assert Meaning(Str([]), ABAB, x) == [x] by { assert ABAB.data[x.s..x.s] == []; }
    assert Meaning(AB, ABAB, x) == ListMeaning(AB.elems, ABAB, x);
    assert AltMeaning(Last(AB), ABAB, x) == Meaning(AB, ABAB, x);
    assert Meaning(BODY, ABAB, x) == Meaning(Str([]), ABAB, x) + AltMeaning(Last(AB), ABAB, x);
  }

  lemma GuardWays(x: St)
    requires x.s <= 4
    ensures Meaning(GUARD, ABAB, x) == if x.s == 0 || x.s == 2 then [] else [x]
  {
    ByteWays(0x62, x);
    var alt := GUARD.target;
    assert Meaning(Anchor(EndBuf), ABAB, x) == if x.s == 4 then [x] else [];
    assert Meaning(alt, ABAB, x) == Meaning(B, ABAB, x) + Meaning(Anchor(EndBuf), ABAB, x);
  }

  lemma TwiceWays(x: St)
    requires x.s == 0
    ensures var z, y := Advance(Advance(x, 1), 1), Advance(x, 1);
      |Meaning(TWICE, ABAB, x)| >= 3 && Meaning(TWICE, ABAB, x)[..3] == [x, z, y]
  {
    var z, y := Advance(Advance(x, 1), 1), Advance(x, 1);
    BodyWays(x);
    Sizes();
    hide Meaning, Codegen.ShapeOf;
    assert TimesMeaning(BODY, ABAB, 0, [x]) == [x];
    assert OptionalAll(BODY, ABAB, 2, [x][1..]) == [] && OptionalAll(BODY, ABAB, 2, [x]) == Optional(BODY, ABAB, 2, x);
    assert OptionalAll(BODY, ABAB, 0, [x, z, y]) == [x, z, y] by { NoMore([x, z, y]); }
    assert Optional(BODY, ABAB, 1, x) == [x, z, y, x];
    assert OptionalAll(BODY, ABAB, 1, [x, z, y]) == [x, z, y, x] + OptionalAll(BODY, ABAB, 1, [z, y]) by {
      assert [x, z, y][1..] == [z, y];
    }
    TwiceIs(x);
  }

  lemma {:induction false} NoMore(xs: seq<St>)
    ensures OptionalAll(BODY, ABAB, 0, xs) == xs
    decreases |xs|
  {
    hide Meaning;
    if xs != [] { NoMore(xs[1..]); }
  }

  lemma TwiceIs(x: St)
    ensures Meaning(TWICE, ABAB, x) == OptionalAll(BODY, ABAB, 2, TimesMeaning(BODY, ABAB, 0, [x]))
  {
    Sizes();
    hide Codegen.ShapeOf;
  }

  lemma ThriceIs(x: St)
    ensures Meaning(THRICE, ABAB, x) == CountTurns(THRICE, ABAB, x, 0, Meaning(BODY, ABAB, x)) + [x]
  {
    Sizes();
    hide Codegen.ShapeOf;
  }

  lemma ThriceWays(x: St)
    requires x.s == 0
    ensures var z := Advance(Advance(x, 1), 1); var w := Advance(Advance(z, 1), 1);
      |Meaning(THRICE, ABAB, x)| >= 3 && Meaning(THRICE, ABAB, x)[..3] == [x, z, w]
  {
    var y := Advance(x, 1);
    var z := Advance(y, 1);
    var v := Advance(z, 1);
    var w := Advance(v, 1);
    BodyWays(x);
    BodyWays(z);
    BodyWays(w);
    ThriceIs(x);
    hide Meaning;
    assert [w][1..] == [] && CountTurns(THRICE, ABAB, w, 2, [w]) == [w] + [];
    assert Counted(THRICE, ABAB, 2, w) == [w, w];
    assert [z, w, v][1..] == [w, v] && [w, v][1..] == [v];
    assert CountTurns(THRICE, ABAB, z, 1, [w, v]) == [w, w] + CountTurns(THRICE, ABAB, z, 1, [v]);
    assert CountTurns(THRICE, ABAB, z, 1, [z, w, v]) == [z] + ([w, w] + CountTurns(THRICE, ABAB, z, 1, [v]));
    assert [x, z, y][1..] == [z, y] && [z, y][1..] == [y];
    assert CountTurns(THRICE, ABAB, x, 0, [z, y]) == Counted(THRICE, ABAB, 1, z) + CountTurns(THRICE, ABAB, x, 0, [y]);
    assert CountTurns(THRICE, ABAB, x, 0, [x, z, y]) == [x] + CountTurns(THRICE, ABAB, x, 0, [z, y]);
  }

  /** The first state the guard lets through. */
  lemma FirstThrough(q: Node, x: St, ways: seq<St>, k: nat)
    requires ways == Meaning(q, ABAB, x) && k < |ways| && (forall i :: 0 <= i <= k ==> ways[i].s <= 4)
    requires (forall i :: 0 <= i < k ==> ways[i].s == 0 || ways[i].s == 2) && ways[k].s != 0 && ways[k].s != 2
    ensures var ms := Meaning(List(Link(q, Last(GUARD))), ABAB, x); ms != [] && ms[0] == ways[k]
  {
    assert Meaning(List(Link(q, Last(GUARD))), ABAB, x) == ListMeaningAll(Last(GUARD), ABAB, ways);
    hide Meaning;
    Skipped(ways, k);
  }

  lemma {:induction false} Skipped(ways: seq<St>, k: nat)
    requires k < |ways| && (forall i :: 0 <= i <= k ==> ways[i].s <= 4)
    requires (forall i :: 0 <= i < k ==> ways[i].s == 0 || ways[i].s == 2) && ways[k].s != 0 && ways[k].s != 2
    ensures var ms := ListMeaningAll(Last(GUARD), ABAB, ways); ms != [] && ms[0] == ways[k]
    decreases k
  {
    GuardWays(ways[0]);
    hide Meaning;
    assert ListMeaning(Last(GUARD), ABAB, ways[0]) == Meaning(GUARD, ABAB, ways[0]) by { OneElement(ways[0]); }
    if k > 0 { Skipped(ways[1..], k - 1); }
  }

  lemma OneElement(x: St)
    ensures ListMeaning(Last(GUARD), ABAB, x) == Meaning(GUARD, ABAB, x)
  {
  }

  lemma Heads(ways: seq<St>, a: St, b: St, c: St)
    requires |ways| >= 3 && ways[..3] == [a, b, c]
    ensures ways[0] == a && ways[1] == b && ways[2] == c
  {
    assert ways[0] == ways[..3][0] && ways[1] == ways[..3][1] && ways[2] == ways[..3][2];
  }

  lemma TwiceEnds(x: St)
    requires x.s == 0
    ensures var ms := Meaning(List(Link(TWICE, Last(GUARD))), ABAB, x); ms != [] && ms[0].s == 1
  {
    hide Meaning;
    TwiceWays(x);
    var ways := Meaning(TWICE, ABAB, x);
    Heads(ways, x, Advance(Advance(x, 1), 1), Advance(x, 1));
    FirstThrough(TWICE, x, ways, 2);
  }

  lemma ThriceEnds(x: St)
    requires x.s == 0
    ensures var ms := Meaning(List(Link(THRICE, Last(GUARD))), ABAB, x); ms != [] && ms[0].s == 4
  {
    hide Meaning;
    ThriceWays(x);
    var ways := Meaning(THRICE, ABAB, x);
    var z := Advance(Advance(x, 1), 1);
    Heads(ways, x, z, Advance(Advance(z, 1), 1));
    FirstThrough(THRICE, x, ways, 2);
  }

  /** Raising the upper bound from 2 to 3 makes match_at prefer an end of 4 to an end of 1, which both bounds allow. */
  lemma OrderDependsOnSize()
    ensures var x := Initial(0, -1);
      var two, three := Meaning(List(Link(TWICE, Last(GUARD))), ABAB, x),
          Meaning(List(Link(THRICE, Last(GUARD))), ABAB, x);
      two != [] && two[0].s == 1 && three != [] && three[0].s == 4
    ensures PolicyOf(Codegen.ShapeOf(TWICE)) == Free && PolicyOf(Codegen.ShapeOf(THRICE)) == Checked
  {
    Sizes();
    hide Meaning, Codegen.ShapeOf;
    TwiceEnds(Initial(0, -1));
    ThriceEnds(Initial(0, -1));
  }

  lemma TwiceQuant(x: St)
    ensures Meaning(TWICE, ABAB, x) == QuantMeaning(TWICE, ABAB, x)
  {
  }

  /** Two turns, counted. */
  lemma CheckedTwice(x: St)
    requires x.s == 0
    ensures var b := Ordered(TWICE, MeaningOf(BODY, ABAB), ABAB, Checked, x); |b| >= 3 && b[2].s == 4
  {
    var f, y := MeaningOf(BODY, ABAB), Advance(x, 1);
    var z := Advance(y, 1);
    var v := Advance(z, 1);
    var w := Advance(v, 1);
    BodyWays(x);
    BodyWays(z);
    hide Meaning;
    var G := (u: St) => CheckTurn(TWICE, f, ABAB, z, 1, u);
    assert f(z) == [z, w, v] && [z, w, v][1..] == [w, v] && [w, v][1..] == [v];
    assert G(z) == [z] && G(w) == [w];
    assert FlatMap(f(z), G) == [z] + ([w] + FlatMap([v], G));
    var F := (u: St) => CheckTurn(TWICE, f, ABAB, x, 0, u);
    assert F(x) == [x];
    assert F(z) == FlatMap(f(z), G) + [z];
    assert [x, z, y][1..] == [z, y] && [z, y][1..] == [y];
    assert FlatMap(f(x), F) == [x] + (F(z) + FlatMap([y], F));
  }

  /** With the same bound: counted turns come in another order than written out ones. */
  lemma PoliciesDiffer()
    ensures var f, x := MeaningOf(BODY, ABAB), Initial(0, -1);
      var a, b := Ordered(TWICE, f, ABAB, Free, x), Ordered(TWICE, f, ABAB, Checked, x);
      |a| >= 3 && |b| >= 3 && a[2].s == 1 && b[2].s == 4
  {
    var x := Initial(0, -1);
    Sizes();
    hide Meaning, Codegen.ShapeOf, Ordered, QuantMeaning;
    TwiceWays(x);
    QuantOrdered(TWICE, ABAB, x);
    TwiceQuant(x);
    Heads(Meaning(TWICE, ABAB, x), x, Advance(Advance(x, 1), 1), Advance(x, 1));
    CheckedTwice(x);
  }
}
