/** Nested quantifiers (regparse.c:2176-2268, 5240-5251): the reduction table and the rewriting of quantifier nodes in
    place, which accept exactly the same strings whatever is repeated, and except for a lazy `+` in a greedy loop
    prefer the same ones. */
module Reduction {
  import opened Common
  import opened TurnOrder

  type Word = seq<byte>
  type Language = iset<Word>

  const INFINITE := -1

  datatype ReduceType = AsIs | Del | A | AQ | QQ | PQQ | PQQ2

  /** popular_quantifier_num: ?:0, *:1, +:2, ??:3, *?:4, +?:5. */
  function PopularNum(lower: nat, upper: int, greedy: bool): (r: int)
    ensures -1 <= r < 6
  {
    var k := if lower == 0 && upper == 1 then 0 else if lower == 0 && upper == INFINITE then 1
             else if lower == 1 && upper == INFINITE then 2 else -1;
    if k < 0 then -1 else if greedy then k else k + 3
  }

  /** ReduceTypeTable: rows are the inner quantifier, columns the outer one. */
  const TABLE: seq<seq<ReduceType>> := [
    [Del, A, A, QQ, AQ, AsIs],
    [Del, Del, Del, PQQ, PQQ, Del],
    [A, A, Del, AsIs, PQQ, Del],
    [Del, AQ, AQ, Del, AQ, AQ],
    [Del, Del, Del, Del, Del, Del],
    [AsIs, PQQ2, Del, AQ, AQ, Del]]

  // ---------------------------------------------------------------- languages of repetitions

  /** w is k words of X in a row. */
  ghost predicate Words(X: Language, k: nat, w: Word)
    decreases k
  {
    if k == 0 then w == [] else exists i :: 0 <= i <= |w| && w[..i] in X && Words(X, k - 1, w[i..])
  }

  predicate Allows(lower: nat, upper: int, k: nat) { lower <= k && (upper == INFINITE || k <= upper) }

  ghost predicate InRep(X: Language, lower: nat, upper: int, w: Word) {
    exists k: nat :: Allows(lower, upper, k) && Words(X, k, w)
  }

  /** The language of X{lower,upper}; greediness does not matter. */
  ghost function Rep(X: Language, lower: nat, upper: int): Language { iset w | InRep(X, lower, upper, w) }

  lemma {:induction false} WordsJoin(X: Language, j: nat, k: nat, v: Word, w: Word)
    requires Words(X, j, v) && Words(X, k, w)
    ensures Words(X, j + k, v + w)
    decreases j
  {
    if j == 0 {
      assert v + w == w;
    } else {
      var i :| 0 <= i <= |v| && v[..i] in X && Words(X, j - 1, v[i..]);
      WordsJoin(X, j - 1, k, v[i..], w);
      assert (v + w)[..i] == v[..i];
      assert (v + w)[i..] == v[i..] + w;
    }
  }

  lemma NoWord(X: Language, w: Word)
    ensures Words(X, 0, w) <==> w == []
  {
  }

  lemma OneWord(X: Language, w: Word)
    ensures Words(X, 1, w) <==> w in X
  {
    if w in X {
      NoWord(X, w[|w|..]);
      assert w[..|w|] == w;
      assert w[..|w|] in X && Words(X, 1 - 1, w[|w|..]);
    }
    if Words(X, 1, w) {
      var i :| 0 <= i <= |w| && w[..i] in X && Words(X, 1 - 1, w[i..]);
      NoWord(X, w[i..]);
      assert i == |w|;
      assert w[..i] == w;
    }
  }

  lemma RepWord(X: Language, lower: nat, upper: int, w: Word) returns (j: nat)
    requires w in Rep(X, lower, upper)
    ensures lower <= j && (upper == 1 ==> j <= 1) && Words(X, j, w)
  {
    hide Words;
    j :| Allows(lower, upper, j) && Words(X, j, w);
  }

  lemma FirstWord(X: Language, k: nat, w: Word) returns (v: Word, u: Word)
    requires Words(X, k, w) && 0 < k
    ensures w == v + u && v in X && Words(X, k - 1, u)
  {
    var i :| 0 <= i <= |w| && w[..i] in X && Words(X, k - 1, w[i..]);
    v, u := w[..i], w[i..];
  }

  /** k repetitions in a row are so many words of X. */
  lemma {:induction false} Flatten(X: Language, lower: nat, upper: int, k: nat, w: Word) returns (n: nat)
    requires Words(Rep(X, lower, upper), k, w)
    ensures Words(X, n, w) && (0 < lower ==> k <= n) && (upper == 1 ==> n <= k)
    decreases k
  {
    if k == 0 {
      NoWord(Rep(X, lower, upper), w);
      NoWord(X, w);
      n := 0;
    } else {
      hide Words, Rep;
      var v, u := FirstWord(Rep(X, lower, upper), k, w);
      var j := RepWord(X, lower, upper, v);
      var m := Flatten(X, lower, upper, k - 1, u);
      WordsJoin(X, j, m, v, u);
      n := j + m;
    }
  }

  /** n words of X, each as a repetition of its own. */
  lemma {:induction false} Spread(X: Language, lower: nat, upper: int, n: nat, w: Word)
    requires Words(X, n, w) && Allows(lower, upper, 1)
    ensures Words(Rep(X, lower, upper), n, w)
    decreases n
  {
    if n > 0 {
      var i :| 0 <= i <= |w| && w[..i] in X && Words(X, n - 1, w[i..]);
      OneWord(X, w[..i]);
      assert InRep(X, lower, upper, w[..i]);
      Spread(X, lower, upper, n - 1, w[i..]);
    }
  }

  /** All words of X in one repetition, the rest of k empty. */
  lemma {:induction false} Gather(X: Language, n: nat, k: nat, w: Word)
    requires Words(X, n, w) && 0 < k
    ensures Words(Rep(X, 0, INFINITE), k, w)
    decreases k
  {
    var Y := Rep(X, 0, INFINITE);
    assert w in Y by { assert Allows(0, INFINITE, n); }
    if k == 1 {
      OneWord(Y, w);
    } else {
      assert [] in Y by { assert Allows(0, INFINITE, 0) && Words(X, 0, []); }
      Gather(X, 0, k - 1, []);
      assert w[..|w|] == w && w[|w|..] == [];
    }
  }

  /** n words of X, the first k - 1 alone and the others together. */
  lemma {:induction false} Group(X: Language, n: nat, k: nat, w: Word)
    requires Words(X, n, w) && 0 < k <= n
    ensures Words(Rep(X, 1, INFINITE), k, w)
    decreases k
  {
    var Y := Rep(X, 1, INFINITE);
    if k == 1 {
      assert w in Y by { assert Allows(1, INFINITE, n); }
      OneWord(Y, w);
    } else {
      var i :| 0 <= i <= |w| && w[..i] in X && Words(X, n - 1, w[i..]);
      OneWord(X, w[..i]);
      assert w[..i] in Y by { assert Allows(1, INFINITE, 1); }
      Group(X, n - 1, k - 1, w[i..]);
    }
  }

  /** ?, * and + by their bounds. */
  predicate PopularBounds(lower: nat, upper: int) {
    (lower == 0 && (upper == 1 || upper == INFINITE)) || (lower == 1 && upper == INFINITE)
  }

  /** The repetition that a popular quantifier of a popular quantifier amounts to. */
  function BothLower(l1: nat, l2: nat): nat { if l1 == 1 && l2 == 1 then 1 else 0 }

  function BothUpper(u1: int, u2: int): int { if u1 == 1 && u2 == 1 then 1 else INFINITE }

  lemma NestedIn(X: Language, l1: nat, u1: int, l2: nat, u2: int, w: Word)
    requires PopularBounds(l1, u1) && PopularBounds(l2, u2) && InRep(Rep(X, l1, u1), l2, u2, w)
    ensures InRep(X, BothLower(l1, l2), BothUpper(u1, u2), w)
  {
    var k: nat :| Allows(l2, u2, k) && Words(Rep(X, l1, u1), k, w);
    var n := Flatten(X, l1, u1, k, w);
    assert Allows(BothLower(l1, l2), BothUpper(u1, u2), n);
  }

  lemma NestedFrom(X: Language, l1: nat, u1: int, l2: nat, u2: int, w: Word)
    requires PopularBounds(l1, u1) && PopularBounds(l2, u2) && InRep(X, BothLower(l1, l2), BothUpper(u1, u2), w)
    ensures InRep(Rep(X, l1, u1), l2, u2, w)
  {
    var n: nat :| Allows(BothLower(l1, l2), BothUpper(u1, u2), n) && Words(X, n, w);
    var Y := Rep(X, l1, u1);
    if n == 0 {
      if l2 == 0 {
        assert Allows(l2, u2, 0) && Words(Y, 0, w);
      } else {
        assert w in Y by { assert Allows(l1, u1, 0); }
        OneWord(Y, w);
        assert Allows(l2, u2, 1);
      }
    } else if u1 == INFINITE {
      assert w in Y by { assert Allows(l1, u1, n); }
      OneWord(Y, w);
      assert Allows(l2, u2, 1);
    } else {
      Spread(X, l1, u1, n, w);
      assert Allows(l2, u2, n);
    }
  }

  /** A popular quantifier of a popular quantifier is a popular quantifier. */
  lemma NestedPopular(X: Language, l1: nat, u1: int, l2: nat, u2: int)
    requires PopularBounds(l1, u1) && PopularBounds(l2, u2)
    ensures Rep(Rep(X, l1, u1), l2, u2) == Rep(X, BothLower(l1, l2), BothUpper(u1, u2))
  {
    forall w ensures w in Rep(Rep(X, l1, u1), l2, u2) <==> w in Rep(X, BothLower(l1, l2), BothUpper(u1, u2)) {
      if InRep(Rep(X, l1, u1), l2, u2, w) { NestedIn(X, l1, u1, l2, u2, w); }
      if InRep(X, BothLower(l1, l2), BothUpper(u1, u2), w) { NestedFrom(X, l1, u1, l2, u2, w); }
    }
  }

  // ---------------------------------------------------------------- the rewriting

  /** One or two quantifiers around a target. */
  datatype Shape = Target | Quant(target: Shape, lower: nat, upper: int, greedy: bool)

  ghost function LanguageOf(s: Shape, X: Language): Language {
    match s
    case Target => X
    case Quant(target, lower, upper, _) => Rep(LanguageOf(target, X), lower, upper)
  }

  /** A quantifier node; its target is another one or something else. */
  class Qtfr {
    var target: Qtfr?
    var lower: nat
    var upper: int
    var greedy: bool

    constructor (target: Qtfr?, lower: nat, upper: int, greedy: bool)
      ensures this.target == target && this.lower == lower && this.upper == upper && this.greedy == greedy
    {
      this.target, this.lower, this.upper, this.greedy := target, lower, upper, greedy;
    }
  }

  /** The shape of p, at most two quantifiers deep. */
  ghost function ShapeOf(p: Qtfr): Shape
    reads p, p.target
  {
    var inner := if p.target == null then Target else Quant(Target, p.target.lower, p.target.upper, p.target.greedy);
    Quant(inner, p.lower, p.upper, p.greedy)
  }

  /** What the reduction of c inside p amounts to. */
  function Reduced(c: Shape, p: Shape): Shape
    requires c.Quant? && p.Quant?
  {
    var cnum, pnum := PopularNum(c.lower, c.upper, c.greedy), PopularNum(p.lower, p.upper, p.greedy);
    if pnum < 0 || cnum < 0 then Quant(c, p.lower, p.upper, p.greedy)
    else match TABLE[cnum][pnum]
      case Del => c
      case A => Quant(c.target, 0, INFINITE, true)
      case AQ => Quant(c.target, 0, INFINITE, false)
      case QQ => Quant(c.target, 0, 1, false)
      case PQQ => Quant(Quant(c.target, 1, INFINITE, true), 0, 1, false)
      case PQQ2 => Quant(Quant(c.target, 1, INFINITE, false), 0, 1, true)
      case AsIs => Quant(c, p.lower, p.upper, p.greedy)
  }

  /** onig_reduce_nested_quantifier, and set_quantifier's choice to call it only for two popular quantifiers. */
  method Reduce(p: Qtfr, c: Qtfr)
    requires p != c && c.target == null
    modifies p, c
    ensures ShapeOf(p) == Reduced(old(ShapeOf(c)), old(Quant(Target, p.lower, p.upper, p.greedy)))
  {
    var pnum, cnum := PopularNum(p.lower, p.upper, p.greedy), PopularNum(c.lower, c.upper, c.greedy);
    if pnum < 0 || cnum < 0 {
      p.target := c;
      return;
    }
    match TABLE[cnum][pnum]
    case Del => p.target, p.lower, p.upper, p.greedy := c.target, c.lower, c.upper, c.greedy;
    case A => p.target, p.lower, p.upper, p.greedy := c.target, 0, INFINITE, true;
    case AQ => p.target, p.lower, p.upper, p.greedy := c.target, 0, INFINITE, false;
    case QQ => p.target, p.lower, p.upper, p.greedy := c.target, 0, 1, false;
    case PQQ =>
      p.target, p.lower, p.upper, p.greedy := c, 0, 1, false;
      c.lower, c.upper, c.greedy := 1, INFINITE, true;
    case PQQ2 =>
      p.target, p.lower, p.upper, p.greedy := c, 0, 1, true;
      c.lower, c.upper, c.greedy := 1, INFINITE, false;
    case AsIs => p.target := c;
  }

  /** All 36 entries of the table keep the language. */
  lemma ReducedLanguage(c: Shape, p: Shape, X: Language)
    requires c.Quant? && p.Quant?
    ensures LanguageOf(Reduced(c, p), X) == LanguageOf(Quant(c, p.lower, p.upper, p.greedy), X)
  {
    hide Rep;
    var cnum, pnum := PopularNum(c.lower, c.upper, c.greedy), PopularNum(p.lower, p.upper, p.greedy);
    if pnum >= 0 && cnum >= 0 {
      var Y := LanguageOf(c.target, X);
      NestedPopular(Y, c.lower, c.upper, p.lower, p.upper);
      NestedPopular(Y, 1, INFINITE, 0, 1);
    }
  }

  // ---------------------------------------------------------------- the order of preference

  /** The ends of a shape, best first, if f gives those of its target. */
  function WaysOf(s: Shape, f: Ends, end: nat, x: nat): seq<nat> {
    match s
    case Target => f(x)
    case Quant(target, lower, upper, greedy) => Turns(EndsOf(target, f, end), end, lower, Extra(lower, upper), greedy,
        x)
  }

  function EndsOf(s: Shape, f: Ends, end: nat): Ends { (y: nat) => WaysOf(s, f, end, y) }

  function Extra(lower: nat, upper: int): int { if upper == INFINITE then -1 else Max(upper - lower, 0) }

  lemma {:induction false} BindUnit(xs: seq<nat>, F: Ends)
    requires forall y :: y in xs ==> F(y) == [y]
    ensures Bind(xs, F) == xs
    decreases |xs|
  {
    if xs != [] {
      assert xs[0] in xs;
      BindUnit(xs[1..], F);
    }
  }

  lemma OptionTurns(F: Ends, end: nat, greedy: bool, x: nat)
    ensures Turns(F, end, 0, 1, greedy, x) == Around(greedy, F(x), x)
  {
    var none := (y: nat) => Turns(F, end, 0, 0, greedy, y);
    BindUnit(F(x), none);
    assert Turns(F, end, 0, 1, greedy, x) == Around(greedy, Bind(F(x), none), x);
  }

  lemma PlusTurns(F: Ends, end: nat, greedy: bool, x: nat)
    ensures Turns(F, end, 1, -1, greedy, x) == Plus(F, end, greedy, x)
  {
    hide Bind;
    var loop := (y: nat) => Turns(F, end, 0, -1, greedy, y);
    BindEqual(F(x), loop, (y: nat) => Star(F, end, greedy, y));
  }

  lemma PopularTurns(F: Ends, end: nat, lower: nat, upper: int, greedy: bool, x: nat)
    requires PopularNum(lower, upper, greedy) >= 0
    ensures Turns(F, end, lower, Extra(lower, upper), greedy, x)
            == Popular(F, end, PopularNum(lower, upper, greedy), x)
  {
    hide Bind, Star;
    if lower == 1 {
      PlusTurns(F, end, greedy, x);
    } else if upper == 1 {
      OptionTurns(F, end, greedy, x);
    }
  }

  lemma NamedWays(s: Shape, f: Ends, end: nat, x: nat)
    requires s.Quant? && PopularNum(s.lower, s.upper, s.greedy) >= 0
    ensures WaysOf(s, f, end, x) == EndsOf(s, f, end)(x)
            == Popular(EndsOf(s.target, f, end), end, PopularNum(s.lower, s.upper, s.greedy), x)
  {
    hide Turns, Popular, PopularNum;
    PopularTurns(EndsOf(s.target, f, end), end, s.lower, s.upper, s.greedy, x);
  }

  /** A popular quantifier c in a popular quantifier p. */
  lemma PopularWays(c: Shape, p: Shape, f: Ends, end: nat, x: nat)
    requires c.Quant? && p.Quant?
    requires PopularNum(c.lower, c.upper, c.greedy) >= 0 && PopularNum(p.lower, p.upper, p.greedy) >= 0
    ensures var cnum, pnum := PopularNum(c.lower, c.upper, c.greedy), PopularNum(p.lower, p.upper, p.greedy);
      Same(WaysOf(Quant(c, p.lower, p.upper, p.greedy), f, end, x),
           Popular(PopularOf(EndsOf(c.target, f, end), end, cnum), end, pnum, x))
  {
    hide Same, Turns, Popular, PopularNum;
    var cnum, F := PopularNum(c.lower, c.upper, c.greedy), EndsOf(c.target, f, end);
    forall y: nat ensures Same(EndsOf(c, f, end)(y), PopularOf(F, end, cnum)(y)) {
      PopularTurns(F, end, c.lower, c.upper, c.greedy, y);
      SameRefl(EndsOf(c, f, end)(y));
    }
    TurnsSame(EndsOf(c, f, end), PopularOf(F, end, cnum), end, p.lower, Extra(p.lower, p.upper), p.greedy, x);
    PopularTurns(PopularOf(F, end, cnum), end, p.lower, p.upper, p.greedy, x);
  }

  /** A lazy `+` in a greedy `*` or `+`. */
  predicate Changes(c: Shape, p: Shape)
    requires c.Quant? && p.Quant?
  {
    c.lower == 1 && c.upper == INFINITE && !c.greedy && p.lower <= 1 && p.upper == INFINITE && p.greedy
  }

  /** What an entry of the table makes of a quantifier c of F in a quantifier p. */
  function Tabled(F: Ends, end: nat, c: nat, p: nat, x: nat): seq<nat>
    requires c < 6 && p < 6
  {
    match TABLE[c][p]
    case Del => Popular(F, end, c, x)
    case A => Star(F, end, true, x)
    case AQ => Star(F, end, false, x)
    case QQ => Around(false, F(x), x)
    case PQQ => Around(false, Plus(F, end, true, x), x)
    case PQQ2 => Around(true, Plus(F, end, false, x), x)
    case AsIs => Popular(PopularOf(F, end, c), end, p, x)
  }

  /** ? and ?? of a popular quantifier. */
  lemma TableOption(F: Ends, end: nat, c: nat, p: nat, x: nat)
    requires Consumes(F, end) && c < 6 && (p == 0 || p == 3)
    ensures Same(Popular(PopularOf(F, end, c), end, p, x), Tabled(F, end, c, p, x))
  {
    hide Same, Star, Plus;
    PopularMoves(F, end, c, x);
    Doubled(x, Moving(F, end, c, x));
    StarPlus(F, end, true, x);
    StarPlus(F, end, false, x);
    SameRefl(Popular(PopularOf(F, end, c), end, p, x));
  }

  /** * and *? of a popular quantifier. */
  lemma TableStar(F: Ends, end: nat, c: nat, p: nat, x: nat)
    requires Consumes(F, end) && c < 6 && (p == 1 || p == 4) && !(c == 5 && p == 1)
    ensures Same(Popular(PopularOf(F, end, c), end, p, x), Tabled(F, end, c, p, x))
  {
    hide Same, Star, Plus;
    LoopIs(F, end, c, p == 1, x);
  }

  /** + and +? of a popular quantifier. */
  lemma TablePlus(F: Ends, end: nat, c: nat, p: nat, x: nat)
    requires Consumes(F, end) && c < 6 && (p == 2 || p == 5) && !(c == 5 && p == 2)
    ensures Same(Popular(PopularOf(F, end, c), end, p, x), Tabled(F, end, c, p, x))
  {
    hide Same, Star, Plus;
    if c == 0 && p == 5 {
      SameRefl(Popular(PopularOf(F, end, c), end, p, x));
    } else if c == 5 {
      PlusLazy(F, end, x);
    } else {
      PlusPopular(F, end, c, p == 2, x);
      StarPlus(F, end, c < 3, x);
    }
  }

  /** 34 of the 36 entries keep the order of preference. */
  lemma TableOrder(F: Ends, end: nat, c: nat, p: nat, x: nat)
    requires Consumes(F, end) && c < 6 && p < 6 && !(c == 5 && (p == 1 || p == 2))
    ensures Same(Popular(PopularOf(F, end, c), end, p, x), Tabled(F, end, c, p, x))
  {
    hide *;
    if p == 0 || p == 3 {
      TableOption(F, end, c, p, x);
    } else if p == 1 || p == 4 {
      TableStar(F, end, c, p, x);
    } else {
      TablePlus(F, end, c, p, x);
    }
  }

  /** The reduced shape is what the table says. */
  lemma ReducedTabled(c: Shape, p: Shape, f: Ends, end: nat, x: nat)
    requires c.Quant? && p.Quant?
    requires PopularNum(c.lower, c.upper, c.greedy) >= 0 && PopularNum(p.lower, p.upper, p.greedy) >= 0
    ensures var cnum, pnum := PopularNum(c.lower, c.upper, c.greedy), PopularNum(p.lower, p.upper, p.greedy);
      Same(Tabled(EndsOf(c.target, f, end), end, cnum, pnum, x), WaysOf(Reduced(c, p), f, end, x))
  {
    hide Same, Star, Plus, Turns, WaysOf, EndsOf;
    var cnum, pnum := PopularNum(c.lower, c.upper, c.greedy), PopularNum(p.lower, p.upper, p.greedy);
    var F := EndsOf(c.target, f, end);
    NamedWays(c, f, end, x);
    NamedWays(Quant(c.target, 0, INFINITE, true), f, end, x);
    NamedWays(Quant(c.target, 0, INFINITE, false), f, end, x);
    NamedWays(Quant(c.target, 0, 1, false), f, end, x);
    NamedWays(Quant(c.target, 1, INFINITE, true), f, end, x);
    NamedWays(Quant(c.target, 1, INFINITE, false), f, end, x);
    NamedWays(Quant(Quant(c.target, 1, INFINITE, true), 0, 1, false), f, end, x);
    NamedWays(Quant(Quant(c.target, 1, INFINITE, false), 0, 1, true), f, end, x);
    SameRefl(WaysOf(Reduced(c, p), f, end, x));
    PopularWays(c, p, f, end, x);
    SameSym(WaysOf(Quant(c, p.lower, p.upper, p.greedy), f, end, x), Popular(PopularOf(F, end, cnum), end, pnum, x));
  }

  /** The reduction keeps the order of preference, unless a lazy `+` stands in a greedy loop. */
  lemma ReducedOrder(c: Shape, p: Shape, f: Ends, end: nat, x: nat)
    requires c.Quant? && p.Quant? && Consumes(EndsOf(c.target, f, end), end) && !Changes(c, p)
    ensures Same(WaysOf(Reduced(c, p), f, end, x), WaysOf(Quant(c, p.lower, p.upper, p.greedy), f, end, x))
  {
    hide Same, Turns, Tabled, Popular, WaysOf, Consumes;
    var cnum, pnum := PopularNum(c.lower, c.upper, c.greedy), PopularNum(p.lower, p.upper, p.greedy);
    var nested := WaysOf(Quant(c, p.lower, p.upper, p.greedy), f, end, x);
    if pnum >= 0 && cnum >= 0 {
      var F := EndsOf(c.target, f, end);
      var mid, tab := Popular(PopularOf(F, end, cnum), end, pnum, x), Tabled(F, end, cnum, pnum, x);
      PopularWays(c, p, f, end, x);
      TableOrder(F, end, cnum, pnum, x);
      ReducedTabled(c, p, f, end, x);
      SameTrans(nested, mid, tab);
      SameTrans(nested, tab, WaysOf(Reduced(c, p), f, end, x));
      SameSym(nested, WaysOf(Reduced(c, p), f, end, x));
    } else {
      SameRefl(nested);
    }
  }

  /** On the text aa: the loop of lazy runs takes both first, what the table makes of it only one. */
  lemma LazyRuns(F: Ends, p: nat)
    requires F(0) == [1] && F(1) == [2] && F(2) == [] && (p == 1 || p == 2)
    ensures var nested := Popular(PopularOf(F, 2, 5), 2, p, 0); nested != [] && nested[0] == 2
    ensures var r := Tabled(F, 2, 5, p, 0); r != [] && r[0] == 1
  {
    var L := (y: nat) => Star(F, 2, false, y);
    var B := PopularOf(F, 2, 5);
    assert Plus(F, 2, false, 0) == Bind(F(0), L);
    BindOne(1, L);
    BindOne(2, L);
    assert B(2) == [] && L(2) == [2] + [];
    assert L(1)[0] == 1;
    assert B(1) == Bind([2], L) == L(2);
    var turn := (y: nat) => if 1 < y <= 2 then Star(B, 2, true, y) else [y];
    assert Star(B, 2, true, 1) == Bind(B(1), turn) + [1];
    assert B(1)[0] == 2 && turn(2) == Star(B, 2, true, 2);
    assert Star(B, 2, true, 2)[0] == 2;
    assert B(0)[0] == 1;
    var first := (y: nat) => if 0 < y <= 2 then Star(B, 2, true, y) else [y];
    assert Star(B, 2, true, 0) == Bind(B(0), first) + [0];
    assert Bind(B(0), first)[0] == 2;
    var next := (y: nat) => Star(B, 2, true, y);
    assert Bind(B(0), next)[0] == 2;
  }

  lemma FirstDiffers(xs: seq<nat>, ys: seq<nat>)
    requires xs != [] && ys != [] && xs[0] != ys[0]
    ensures !Same(xs, ys)
  {
    var any := (y: nat) => true;
    assert Pick(xs, any) != Pick(ys, any);
  }

  /** For a lazy `+` in a greedy loop another way becomes the first. */
  lemma OrderChanges(c: Shape, p: Shape, f: Ends)
    requires c.Quant? && p.Quant? && c.target == Target && Changes(c, p)
    requires f(0) == [1] && f(1) == [2] && f(2) == []
    ensures !Same(WaysOf(Reduced(c, p), f, 2, 0), WaysOf(Quant(c, p.lower, p.upper, p.greedy), f, 2, 0))
  {
    hide Same, Popular, Tabled, WaysOf;
    var pnum, F := PopularNum(p.lower, p.upper, p.greedy), EndsOf(Target, f, 2);
    var nested, r := WaysOf(Quant(c, p.lower, p.upper, p.greedy), f, 2, 0), WaysOf(Reduced(c, p), f, 2, 0);
    TargetEnds(f);
    LazyRuns(F, pnum);
    PopularWays(c, p, f, 2, 0);
    ReducedTabled(c, p, f, 2, 0);
    FirstDiffers(Tabled(F, 2, 5, pnum, 0), Popular(PopularOf(F, 2, 5), 2, pnum, 0));
    if Same(r, nested) {
      SameTrans(r, nested, Popular(PopularOf(F, 2, 5), 2, pnum, 0));
      SameTrans(Tabled(F, 2, 5, pnum, 0), r, Popular(PopularOf(F, 2, 5), 2, pnum, 0));
    }
  }

  lemma TargetEnds(f: Ends)
    ensures forall x: nat, end :: EndsOf(Target, f, end)(x) == f(x)
  {
  }

  lemma TargetConsumes(f: Ends, end: nat)
    requires Consumes(f, end)
    ensures Consumes(EndsOf(Target, f, end), end)
  {
    TargetEnds(f);
    forall x: nat, y: nat | y in EndsOf(Target, f, end)(x) ensures x < y <= end { assert y in f(x); }
  }

  function TwoSteps(x: nat): seq<nat> { if x < 2 then [x + 1] else [] }

  /** The two quantifiers mean the same in the same order, whatever consuming target they stand around. */
  ghost predicate SameOrder(a: Shape, b: Shape) {
    forall f: Ends, end: nat, x: nat :: Consumes(f, end) ==> Same(WaysOf(a, f, end, x), WaysOf(b, f, end, x))
  }

  /** The table keeps the order of preference exactly when no lazy `+` stands in a greedy loop. */
  lemma OrderExact(c: Shape, p: Shape)
    requires c.Quant? && p.Quant? && c.target == Target
    ensures SameOrder(Reduced(c, p), Quant(c, p.lower, p.upper, p.greedy)) <==> !Changes(c, p)
  {
    hide Same, WaysOf;
    if Changes(c, p) {
      OrderChanges(c, p, TwoSteps);
      assert Consumes(TwoSteps, 2);
    } else {
      forall f: Ends, end: nat, x: nat | Consumes(f, end)
        ensures Same(WaysOf(Reduced(c, p), f, end, x), WaysOf(Quant(c, p.lower, p.upper, p.greedy), f, end, x))
      {
        TargetConsumes(f, end);
        ReducedOrder(c, p, f, end, x);
      }
    }
  }

  /** Up to k more greedy turns of `*` or `+` are any number. */
  lemma {:induction false} OptionalRuns(F: Ends, end: nat, c: nat, k: nat, x: nat)
    requires Consumes(F, end) && (c == 1 || c == 2) && 0 < k
    ensures Same(Turns(PopularOf(F, end, c), end, 0, k, true, x), Star(F, end, true, x))
    decreases k
  {
    hide Same, Star, Bind;
    var B, S := PopularOf(F, end, c), Greedy(F, end);
    StarPlus(F, end, true, x);
    Doubled(x, Plus(F, end, true, x));
    if k == 1 {
      OptionTurns(B, end, true, x);
    } else {
      var rest := (y: nat) => Turns(B, end, 0, k - 1, true, y);
      forall y ensures Same(rest(y), S(y)) { OptionalRuns(F, end, c, k - 1, y); }
      SameRefl(B(x));
      SameBind(B(x), B(x), rest, S);
      RunsAbsorb(F, end, c, x);
      SameTrans(Bind(B(x), rest), Bind(B(x), S), B(x));
      SameAround(true, Bind(B(x), rest), B(x), x);
      SameTrans(Turns(B, end, 0, k, true, x), B(x) + [x], Star(F, end, true, x));
    }
  }

  lemma RunsAbsorb(F: Ends, end: nat, c: nat, x: nat)
    requires Consumes(F, end) && (c == 1 || c == 2)
    ensures Same(Bind(PopularOf(F, end, c)(x), Greedy(F, end)), PopularOf(F, end, c)(x))
  {
    hide Same, Bind;
    forall y: nat ensures y in Star(F, end, true, y) { StarPlus(F, end, true, y); }
    GreedyTwice(F, end, Greedy(F, end), x);
  }

  /** After a greedy `*` or `+` more turns of it add nothing. */
  lemma {:induction false} MoreRuns(F: Ends, end: nat, c: nat, l: nat, k: nat, x: nat)
    requires Consumes(F, end) && (c == 1 || c == 2) && 0 < l
    ensures Same(Turns(PopularOf(F, end, c), end, l, k, true, x), Turns(PopularOf(F, end, c), end, l, 0, true, x))
    decreases l
  {
    hide Same, Star, Bind;
    var B, S := PopularOf(F, end, c), Greedy(F, end);
    var p, q := (y: nat) => Turns(B, end, l - 1, k, true, y), (y: nat) => Turns(B, end, l - 1, 0, true, y);
    SameRefl(B(x));
    if k == 0 {
      SameRefl(Turns(B, end, l, k, true, x));
    } else if l == 1 {
      forall y ensures Same(p(y), S(y)) { OptionalRuns(F, end, c, k, y); }
      SameBind(B(x), B(x), p, S);
      RunsAbsorb(F, end, c, x);
      SameTrans(Bind(B(x), p), Bind(B(x), S), B(x));
      BindUnit(B(x), q);
    } else {
      forall y ensures Same(p(y), q(y)) { MoreRuns(F, end, c, l - 1, k, y); }
      SameBind(B(x), B(x), p, q);
    }
  }

  /** The fixed count keeps the order of preference. */
  lemma FixedOrder(c: Shape, lower: nat, upper: nat, f: Ends, end: nat, x: nat)
    requires c.Quant? && c.lower <= 1 && c.upper == INFINITE && c.greedy && lower <= upper && 1 < upper
    requires Consumes(EndsOf(c.target, f, end), end)
    ensures Same(WaysOf(Quant(c, lower, FixedUpper(lower), true), f, end, x),
        WaysOf(Quant(c, lower, upper, true), f, end, x))
  {
    hide Same, Turns, Popular, Consumes;
    var cnum, F := PopularNum(c.lower, c.upper, c.greedy), EndsOf(c.target, f, end);
    var B, C := PopularOf(F, end, cnum), EndsOf(c, f, end);
    forall y: nat ensures Same(C(y), B(y)) {
      NamedWays(c, f, end, y);
      SameRefl(B(y));
    }
    var k, k1 := upper - lower, FixedUpper(lower) - lower;
    var a, b := Turns(B, end, lower, k, true, x), Turns(B, end, lower, k1, true, x);
    TurnsSame(C, B, end, lower, k, true, x);
    TurnsSame(C, B, end, lower, k1, true, x);
    if lower == 0 {
      OptionalRuns(F, end, cnum, k, x);
      OptionalRuns(F, end, cnum, k1, x);
      SameSym(a, Star(F, end, true, x));
      SameTrans(b, Star(F, end, true, x), a);
    } else {
      MoreRuns(F, end, cnum, lower, k, x);
      SameSym(a, b);
    }
    SameTrans(Turns(C, end, lower, k1, true, x), b, a);
    SameSym(Turns(C, end, lower, k, true, x), a);
    SameTrans(Turns(C, end, lower, k1, true, x), a, Turns(C, end, lower, k, true, x));
  }

  /** (?:a*){n,m} and (?:a+){n,m} become (?:a*){n,n} and (?:a+){n,n}, or {0,1} for n = 0 (regparse.c:5245-5249). */
  function FixedUpper(lower: nat): int { if lower == 0 then 1 else lower }

  lemma FixedCountIn(X: Language, l1: nat, lower: nat, upper: int, w: Word)
    requires l1 <= 1 && lower <= upper && 1 < upper && InRep(Rep(X, l1, INFINITE), lower, upper, w)
    ensures InRep(Rep(X, l1, INFINITE), lower, FixedUpper(lower), w)
  {
    var Y := Rep(X, l1, INFINITE);
    var k: nat :| Allows(lower, upper, k) && Words(Y, k, w);
    var n := Flatten(X, l1, INFINITE, k, w);
    var m := FixedUpper(lower);
    if l1 == 0 {
      Gather(X, n, m, w);
      assert Allows(lower, m, m);
    } else if n == 0 {
      assert Allows(lower, m, 0) && Words(Y, 0, w);
    } else {
      Group(X, n, m, w);
      assert Allows(lower, m, m);
    }
  }

  lemma FixedCount(X: Language, l1: nat, lower: nat, upper: int)
    requires l1 <= 1 && lower <= upper && 1 < upper
    ensures Rep(Rep(X, l1, INFINITE), lower, FixedUpper(lower)) == Rep(Rep(X, l1, INFINITE), lower, upper)
  {
    var Y := Rep(X, l1, INFINITE);
    forall w ensures w in Rep(Y, lower, FixedUpper(lower)) <==> w in Rep(Y, lower, upper) {
      if InRep(Y, lower, upper, w) { FixedCountIn(X, l1, lower, upper, w); }
      if InRep(Y, lower, FixedUpper(lower), w) {
        var k: nat :| Allows(lower, FixedUpper(lower), k) && Words(Y, k, w);
        assert Allows(lower, upper, k);
      }
    }
  }

  lemma FixedExact(q: Shape)
    requires q.Quant? && q.target.Quant? && q.target.target == Target && q.greedy && q.lower <= q.upper && 1 < q.upper
    requires q.target.lower <= 1 && q.target.upper == INFINITE && q.target.greedy
    ensures SameOrder(q.(upper := FixedUpper(q.lower)), q)
  {
    hide Same, WaysOf;
    forall f: Ends, end: nat, x: nat | Consumes(f, end)
      ensures Same(WaysOf(q.(upper := FixedUpper(q.lower)), f, end, x), WaysOf(q, f, end, x))
    {
      TargetConsumes(f, end);
      FixedOrder(q.target, q.lower, q.upper, f, end, x);
    }
  }

  lemma SelfOrder(s: Shape)
    ensures SameOrder(s, s)
  {
    hide WaysOf;
  }

  /** The quantifier part of set_quantifier: reduce, or fix the count, then keep the target. */
  method SetQuantifier(q: Qtfr, t: Qtfr)
    requires q != t && t.target == null && (q.upper == INFINITE || q.lower <= q.upper)
    modifies q, t
    ensures forall X ::
        LanguageOf(ShapeOf(q), X)
        == LanguageOf(old(Quant(Quant(Target, t.lower, t.upper, t.greedy), q.lower, q.upper, q.greedy)), X)
    ensures
      var was := old(Quant(Quant(Target, t.lower, t.upper, t.greedy), q.lower, q.upper, q.greedy));
      SameOrder(ShapeOf(q), was) <==> !Changes(was.target, was)
  {
    hide Rep, SameOrder;
    ghost var was := Quant(Quant(Target, t.lower, t.upper, t.greedy), q.lower, q.upper, q.greedy);
    var nest, num := PopularNum(q.lower, q.upper, q.greedy), PopularNum(t.lower, t.upper, t.greedy);
    if num >= 0 {
      if nest >= 0 {
        Reduce(q, t);
        forall X ensures LanguageOf(ShapeOf(q), X) == LanguageOf(was, X) {
          ReducedLanguage(was.target, Quant(Target, was.lower, was.upper, was.greedy), X);
        }
        OrderExact(was.target, Quant(Target, was.lower, was.upper, was.greedy));
        return;
      } else if (num == 1 || num == 2) && q.upper != INFINITE && q.upper > 1 && q.greedy {
        forall X ensures LanguageOf(was.(upper := FixedUpper(was.lower)), X) == LanguageOf(was, X) {
          FixedCount(X, was.target.lower, was.lower, was.upper);
        }
        FixedExact(was);
        q.upper := if q.lower == 0 then 1 else q.lower;
      }
    }
    SelfOrder(was);
    q.target := t;
  }
}
