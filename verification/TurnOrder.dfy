/** Which way of a repetition is preferred, for a repeated part that always consumes something: the ends of the part
    are given in order of preference, and two lists of ends are alike if whatever follows takes the same one. */
module TurnOrder {
  import opened Common

  /** The ends of a part that starts at a position, best first. */
  type Ends = nat -> seq<nat>

  /** The first end after which the rest matches. */
  function Pick(xs: seq<nat>, rest: nat -> bool): (r: Option<nat>)
    ensures r.Some? ==> r.value in xs && rest(r.value)
    ensures r.None? ==> forall y :: y in xs ==> !rest(y)
  {
    if xs == [] then None else if rest(xs[0]) then Some(xs[0]) else Pick(xs[1..], rest)
  }

  /** Whatever follows takes the same end of both. */
  ghost predicate Same(xs: seq<nat>, ys: seq<nat>) { forall rest: nat -> bool :: Pick(xs, rest) == Pick(ys, rest) }

  function Bind(xs: seq<nat>, F: Ends): seq<nat> { if xs == [] then [] else F(xs[0]) + Bind(xs[1..], F) }

  // ---------------------------------------------------------------- lists of ends

  lemma {:induction false} PickJoin(xs: seq<nat>, ys: seq<nat>, rest: nat -> bool)
    ensures Pick(xs + ys, rest) == if Pick(xs, rest).Some? then Pick(xs, rest) else Pick(ys, rest)
    decreases |xs|
  {
    if xs == [] {
      assert xs + ys == ys;
    } else {
      assert (xs + ys)[0] == xs[0] && (xs + ys)[1..] == xs[1..] + ys;
      PickJoin(xs[1..], ys, rest);
    }
  }

  lemma {:induction false} PickBind(xs: seq<nat>, F: Ends, rest: nat -> bool)
    ensures Pick(Bind(xs, F), rest)
            == match Pick(xs, (y: nat) => Pick(F(y), rest).Some?) case Some(y) => Pick(F(y), rest) case None => None
    decreases |xs|
  {
    if xs != [] {
      PickJoin(F(xs[0]), Bind(xs[1..], F), rest);
      PickBind(xs[1..], F, rest);
    }
  }

  lemma SameElements(xs: seq<nat>, ys: seq<nat>)
    requires Same(xs, ys)
    ensures forall y :: y in xs <==> y in ys
  {
    forall y ensures y in xs <==> y in ys {
      var at := (z: nat) => z == y;
      assert Pick(xs, at) == Pick(ys, at);
    }
  }

  lemma SameJoin(xs: seq<nat>, ys: seq<nat>, us: seq<nat>, vs: seq<nat>)
    requires Same(xs, us) && Same(ys, vs)
    ensures Same(xs + ys, us + vs)
  {
    forall rest: nat -> bool ensures Pick(xs + ys, rest) == Pick(us + vs, rest) {
      PickJoin(xs, ys, rest);
      PickJoin(us, vs, rest);
    }
  }

  /** What was there before adds nothing. */
  lemma SameTail(xs: seq<nat>, ys: seq<nat>)
    requires forall y :: y in ys ==> y in xs
    ensures Same(xs + ys, xs)
  {
    forall rest: nat -> bool ensures Pick(xs + ys, rest) == Pick(xs, rest) { PickJoin(xs, ys, rest); }
  }

  lemma {:induction false} PickSame(xs: seq<nat>, rest: nat -> bool, rest1: nat -> bool)
    requires forall y :: y in xs ==> (rest(y) <==> rest1(y))
    ensures Pick(xs, rest) == Pick(xs, rest1)
    decreases |xs|
  {
    if xs != [] {
      assert xs[0] in xs;
      PickSame(xs[1..], rest, rest1);
    }
  }

  /** Alike after alike. */
  lemma SameBind(xs: seq<nat>, ys: seq<nat>, F: Ends, G: Ends)
    requires Same(xs, ys) && forall y :: y in xs ==> Same(F(y), G(y))
    ensures Same(Bind(xs, F), Bind(ys, G))
  {
    forall rest: nat -> bool ensures Pick(Bind(xs, F), rest) == Pick(Bind(ys, G), rest) {
      PickBind(xs, F, rest);
      PickBind(ys, G, rest);
      var p, q := (y: nat) => Pick(F(y), rest).Some?, (y: nat) => Pick(G(y), rest).Some?;
      forall y | y in xs ensures Pick(F(y), rest) == Pick(G(y), rest) { assert Same(F(y), G(y)); }
      PickSame(xs, p, q);
      assert Pick(xs, q) == Pick(ys, q);
    }
  }

  lemma {:induction false} BindJoin(xs: seq<nat>, ys: seq<nat>, F: Ends)
    ensures Bind(xs + ys, F) == Bind(xs, F) + Bind(ys, F)
    decreases |xs|
  {
    if xs == [] {
      assert xs + ys == ys;
    } else {
      assert (xs + ys)[0] == xs[0] && (xs + ys)[1..] == xs[1..] + ys;
      BindJoin(xs[1..], ys, F);
    }
  }

  lemma BindOne(x: nat, F: Ends)
    ensures Bind([x], F) == F(x)
  {
    assert [x][1..] == [] && Bind([x][1..], F) == [];
  }

  lemma {:induction false} BindBind(xs: seq<nat>, F: Ends, G: Ends)
    ensures Bind(Bind(xs, F), G) == Bind(xs, (y: nat) => Bind(F(y), G))
    decreases |xs|
  {
    if xs != [] {
      BindBind(xs[1..], F, G);
      BindJoin(F(xs[0]), Bind(xs[1..], F), G);
    }
  }

  lemma {:induction false} BindIn(xs: seq<nat>, F: Ends, z: nat)
    ensures z in Bind(xs, F) <==> exists y :: y in xs && z in F(y)
    decreases |xs|
  {
    if xs != [] { BindIn(xs[1..], F, z); }
  }

  lemma {:induction false} BindEqual(xs: seq<nat>, F: Ends, G: Ends)
    requires forall y :: y in xs ==> F(y) == G(y)
    ensures Bind(xs, F) == Bind(xs, G)
    decreases |xs|
  {
    if xs != [] {
      assert xs[0] in xs;
      BindEqual(xs[1..], F, G);
    }
  }

  lemma SameRefl(xs: seq<nat>)
    ensures Same(xs, xs)
  {
  }

  lemma SameTrans(xs: seq<nat>, ys: seq<nat>, zs: seq<nat>)
    requires Same(xs, ys) && Same(ys, zs)
    ensures Same(xs, zs)
  {
    forall rest: nat -> bool ensures Pick(xs, rest) == Pick(zs, rest) {
      assert Pick(xs, rest) == Pick(ys, rest) == Pick(zs, rest);
    }
  }

  lemma SameSym(xs: seq<nat>, ys: seq<nat>)
    requires Same(xs, ys)
    ensures Same(ys, xs)
  {
    forall rest: nat -> bool ensures Pick(ys, rest) == Pick(xs, rest) { assert Pick(xs, rest) == Pick(ys, rest); }
  }

  // ---------------------------------------------------------------- loops

  /** A part that always consumes something, in a text of `end` bytes. */
  ghost predicate Consumes(f: Ends, end: nat) { forall x: nat, y: nat :: y in f(x) ==> x < y <= end }

  /** A turn that consumed nothing ends the loop. */
  function Turn(N: Ends, end: nat, x: nat): Ends { (y: nat) => if x < y <= end then N(y) else [y] }

  function Around(g: bool, more: seq<nat>, x: nat): seq<nat> { if g then more + [x] else [x] + more }

  /** Any number of turns of F, greedy or lazy. */
  function Star(F: Ends, end: nat, g: bool, x: nat): seq<nat>
    decreases end - x
  {
    Around(g, Bind(F(x), (y: nat) => if x < y <= end then Star(F, end, g, y) else [y]), x)
  }

  /** l mandatory turns and up to m more, or any number if m is negative. */
  function Turns(F: Ends, end: nat, l: nat, m: int, g: bool, x: nat): seq<nat>
    decreases l, if m < 0 then 0 else m
  {
    if l > 0 then Bind(F(x), (y: nat) => Turns(F, end, l - 1, m, g, y))
    else if m < 0 then Star(F, end, g, x)
    else if m == 0 then [x]
    else Around(g, Bind(F(x), (y: nat) => Turns(F, end, 0, m - 1, g, y)), x)
  }

  /** One turn of the loop, if the loop is N from the next position on. */
  function Step(F: Ends, N: Ends, end: nat, g: bool, x: nat): seq<nat> { Around(g, Bind(F(x), Turn(N, end, x)), x) }

  lemma SameAround(g: bool, xs: seq<nat>, ys: seq<nat>, x: nat)
    requires Same(xs, ys)
    ensures Same(Around(g, xs, x), Around(g, ys, x))
  {
    hide Same;
    SameRefl([x]);
    if g { SameJoin(xs, [x], ys, [x]); } else { SameJoin([x], xs, [x], ys); }
  }

  /** The loop is N if one turn of it is. */
  lemma {:induction false} StarIs(F: Ends, N: Ends, end: nat, g: bool, x: nat)
    requires forall z: nat :: Same(Step(F, N, end, g, z), N(z))
    ensures Same(Star(F, end, g, x), N(x))
    decreases end - x
  {
    hide Same, Bind;
    var turn := (y: nat) => if x < y <= end then Star(F, end, g, y) else [y];
    forall y | y in F(x) ensures Same(turn(y), Turn(N, end, x)(y)) {
      if x < y <= end { StarIs(F, N, end, g, y); } else { SameRefl([y]); }
    }
    SameRefl(F(x));
    SameBind(F(x), F(x), turn, Turn(N, end, x));
    SameAround(g, Bind(F(x), turn), Bind(F(x), Turn(N, end, x)), x);
    assert Same(Step(F, N, end, g, x), N(x));
    SameTrans(Star(F, end, g, x), Step(F, N, end, g, x), N(x));
  }

  /** Alike turns make alike loops. */
  lemma StarSame(F: Ends, G: Ends, end: nat, g: bool, x: nat)
    requires forall z: nat :: Same(F(z), G(z))
    ensures Same(Star(F, end, g, x), Star(G, end, g, x))
  {
    hide Same, Bind;
    var N: Ends := (z: nat) => Star(G, end, g, z);
    forall z: nat ensures Same(Step(F, N, end, g, z), N(z)) {
      var turn := (y: nat) => if z < y <= end then Star(G, end, g, y) else [y];
      forall y ensures Same(Turn(N, end, z)(y), turn(y)) { SameRefl(turn(y)); }
      SameBind(F(z), G(z), Turn(N, end, z), turn);
      SameAround(g, Bind(F(z), Turn(N, end, z)), Bind(G(z), turn), z);
    }
    StarIs(F, N, end, g, x);
  }

  lemma {:induction false} TurnsSame(F: Ends, G: Ends, end: nat, l: nat, m: int, g: bool, x: nat)
    requires forall z: nat :: Same(F(z), G(z))
    ensures Same(Turns(F, end, l, m, g, x), Turns(G, end, l, m, g, x))
    decreases l, if m < 0 then 0 else m
  {
    hide Same, Bind;
    if l > 0 {
      var p, q := (y: nat) => Turns(F, end, l - 1, m, g, y), (y: nat) => Turns(G, end, l - 1, m, g, y);
      forall y ensures Same(p(y), q(y)) { TurnsSame(F, G, end, l - 1, m, g, y); }
      SameBind(F(x), G(x), p, q);
    } else if m < 0 {
      StarSame(F, G, end, g, x);
    } else if m == 0 {
      SameRefl([x]);
    } else {
      var p, q := (y: nat) => Turns(F, end, 0, m - 1, g, y), (y: nat) => Turns(G, end, 0, m - 1, g, y);
      forall y ensures Same(p(y), q(y)) { TurnsSame(F, G, end, 0, m - 1, g, y); }
      SameBind(F(x), G(x), p, q);
      SameAround(g, Bind(F(x), p), Bind(G(x), q), x);
    }
  }

  // ---------------------------------------------------------------- loops of a part that consumes

  /** One or more turns of f, and then any number. */
  function Plus(f: Ends, end: nat, g: bool, x: nat): seq<nat> { Bind(f(x), (y: nat) => Star(f, end, g, y)) }

  lemma StarPlus(f: Ends, end: nat, g: bool, x: nat)
    requires Consumes(f, end)
    ensures Star(f, end, g, x) == Around(g, Plus(f, end, g, x), x)
  {
    BindEqual(f(x), (y: nat) => if x < y <= end then Star(f, end, g, y) else [y], (y: nat) => Star(f, end, g, y));
  }

  lemma {:induction false} StarMoves(f: Ends, end: nat, g: bool, x: nat, y: nat)
    requires Consumes(f, end) && y in Star(f, end, g, x)
    ensures y == x || y in Plus(f, end, g, x)
    ensures y == x || x < y <= end
    decreases end - x
  {
    StarPlus(f, end, g, x);
    if y != x {
      BindIn(f(x), (z: nat) => Star(f, end, g, z), y);
      var z :| z in f(x) && y in Star(f, end, g, z);
      StarMoves(f, end, g, z, y);
    }
  }

  lemma PlusMoves(f: Ends, end: nat, g: bool, x: nat, y: nat)
    requires Consumes(f, end) && y in Plus(f, end, g, x)
    ensures x < y <= end
  {
    BindIn(f(x), (z: nat) => Star(f, end, g, z), y);
    var z :| z in f(x) && y in Star(f, end, g, z);
    StarMoves(f, end, g, z, y);
  }

  /** What can be reached from a place that was reached can be reached. */
  lemma {:induction false} StarReach(f: Ends, end: nat, g: bool, x: nat, y: nat, z: nat)
    requires Consumes(f, end) && y in Star(f, end, g, x) && z in Star(f, end, g, y)
    ensures z in Star(f, end, g, x)
    decreases end - x
  {
    StarPlus(f, end, g, x);
    if y != x {
      BindIn(f(x), (v: nat) => Star(f, end, g, v), y);
      var v :| v in f(x) && y in Star(f, end, g, v);
      StarReach(f, end, g, v, y, z);
      BindIn(f(x), (v: nat) => Star(f, end, g, v), z);
    }
  }

  // ---------------------------------------------------------------- loops of greedy loops

  /** Every end comes after the ends that can be reached from it. */
  ghost predicate Closed(xs: seq<nat>, S: Ends) {
    forall i, z :: 0 <= i < |xs| && z in S(xs[i]) ==> z in xs[..i + 1]
  }

  lemma ClosedJoin(xs: seq<nat>, ys: seq<nat>, S: Ends)
    requires Closed(xs, S) && Closed(ys, S)
    ensures Closed(xs + ys, S)
  {
    var s := xs + ys;
    forall i, z | 0 <= i < |s| && z in S(s[i]) ensures z in s[..i + 1] {
      if i < |xs| {
        assert s[..i + 1] == xs[..i + 1];
      } else {
        assert s[i] == ys[i - |xs|];
        assert s[..i + 1] == xs + ys[..i - |xs| + 1];
      }
    }
  }

  lemma {:induction false} ClosedBind(xs: seq<nat>, F: Ends, S: Ends)
    requires forall y :: y in xs ==> Closed(F(y), S)
    ensures Closed(Bind(xs, F), S)
    decreases |xs|
  {
    if xs != [] {
      ClosedBind(xs[1..], F, S);
      ClosedJoin(F(xs[0]), Bind(xs[1..], F), S);
    }
  }

  function Greedy(f: Ends, end: nat): Ends { (z: nat) => Star(f, end, true, z) }

  lemma {:induction false} StarClosed(f: Ends, end: nat, x: nat)
    requires Consumes(f, end)
    ensures Closed(Plus(f, end, true, x), Greedy(f, end)) && Closed(Star(f, end, true, x), Greedy(f, end))
    decreases end - x
  {
    hide Star, Bind;
    var S := Greedy(f, end);
    forall y | y in f(x) ensures Closed(Star(f, end, true, y), S) { StarClosed(f, end, y); }
    ClosedBind(f(x), (y: nat) => Star(f, end, true, y), S);
    StarPlus(f, end, true, x);
    ClosedEnd(Plus(f, end, true, x), x, S);
  }

  lemma ClosedEnd(xs: seq<nat>, x: nat, S: Ends)
    requires Closed(xs, S) && S(x) == xs + [x]
    ensures Closed(xs + [x], S)
  {
    var s := xs + [x];
    forall i, z | 0 <= i < |s| && z in S(s[i]) ensures z in s[..i + 1] {
      if i < |xs| { assert s[..i + 1] == xs[..i + 1]; } else { assert s[..i + 1] == s; }
    }
  }

  lemma ClosedFront(xs: seq<nat>, S: Ends)
    requires Closed(xs, S) && xs != []
    ensures Closed(xs[..|xs| - 1], S) && forall z :: z in S(xs[|xs| - 1]) ==> z in xs
  {
    var front := xs[..|xs| - 1];
    forall i, z | 0 <= i < |front| && z in S(front[i]) ensures z in front[..i + 1] {
      assert front[..i + 1] == xs[..i + 1];
    }
    assert xs[..|xs|] == xs;
  }

  lemma NothingBound(F: Ends)
    ensures Same(Bind([], F), [])
  {
  }

  /** From each end only what came before it, and itself: nothing new. */
  lemma {:induction false} Absorb(xs: seq<nat>, F: Ends, S: Ends)
    requires Closed(xs, S)
    requires forall y :: y in xs ==> y in F(y) && forall z :: z in F(y) ==> z in S(y)
    ensures Same(Bind(xs, F), xs)
    decreases |xs|
  {
    hide Same, Bind, Closed;
    if xs == [] {
      NothingBound(F);
    } else {
      var n := |xs| - 1;
      var front, last := xs[..n], xs[n];
      assert xs == front + [last];
      ClosedFront(xs, S);
      Absorb(front, F, S);
      BindJoin(front, [last], F);
      BindOne(last, F);
      SameRefl(F(last));
      SameJoin(Bind(front, F), F(last), front, F(last));
      LastAbsorbed(front, last, F(last));
      SameTrans(Bind(xs, F), front + F(last), xs);
    }
  }

  lemma LastAbsorbed(front: seq<nat>, last: nat, more: seq<nat>)
    requires last in more && forall z :: z in more ==> z in front + [last]
    ensures Same(front + more, front + [last])
  {
    forall rest: nat -> bool ensures Pick(front + more, rest) == Pick(front + [last], rest) {
      PickJoin(front, more, rest);
      PickJoin(front, [last], rest);
      assert [last][0] == last;
    }
  }

  /** Any loop after a greedy one adds nothing. */
  lemma GreedyTwice(f: Ends, end: nat, F: Ends, x: nat)
    requires Consumes(f, end)
    requires forall y: nat :: y in F(y) && forall z :: z in F(y) ==> z in Star(f, end, true, y)
    ensures Same(Bind(Star(f, end, true, x), F), Star(f, end, true, x))
    ensures Same(Bind(Plus(f, end, true, x), F), Plus(f, end, true, x))
  {
    hide Closed, Same, Star, Bind;
    StarClosed(f, end, x);
    Absorb(Star(f, end, true, x), F, Greedy(f, end));
    Absorb(Plus(f, end, true, x), F, Greedy(f, end));
  }

  // ---------------------------------------------------------------- loops of lazy loops

  lemma LazyTwice(f: Ends, end: nat, x: nat)
    requires Consumes(f, end)
    ensures Same(Bind(Star(f, end, false, x), (y: nat) => Star(f, end, false, y)), Star(f, end, false, x))
  {
    var L := (y: nat) => Star(f, end, false, y);
    var xs := Star(f, end, false, x);
    StarPlus(f, end, false, x);
    var more := Plus(f, end, false, x);
    BindJoin([x], more, L);
    BindOne(x, L);
    forall z | z in Bind(more, L) ensures z in xs {
      BindIn(more, L, z);
      var y :| y in more && z in L(y);
      assert y in xs;
      StarReach(f, end, false, x, y, z);
    }
    SameTail(xs, Bind(more, L));
  }

  lemma LazyPlus(f: Ends, end: nat, x: nat)
    requires Consumes(f, end)
    ensures Same(Bind(Plus(f, end, false, x), (y: nat) => Star(f, end, false, y)), Plus(f, end, false, x))
  {
    hide Same, Star, Bind;
    var L := (y: nat) => Star(f, end, false, y);
    BindBind(f(x), L, L);
    forall y ensures Same(((y: nat) => Bind(L(y), L))(y), L(y)) { LazyTwice(f, end, y); }
    SameRefl(f(x));
    SameBind(f(x), f(x), (y: nat) => Bind(L(y), L), L);
  }

  // ---------------------------------------------------------------- one popular quantifier in another

  /** The popular quantifiers by number: ?, *, +, ??, *?, +?. */
  function Popular(f: Ends, end: nat, k: nat, x: nat): seq<nat>
    requires k < 6
  {
    if k % 3 == 0 then Around(k < 3, f(x), x) else if k % 3 == 1 then Star(f, end, k < 3, x) else Plus(f, end, k < 3, x)
  }

  function PopularOf(f: Ends, end: nat, k: nat): Ends
    requires k < 6
  {
    (y: nat) => Popular(f, end, k, y)
  }

  /** No turn, or else as many as possible. */
  function NoneOrGreedy(f: Ends, end: nat): Ends { (z: nat) => [z] + Plus(f, end, true, z) }

  function Lazy(f: Ends, end: nat): Ends { (z: nat) => Star(f, end, false, z) }

  /** What a loop over the popular quantifier c of f amounts to. */
  function LoopOver(f: Ends, end: nat, c: nat, g: bool): Ends
    requires c < 6
  {
    if c < 3 && g then Greedy(f, end) else if c == 1 || c == 2 then NoneOrGreedy(f, end) else Lazy(f, end)
  }

  lemma Doubled(x: nat, v: seq<nat>)
    ensures Same(([x] + v) + [x], [x] + v) && Same([x] + (v + [x]), [x] + v)
    ensures Same((v + [x]) + [x], v + [x]) && Same([x] + ([x] + v), [x] + v)
    ensures Same([x] + v, [x] + v) && Same(v + [x], v + [x])
  {
    SameTail([x] + v, [x]);
    assert [x] + (v + [x]) == ([x] + v) + [x];
    SameTail(v + [x], [x]);
    SameTail([x], [x]);
    SameRefl(v);
    SameJoin([x] + [x], v, [x], v);
    assert [x] + ([x] + v) == ([x] + [x]) + v;
    SameRefl([x] + v);
    SameRefl(v + [x]);
  }

  /** All ends lie behind x. */
  ghost predicate Behind(xs: seq<nat>, end: nat, x: nat) { forall y :: y in xs ==> x < y <= end }

  /** The ends of one turn that consumes, and the loop behind it. */
  function Moving(f: Ends, end: nat, c: nat, x: nat): seq<nat>
    requires c < 6
  {
    if c % 3 == 0 then f(x) else Plus(f, end, c < 3, x)
  }

  lemma PopularMoves(f: Ends, end: nat, c: nat, x: nat)
    requires Consumes(f, end) && c < 6
    ensures Popular(f, end, c, x) == if c % 3 == 2 then Moving(f, end, c, x) else Around(c < 3, Moving(f, end, c, x), x)
    ensures Behind(Moving(f, end, c, x), end, x)
  {
    StarPlus(f, end, c < 3, x);
    forall y | y in Moving(f, end, c, x) ensures x < y <= end {
      if c % 3 != 0 { PlusMoves(f, end, c < 3, x, y); }
    }
  }

  lemma MovingLoop(f: Ends, end: nat, c: nat, g: bool, x: nat)
    requires Consumes(f, end) && c < 6 && !(c == 5 && g)
    ensures Same(Bind(Moving(f, end, c, x), LoopOver(f, end, c, g)),
                 Plus(f, end, c < 3 && (g || c != 0), x))
  {
    hide Same, Star, Bind, Plus;
    var N := LoopOver(f, end, c, g);
    if c % 3 == 0 {
      var h := c < 3 && g;
      PlusIs(f, end, h, x);
      assert N == (if h then Greedy(f, end) else Lazy(f, end));
      SameRefl(Plus(f, end, h, x));
    } else if c < 3 {
      forall y: nat ensures y in N(y) && forall z :: z in N(y) ==> z in Star(f, end, true, y) {
        StarPlus(f, end, true, y);
      }
      GreedyTwice(f, end, N, x);
    } else {
      LazyPlus(f, end, x);
      SameLambda(Plus(f, end, false, x), f, end);
    }
  }

  lemma PlusIs(f: Ends, end: nat, g: bool, x: nat)
    ensures Plus(f, end, g, x) == Bind(f(x), if g then Greedy(f, end) else Lazy(f, end))
  {
    BindEqual(f(x), (y: nat) => Star(f, end, g, y), if g then Greedy(f, end) else Lazy(f, end));
  }

  lemma SameLambda(xs: seq<nat>, f: Ends, end: nat)
    ensures Bind(xs, Lazy(f, end)) == Bind(xs, (y: nat) => Star(f, end, false, y))
  {
    BindEqual(xs, Lazy(f, end), (y: nat) => Star(f, end, false, y));
  }

  lemma LoopShape(f: Ends, end: nat, c: nat, g: bool, x: nat)
    requires Consumes(f, end) && c < 6 && !(c == 5 && g)
    ensures LoopOver(f, end, c, g)(x) == Around(c < 3 && g, Plus(f, end, c < 3 && (g || c != 0), x), x)
  {
    StarPlus(f, end, true, x);
    StarPlus(f, end, false, x);
  }

  /** One turn of that loop. */
  lemma StepIs(f: Ends, end: nat, c: nat, g: bool, x: nat)
    requires Consumes(f, end) && c < 6 && !(c == 5 && g)
    ensures Same(Step(PopularOf(f, end, c), LoopOver(f, end, c, g), end, g, x), LoopOver(f, end, c, g)(x))
  {
    hide Same, Star, Bind, Plus, LoopOver, Moving, Popular;
    var N, ws := LoopOver(f, end, c, g), Moving(f, end, c, x);
    var turn := Turn(N, end, x);
    var V := Plus(f, end, c < 3 && (g || c != 0), x);
    var B := PopularOf(f, end, c);
    PopularMoves(f, end, c, x);
    MovingLoop(f, end, c, g, x);
    LoopShape(f, end, c, g, x);
    assert Behind(ws, end, x);
    BindEqual(ws, turn, N);
    BindJoin(ws, [x], turn);
    BindJoin([x], ws, turn);
    BindOne(x, turn);
    assert turn(x) == [x];
    var more := Bind(B(x), turn);
    assert more == if c % 3 == 2 then Bind(ws, N) else Around(c < 3, Bind(ws, N), x);
    if c % 3 == 2 {
      SameAround(g, Bind(ws, N), V, x);
      assert Around(g, V, x) == Around(c < 3 && g, V, x);
    } else {
      SameAround(c < 3, Bind(ws, N), V, x);
      SameAround(g, more, Around(c < 3, V, x), x);
      Doubled(x, V);
      SameTrans(Around(g, more, x), Around(g, Around(c < 3, V, x), x), Around(c < 3 && g, V, x));
    }
  }

  lemma LoopIs(f: Ends, end: nat, c: nat, g: bool, x: nat)
    requires Consumes(f, end) && c < 6 && !(c == 5 && g)
    ensures Same(Star(PopularOf(f, end, c), end, g, x), LoopOver(f, end, c, g)(x))
  {
    hide *;
    forall z: nat
      ensures Same(Step(PopularOf(f, end, c), LoopOver(f, end, c, g), end, g, z), LoopOver(f, end, c, g)(z)) {
      StepIs(f, end, c, g, z);
    }
    StarIs(PopularOf(f, end, c), LoopOver(f, end, c, g), end, g, x);
  }

  /** One turn and then that loop. */
  lemma PlusOver(f: Ends, end: nat, c: nat, g: bool, x: nat)
    requires Consumes(f, end) && c < 6 && !(c == 5 && g)
    ensures Same(Plus(PopularOf(f, end, c), end, g, x), Bind(Popular(f, end, c, x), LoopOver(f, end, c, g)))
  {
    hide Same, Star, Bind, LoopOver, Popular;
    var B := PopularOf(f, end, c);
    var loop := (y: nat) => Star(B, end, g, y);
    forall y ensures Same(loop(y), LoopOver(f, end, c, g)(y)) { LoopIs(f, end, c, g, y); }
    SameRefl(B(x));
    SameBind(B(x), B(x), loop, LoopOver(f, end, c, g));
  }

  /** One or more of a popular quantifier of f. */
  lemma PlusPopular(f: Ends, end: nat, c: nat, g: bool, x: nat)
    requires Consumes(f, end) && c < 6 && c != 5 && !(c == 0 && !g)
    ensures Same(Plus(PopularOf(f, end, c), end, g, x),
                 if c % 3 == 2 then Plus(f, end, true, x) else Around(c < 3, Plus(f, end, c < 3, x), x))
  {
    hide Same, Star, Bind, LoopOver, Popular, Plus, Moving;
    var N, ws := LoopOver(f, end, c, g), Moving(f, end, c, x);
    var V := Plus(f, end, c < 3, x);
    PlusOver(f, end, c, g, x);
    PopularMoves(f, end, c, x);
    MovingLoop(f, end, c, g, x);
    if c % 3 == 2 {
      SameTrans(Plus(PopularOf(f, end, c), end, g, x), Bind(ws, N), V);
    } else {
      BindJoin(ws, [x], N);
      BindJoin([x], ws, N);
      BindOne(x, N);
      LoopShape(f, end, c, g, x);
      SameRefl(N(x));
      if c < 3 {
        SameJoin(Bind(ws, N), N(x), V, N(x));
        LoopTwice(x, V, g);
        SameTrans(Bind(Popular(f, end, c, x), N), V + N(x), V + [x]);
        SameTrans(Plus(PopularOf(f, end, c), end, g, x), Bind(Popular(f, end, c, x), N), V + [x]);
      } else {
        SameJoin(N(x), Bind(ws, N), N(x), V);
        SameTail(N(x), V);
        SameTrans(Bind(Popular(f, end, c, x), N), N(x) + V, N(x));
        SameTrans(Plus(PopularOf(f, end, c), end, g, x), Bind(Popular(f, end, c, x), N), N(x));
      }
    }
  }

  lemma LoopTwice(x: nat, v: seq<nat>, g: bool)
    ensures Same(v + Around(g, v, x), v + [x])
  {
    if g {
      LastAbsorbed(v, x, v + [x]);
    } else {
      LastAbsorbed(v, x, [x] + v);
    }
  }

  /** One or more lazy runs, lazily, are one. */
  lemma PlusLazy(f: Ends, end: nat, x: nat)
    requires Consumes(f, end)
    ensures Same(Plus(PopularOf(f, end, 5), end, false, x), Plus(f, end, false, x))
  {
    hide Same, Star, Bind, Plus;
    PlusOver(f, end, 5, false, x);
    MovingLoop(f, end, 5, false, x);
    PopularMoves(f, end, 5, x);
    SameTrans(Plus(PopularOf(f, end, 5), end, false, x), Bind(Popular(f, end, 5, x), LoopOver(f, end, 5, false)),
        Plus(f, end, false, x));
  }
}
