/** A calculus for code that produces several results by backtracking.  A state yields the list `ys` at address
    q when the machine arrives at q with the first of them, on being made to backtrack arrives there with the
    second, and so on, and finally fails back into the stack it started from. */
module Yielding {
  import opened Common
  import opened Semantics
  import opened Snapshot

  /** The stack, loop counters and null-check marks at the start of a piece of code, and the numbers of the
      counter loops [rlo, rhi) and null checks [nlo, nhi) the piece may use. */
  datatype Frame = Frame(base: seq<Choice>, loops: map<nat, LoopState>, marks: map<nat, Mark>,
                         rlo: nat, rhi: nat, nlo: nat, nhi: nat)

  ghost predicate AgreeOutside<V(!new)>(m: map<nat, V>, m0: map<nat, V>, lo: nat, hi: nat) {
    forall k: nat :: !(lo <= k < hi) ==> (k in m <==> k in m0) && (k in m ==> m[k] == m0[k])
  }

  ghost predicate Above(stack: seq<Choice>, base: seq<Choice>) {
    |base| <= |stack| && stack[..|base|] == base && AllAlt(stack[|base|..])
  }

  /** c is at q with registers y, having left nothing but alternatives on top of the frame's stack. */
  ghost predicate Arrives(q: int, y: St, c: Config, f: Frame) {
    c.p == q && c.x == y && Above(c.stack, f.base)
    && AgreeOutside(c.loops, f.loops, f.rlo, f.rhi)
    && AgreeOutside(c.marks, f.marks, f.nlo, f.nhi)
  }

  ghost predicate Yields(pr: Prog, t: Subject, q: int, ys: seq<St>, s: State, f: Frame)
    decreases |ys|
  {
    if ys == [] then Reaches(pr, t, s, Backtrack(f.base))
    else exists c: Config ::
      Reaches(pr, t, s, Run(c)) && Arrives(q, ys[0], c, f) && Yields(pr, t, q, ys[1..], Backtrack(c.stack), f)
  }

  function FrameOf(c: Config, rlo: nat, rhi: nat, nlo: nat, nhi: nat): Frame {
    Frame(c.stack, c.loops, c.marks, rlo, rhi, nlo, nhi)
  }

  /** f allows at least what g allows, from a stack at most as high. */
  ghost predicate Wider(f: Frame, g: Frame) {
    Above(g.base, f.base)
    && AgreeOutside(g.loops, f.loops, f.rlo, f.rhi) && AgreeOutside(g.marks, f.marks, f.nlo, f.nhi)
    && f.rlo <= g.rlo <= g.rhi <= f.rhi && f.nlo <= g.nlo <= g.nhi <= f.nhi
  }

  lemma AboveTrans(a: seq<Choice>, b: seq<Choice>, c: seq<Choice>)
    requires Above(a, b) && Above(b, c)
    ensures Above(a, c)
  {
    assert a[..|c|] == a[..|b|][..|c|] == c;
    forall k | 0 <= k < |a[|c|..]| ensures a[|c|..][k].kind.KAlt? {
      if |c| + k < |b| {
        assert a[|c| + k] == a[..|b|][|c| + k] == b[|c|..][k];
      } else {
        assert a[|c| + k] == a[|b|..][|c| + k - |b|];
      }
    }
  }

  lemma ArrivesWider(q: int, y: St, c: Config, g: Frame, f: Frame)
    requires Arrives(q, y, c, g) && Wider(f, g)
    ensures Arrives(q, y, c, f)
  {
    AboveTrans(c.stack, g.base, f.base);
  }

  lemma YieldsFrom(pr: Prog, t: Subject, q: int, ys: seq<St>, s: State, s2: State, f: Frame)
    requires Reaches(pr, t, s, s2) && Yields(pr, t, q, ys, s2, f)
    ensures Yields(pr, t, q, ys, s, f)
  {
    if ys == [] {
      ReachesTrans(pr, t, s, s2, Backtrack(f.base));
    } else {
      var c :| Reaches(pr, t, s2, Run(c)) && Arrives(q, ys[0], c, f)
               && Yields(pr, t, q, ys[1..], Backtrack(c.stack), f);
      ReachesTrans(pr, t, s, s2, Run(c));
    }
  }

  lemma YieldsNone(pr: Prog, t: Subject, q: int, f: Frame)
    ensures Yields(pr, t, q, [], Backtrack(f.base), f)
  {
    ReachesRefl(pr, t, Backtrack(f.base));
  }

  /** A configuration that has already arrived with an unchanged stack yields its own registers. */
  lemma YieldsOne(pr: Prog, t: Subject, q: int, c: Config, f: Frame)
    requires Arrives(q, c.x, c, f) && c.stack == f.base
    ensures Yields(pr, t, q, [c.x], Run(c), f)
  {
    ReachesRefl(pr, t, Run(c));
    YieldsNone(pr, t, q, f);
    assert [c.x][1..] == [];
  }

  lemma YieldsCons(pr: Prog, t: Subject, q: int, y: St, ys: seq<St>, s: State, c: Config, f: Frame)
    requires Reaches(pr, t, s, Run(c)) && Arrives(q, y, c, f) && Yields(pr, t, q, ys, Backtrack(c.stack), f)
    ensures Yields(pr, t, q, [y] + ys, s, f)
  {
    hide Arrives, Reaches, Backtrack;
    assert ([y] + ys)[1..] == ys;
  }

  /** Results over a higher stack, followed by what that stack yields when it is resumed. */
  lemma {:induction false} YieldsChain(pr: Prog, t: Subject, q: int, xs: seq<St>, ys: seq<St>, s: State, g: Frame,
      f: Frame)
    requires Yields(pr, t, q, xs, s, g) && Wider(f, g)
    requires Yields(pr, t, q, ys, Backtrack(g.base), f)
    ensures Yields(pr, t, q, xs + ys, s, f)
    decreases |xs|
  {
    hide Arrives, Wider, Reaches, Backtrack;
    if xs == [] {
      assert xs + ys == ys;
      YieldsFrom(pr, t, q, ys, s, Backtrack(g.base), f);
    } else {
      var c :| Reaches(pr, t, s, Run(c)) && Arrives(q, xs[0], c, g)
               && Yields(pr, t, q, xs[1..], Backtrack(c.stack), g);
      ArrivesWider(q, xs[0], c, g, f);
      YieldsChain(pr, t, q, xs[1..], ys, Backtrack(c.stack), g, f);
      YieldsCons(pr, t, q, xs[0], xs[1..] + ys, s, c, f);
      assert [xs[0]] + (xs[1..] + ys) == xs + ys;
    }
  }

  lemma YieldsWider(pr: Prog, t: Subject, q: int, xs: seq<St>, s: State, g: Frame, f: Frame)
    requires Yields(pr, t, q, xs, s, g) && Wider(f, g) && g.base == f.base
    ensures Yields(pr, t, q, xs, s, f)
  {
    YieldsNone(pr, t, q, f);
    YieldsChain(pr, t, q, xs, [], s, g, f);
    assert xs + [] == xs;
  }

  /** What code at `mid` makes of each result that arrives there. */
  function FlatMap(xs: seq<St>, F: St -> seq<St>): seq<St> {
    if xs == [] then [] else F(xs[0]) + FlatMap(xs[1..], F)
  }

  /** The frame of the code that follows, once c has arrived at its start. */
  function Then(c: Config, f: Frame): Frame {
    f.(base := c.stack, loops := c.loops, marks := c.marks)
  }

  /** The code at `mid` turns every arrival with a result of xs into the list F gives for it. */
  ghost predicate Continues(pr: Prog, t: Subject, mid: int, q: int, xs: seq<St>, F: St -> seq<St>, f1: Frame,
      f: Frame) {
    forall c: Config :: c.x in xs && Arrives(mid, c.x, c, f1) ==> Yields(pr, t, q, F(c.x), Run(c), Then(c, f))
  }

  lemma ThenWider(q: int, c: Config, f: Frame)
    requires Arrives(q, c.x, c, f) && f.rlo <= f.rhi && f.nlo <= f.nhi
    ensures Wider(f, Then(c, f))
  {
  }

  /** Sequencing: the results of a first piece of code, each continued by a second. */
  lemma {:induction false} YieldsBind(pr: Prog, t: Subject, mid: int, q: int, xs: seq<St>, F: St -> seq<St>,
                                      s: State, f1: Frame, f: Frame)
    requires Wider(f, f1) && f1.base == f.base
    requires Yields(pr, t, mid, xs, s, f1) && Continues(pr, t, mid, q, xs, F, f1, f)
    ensures Yields(pr, t, q, FlatMap(xs, F), s, f)
    decreases |xs|
  {
    if xs != [] {
      var c :| Reaches(pr, t, s, Run(c)) && Arrives(mid, xs[0], c, f1)
               && Yields(pr, t, mid, xs[1..], Backtrack(c.stack), f1);
      assert Yields(pr, t, q, F(c.x), Run(c), Then(c, f));
      BindStep(pr, t, mid, q, xs, F, s, c, f1, f);
    }
  }

  lemma {:induction false} BindStep(pr: Prog, t: Subject, mid: int, q: int, xs: seq<St>, F: St -> seq<St>,
                                    s: State, c: Config, f1: Frame, f: Frame)
    requires xs != [] && Wider(f, f1) && f1.base == f.base && Continues(pr, t, mid, q, xs, F, f1, f)
    requires Reaches(pr, t, s, Run(c)) && Arrives(mid, xs[0], c, f1)
    requires Yields(pr, t, mid, xs[1..], Backtrack(c.stack), f1)
    requires Yields(pr, t, q, F(c.x), Run(c), Then(c, f))
    ensures Yields(pr, t, q, FlatMap(xs, F), s, f)
    decreases |xs|, 0
  {
    hide Reaches, Backtrack, AgreeOutside, Above;
    assert Continues(pr, t, mid, q, xs[1..], F, f1, f) by {
      forall d: Config | d.x in xs[1..] && Arrives(mid, d.x, d, f1)
        ensures Yields(pr, t, q, F(d.x), Run(d), Then(d, f)) {}
    }
    YieldsBind(pr, t, mid, q, xs[1..], F, Backtrack(c.stack), f1, f);
    ArrivesWider(mid, xs[0], c, f1, f);
    ThenWider(mid, c, f);
    YieldsFrom(pr, t, q, F(c.x), s, Run(c), Then(c, f));
    YieldsChain(pr, t, q, F(c.x), FlatMap(xs[1..], F), s, Then(c, f), f);
  }
}
