/** Repeated strings (regcomp.c:3957-4002): setup_tree replaces a repeated string by the joined copies and, if more may
    follow, the rest of the repetition.  Every way to match stays, in the same order, whatever opcodes they get. */
module StringExpand {
  import opened Common
  import opened Tree
  import opened Semantics
  import Codegen

  const EXPAND_STRING_MAX_LENGTH := 100

  /** k copies of s. */
  function Copies(s: seq<byte>, k: nat): seq<byte> {
    if k == 0 then [] else s + Copies(s, k - 1)
  }

  lemma {:induction false} CopiesLast(s: seq<byte>, k: nat)
    ensures Copies(s, k + 1) == Copies(s, k) + s
  {
    if k > 0 {
      CopiesLast(s, k - 1);
      assert s + (Copies(s, k - 1) + s) == s + Copies(s, k - 1) + s;
    } else {
      assert Copies(s, 1) == s + [] == [] + s;
    }
  }

  predicate StringLoop(q: Node) { q.Quant? && q.target.Str? && 1 < q.lower }

  /** The node with i copies joined. */
  function Expanded(q: Node, i: nat): Node
    requires StringLoop(q) && 1 <= i <= q.lower
  {
    var np := Str(Copies(q.target.s, i));
    if i < q.upper || Infinite(q.upper) then
      List(Link(np, Last(q.(lower := q.lower - i, upper := if Infinite(q.upper) then q.upper else q.upper - i))))
    else np
  }

  /** How many copies are joined: as many as fit into 100 bytes, but at least one. */
  function CopyCount(n: nat, len: nat, i: nat): (r: nat)
    requires 1 <= i <= n
    ensures i <= r <= n && (r == i || r * len <= EXPAND_STRING_MAX_LENGTH)
    ensures r == n || (r + 1) * len > EXPAND_STRING_MAX_LENGTH
    decreases n - i
  {
    if i < n && (i + 1) * len <= EXPAND_STRING_MAX_LENGTH then CopyCount(n, len, i + 1) else i
  }

  /** The string case of setup_tree. */
  method Expand(q: Node) returns (r: Node)
    requires StringLoop(q)
    ensures r == Expanded(q, CopyCount(q.lower, |q.target.s|, 1))
  {
    var s := q.target.s;
    var np, k := s, 1;
    assert Copies(s, 1) == s + [] == s;
    while k < q.lower && (k + 1) * |s| <= EXPAND_STRING_MAX_LENGTH
      invariant 1 <= k <= q.lower && np == Copies(s, k)
      invariant CopyCount(q.lower, |s|, k) == CopyCount(q.lower, |s|, 1)
    {
      CopiesLast(s, k);
      np := np + s;
      k := k + 1;
    }
    if k < q.upper || Infinite(q.upper) {
      r := List(Link(Str(np),
          Last(q.(lower := q.lower - k, upper := if Infinite(q.upper) then q.upper else q.upper - k))));
    } else {
      r := Str(np);
    }
  }

  // ---------------------------------------------------------------- one way to say it

  /** Up to m further copies, or any number if m is negative. */
  function Further(s: seq<byte>, t: Subject, m: int, greedy: bool, x: St): seq<St>
    requires s != []
    decreases Left(t, x)
  {
    if m == 0 || !t.Has(x.s, s) then [x]
    else
      var rest := Further(s, t, if m < 0 then m else m - 1, greedy, Advance(x, |s|));
      if greedy then rest + [x] else [x] + rest
  }

  /** l mandatory copies and then up to m further ones. */
  function Counting(s: seq<byte>, t: Subject, l: nat, m: int, greedy: bool, x: St): seq<St>
    requires s != []
    decreases l
  {
    if l == 0 then Further(s, t, m, greedy, x)
    else if t.Has(x.s, s) then Counting(s, t, l - 1, m, greedy, Advance(x, |s|)) else []
  }

  lemma AdvanceBoth(x: St, a: nat, b: nat)
    ensures Advance(Advance(x, a), b) == Advance(x, a + b)
  {
  }

  lemma AdvanceNone(x: St)
    ensures Advance(x, 0) == x
  {
  }

  lemma AdvanceTo(x: St, n: nat)
    ensures Advance(x, n).s == x.s + n
  {
  }

  lemma HasNothing(t: Subject, x: St, s: seq<byte>)
    requires t.Has(x.s, s)
    ensures t.Has(Advance(x, |s|).s, [])
  {
  }

  lemma HasJoined(t: Subject, p: int, a: seq<byte>, b: seq<byte>)
    ensures t.Has(p, a + b) <==> t.Has(p, a) && t.Has(p + |a|, b)
  {
    if 0 <= p && p + |a| + |b| <= t.End() {
      assert t.data[p..p + |a + b|] == t.data[p..p + |a|] + t.data[p + |a|..p + |a| + |b|];
      if t.Has(p, a + b) {
        assert t.data[p..p + |a|] == (a + b)[..|a|] == a;
        assert t.data[p + |a|..p + |a| + |b|] == (a + b)[|a|..] == b;
      }
    }
  }

  /** Where i copies in a row lead. */
  function After(s: seq<byte>, t: Subject, i: nat, x: St): Option<St> {
    if i == 0 then Some(x) else if t.Has(x.s, s) then After(s, t, i - 1, Advance(x, |s|)) else None
  }

  lemma {:induction false} CountingAfter(s: seq<byte>, t: Subject, i: nat, l: nat, m: int, greedy: bool, x: St)
    requires s != [] && i <= l
    ensures Counting(s, t, l, m, greedy, x)
      == match After(s, t, i, x) case Some(y) => Counting(s, t, l - i, m, greedy, y) case None => []
    decreases i
  {
    hide Further, Advance;
    if i > 0 && t.Has(x.s, s) { CountingAfter(s, t, i - 1, l - 1, m, greedy, Advance(x, |s|)); }
  }

  /** The copies stand in a row exactly where the joined string stands. */
  lemma {:induction false} AfterJoined(s: seq<byte>, t: Subject, i: nat, x: St)
    ensures After(s, t, i, x) == if i == 0 || t.Has(x.s, Copies(s, i)) then Some(Advance(x, |Copies(s, i)|)) else None
    decreases i
  {
    if i == 0 {
      AdvanceNone(x);
    } else {
      hide Advance;
      var y, rest := Advance(x, |s|), Copies(s, i - 1);
      HasJoined(t, x.s, s, rest);
      AdvanceTo(x, |s|);
      AfterJoined(s, t, i - 1, y);
      AdvanceBoth(x, |s|, |rest|);
      assert |Copies(s, i)| == |s| + |rest|;
      if i == 1 && t.Has(x.s, s) { HasNothing(t, x, s); }
    }
  }

  /** The first i copies as one string. */
  lemma CountingJoined(s: seq<byte>, t: Subject, i: nat, l: nat, m: int, greedy: bool, x: St)
    requires s != [] && i <= l
    ensures Counting(s, t, l, m, greedy, x)
      == if t.Has(x.s, Copies(s, i)) || i == 0 then Counting(s, t, l - i, m, greedy, Advance(x, |Copies(s, i)|)) else []
  {
    hide Counting, Advance;
    CountingAfter(s, t, i, l, m, greedy, x);
    AfterJoined(s, t, i, x);
  }

  /** A string loop as the parser makes it. */
  predicate Fresh(q: Node) {
    q.Quant? && q.target.Str? && q.target.s != [] && q.emptyInfo.NotEmpty? && q.headExact.None? && q.nextHead.None?
    && ProperCounts(q.lower, q.upper, q.greedy)
  }

  function Rest(q: Node): int
    requires q.Quant?
  {
    if Infinite(q.upper) then -1 else q.upper - q.lower
  }

  lemma StrWay(s: seq<byte>, t: Subject, x: St)
    ensures Meaning(Str(s), t, x) == if t.Has(x.s, s) then [Advance(x, |s|)] else []
  {
  }

  lemma {:induction false} TimesRun(s: seq<byte>, t: Subject, k: nat, x: St)
    ensures TimesMeaning(Str(s), t, k, [x])
            == if t.Has(x.s, Copies(s, k)) || k == 0 then [Advance(x, |Copies(s, k)|)] else []
    decreases k
  {
    var n := Str(s);
    hide Meaning;
    if k > 0 {
      StrWay(s, t, x);
      assert MeaningAll(n, t, [x][1..]) == [];
      assert MeaningAll(n, t, [x]) == Meaning(n, t, x);
      HasJoined(t, x.s, s, Copies(s, k - 1));
      if t.Has(x.s, s) {
        TimesRun(s, t, k - 1, Advance(x, |s|));
        AdvanceBoth(x, |s|, |Copies(s, k - 1)|);
        if k == 1 { assert t.Has(Advance(x, |s|).s, Copies(s, 0)); }
      } else {
        NoneLeft(n, t, k - 1);
      }
    }
  }

  lemma {:induction false} NoneLeft(n: Node, t: Subject, k: nat)
    ensures TimesMeaning(n, t, k, []) == []
    decreases k
  {
    if k > 0 { NoneLeft(n, t, k - 1); }
  }

  lemma {:induction false} OptionalIs(s: seq<byte>, t: Subject, m: nat, x: St)
    requires s != []
    ensures Optional(Str(s), t, m, x) == Further(s, t, m, true, x)
    decreases m
  {
    hide Meaning;
    StrWay(s, t, x);
    if m > 0 && t.Has(x.s, s) {
      var y := Advance(x, |s|);
      OptionalIs(s, t, m - 1, y);
      assert OptionalAll(Str(s), t, m - 1, [y][1..]) == [];
      assert OptionalAll(Str(s), t, m - 1, [y]) == Optional(Str(s), t, m - 1, y);
    } else if m > 0 {
      assert OptionalAll(Str(s), t, m - 1, []) == [];
    }
  }

  lemma {:induction false} LoopIs(q: Node, t: Subject, x: St)
    requires Fresh(q)
    ensures Loop(q, t, x) == Further(q.target.s, t, -1, q.greedy, x)
    decreases Left(t, x)
  {
    hide Meaning;
    StrWay(q.target.s, t, x);
    if t.Has(x.s, q.target.s) {
      var y := Advance(x, |q.target.s|);
      LoopIs(q, t, y);
      assert LoopTurns(q, t, x, [y][1..]) == [];
      assert LoopTurns(q, t, x, [y]) == Loop(q, t, y);
    } else {
      assert LoopTurns(q, t, x, []) == [];
    }
  }

  /** What the counter loop still has to do after c turns. */
  function Remaining(q: Node, t: Subject, c: nat, y: St): seq<St>
    requires Fresh(q)
  {
    Counting(q.target.s, t, Max(q.lower - c, 0),
             if Infinite(q.upper) then -1 else Max(q.upper - Max(q.lower, c), 0), q.greedy, y)
  }

  lemma {:induction false} CountedIs(q: Node, t: Subject, c: nat, y: St)
    requires Fresh(q) && 0 < c && (if Infinite(q.upper) then c + Left(t, y) < Codegen.INFINITE_COUNT else c <= q.upper)
    ensures Counted(q, t, c, y) == Remaining(q, t, c, y)
    decreases Left(t, y)
  {
    hide Meaning;
    var s := q.target.s;
    StrWay(s, t, y);
    if c < Codegen.UpperCount(q.upper) {
      if t.Has(y.s, s) {
        var z := Advance(y, |s|);
        CountedIs(q, t, c + 1, z);
        assert CountTurns(q, t, y, c, [z][1..]) == [];
        assert CountTurns(q, t, y, c, [z]) == Counted(q, t, c + 1, z);
      } else {
        assert CountTurns(q, t, y, c, []) == [];
      }
    }
  }

  lemma CounterIs(q: Node, t: Subject, x: St)
    requires Fresh(q) && t.End() < Codegen.INFINITE_COUNT && Codegen.ShapeOf(q).Counter?
    ensures QuantMeaning(q, t, x) == Counting(q.target.s, t, q.lower, Rest(q), q.greedy, x)
  {
    hide Meaning, Codegen.Length;
    var s := q.target.s;
    StrWay(s, t, x);
    if t.Has(x.s, s) {
      var y := Advance(x, |s|);
      if q.upper != 0 { CountedIs(q, t, 1, y); }
      assert CountTurns(q, t, x, 0, [y][1..]) == [];
      assert CountTurns(q, t, x, 0, [y]) == Counted(q, t, 1, y);
    } else {
      assert CountTurns(q, t, x, 0, []) == [];
    }
  }

  /** Whatever opcodes it is compiled to, a string loop means the same. */
  lemma StringLoopIs(q: Node, t: Subject, x: St)
    requires Fresh(q) && t.End() < Codegen.INFINITE_COUNT
    ensures Meaning(q, t, x) == Counting(q.target.s, t, q.lower, Rest(q), q.greedy, x)
  {
    var s, k := q.target.s, q.lower;
    var n := Str(s);
    assert q.target == n && Meaning(q, t, x) == QuantMeaning(q, t, x);
    hide Meaning, Codegen.Length, Loop, LoopTurns, TimesMeaning, Optional, Further, CountTurns;
    TimesRun(s, t, k, x);
    CountingJoined(s, t, k, k, Rest(q), q.greedy, x);
    var z := Advance(x, |Copies(s, k)|);
    match Codegen.ShapeOf(q)
    case EnterLoop => EnterIs(q, t, x);
    case PushLoop =>
      LoopIs(q, t, z);
      assert LoopAll(q, t, [z][1..]) == [];
      assert LoopAll(q, t, [z]) == Loop(q, t, z);
    case Expand =>
      OptionalIs(s, t, Max(q.upper - k, 0), z);
      assert OptionalAll(n, t, Max(q.upper - k, 0), [z][1..]) == [];
      assert OptionalAll(n, t, Max(q.upper - k, 0), [z]) == Optional(n, t, Max(q.upper - k, 0), z);
    case LazyOption => LazyIs(q, t, x);
    case Counter => CounterIs(q, t, x);
    case AnyStar =>
  }

  lemma EnterIs(q: Node, t: Subject, x: St)
    requires Fresh(q) && q.lower == 1 && Infinite(q.upper)
    ensures LoopTurns(q, t, x, Meaning(q.target, t, x)) == Counting(q.target.s, t, 1, -1, q.greedy, x)
  {
    hide Meaning;
    StrWay(q.target.s, t, x);
    if t.Has(x.s, q.target.s) {
      var y := Advance(x, |q.target.s|);
      LoopIs(q, t, y);
      assert LoopTurns(q, t, x, [y][1..]) == [];
    }
  }

  lemma LazyIs(q: Node, t: Subject, x: St)
    requires Fresh(q) && q.lower == 0 && q.upper == 1 && !q.greedy
    ensures [x] + Meaning(q.target, t, x) == Counting(q.target.s, t, 0, 1, false, x)
  {
    var s := q.target.s;
    StrWay(s, t, x);
    if t.Has(x.s, s) { assert Further(s, t, 1, false, x) == [x] + Further(s, t, 0, false, Advance(x, |s|)); }
  }

  /** Joining the copies changes no way to match and no preference. */
  lemma ExpandKeeps(q: Node, i: nat, t: Subject, x: St)
    requires Fresh(q) && StringLoop(q) && 1 <= i <= q.lower && t.End() < Codegen.INFINITE_COUNT
    ensures Meaning(Expanded(q, i), t, x) == Meaning(q, t, x)
  {
    var s := q.target.s;
    var all, r := Copies(s, i), Expanded(q, i);
    StringLoopIs(q, t, x);
    CountingJoined(s, t, i, q.lower, Rest(q), q.greedy, x);
    StrWay(all, t, x);
    if r.List? {
      var q1 := r.elems.cdr.car;
      var y := Advance(x, |all|);
      assert Meaning(r, t, x) == ListMeaningAll(Last(q1), t, Meaning(Str(all), t, x));
      hide Meaning;
      StringLoopIs(q1, t, y);
      assert ListMeaningAll(Last(q1), t, [y][1..]) == [];
      assert ListMeaning(Last(q1), t, y) == Meaning(q1, t, y) by { OneElement(q1, t, y); }
    }
  }

  lemma OneElement(n: Node, t: Subject, x: St)
    ensures ListMeaning(Last(n), t, x) == Meaning(n, t, x)
  {
  }
}
