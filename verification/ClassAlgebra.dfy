/** Union, intersection and complement of code ranges and of whole character classes (regparse.c:1804-2113). */
module ClassAlgebra {
  import opened Common
  import opened CodeRanges

  ghost predicate Ready(b: Buffer?)
    reads b, if b == null then {} else {b.p}
  {
    b != null ==> b.Valid()
  }

  /** A missing buffer holds nothing. */
  ghost function Content(b: Buffer?): seq<Iv>
    reads b, if b == null then {} else {b.p}
    requires Ready(b)
  {
    if b == null then [] else b.Pairs()
  }

  lemma NoBuffer()
    ensures Ready(null) && Content(null) == []
  {
  }

  lemma NormalContent(b: Buffer?)
    requires Ready(b)
    ensures Normal(Content(b))
  {
  }

  lemma ContentOf(b: Buffer)
    requires b.Valid()
    ensures Ready(b) && Content(b) == b.Pairs()
  {
  }

  /** add_code_range_to_buf on a buffer that may not exist yet. */
  method AddTo(b: Buffer?, from: nat, to: nat) returns (ok: bool, out: Buffer)
    requires Ready(b) && from <= LAST_CODE && to <= LAST_CODE
    modifies b, if b == null then {} else {b.p}
    ensures out.Valid() && (b == null ==> fresh(out) && fresh(out.p))
        && (b != null ==> out == b && (b.p == old(b.p) || fresh(b.p)))
    ensures ok ==> Adds(old(Content(b)), from, to, out.Pairs())
    ensures if ok then |out.Pairs()| <= |old(Content(b))| + 1 else MAX_RANGES <= |old(Content(b))|
  {
    if b == null { out := new Buffer(); } else { out := b; }
    ok := out.Add(from, to);
  }

  /** bbuf_clone. */
  method Clone(b: Buffer) returns (out: Buffer)
    requires b.Valid()
    ensures fresh(out) && fresh(out.p) && out.Valid() && out.Pairs() == b.Pairs()
  {
    out := new Buffer();
    var q := new nat[b.p.Length](i requires 0 <= i < b.p.Length reads b, b.p => b.p[i]);
    out.p := q;
    assert q[..] == b.p[..];
  }

  // ---------------------------------------------------------------- complement

  /** What not_code_range_buf has added after the first i ranges.  A first range at 0 makes `from - 1` wrap around. */
  ghost predicate NotUpTo(s: seq<Iv>, i: nat, start: nat, c: nat)
    requires i <= |s|
  {
    i > 0 && ((s[0].from == 0 && start <= c <= LAST_CODE)
              || (c < s[i - 1].from && !In(s[..i], c) && (start <= c || s[0].to < c)))
  }

  /** What not_code_range_buf returns. */
  ghost predicate NotIn(s: seq<Iv>, start: nat, c: nat) {
    c <= LAST_CODE
    && ((s != [] && s[0].from == 0 && start <= c) || (!In(s, c) && (start <= c || (s != [] && s[0].to < c))))
  }

  lemma InTake(s: seq<Iv>, i: nat, c: nat)
    requires i < |s|
    ensures In(s[..i + 1], c) <==> In(s[..i], c) || s[i].from <= c <= s[i].to
  {
    if In(s[..i + 1], c) {
      var k :| 0 <= k < i + 1 && s[..i + 1][k].from <= c <= s[..i + 1][k].to;
      if k < i { assert s[..i][k] == s[k]; }
    }
    if In(s[..i], c) {
      var k :| 0 <= k < i && s[..i][k].from <= c <= s[..i][k].to;
      assert s[..i + 1][k] == s[k];
    }
    assert s[..i + 1][i] == s[i];
  }

  lemma InBelow(s: seq<Iv>, i: nat, c: nat)
    requires Normal(s) && 0 < i <= |s| && s[i - 1].to < c
    ensures !In(s[..i], c)
  {
  }

  /** The gap before range i. */
  lemma NotStep(s: seq<Iv>, i: nat, start: nat, c: nat)
    requires Normal(s) && i < |s| && start <= LAST_CODE
    ensures var pre := if i == 0 then start else s[i - 1].to + 1;
      NotUpTo(s, i + 1, start, c)
      <==> NotUpTo(s, i, start, c) || (pre <= Pred(s[i].from) && pre <= c <= Pred(s[i].from))
  {
    InTake(s, i, c);
    if i > 0 && s[i - 1].to < c { InBelow(s, i, c); }
    if i == 0 { assert s[..0] == []; }
    if i > 0 && c >= s[i - 1].from && c <= s[i - 1].to { assert s[..i][i - 1] == s[i - 1]; }
    if i > 0 { assert s[i - 1].to + 1 < s[i].from; }
  }

  lemma NotEnd(s: seq<Iv>, start: nat, c: nat)
    requires Normal(s) && s != [] && start <= LAST_CODE
    ensures var to := s[|s| - 1].to;
      NotIn(s, start, c) <==> NotUpTo(s, |s|, start, c) || (to < c <= LAST_CODE)
  {
    var n := |s|;
    assert s[..n] == s;
    if s[n - 1].to < c {
      InBelow(s, n, c);
      if n > 1 { assert s[0].to + 1 < s[n - 1].from; }
    } else if c >= s[n - 1].from {
      assert s[n - 1].from <= c <= s[n - 1].to;
    }
  }

  ghost predicate HoldsNot(r: seq<Iv>, s: seq<Iv>, i: nat, start: nat)
    requires i <= |s|
  {
    forall c: nat :: In(r, c) <==> NotUpTo(s, i, start, c)
  }

  lemma HoldsStep(r: seq<Iv>, r1: seq<Iv>, s: seq<Iv>, i: nat, start: nat)
    requires Normal(s) && i < |s| && start <= LAST_CODE && HoldsNot(r, s, i, start)
    requires var pre := if i == 0 then start else s[i - 1].to + 1;
      if pre <= Pred(s[i].from) then Adds(r, pre, Pred(s[i].from), r1) else r1 == r
    ensures HoldsNot(r1, s, i + 1, start)
  {
    hide NotUpTo, In, Normal;
    forall c: nat ensures In(r1, c) <==> NotUpTo(s, i + 1, start, c) { NotStep(s, i, start, c); }
  }

  lemma HoldsEnd(r: seq<Iv>, r1: seq<Iv>, s: seq<Iv>, start: nat)
    requires Normal(s) && s != [] && start <= LAST_CODE && HoldsNot(r, s, |s|, start)
    requires var to := s[|s| - 1].to; if to < LAST_CODE then Adds(r, to + 1, LAST_CODE, r1) else r1 == r
    ensures forall c: nat :: In(r1, c) <==> NotIn(s, start, c)
  {
    hide NotUpTo, In, Normal, NotIn;
    NormalAt(s, |s| - 1);
    forall c: nat ensures In(r1, c) <==> NotIn(s, start, c) { NotEnd(s, start, c); }
  }

  lemma HoldsNone(s: seq<Iv>, start: nat)
    ensures HoldsNot([], s, 0, start)
  {
  }

  /** One range of the list. */
  method RangeAt(b: Buffer, i: nat) returns (from: nat, to: nat)
    requires b.Valid() && i < b.p[0]
    ensures b.Pairs()[i] == Iv(from, to) && from <= to <= LAST_CODE
    ensures i + 1 < b.p[0] ==> to + 1 < b.Pairs()[i + 1].from <= LAST_CODE
  {
    from, to := b.p[1 + 2 * i], b.p[2 + 2 * i];
  }

  /** The gap between the end of one range and the start of the next, if there is one. */
  method AddGap(b: Buffer?, pre: nat, from: nat) returns (ok: bool, out: Buffer?)
    requires Ready(b) && pre <= LAST_CODE && from <= LAST_CODE
    modifies b, if b == null then {} else {b.p}
    ensures Ready(out) && (b == null ==> out == null || (fresh(out) && fresh(out.p)))
    ensures b != null ==> out == b && (b.p == old(b.p) || fresh(b.p))
    ensures ok ==>
        if pre <= Pred(from) then Adds(old(Content(b)), pre, Pred(from), Content(out))
        else Content(out) == old(Content(b))
    ensures if ok then |Content(out)| <= |old(Content(b))| + 1 else MAX_RANGES <= |old(Content(b))|
  {
    ok, out := true, b;
    if pre <= Pred(from) { ok, out := AddTo(b, pre, Pred(from)); }
  }

  /** The loop of not_code_range_buf: the gaps before the ranges. */
  method AddGaps(b: Buffer, start: nat) returns (ok: bool, out: Buffer?, to: nat)
    requires b.Valid() && b.p[0] > 0 && start <= LAST_CODE
    ensures Ready(out) && (out != null ==> fresh(out) && fresh(out.p)) && b.Valid()
    ensures ok ==> HoldsNot(Content(out), b.Pairs(), b.p[0], start) && to == b.Pairs()[b.p[0] - 1].to
    ensures if ok then |Content(out)| <= |b.Pairs()| else MAX_RANGES < |b.Pairs()|
  {
    hide Normal, Adds, HoldsNot, PairsOf, Ready, Content;
    out, to := null, 0;
    var data := b.p[..];
    var n, pre, i := data[0], start, 0;
    ghost var s := b.Pairs();
    HoldsNone(s, start);
    NoBuffer();
    while i < n
      invariant 0 <= i <= n && (i > 0 ==> to == s[i - 1].to)
      invariant i < n ==> pre == (if i == 0 then start else s[i - 1].to + 1) && pre <= LAST_CODE
      invariant Ready(out) && (out != null ==> fresh(out) && fresh(out.p))
      invariant HoldsNot(Content(out), s, i, start) && |Content(out)| <= i
    {
      NormalAt(s, i);
      var from := data[1 + 2 * i];
      to := data[2 + 2 * i];
      ghost var was := Content(out);
      ok, out := AddGap(out, pre, from);
      if !ok { return; }
      HoldsStep(was, Content(out), s, i, start);
      i := i + 1;
      if to == LAST_CODE { break; }
      pre := to + 1;
    }
    ok := true;
  }

  /** not_code_range_buf. */
  method Complement(b: Buffer?, start: nat) returns (ok: bool, out: Buffer?)
    requires Ready(b) && start <= LAST_CODE
    ensures Ready(out) && (out != null ==> fresh(out) && fresh(out.p))
    ensures ok ==> forall c: nat :: In(Content(out), c) <==> NotIn(Content(b), start, c)
    ensures if ok then |Content(out)| <= |Content(b)| + 1 else MAX_RANGES <= |Content(b)|
  {
    hide Normal, Adds, HoldsNot, NotIn, In, Content, PairsOf;
    NoBuffer();
    ghost var s := Content(b);
    if b != null { ContentOf(b); }
    if b == null || b.p[0] == 0 {
      ok, out := AddTo(null, start, LAST_CODE);
      ContentOf(out);
      AddsAll(start, out.Pairs());
      return;
    }
    var to;
    ok, out, to := AddGaps(b, start);
    if !ok { return; }
    NormalAt(s, |s| - 1);
    ghost var was := Content(out);
    if to < LAST_CODE {
      ok, out := AddTo(out, to + 1, LAST_CODE);
      ContentOf(out);
      if !ok { return; }
    }
    HoldsEnd(was, Content(out), s, start);
  }

  lemma NormalAt(s: seq<Iv>, i: nat)
    requires Normal(s) && i < |s|
    ensures s[i].from <= s[i].to <= LAST_CODE && (i + 1 < |s| ==> s[i].to + 1 < s[i + 1].from <= LAST_CODE)
  {
  }

  lemma AddsAll(start: nat, r: seq<Iv>)
    requires start <= LAST_CODE
    ensures Adds([], start, LAST_CODE, r) ==> forall c: nat :: In(r, c) <==> NotIn([], start, c)
  {
  }

  /** Complement is right exactly when no range starts at 0 or all ranges end before the first multibyte code. */
  lemma ComplementRight(s: seq<Iv>, start: nat)
    requires Normal(s) && start <= LAST_CODE
    ensures (forall c: nat :: start <= c <= LAST_CODE ==> (NotIn(s, start, c) <==> !In(s, c)))
            <==> (s == [] || s[0].from != 0 || s[|s| - 1].to < start)
  {
    if s != [] && s[0].from == 0 {
      var last := s[|s| - 1];
      if start <= last.to {
        var c := last.to;
        assert In(s, c) && NotIn(s, start, c);
      } else {
        forall c: nat | start <= c <= LAST_CODE ensures !In(s, c) {
          assert s[..|s|] == s;
          InBelow(s, |s|, c);
        }
      }
    }
  }

  // ---------------------------------------------------------------- union

  /** Membership in an operand, negated or not. */
  ghost predicate Has(s: seq<Iv>, neg: bool, c: nat) { In(s, c) != neg }

  /** No negated operand may hold a range that starts at 0. */
  ghost predicate Invertible(s: seq<Iv>, neg: bool) { neg && s != [] ==> s[0].from != 0 }

  lemma NotHas(s: seq<Iv>, start: nat, c: nat)
    requires Normal(s) && Invertible(s, true) && start <= c <= LAST_CODE
    ensures NotIn(s, start, c) <==> Has(s, true, c)
  {
  }

  ghost predicate UnionUpTo(r: seq<Iv>, base: seq<Iv>, s: seq<Iv>, i: nat)
    requires i <= |s|
  {
    forall c: nat :: In(r, c) <==> In(base, c) || In(s[..i], c)
  }

  lemma UnionStep(r: seq<Iv>, r1: seq<Iv>, base: seq<Iv>, s: seq<Iv>, i: nat)
    requires i < |s| && s[i].from <= s[i].to && UnionUpTo(r, base, s, i) && Adds(r, s[i].from, s[i].to, r1)
    ensures UnionUpTo(r1, base, s, i + 1)
  {
    hide In, Normal;
    forall c: nat ensures In(r1, c) <==> In(base, c) || In(s[..i + 1], c) { InTake(s, i, c); }
  }

  /** The loop of or_code_range_buf that adds all ranges of b to what is already in out. */
  method AddAll(out0: Buffer?, b: Buffer) returns (ok: bool, out: Buffer?)
    requires Ready(out0) && b.Valid() && b != out0 && (out0 != null ==> b.p != out0.p)
    modifies out0, if out0 == null then {} else {out0.p}
    ensures Ready(out) && (out0 == null ==> out == null || fresh(out)) && (out0 != null ==> out == out0)
    ensures out != null ==> fresh(out.p) || (out0 != null && out.p == old(out0.p))
    ensures ok ==> forall c: nat :: In(Content(out), c) <==> In(old(Content(out0)), c) || In(b.Pairs(), c)
    ensures ok ==> |Content(out)| <= |old(Content(out0))| + |b.Pairs()|
    ensures !ok ==> MAX_RANGES < |old(Content(out0))| + |b.Pairs()|
  {
    hide Normal, Adds, In, UnionUpTo, Content, PairsOf;
    out := out0;
    ghost var base, s := Content(out0), b.Pairs();
    UnionNone(base, s);
    var i := 0;
    while i < b.p[0]
      invariant 0 <= i <= b.p[0] && Ready(out) && b.Valid() && b.Pairs() == s && b != out
          && (out != null ==> b.p != out.p)
      invariant (out0 == null ==> out == null || fresh(out)) && (out0 != null ==> out == out0)
      invariant out != null ==> fresh(out.p) || (out0 != null && out.p == old(out0.p))
      invariant UnionUpTo(Content(out), base, s, i) && |Content(out)| <= |base| + i
    {
      NormalAt(s, i);
      ghost var was := Content(out);
      assert s[i] == Iv(b.p[1 + 2 * i], b.p[2 + 2 * i]);
      ok, out := AddTo(out, b.p[1 + 2 * i], b.p[2 + 2 * i]);
      ContentOf(out);
      if !ok { return; }
      UnionStep(was, Content(out), base, s, i);
      i := i + 1;
    }
    ok := true;
    UnionAll(Content(out), base, s);
  }

  lemma UnionNone(base: seq<Iv>, s: seq<Iv>)
    ensures UnionUpTo(base, base, s, 0)
  {
  }

  lemma UnionAll(r: seq<Iv>, base: seq<Iv>, s: seq<Iv>)
    requires UnionUpTo(r, base, s, |s|)
    ensures forall c: nat :: In(r, c) <==> In(base, c) || In(s, c)
  {
    assert s[..|s|] == s;
  }

  /** or_code_range_buf: the union of two operands, at most one of them negated. */
  method OrRanges(b1: Buffer?, not1: bool, b2: Buffer?, not2: bool, start: nat) returns (ok: bool, out: Buffer?)
    requires Ready(b1) && Ready(b2) && start <= LAST_CODE && !(not1 && not2)
    ensures Ready(out) && (out != null ==> fresh(out) && fresh(out.p))
    ensures ok && Invertible(Content(b1), not1) && Invertible(Content(b2), not2) ==>
      forall c: nat ::
          start <= c <= LAST_CODE ==> (In(Content(out), c) <==> Has(Content(b1), not1, c) || Has(Content(b2), not2, c))
    ensures ok && 0 < start && !In(Content(b1), 0) && !In(Content(b2), 0) ==> !In(Content(out), 0)
    ensures ok ==> |Content(out)| <= |Content(b1)| + |Content(b2)| + 1
    ensures !ok ==> MAX_RANGES <= |Content(b1)| + |Content(b2)|
  {
    hide Normal, In, Adds, NotIn;
    ghost var s1, s2 := Content(b1), Content(b2);
    NotZero(s1, start);
    NotZero(s2, start);
    if not1 || not2 {
      forall c: nat | start <= c <= LAST_CODE && Invertible(s1, not1) && Invertible(s2, not2)
        ensures (not1 ==> (NotIn(s1, start, c) <==> Has(s1, true, c)))
            && (not2 ==> (NotIn(s2, start, c) <==> Has(s2, true, c)))
      {
        if not1 { NotHas(s1, start, c); } else { NotHas(s2, start, c); }
      }
    }
    NothingIn();
    ok, out := OrParts(b1, not1, b2, not2, start);
  }

  /** The complement of ranges above 0 holds no 0, unless it may begin there. */
  lemma NotZero(s: seq<Iv>, start: nat)
    ensures 0 < start && (s != [] ==> Normal(s)) && !In(s, 0) ==> !NotIn(s, start, 0)
  {
    if s != [] && s[0].from == 0 && Normal(s) { assert s[0].from <= 0 <= s[0].to; }
  }

  lemma NothingIn()
    ensures forall c: nat :: !In([], c)
  {
  }

  /** The branches of or_code_range_buf. */
  method OrParts(b1: Buffer?, not1: bool, b2: Buffer?, not2: bool, start: nat) returns (ok: bool, out: Buffer?)
    requires Ready(b1) && Ready(b2) && start <= LAST_CODE && !(not1 && not2)
    ensures Ready(out) && (out != null ==> fresh(out) && fresh(out.p))
    ensures ok ==> forall c: nat :: start <= c <= LAST_CODE ==>
      (In(Content(out), c) <==> (if not1 then NotIn(Content(b1), start, c) else In(Content(b1), c))
                                || (if not2 then NotIn(Content(b2), start, c) else In(Content(b2), c)))
    ensures ok ==> forall c: nat :: In(Content(out), c) ==>
      (if not1 then NotIn(Content(b1), start, c) else In(Content(b1), c))
      || (if not2 then NotIn(Content(b2), start, c) else In(Content(b2), c))
    ensures ok ==> |Content(out)| <= |Content(b1)| + |Content(b2)| + 1
    ensures !ok ==> MAX_RANGES <= |Content(b1)| + |Content(b2)|
  {
    hide Normal, Adds;
    ok, out := true, null;
    var d1, n1, d2, n2 := b1, not1, b2, not2;
    if b1 == null && b2 == null {
      if not1 || not2 {
        ok, out := AddTo(null, start, LAST_CODE);
        AddsAll(start, out.Pairs());
      }
      return;
    }
    if d2 == null { d1, n1, d2, n2 := d2, n2, d1, n1; }
    if d1 == null {
      if n1 {
        ok, out := AddTo(null, start, LAST_CODE);
        AddsAll(start, out.Pairs());
      } else if !n2 {
        out := Clone(d2);
      } else {
        ok, out := Complement(d2, start);
      }
      return;
    }
    if n1 { d1, n1, d2, n2 := d2, n2, d1, n1; }
    if !n2 { out := Clone(d2); } else { ok, out := Complement(d2, start); }
    if !ok { return; }
    ok, out := AddAll(out, d1);
  }

  /** Ranges without 0 do not start there. */
  lemma StartsAbove(s: seq<Iv>)
    ensures (s != [] ==> Normal(s)) && !In(s, 0) ==> Invertible(s, true)
  {
    if s != [] && s[0].from == 0 && Normal(s) { assert s[0].from <= 0 <= s[0].to; }
  }

  /** Without a range at 0 the complement is right. */
  lemma ComplementOf(s: seq<Iv>, start: nat, c: nat)
    requires Normal(s) && !In(s, 0) && start <= c <= LAST_CODE
    ensures NotIn(s, start, c) <==> !In(s, c)
  {
    StartsAbove(s);
    NotHas(s, start, c);
  }

  // ---------------------------------------------------------------- intersection

  /** r is base and what [from, to] shares with the first j ranges of s. */
  ghost predicate CutUpTo(r: seq<Iv>, base: seq<Iv>, iv: Iv, s: seq<Iv>, j: nat)
    requires j <= |s|
  {
    forall c: nat :: In(r, c) <==> In(base, c) || (iv.from <= c <= iv.to && In(s[..j], c))
  }

  lemma CutStep(r: seq<Iv>, r1: seq<Iv>, base: seq<Iv>, iv: Iv, s: seq<Iv>, j: nat)
    requires j < |s| && iv.from <= iv.to && s[j].from <= s[j].to && CutUpTo(r, base, iv, s, j)
    requires if s[j].to < iv.from then r1 == r
        else s[j].from <= iv.to && Adds(r, Max(iv.from, s[j].from), Min(iv.to, s[j].to), r1)
    ensures CutUpTo(r1, base, iv, s, j + 1)
  {
    hide In, Normal;
    forall c: nat ensures In(r1, c) <==> In(base, c) || (iv.from <= c <= iv.to && In(s[..j + 1], c)) {
      InTake(s, j, c);
    }
  }

  lemma CutRest(r: seq<Iv>, base: seq<Iv>, iv: Iv, s: seq<Iv>, j: nat)
    requires Normal(s) && j <= |s| && CutUpTo(r, base, iv, s, j) && (j < |s| ==> iv.to < s[j].from)
    ensures forall c: nat :: In(r, c) <==> In(base, c) || (iv.from <= c <= iv.to && In(s, c))
  {
    forall k | j <= k < |s| ensures iv.to < s[k].from {
      if k > j { assert s[j].to + 1 < s[k].from; }
    }
    forall c: nat | iv.from <= c <= iv.to ensures In(s, c) <==> In(s[..j], c) {
      if In(s, c) {
        var k :| 0 <= k < |s| && s[k].from <= c <= s[k].to;
        assert s[..j][k] == s[k];
      }
      if In(s[..j], c) {
        var k :| 0 <= k < j && s[..j][k].from <= c <= s[..j][k].to;
        assert s[k].from <= c <= s[k].to;
      }
    }
  }

  lemma CutNone(base: seq<Iv>, iv: Iv, s: seq<Iv>)
    ensures CutUpTo(base, base, iv, s, 0)
  {
  }

  /** How many ranges start at c or below. */
  function Below(s: seq<Iv>, c: nat): (n: nat)
    ensures n <= |s| && (n > 0 ==> s[n - 1].from <= c)
  {
    if s == [] then 0 else if s[|s| - 1].from <= c then |s| else Below(s[..|s| - 1], c)
  }

  lemma {:induction false} BelowCounts(s: seq<Iv>, j: nat, c: nat)
    requires j < |s| && s[j].from <= c
    ensures j < Below(s, c)
    decreases |s|
  {
    if s[|s| - 1].from > c { BelowCounts(s[..|s| - 1], j, c); }
  }

  /** The first `done` ranges start below a code. */
  ghost predicate Passed(s: seq<Iv>, done: nat, from: nat) {
    done <= |s| && (done > 0 ==> s[done - 1].from < from)
  }

  lemma PassedWithin(s: seq<Iv>, done: nat, from: nat)
    requires Passed(s, done, from)
    ensures done <= |s|
  {
  }

  /** Two ranges of one list share at most one range of another. */
  lemma BelowDone(s: seq<Iv>, done: nat, from: nat, j: nat)
    requires Normal(s) && Passed(s, done, from) && j + 1 < done
    ensures s[j].to < from
  {
    assert s[j].to + 1 < s[done - 1].from;
  }

  lemma BelowGrows(s: seq<Iv>, c: nat, d: nat)
    requires c <= d
    ensures Below(s, c) <= Below(s, d)
  {
    if Below(s, c) > 0 { BelowCounts(s, Below(s, c) - 1, d); }
  }

  /** The inner loop of "1 AND 2"; the first `done` ranges of 2 start below the range. */
  method AndRange(out0: Buffer?, iv: Iv, b: Buffer, ghost s: seq<Iv>, ghost done: nat) returns (ok: bool, out: Buffer?)
    requires Ready(out0) && b.Valid() && b.Pairs() == s && b != out0 && (out0 != null ==> b.p != out0.p)
        && iv.from <= iv.to <= LAST_CODE
    requires Passed(s, done, iv.from)
    modifies out0, if out0 == null then {} else {out0.p}
    ensures Ready(out) && (out0 == null ==> out == null || (fresh(out) && fresh(out.p)))
    ensures out0 != null ==> out == out0 && (out.p == old(out0.p) || fresh(out.p))
    ensures ok ==>
        forall c: nat ::
        In(Content(out), c) <==> In(old(Content(out0)), c) || (iv.from <= c <= iv.to && In(s, c))
    ensures ok ==> |Content(out)| + done <= |old(Content(out0))| + Max(done, Below(s, iv.to) + 1)
    ensures !ok ==> MAX_RANGES + done <= |old(Content(out0))| + |s|
  {
    hide Normal, Adds, In, CutUpTo, PairsOf, Below, Content, Ready, Passed;
    out := out0;
    ghost var base := Content(out0);
    CutNone(base, iv, s);
    PassedWithin(s, done, iv.from);
    var j := 0;
    while j < b.p[0]
      invariant 0 <= j <= b.p[0] && Ready(out) && b.Valid() && b.Pairs() == s && b != out
          && (out != null ==> b.p != out.p)
      invariant (out0 == null ==> out == null || (fresh(out) && fresh(out.p)))
      invariant out0 != null ==> out == out0 && (out.p == old(out0.p) || fresh(out.p))
      invariant CutUpTo(Content(out), base, iv, s, j) && j <= Below(s, iv.to)
      invariant |Content(out)| + done <= |base| + Max(done, j + 1)
    {
      var from2, to2 := RangeAt(b, j);
      if from2 > iv.to { break; }
      BelowCounts(s, j, iv.to);
      if j + 1 < done { BelowDone(s, done, iv.from, j); }
      ghost var was := Content(out);
      if to2 >= iv.from {
        ok, out := AddTo(out, Max(iv.from, from2), Min(iv.to, to2));
        ContentOf(out);
        if !ok { return; }
      }
      CutStep(was, Content(out), base, iv, s, j);
      j := j + 1;
    }
    ok := true;
    CutRest(Content(out), base, iv, s, j);
  }

  /** What and_code_range1 adds from range i of s on, with the unsigned arithmetic of the source. */
  ghost predicate Kept(s: seq<Iv>, i: nat, from1: nat, to1: nat, c: nat)
    requires i <= |s|
    decreases |s| - i
  {
    if i == |s| then from1 <= c <= to1
    else
      var from2, to2 := s[i].from, s[i].to;
      if from2 < from1 then
        if to2 < from1 then Kept(s, i + 1, from1, to1, c)
        else Succ(to2) <= to1 && Kept(s, i + 1, Succ(to2), to1, c)
      else if from2 <= to1 then
        if to2 < to1 then
          (from1 <= c <= Pred(from2)) || (Succ(to2) <= to1 && Kept(s, i + 1, Succ(to2), to1, c))
        else from1 <= Pred(from2) && Kept(s, i + 1, from1, Pred(from2), c)
      else false
  }

  /** and_code_range1 takes a range exactly when no range of 2 starts after it, unless one covers it, and nothing
      wraps. */
  ghost predicate Exact(s: seq<Iv>, i: nat, from1: nat, to1: nat)
    requires i <= |s|
  {
    !(from1 == 0 && i < |s| && s[i].from == 0)
    && (forall j :: i <= j < |s| && s[j].from < from1 && to1 <= s[j].to ==> s[j].to != LAST_CODE)
    && ((exists j :: i <= j < |s| && s[j].from <= from1 && to1 <= s[j].to)
        || (forall j :: i <= j < |s| ==> s[j].from <= to1))
  }

  ghost predicate Minus(s: seq<Iv>, i: nat, from1: nat, to1: nat, c: nat)
    requires i <= |s|
  {
    from1 <= c <= to1 && !In(s[i..], c)
  }

  ghost predicate Agree(s: seq<Iv>, i: nat, from1: nat, to1: nat)
    requires i <= |s|
  {
    forall c: nat :: Kept(s, i, from1, to1, c) <==> Minus(s, i, from1, to1, c)
  }

  lemma InDrop(s: seq<Iv>, i: nat, c: nat)
    requires i < |s|
    ensures In(s[i..], c) <==> s[i].from <= c <= s[i].to || In(s[i + 1..], c)
  {
    if In(s[i..], c) {
      var k :| 0 <= k < |s| - i && s[i..][k].from <= c <= s[i..][k].to;
      if k > 0 { assert s[i + 1..][k - 1] == s[i..][k]; }
    }
    if In(s[i + 1..], c) {
      var k :| 0 <= k < |s| - i - 1 && s[i + 1..][k].from <= c <= s[i + 1..][k].to;
      assert s[i..][k + 1] == s[i + 1..][k];
    }
    assert s[i..][0] == s[i];
  }

  lemma InAfter(s: seq<Iv>, i: nat, c: nat)
    requires Normal(s) && i < |s| && c <= s[i].to + 1
    ensures !In(s[i + 1..], c)
  {
    var later := s[i + 1..];
    forall k | 0 <= k < |later| ensures c < later[k].from {
      assert s[i].to + 1 < s[i + 1 + k].from;
    }
  }

  /** Away from 0 nothing outside the range is added. */
  lemma {:induction false} KeptWithin(s: seq<Iv>, i: nat, from1: nat, to1: nat, c: nat)
    requires Normal(s) && i <= |s| && 0 < from1 && to1 <= LAST_CODE && (i < |s| ==> from1 < s[i].from)
        && Kept(s, i, from1, to1, c)
    ensures from1 <= c <= to1
    decreases |s| - i
  {
    if i < |s| {
      var to2 := s[i].to;
      NormalAt(s, i);
      if s[i].from <= to1 {
        if to2 < to1 {
          if !(from1 <= c <= Pred(s[i].from)) { KeptWithin(s, i + 1, to2 + 1, to1, c); }
        } else {
          KeptWithin(s, i + 1, from1, s[i].from - 1, c);
        }
      }
    }
  }

  /** A range that starts where 2 starts, at 0, always gets something it should not. */
  lemma ZeroWrong(s: seq<Iv>, i: nat, to1: nat)
    requires Normal(s) && i < |s| && s[i].from == 0 && to1 <= LAST_CODE
    ensures !Agree(s, i, 0, to1)
  {
    NormalAt(s, i);
    InDrop(s, i, 0);
    assert !Minus(s, i, 0, to1, 0);
    assert Kept(s, i, 0, to1, 0) by {
      if s[i].to >= to1 && i + 1 < |s| {
        NormalAt(s, i + 1);
      }
    }
  }

  lemma {:induction false} AndNotExact(s: seq<Iv>, i: nat, from1: nat, to1: nat)
    requires Normal(s) && i <= |s| && from1 <= to1 <= LAST_CODE
    ensures Agree(s, i, from1, to1) <==> Exact(s, i, from1, to1)
    decreases |s| - i
  {
    if i == |s| {
      assert s[i..] == [];
    } else if from1 == 0 && s[i].from == 0 {
      ZeroWrong(s, i, to1);
    } else {
      hide Kept, Normal, In;
      NormalAt(s, i);
      var from2, to2 := s[i].from, s[i].to;
      if from2 < from1 {
        if to2 < from1 { ExactSkip(s, i, from1, to1); } else { ExactLeft(s, i, from1, to1); }
      } else if from2 <= to1 {
        if to2 < to1 { ExactInside(s, i, from1, to1); } else { ExactRight(s, i, from1, to1); }
      } else {
        ExactAfter(s, i, from1, to1);
      }
    }
  }

  lemma Later(s: seq<Iv>, i: nat)
    requires Normal(s) && i < |s|
    ensures forall j :: i < j < |s| ==> s[i].to + 1 < s[j].from && s[j].from <= s[j].to
  {
  }

  /** Agreement only depends on the members. */
  lemma AgreeBy(s: seq<Iv>, i: nat, f: nat, t: nat, j: nat, g: nat, u: nat)
    requires i <= |s| && j <= |s|
    requires forall c: nat ::
        (Kept(s, i, f, t, c) <==> Minus(s, i, f, t, c)) <==> (Kept(s, j, g, u, c) <==> Minus(s, j, g, u, c))
    ensures Agree(s, i, f, t) <==> Agree(s, j, g, u)
  {
    hide Kept, Minus;
  }

  lemma {:induction false} ExactSkip(s: seq<Iv>, i: nat, from1: nat, to1: nat)
    requires Normal(s) && i < |s| && s[i].to < from1 <= to1 <= LAST_CODE
    ensures Agree(s, i, from1, to1) <==> Exact(s, i, from1, to1)
    decreases |s| - i, 0
  {
    hide In, Normal;
    NormalAt(s, i);
    Later(s, i);
    AndNotExact(s, i + 1, from1, to1);
    assert Exact(s, i, from1, to1) <==> Exact(s, i + 1, from1, to1);
    forall c: nat
      ensures Minus(s, i, from1, to1, c) <==> Minus(s, i + 1, from1, to1, c)
      ensures Kept(s, i, from1, to1, c) <==> Kept(s, i + 1, from1, to1, c)
    {
      InDrop(s, i, c);
    }
    hide Kept, Minus, Agree, Exact;
    AgreeBy(s, i, from1, to1, i + 1, from1, to1);
  }

  lemma {:induction false} ExactLeft(s: seq<Iv>, i: nat, from1: nat, to1: nat)
    requires Normal(s) && i < |s| && s[i].from < from1 <= to1 <= LAST_CODE && from1 <= s[i].to
    ensures Agree(s, i, from1, to1) <==> Exact(s, i, from1, to1)
    decreases |s| - i, 0
  {
    hide In, Normal;
    var to2 := s[i].to;
    NormalAt(s, i);
    Later(s, i);
    if to2 == LAST_CODE {
      InDrop(s, i, to1);
      assert i + 1 == |s|;
      assert Kept(s, i + 1, 0, to1, to1);
      assert Kept(s, i, from1, to1, to1) && !Minus(s, i, from1, to1, to1);
    } else {
      forall c: nat
        ensures Minus(s, i, from1, to1, c) <==> to2 + 1 <= to1 && Minus(s, i + 1, to2 + 1, to1, c)
        ensures Kept(s, i, from1, to1, c) <==> to2 + 1 <= to1 && Kept(s, i + 1, to2 + 1, to1, c)
      {
        InDrop(s, i, c);
      }
      if to2 + 1 <= to1 {
        AndNotExact(s, i + 1, to2 + 1, to1);
        assert Exact(s, i, from1, to1) <==> Exact(s, i + 1, to2 + 1, to1);
        hide Kept, Minus, Agree, Exact;
        AgreeBy(s, i, from1, to1, i + 1, to2 + 1, to1);
      } else {
        assert Exact(s, i, from1, to1);
      }
    }
  }

  lemma {:induction false} ExactInside(s: seq<Iv>, i: nat, from1: nat, to1: nat)
    requires Normal(s) && i < |s| && from1 <= s[i].from && 0 < s[i].from && s[i].to < to1 <= LAST_CODE
    ensures Agree(s, i, from1, to1) <==> Exact(s, i, from1, to1)
    decreases |s| - i, 0
  {
    hide In, Normal;
    var from2, to2 := s[i].from, s[i].to;
    NormalAt(s, i);
    Later(s, i);
    AndNotExact(s, i + 1, to2 + 1, to1);
    assert Exact(s, i, from1, to1) <==> Exact(s, i + 1, to2 + 1, to1);
    forall c: nat
      ensures Minus(s, i, from1, to1, c) <==> from1 <= c < from2 || Minus(s, i + 1, to2 + 1, to1, c)
      ensures Kept(s, i, from1, to1, c) <==> from1 <= c < from2 || Kept(s, i + 1, to2 + 1, to1, c)
      ensures Kept(s, i + 1, to2 + 1, to1, c) ==> to2 < c
      ensures Minus(s, i + 1, to2 + 1, to1, c) ==> to2 < c
    {
      InDrop(s, i, c);
      if c <= to2 { InAfter(s, i, c); }
      if Kept(s, i + 1, to2 + 1, to1, c) { KeptWithin(s, i + 1, to2 + 1, to1, c); }
    }
    hide Kept, Minus, Agree, Exact;
    AgreeBy(s, i, from1, to1, i + 1, to2 + 1, to1);
  }

  lemma {:induction false} ExactRight(s: seq<Iv>, i: nat, from1: nat, to1: nat)
    requires Normal(s) && i < |s| && from1 <= s[i].from <= to1 <= s[i].to && 0 < s[i].from
    ensures Agree(s, i, from1, to1) <==> Exact(s, i, from1, to1)
    decreases |s| - i, 0
  {
    hide In, Normal;
    var from2 := s[i].from;
    NormalAt(s, i);
    Later(s, i);
    forall c: nat
      ensures Minus(s, i, from1, to1, c) <==> from1 <= c < from2
      ensures Kept(s, i, from1, to1, c) <==> from1 <= c < from2 && i + 1 == |s|
    {
      InDrop(s, i, c);
      if c <= to1 { InAfter(s, i, c); }
      if from1 < from2 && i + 1 < |s| { assert !Kept(s, i + 1, from1, from2 - 1, c); }
    }
    if from1 < from2 {
      assert Minus(s, i, from1, to1, from1);
      assert Exact(s, i, from1, to1) <==> i + 1 == |s|;
    } else {
      assert Exact(s, i, from1, to1);
    }
  }

  lemma ExactAfter(s: seq<Iv>, i: nat, from1: nat, to1: nat)
    requires Normal(s) && i < |s| && from1 <= to1 < s[i].from
    ensures !Agree(s, i, from1, to1) && !Exact(s, i, from1, to1)
  {
    InDrop(s, i, from1);
    NormalAt(s, i);
    InAfter(s, i, from1);
    assert Minus(s, i, from1, to1, from1) && !Kept(s, i, from1, to1, from1);
  }

  /** A range that 2 cuts at its right end, with another range of 2 further on, loses its left part. */
  lemma RemainderDropped()
    ensures var s := [Iv(15, 25), Iv(30, 40)];
      Normal(s) && !Kept(s, 0, 10, 20, 12) && Minus(s, 0, 10, 20, 12)
  {
    var s := [Iv(15, 25), Iv(30, 40)];
    assert !Kept(s, 1, 10, 14, 12);
    assert s[0..] == s;
  }

  /** Ranges after one that starts at c or above start there too. */
  lemma StartsOrder(s: seq<Iv>, done: nat, f: nat, i: nat)
    requires Normal(s) && i < |s| && Passed(s, done, f) && f <= s[i].from
    ensures done <= i
  {
  }

  /** The end of the last range is the only one that can be the last code. */
  lemma LastEnds(s: seq<Iv>, i: nat)
    requires Normal(s) && i < |s| && s[i].to == LAST_CODE
    ensures i + 1 == |s|
  {
    if i + 1 < |s| { NormalAt(s, i); }
  }

  /** How many ranges of 2 can cut one of 1; one that starts at 0 may wrap around and meet them all. */
  function Cuts(s: seq<Iv>, f: nat, t: nat): (n: nat)
    ensures n <= |s|
  {
    if f == 0 then |s| else Below(s, t)
  }

  lemma CutsMost(s: seq<Iv>, f: nat, t: nat)
    ensures 0 < f ==> Cuts(s, f, t) == Below(s, t)
  {
  }

  /** and_code_range1; the first `done` ranges of 2 start below the range. */
  method AndNotRange(out0: Buffer?, f: nat, t: nat, b: Buffer, ghost s: seq<Iv>, ghost done: nat) returns (ok: bool,
      out: Buffer?)
    requires Ready(out0) && b.Valid() && b.Pairs() == s && b != out0 && (out0 != null ==> b.p != out0.p)
        && f <= t <= LAST_CODE
    requires Passed(s, done, f)
    modifies out0, if out0 == null then {} else {out0.p}
    ensures Ready(out) && (out0 == null ==> out == null || (fresh(out) && fresh(out.p)))
    ensures out0 != null ==> out == out0 && (out.p == old(out0.p) || fresh(out.p))
    ensures ok ==> forall c: nat :: In(Content(out), c) <==> In(old(Content(out0)), c) || Kept(s, 0, f, t, c)
    ensures ok ==> |Content(out)| + done <= |old(Content(out0))| + 1 + Max(done, Cuts(s, f, t))
    ensures !ok ==> MAX_RANGES + done <= |old(Content(out0))| + |s|
  {
    hide Normal, Adds, In, PairsOf, Kept, StillKept, Cuts, Content, Ready, Passed;
    out := out0;
    ghost var base := Content(out0);
    var from1: nat, to1: nat, i := f, t, 0;
    StillNone(base, s, f, t);
    PassedWithin(s, done, f);
    while i < b.p[0]
      invariant 0 <= i <= b.p[0] && Ready(out) && b.Valid() && b.Pairs() == s && b != out
          && (out != null ==> b.p != out.p)
      invariant (out0 == null ==> out == null || (fresh(out) && fresh(out.p)))
      invariant out0 != null ==> out == out0 && (out.p == old(out0.p) || fresh(out.p))
      invariant from1 <= to1 <= LAST_CODE && StillKept(Content(out), base, s, f, t, i, from1, to1)
      invariant 0 < f ==> to1 <= t && (i < b.p[0] ==> f <= from1)
      invariant |Content(out)| + done <= |base| + Max(done, Cuts(s, f, t))
      invariant |Content(out)| + done <= |base| + Max(done, i)
    {
      var from2, to2 := RangeAt(b, i);
      CutCounts(s, i, done, f, t, from1, to1);
      ghost var was := Content(out);
      ghost var from0, to0 := from1, to1;
      if from2 < from1 {
        if to2 >= from1 { from1 := Succ(to2); }
      } else if from2 <= to1 {
        if to2 < to1 {
          if from1 <= Pred(from2) {
            ok, out := AddTo(out, from1, Pred(from2));
            ContentOf(out);
            if !ok { return; }
          }
          from1 := Succ(to2);
        } else {
          to1 := Pred(from2);
        }
      } else {
        from1 := from2;
      }
      StillStep(was, Content(out), base, s, f, t, i, from0, to0, from1, to1);
      i := i + 1;
      if from1 > to1 { return true, out; }
    }
    ghost var was := Content(out);
    ok, out := AddTo(out, from1, to1);
    ContentOf(out);
    if ok { StillEnd(was, Content(out), base, s, f, t, from1, to1); }
  }

  /** A range of 2 that starts inside what is left of a range of 1 counts among those that can cut it. */
  lemma CutCounts(s: seq<Iv>, i: nat, done: nat, f: nat, t: nat, from1: nat, to1: nat)
    requires Normal(s) && i < |s| && Passed(s, done, f)
    requires 0 < f ==> to1 <= t && f <= from1
    ensures from1 <= s[i].from <= to1 ==> done <= i < Cuts(s, f, t)
    ensures s[i].to == LAST_CODE ==> i + 1 == |s|
  {
    hide Below, Normal;
    if from1 <= s[i].from <= to1 {
      StartsOrder(s, done, f, i);
      if 0 < f { BelowCounts(s, i, t); }
    }
    if s[i].to == LAST_CODE { LastEnds(s, i); }
  }

  /** What is in r and what is still to come make up the result. */
  ghost predicate StillKept(r: seq<Iv>, base: seq<Iv>, s: seq<Iv>, f: nat, t: nat, i: nat, from1: nat, to1: nat)
    requires i <= |s|
  {
    forall c: nat :: In(r, c) || Kept(s, i, from1, to1, c) <==> In(base, c) || Kept(s, 0, f, t, c)
  }

  lemma StillNone(base: seq<Iv>, s: seq<Iv>, f: nat, t: nat)
    ensures StillKept(base, base, s, f, t, 0, f, t)
  {
  }

  /** One turn of and_code_range1. */
  lemma StillStep(r: seq<Iv>, r1: seq<Iv>, base: seq<Iv>, s: seq<Iv>, f: nat, t: nat, i: nat,
                  from1: nat, to1: nat, from3: nat, to3: nat)
    requires i < |s| && from1 <= to1 && StillKept(r, base, s, f, t, i, from1, to1)
    requires var from2, to2 := s[i].from, s[i].to;
      if from2 < from1 then
        r1 == r && to3 == to1 && from3 == if to2 < from1 then from1 else Succ(to2)
      else if from2 <= to1 then
        if to2 < to1 then
          from3 == Succ(to2) && to3 == to1
              && (if from1 <= Pred(from2) then Adds(r, from1, Pred(from2), r1) else r1 == r)
        else r1 == r && from3 == from1 && to3 == Pred(from2)
      else r1 == r && from3 == from2 && to3 == to1
    ensures if from3 <= to3 then StillKept(r1, base, s, f, t, i + 1, from3, to3)
            else forall c: nat :: In(r1, c) <==> In(base, c) || Kept(s, 0, f, t, c)
  {
    hide In, Normal;
    forall c: nat
      ensures In(r, c) || Kept(s, i, from1, to1, c) <==> In(r1, c) || (from3 <= to3 && Kept(s, i + 1, from3, to3, c))
    {
    }
  }

  lemma StillEnd(r: seq<Iv>, r1: seq<Iv>, base: seq<Iv>, s: seq<Iv>, f: nat, t: nat, from1: nat, to1: nat)
    requires StillKept(r, base, s, f, t, |s|, from1, to1) && from1 <= to1 && Adds(r, from1, to1, r1)
    ensures forall c: nat :: In(r1, c) <==> In(base, c) || Kept(s, 0, f, t, c)
  {
    hide In, Normal;
  }

  /** What a range of 1 shares with 2, or with what 2 leaves out. */
  ghost predicate Shares(iv: Iv, s: seq<Iv>, not2: bool, c: nat) {
    if not2 then Kept(s, 0, iv.from, iv.to, c) else iv.from <= c <= iv.to && In(s, c)
  }

  /** What the first i ranges of s1 contribute to the intersection. */
  ghost predicate BothUpTo(s1: seq<Iv>, s2: seq<Iv>, not2: bool, i: nat, c: nat)
    requires i <= |s1|
  {
    exists k :: 0 <= k < i && Shares(s1[k], s2, not2, c)
  }

  lemma BothStep(s1: seq<Iv>, s2: seq<Iv>, not2: bool, i: nat, c: nat)
    requires i < |s1|
    ensures BothUpTo(s1, s2, not2, i + 1, c)
      <==> BothUpTo(s1, s2, not2, i, c) || Shares(s1[i], s2, not2, c)
  {
    hide Shares;
  }

  lemma BothAll(s1: seq<Iv>, s2: seq<Iv>, c: nat)
    ensures BothUpTo(s1, s2, false, |s1|, c) <==> In(s1, c) && In(s2, c)
  {
  }

  /** 1 AND (not 2) is right when every range of 1 is handled exactly. */
  lemma MinusAll(s1: seq<Iv>, s2: seq<Iv>, c: nat)
    requires Normal(s1) && Normal(s2) && forall k :: 0 <= k < |s1| ==> Exact(s2, 0, s1[k].from, s1[k].to)
    ensures BothUpTo(s1, s2, true, |s1|, c) <==> In(s1, c) && !In(s2, c)
  {
    hide Kept, Exact, Normal, In;
    assert s2[0..] == s2;
    forall k | 0 <= k < |s1|
      ensures Kept(s2, 0, s1[k].from, s1[k].to, c) <==> s1[k].from <= c <= s1[k].to && !In(s2, c) {
      NormalAt(s1, k);
      AndNotExact(s2, 0, s1[k].from, s1[k].to);
    }
    InAny(s1, c);
  }

  lemma InAny(s: seq<Iv>, c: nat)
    ensures In(s, c) <==> exists k :: 0 <= k < |s| && s[k].from <= c <= s[k].to
  {
  }

  ghost predicate HoldsBoth(r: seq<Iv>, s1: seq<Iv>, s2: seq<Iv>, not2: bool, i: nat)
    requires i <= |s1|
  {
    forall c: nat :: In(r, c) <==> BothUpTo(s1, s2, not2, i, c)
  }

  lemma BothTurn(r: seq<Iv>, r1: seq<Iv>, s1: seq<Iv>, s2: seq<Iv>, not2: bool, i: nat)
    requires i < |s1| && HoldsBoth(r, s1, s2, not2, i)
    requires forall c: nat :: In(r1, c) <==> In(r, c) || Shares(s1[i], s2, not2, c)
    ensures HoldsBoth(r1, s1, s2, not2, i + 1)
  {
    hide In, Shares, BothUpTo;
    forall c: nat ensures In(r1, c) <==> BothUpTo(s1, s2, not2, i + 1, c) { BothStep(s1, s2, not2, i, c); }
  }

  lemma BothNone(s1: seq<Iv>, s2: seq<Iv>, not2: bool)
    ensures HoldsBoth([], s1, s2, not2, 0)
  {
  }

  /** At most this many ranges are added: those of a negated operand can count twice, when a range at 0 wraps around. */
  function Both(n1: nat, not1: bool, n2: nat, not2: bool): nat {
    n1 + n2 + (if not1 then n1 else 0) + (if not2 then n2 else 0)
  }

  /** Before range i of 1 at most this many ranges were made; `done` of the ranges of 2 start below it. */
  ghost predicate BothRoom(n: nat, s1: seq<Iv>, s2: seq<Iv>, not2: bool, i: nat, done: nat)
    requires i <= |s1|
  {
    done == (if i == 0 then 0 else Below(s2, s1[i - 1].to))
    && n <= i + done + if i > 0 && not2 then |s2| else 0
  }

  /** The ranges of 2 that start up to the end of a range of 1 start below the next range of 1. */
  lemma NextDone(s1: seq<Iv>, s2: seq<Iv>, not2: bool, n: nat, i: nat, done: nat)
    requires Normal(s1) && i < |s1| && BothRoom(n, s1, s2, not2, i, done)
    ensures Passed(s2, done, s1[i].from) && done <= Below(s2, s1[i].to)
    ensures s1[i].from == 0 ==> i == 0
  {
    if i > 0 {
      assert s1[i - 1].to + 1 < s1[i].from;
      NormalAt(s1, i);
      BelowGrows(s2, s1[i - 1].to, s1[i].to);
    }
  }

  /** One range more. */
  lemma BothFits(n: nat, m: nat, s1: seq<Iv>, s2: seq<Iv>, not2: bool, i: nat, done: nat)
    requires Normal(s1) && i < |s1| && BothRoom(n, s1, s2, not2, i, done)
    requires m + done <= n + 1 + Max(done, if not2 then Cuts(s2, s1[i].from, s1[i].to) else Below(s2, s1[i].to))
    ensures BothRoom(m, s1, s2, not2, i + 1, Below(s2, s1[i].to))
  {
    NextDone(s1, s2, not2, n, i, done);
    hide Below, Normal;
  }

  lemma BothFull(n: nat, s1: seq<Iv>, s2: seq<Iv>, not2: bool, i: nat, done: nat)
    requires i < |s1| && BothRoom(n, s1, s2, not2, i, done) && MAX_RANGES + done <= n + |s2|
    ensures MAX_RANGES < Both(|s1|, false, |s2|, not2)
  {
    hide Below;
  }

  lemma BothEnds(n: nat, s1: seq<Iv>, s2: seq<Iv>, not2: bool, done: nat)
    requires BothRoom(n, s1, s2, not2, |s1|, done)
    ensures n <= Both(|s1|, false, |s2|, not2)
  {
    hide Below;
  }

  /** The ranges made for the first i ranges of 1. */
  ghost predicate BothDone(r: seq<Iv>, s1: seq<Iv>, s2: seq<Iv>, not2: bool, i: nat) {
    i <= |s1| && HoldsBoth(r, s1, s2, not2, i)
    && BothRoom(|r|, s1, s2, not2, i, if i == 0 then 0 else Below(s2, s1[i - 1].to))
  }

  lemma DoneNext(r: seq<Iv>, r1: seq<Iv>, s1: seq<Iv>, s2: seq<Iv>, not2: bool, i: nat, done: nat)
    requires Normal(s1) && i < |s1| && BothDone(r, s1, s2, not2, i)
    requires done == if i == 0 then 0 else Below(s2, s1[i - 1].to)
    requires forall c: nat :: In(r1, c) <==> In(r, c) || Shares(s1[i], s2, not2, c)
    requires |r1| + done <= |r| + 1
        + Max(done, if not2 then Cuts(s2, s1[i].from, s1[i].to) else Below(s2, s1[i].to))
    ensures BothDone(r1, s1, s2, not2, i + 1)
  {
    hide In, Shares, Below, Cuts, Normal, HoldsBoth, BothRoom;
    BothTurn(r, r1, s1, s2, not2, i);
    BothFits(|r|, |r1|, s1, s2, not2, i, done);
  }

  lemma DoneFull(r: seq<Iv>, s1: seq<Iv>, s2: seq<Iv>, not2: bool, i: nat, done: nat)
    requires i < |s1| && BothDone(r, s1, s2, not2, i) && MAX_RANGES + done <= |r| + |s2|
    requires done == if i == 0 then 0 else Below(s2, s1[i - 1].to)
    ensures MAX_RANGES < Both(|s1|, false, |s2|, not2)
  {
    BothFull(|r|, s1, s2, not2, i, done);
  }

  /** The body of the outer loops. */
  method AndOne(out0: Buffer?, i: nat, b1: Buffer, b2: Buffer, not2: bool, ghost s1: seq<Iv>, ghost s2: seq<Iv>)
    returns (ok: bool, out: Buffer?)
    requires Ready(out0) && b1.Valid() && b2.Valid() && b1.Pairs() == s1 && b2.Pairs() == s2 && i < |s1|
    requires b2 != out0 && (out0 != null ==> b2.p != out0.p) && BothDone(Content(out0), s1, s2, not2, i)
    modifies out0, if out0 == null then {} else {out0.p}
    ensures Ready(out) && (out0 == null ==> out == null || (fresh(out) && fresh(out.p)))
    ensures out0 != null ==> out == out0 && (out.p == old(out0.p) || fresh(out.p))
    ensures ok ==> BothDone(Content(out), s1, s2, not2, i + 1)
    ensures !ok ==> MAX_RANGES < Both(|s1|, false, |s2|, not2)
  {
    hide Normal, In, PairsOf, Content, Ready, Below, Cuts, Kept, Passed, BothRoom, HoldsBoth;
    var from1, to1 := RangeAt(b1, i);
    ghost var done := if i == 0 then 0 else Below(s2, s1[i - 1].to);
    ghost var was := Content(out0);
    NextDone(s1, s2, not2, |was|, i, done);
    if not2 {
      ok, out := AndNotRange(out0, from1, to1, b2, s2, done);
    } else {
      ok, out := AndRange(out0, Iv(from1, to1), b2, s2, done);
    }
    if ok {
      DoneNext(was, Content(out), s1, s2, not2, i, done);
    } else {
      DoneFull(was, s1, s2, not2, i, done);
    }
  }

  lemma Counted(b: Buffer)
    requires b.Valid()
    ensures 0 < b.p.Length && 1 + 2 * b.p[0] <= b.p.Length && |b.Pairs()| == b.p[0]
  {
  }

  lemma NothingDone(s1: seq<Iv>, s2: seq<Iv>, not2: bool)
    ensures Ready(null) && Content(null) == [] && BothDone([], s1, s2, not2, 0)
  {
    BothNone(s1, s2, not2);
  }

  lemma DoneEnds(r: seq<Iv>, s1: seq<Iv>, s2: seq<Iv>, not2: bool)
    requires BothDone(r, s1, s2, not2, |s1|)
    ensures HoldsBoth(r, s1, s2, not2, |s1|) && |r| <= Both(|s1|, false, |s2|, not2)
  {
    hide Below, HoldsBoth;
    BothEnds(|r|, s1, s2, not2, if |s1| == 0 then 0 else Below(s2, s1[|s1| - 1].to));
  }

  /** The outer loops of and_code_range_buf. */
  method AndAll(b1: Buffer, b2: Buffer, not2: bool) returns (ok: bool, out: Buffer?)
    requires b1.Valid() && b2.Valid()
    ensures Ready(out) && (out != null ==> fresh(out) && fresh(out.p))
    ensures ok ==> HoldsBoth(Content(out), b1.Pairs(), b2.Pairs(), not2, |b1.Pairs()|)
    ensures ok ==> |Content(out)| <= Both(|b1.Pairs()|, false, |b2.Pairs()|, not2)
    ensures !ok ==> MAX_RANGES < Both(|b1.Pairs()|, false, |b2.Pairs()|, not2)
  {
    hide *;
    Counted(b1);
    Counted(b2);
    out := null;
    ghost var s1, s2 := b1.Pairs(), b2.Pairs();
    NothingDone(s1, s2, not2);
    var i, n := 0, b1.p[0];
    while i < n
      invariant 0 <= i <= n && Ready(out) && (out != null ==> fresh(out) && fresh(out.p))
      invariant BothDone(Content(out), s1, s2, not2, i)
    {
      ok, out := AndOne(out, i, b1, b2, not2, s1, s2);
      if !ok { return; }
      i := i + 1;
    }
    ok := true;
    DoneEnds(Content(out), s1, s2, not2);
  }

  /** A negated operand is handled exactly in an intersection. */
  ghost predicate ExactAll(s1: seq<Iv>, s2: seq<Iv>) {
    forall k :: 0 <= k < |s1| ==> Exact(s2, 0, s1[k].from, s1[k].to)
  }

  /** and_code_range_buf: the intersection of two operands, at most one of them negated. */
  method AndRanges(b1: Buffer?, not1: bool, b2: Buffer?, not2: bool) returns (ok: bool, out: Buffer?)
    requires Ready(b1) && Ready(b2) && !(not1 && not2)
    ensures Ready(out) && (out != null ==> fresh(out) && fresh(out.p))
    ensures ok && (not1 ==> ExactAll(Content(b2), Content(b1))) && (not2 ==> ExactAll(Content(b1), Content(b2))) ==>
      forall c: nat :: In(Content(out), c) <==> Has(Content(b1), not1, c) && Has(Content(b2), not2, c)
    ensures ok ==> |Content(out)| <= Both(|Content(b1)|, not1, |Content(b2)|, not2)
    ensures !ok ==> MAX_RANGES < Both(|Content(b1)|, not1, |Content(b2)|, not2)
  {
    hide Normal, Kept, Exact, BothUpTo;
    ok, out := true, null;
    if b1 == null {
      if not1 && b2 != null { out := Clone(b2); }
      return;
    } else if b2 == null {
      if not2 { out := Clone(b1); }
      return;
    }
    var d1, d2, n2 := b1, b2, not2;
    if not1 { d1, d2, n2 := b2, b1, not1; }
    ok, out := AndAll(d1, d2, n2);
    forall c: nat
      ensures !n2 ==>
          (BothUpTo(d1.Pairs(), d2.Pairs(), n2, |d1.Pairs()|, c) <==> In(d1.Pairs(), c) && In(d2.Pairs(), c))
      ensures n2 && ExactAll(d1.Pairs(), d2.Pairs()) ==>
        (BothUpTo(d1.Pairs(), d2.Pairs(), n2, |d1.Pairs()|, c) <==> In(d1.Pairs(), c) && !In(d2.Pairs(), c))
    {
      if !n2 { BothAll(d1.Pairs(), d2.Pairs(), c); }
      else if ExactAll(d1.Pairs(), d2.Pairs()) { MinusAll(d1.Pairs(), d2.Pairs(), c); }
    }
  }

  // ---------------------------------------------------------------- whole classes

  const BITSET_SIZE := 32

  /** The bit of code c in a room of 8. */
  predicate Test(v: bv8, c: nat) { v & ((1 as bv8) << (c % 8)) != 0 }

  predicate BitIn(bs: seq<bv8>, c: nat)
    requires |bs| == BITSET_SIZE && c < 256
  {
    Test(bs[c / 8], c)
  }

  function Inv(a: bv8): bv8 { !a }

  function Cup(a: bv8, b: bv8): bv8 { a | b }

  function Cap(a: bv8, b: bv8): bv8 { a & b }

  lemma BitOps(a: bv8, b: bv8, c: nat)
    ensures Test(Cup(a, b), c) <==> Test(a, c) || Test(b, c)
    ensures Test(Cap(a, b), c) <==> Test(a, c) && Test(b, c)
    ensures Test(Inv(a), c) <==> !Test(a, c)
  {
    OneBit(c % 8);
    MaskOps(a, b, (1 as bv8) << (c % 8));
  }

  lemma OneBit(k: nat)
    requires k < 8
    ensures var m := (1 as bv8) << k;
      m == 1 || m == 2 || m == 4 || m == 8 || m == 16 || m == 32 || m == 64 || m == 128
  {
  }

  lemma MaskOps(a: bv8, b: bv8, m: bv8)
    requires m == 1 || m == 2 || m == 4 || m == 8 || m == 16 || m == 32 || m == 64 || m == 128
    ensures ((a | b) & m != 0) <==> (a & m != 0) || (b & m != 0)
    ensures ((a & b) & m != 0) <==> (a & m != 0) && (b & m != 0)
    ensures (!a & m != 0) <==> (a & m == 0)
  {
  }

  /** One room of the combined bits. */
  function Room(a: bv8, not1: bool, b: bv8, not2: bool, union: bool): bv8 {
    var x, y := if not1 then Inv(a) else a, if not2 then Inv(b) else b;
    var z := if union then Cup(x, y) else Cap(x, y);
    if not1 then Inv(z) else z
  }

  lemma RoomBit(a: bv8, not1: bool, b: bv8, not2: bool, union: bool, c: nat)
    ensures (Test(Room(a, not1, b, not2, union), c) != not1)
      <==> if union then (Test(a, c) != not1) || (Test(b, c) != not2) else (Test(a, c) != not1) && (Test(b, c) != not2)
  {
    hide Test, Inv, Cup, Cap;
    var x, y := if not1 then Inv(a) else a, if not2 then Inv(b) else b;
    BitOps(a, b, c);
    BitOps(b, a, c);
    BitOps(x, y, c);
    BitOps(if union then Cup(x, y) else Cap(x, y), a, c);
  }

  /** A character class: 256 bits, the ranges of the other codes, and a flag for negation. */
  class CClass {
    var bs: seq<bv8>
    var mbuf: Buffer?
    var neg: bool

    ghost predicate Valid()
      reads this, mbuf, if mbuf == null then {} else {mbuf.p}
    {
      |bs| == BITSET_SIZE && Ready(mbuf)
    }

    /** onig_is_code_in_cc_len: single bytes are looked up in the bits, all other codes in the ranges. */
    ghost predicate Member(single: bool, c: nat)
      requires Valid()
      reads this, mbuf, if mbuf == null then {} else {mbuf.p}
    {
      (if single && c < 256 then BitIn(bs, c) else In(Content(mbuf), c)) != neg
    }

    constructor (bits: seq<bv8>, ranges: Buffer?, not_: bool)
      requires |bits| == BITSET_SIZE && Ready(ranges)
      ensures Valid() && bs == bits && mbuf == ranges && neg == not_
    {
      bs, mbuf, neg := bits, ranges, not_;
    }

    /** onig_is_code_in_cc_len. */
    method Lookup(single: bool, c: nat) returns (found: bool)
      requires Valid()
      ensures found <==> Member(single, c)
    {
      if !single || c >= 256 {
        found := false;
        if mbuf != null { found := mbuf.Contains(c); }
      } else {
        found := Test(bs[c / 8], c);
      }
      if neg { found := !found; }
    }

    /** The loops of bitset_invert_to, bitset_and or bitset_or, bitset_copy and bitset_invert, room by room. */
    method CombineBits(cc: CClass, union: bool)
      requires |bs| == |cc.bs| == BITSET_SIZE && cc != this
      modifies this`bs
      ensures |bs| == BITSET_SIZE
      ensures forall c: nat :: c < 256 ==>
        ((BitIn(bs, c) != neg)
         <==> if union then (BitIn(old(bs), c) != neg) || (BitIn(cc.bs, c) != cc.neg)
              else (BitIn(old(bs), c) != neg) && (BitIn(cc.bs, c) != cc.neg))
    {
      hide Room, Test;
      ghost var was := bs;
      var i := 0;
      while i < BITSET_SIZE
        invariant 0 <= i <= BITSET_SIZE == |bs|
        invariant forall k :: i <= k < BITSET_SIZE ==> bs[k] == was[k]
        invariant forall k :: 0 <= k < i ==> bs[k] == Room(was[k], neg, cc.bs[k], cc.neg, union)
      {
        bs := bs[i := Room(bs[i], neg, cc.bs[i], cc.neg, union)];
        i := i + 1;
      }
      forall c: nat | c < 256
        ensures (BitIn(bs, c) != neg)
          <==> if union then (BitIn(was, c) != neg) || (BitIn(cc.bs, c) != cc.neg)
               else (BitIn(was, c) != neg) && (BitIn(cc.bs, c) != cc.neg)
      {
        RoomBit(was[c / 8], neg, cc.bs[c / 8], cc.neg, union, c);
      }
    }

    /** The ranges of or_cclass. */
    method OrBuffers(cc: CClass, start: nat) returns (ok: bool, out: Buffer?)
      requires Valid() && cc.Valid() && start <= LAST_CODE
      ensures Ready(out) && (out != null ==> fresh(out) && fresh(out.p))
      ensures ok && !neg && Invertible(Content(cc.mbuf), cc.neg) ==>
        forall c: nat :: start <= c <= LAST_CODE ==> (In(Content(out), c) <==> Member(false, c) || cc.Member(false, c))
      ensures ok && neg && cc.neg ==> forall c: nat :: !In(Content(out), c) <==> Member(false, c) || cc.Member(false, c)
      ensures ok && neg && !cc.neg && 0 < start && !In(Content(mbuf), 0) && !In(Content(cc.mbuf), 0) ==>
        forall c: nat :: start <= c <= LAST_CODE ==> (!In(Content(out), c) <==> Member(false, c) || cc.Member(false, c))
      ensures !ok ==> MAX_RANGES <= |Content(mbuf)| + |Content(cc.mbuf)| + 1
    {
      hide Normal, NotIn, ExactAll, In, Content, PairsOf;
      if neg && cc.neg {
        ok, out := AndRanges(mbuf, false, cc.mbuf, false);
      } else {
        NormalContent(mbuf);
        StartsAbove(Content(mbuf));
        ok, out := OrRanges(mbuf, neg, cc.mbuf, cc.neg, start);
        if ok && neg {
          NormalContent(out);
          ghost var s := Content(out);
          ok, out := Complement(out, start);
          forall c: nat | !In(s, 0) && start <= c <= LAST_CODE ensures NotIn(s, start, c) <==> !In(s, c) {
            ComplementOf(s, start, c);
          }
        }
      }
    }

    /** or_cclass in a multibyte encoding whose ranges start at `start`.  It fails only at the limit of ranges. */
    method Or(cc: CClass, start: nat) returns (ok: bool)
      requires Valid() && cc.Valid() && cc != this && start <= LAST_CODE
      modifies this`mbuf, this`bs
      ensures !ok ==> MAX_RANGES <= |old(Content(mbuf))| + |old(Content(cc.mbuf))| + 1
      ensures ok ==> Valid()
      ensures ok ==> forall c: nat :: c < 256 ==> (Member(true, c) <==> old(Member(true, c)) || old(cc.Member(true, c)))
      ensures ok && !neg && Invertible(old(Content(cc.mbuf)), cc.neg) ==>
        forall c: nat ::
            start <= c <= LAST_CODE ==> (Member(false, c) <==> old(Member(false, c)) || old(cc.Member(false, c)))
      ensures ok && neg && cc.neg ==>
        forall c: nat :: Member(false, c) <==> old(Member(false, c)) || old(cc.Member(false, c))
      ensures ok && neg && !cc.neg && 0 < start && !In(old(Content(mbuf)), 0) && !In(old(Content(cc.mbuf)), 0) ==>
        forall c: nat ::
            start <= c <= LAST_CODE ==> (Member(false, c) <==> old(Member(false, c)) || old(cc.Member(false, c)))
    {
      hide BitIn, In, Content;
      var out;
      ok, out := OrBuffers(cc, start);
      CombineBits(cc, true);
      if ok { mbuf := out; }
    }

    /** The ranges of and_cclass. */
    method AndBuffers(cc: CClass, start: nat) returns (ok: bool, out: Buffer?)
      requires Valid() && cc.Valid() && start <= LAST_CODE
      ensures Ready(out) && (out != null ==> fresh(out) && fresh(out.p))
      ensures ok && !neg && (cc.neg ==> ExactAll(Content(mbuf), Content(cc.mbuf))) ==>
        forall c: nat :: In(Content(out), c) <==> Member(false, c) && cc.Member(false, c)
      ensures ok && neg && cc.neg ==>
        forall c: nat :: start <= c <= LAST_CODE ==> (!In(Content(out), c) <==> Member(false, c) && cc.Member(false, c))
      ensures ok && neg && !cc.neg && ExactAll(Content(cc.mbuf), Content(mbuf)) && !In(Content(cc.mbuf), 0) ==>
        forall c: nat :: start <= c <= LAST_CODE ==> (!In(Content(out), c) <==> Member(false, c) && cc.Member(false, c))
      ensures !ok ==> MAX_RANGES <= Both(|Content(mbuf)|, neg, |Content(cc.mbuf)|, cc.neg)
    {
      hide Normal, NotIn, ExactAll, In, Content, PairsOf;
      if neg && cc.neg {
        ok, out := OrRanges(mbuf, false, cc.mbuf, false, start);
      } else {
        ok, out := AndRanges(mbuf, neg, cc.mbuf, cc.neg);
        if ok && neg {
          NormalContent(out);
          ghost var s := Content(out);
          ok, out := Complement(out, start);
          forall c: nat | !In(s, 0) && start <= c <= LAST_CODE ensures NotIn(s, start, c) <==> !In(s, c) {
            ComplementOf(s, start, c);
          }
        }
      }
    }

    /** and_cclass.  It fails only at the limit of ranges, where those of a negated class can count twice. */
    method And(cc: CClass, start: nat) returns (ok: bool)
      requires Valid() && cc.Valid() && cc != this && start <= LAST_CODE
      modifies this`mbuf, this`bs
      ensures !ok ==>
        MAX_RANGES <= Both(|old(Content(mbuf))|, neg, |old(Content(cc.mbuf))|, cc.neg)
      ensures ok ==> Valid()
      ensures ok ==> forall c: nat :: c < 256 ==> (Member(true, c) <==> old(Member(true, c)) && old(cc.Member(true, c)))
      ensures ok && !neg && (cc.neg ==> ExactAll(old(Content(mbuf)), old(Content(cc.mbuf)))) ==>
        forall c: nat :: Member(false, c) <==> old(Member(false, c)) && old(cc.Member(false, c))
      ensures ok && neg && cc.neg ==>
        forall c: nat ::
            start <= c <= LAST_CODE ==> (Member(false, c) <==> old(Member(false, c)) && old(cc.Member(false, c)))
      ensures
        ok && neg && !cc.neg && ExactAll(old(Content(cc.mbuf)), old(Content(mbuf))) && !In(old(Content(cc.mbuf)), 0) ==>
        forall c: nat ::
            start <= c <= LAST_CODE ==> (Member(false, c) <==> old(Member(false, c)) && old(cc.Member(false, c)))
    {
      hide BitIn, In, Content, ExactAll;
      var out;
      ok, out := AndBuffers(cc, start);
      CombineBits(cc, false);
      if ok { mbuf := out; }
    }
  }
}
