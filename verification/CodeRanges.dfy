/** Code ranges of a character class (regparse.c:1687-1978, regcomp.c:6014-6033): a buffer of 32-bit words
    [n][from][to]...[from][to] that is searched and shifted in place.  All arithmetic that can wrap is written out. */
module CodeRanges {
  import opened Common

  const LAST_CODE: nat := 0xffff_ffff
  const MAX_RANGES: nat := 10000
  const INIT_WORDS: nat := 5

  datatype Iv = Iv(from: nat, to: nat)

  /** Sorted, disjoint and not adjacent. */
  ghost predicate Normal(s: seq<Iv>) {
    (forall i :: 0 <= i < |s| ==> s[i].from <= s[i].to <= LAST_CODE)
    && forall i, j :: 0 <= i < j < |s| ==> s[i].to + 1 < s[j].from
  }

  ghost predicate In(s: seq<Iv>, c: nat) {
    exists i :: 0 <= i < |s| && s[i].from <= c <= s[i].to
  }

  /** The pairs stored in the words of a buffer. */
  function PairsOf(w: seq<nat>): (s: seq<Iv>)
    requires |w| > 0 && 1 + 2 * w[0] <= |w|
    ensures |s| == w[0] && forall i :: 0 <= i < |s| ==> s[i] == Iv(w[1 + 2 * i], w[2 + 2 * i])
  {
    seq(w[0], i requires 0 <= i < w[0] => Iv(w[1 + 2 * i], w[2 + 2 * i]))
  }

  /** 32-bit subtraction of one and addition of one. */
  function Pred(c: nat): nat { if c == 0 then LAST_CODE else c - 1 }

  function Succ(c: nat): nat { if c == LAST_CODE then 0 else c + 1 }

  // ---------------------------------------------------------------- one more interval

  /** s[..low] lies below [from, to] and s[high..] above it, neither adjacent; the rest touches it. */
  ghost predicate Splits(s: seq<Iv>, low: nat, high: nat, from: nat, to: nat) {
    low <= high <= |s|
    && (forall i :: 0 <= i < low ==> s[i].to + 1 < from)
    && (forall i :: low <= i < high ==> from <= s[i].to + 1 && s[i].from <= to + 1)
    && (forall i :: high <= i < |s| ==> to + 1 < s[i].from)
  }

  function Hull(s: seq<Iv>, low: nat, high: nat, from: nat, to: nat): Iv
    requires low <= high <= |s|
  {
    if low < high then Iv(Min(from, s[low].from), Max(to, s[high - 1].to)) else Iv(from, to)
  }

  function Merged(s: seq<Iv>, low: nat, high: nat, iv: Iv): seq<Iv>
    requires low <= high <= |s|
  {
    s[..low] + [iv] + s[high..]
  }

  lemma MergedNormal(s: seq<Iv>, low: nat, high: nat, from: nat, to: nat)
    requires Normal(s) && from <= to <= LAST_CODE && Splits(s, low, high, from, to)
    ensures Normal(Merged(s, low, high, Hull(s, low, high, from, to)))
  {
    var iv := Hull(s, low, high, from, to);
    var r := Merged(s, low, high, iv);
    forall i, j | 0 <= i < j < |r| ensures r[i].to + 1 < r[j].from {
      if j == low {
        if low < high { assert s[i].to + 1 < s[low].from; }
      } else if i == low {
        assert r[j] == s[high + (j - low - 1)];
        if low < high { assert s[high - 1].to + 1 < s[high + (j - low - 1)].from; }
      }
    }
  }

  lemma MergedKeeps(s: seq<Iv>, low: nat, high: nat, from: nat, to: nat, i: nat, c: nat)
    requires Normal(s) && low <= high <= |s| && i < |s| && s[i].from <= c <= s[i].to
    ensures In(Merged(s, low, high, Hull(s, low, high, from, to)), c)
  {
    var r := Merged(s, low, high, Hull(s, low, high, from, to));
    if i < low {
      assert r[i] == s[i];
    } else if i >= high {
      assert r[low + 1 + (i - high)] == s[i];
    } else {
      HullHolds(s, low, high, from, to, i);
      assert r[low] == Hull(s, low, high, from, to);
    }
  }

  lemma MergedFrom(s: seq<Iv>, low: nat, high: nat, from: nat, to: nat, i: nat, c: nat)
    requires Splits(s, low, high, from, to)
    requires var r := Merged(s, low, high, Hull(s, low, high, from, to)); i < |r| && r[i].from <= c <= r[i].to
    ensures In(s, c) || from <= c <= to
  {
    var r := Merged(s, low, high, Hull(s, low, high, from, to));
    if i < low {
      assert s[i] == r[i];
    } else if i > low {
      assert s[high + (i - low - 1)] == r[i];
    } else if c < from {
      assert s[low].from <= c <= s[low].to;
    } else if to < c {
      assert s[high - 1].from <= c <= s[high - 1].to;
    }
  }

  lemma MergedMembers(s: seq<Iv>, low: nat, high: nat, from: nat, to: nat, c: nat)
    requires Normal(s) && from <= to <= LAST_CODE && Splits(s, low, high, from, to)
    ensures In(Merged(s, low, high, Hull(s, low, high, from, to)), c) <==> In(s, c) || from <= c <= to
  {
    hide Normal, Splits, Hull;
    assert low <= high <= |s| by { SplitsIn(s, low, high, from, to); }
    var r := Merged(s, low, high, Hull(s, low, high, from, to));
    if In(s, c) {
      var i :| 0 <= i < |s| && s[i].from <= c <= s[i].to;
      MergedKeeps(s, low, high, from, to, i, c);
    }
    if from <= c <= to {
      assert r[low].from <= c <= r[low].to by { HullWide(s, low, high, from, to); }
    }
    if In(r, c) {
      var i :| 0 <= i < |r| && r[i].from <= c <= r[i].to;
      MergedFrom(s, low, high, from, to, i, c);
    }
  }

  lemma SplitsIn(s: seq<Iv>, low: nat, high: nat, from: nat, to: nat)
    requires Splits(s, low, high, from, to)
    ensures low <= high <= |s|
  {
  }

  lemma HullWide(s: seq<Iv>, low: nat, high: nat, from: nat, to: nat)
    requires low <= high <= |s|
    ensures var iv := Hull(s, low, high, from, to); iv.from <= from && to <= iv.to
  {
  }

  lemma MergedAdds(s: seq<Iv>, low: nat, high: nat, from: nat, to: nat)
    requires Normal(s) && from <= to <= LAST_CODE && Splits(s, low, high, from, to)
    ensures low <= high <= |s|
    ensures var r := Merged(s, low, high, Hull(s, low, high, from, to));
        |r| <= |s| + 1 && Normal(r) && Adds(s, from, to, r) && Adds(s, to, from, r)
  {
    hide Normal, Splits, Hull, In;
    SplitsIn(s, low, high, from, to);
    MergedNormal(s, low, high, from, to);
    hide Merged;
    forall c: nat ensures In(Merged(s, low, high, Hull(s, low, high, from, to)), c) <==> In(s, c) || from <= c <= to {
      MergedMembers(s, low, high, from, to, c);
    }
  }

  /** The words after a move and three writes hold the merged pairs. */
  lemma Repacked(w: seq<nat>, v: seq<nat>, low: nat, high: nat, iv: Iv)
    requires |w| > 0 && 1 + 2 * w[0] <= |w| && low <= high <= w[0] && |v| > 0
    requires v[0] == w[0] + low + 1 - high && 1 + 2 * v[0] <= |v|
    requires forall j :: 1 <= j < 1 + 2 * low ==> v[j] == w[j]
    requires v[1 + 2 * low] == iv.from && v[2 + 2 * low] == iv.to
    requires forall j :: 3 + 2 * low <= j < 1 + 2 * v[0] ==> v[j] == w[j - 2 * (low + 1) + 2 * high]
    ensures PairsOf(v) == Merged(PairsOf(w), low, high, iv)
  {
    var r, m := PairsOf(v), Merged(PairsOf(w), low, high, iv);
    forall i | 0 <= i < |r| ensures r[i] == m[i] {
      if i > low { assert m[i] == PairsOf(w)[high + (i - low - 1)]; }
    }
  }

  lemma HullHolds(s: seq<Iv>, low: nat, high: nat, from: nat, to: nat, i: nat)
    requires Normal(s) && low <= i < high <= |s|
    ensures var iv := Hull(s, low, high, from, to); iv.from <= s[i].from && s[i].to <= iv.to
  {
    if low < i { assert s[low].to + 1 < s[i].from; }
    if i < high - 1 { assert s[i].to + 1 < s[high - 1].from; }
  }

  /** What add_code_range_to_buf is for. */
  ghost predicate Adds(s: seq<Iv>, from: nat, to: nat, r: seq<Iv>) {
    Normal(r) && forall c: nat :: In(r, c) <==> In(s, c) || Min(from, to) <= c <= Max(from, to)
  }

  class Buffer {
    /** Word 0 is the number of ranges. */
    var p: array<nat>

    ghost predicate Valid()
      reads this, p
    {
      0 < p.Length && 1 + 2 * p[0] <= p.Length && Normal(Pairs())
    }

    ghost function Pairs(): seq<Iv>
      reads this, p
      requires 0 < p.Length && 1 + 2 * p[0] <= p.Length
    {
      PairsOf(p[..])
    }

    /** new_code_range. */
    constructor ()
      ensures Valid() && Pairs() == [] && fresh(p)
    {
      p := new nat[INIT_WORDS](_ => 0);
    }

    /** The first range that does not end before from - 1. */
    method SearchLow(from: nat) returns (low: nat)
      requires Valid() && from <= LAST_CODE
      ensures low <= |Pairs()|
      ensures forall i :: 0 <= i < low ==> Pairs()[i].to + 1 < from
      ensures forall i :: low <= i < |Pairs()| ==> from <= Pairs()[i].to + 1
    {
      low := 0;
      var bound := if from == 0 then 0 else p[0];
      while low < bound
        invariant low <= bound <= p[0]
        invariant forall i :: 0 <= i < low ==> Pairs()[i].to + 1 < from
        invariant forall i :: bound <= i < p[0] ==> from <= Pairs()[i].to + 1
      {
        var x := (low + bound) / 2;
        assert Pairs()[x].to == p[x * 2 + 2];
        if Pred(from) > p[x * 2 + 2] { low := x + 1; } else { bound := x; }
      }
    }

    /** The first range from `low` on that starts after to + 1. */
    method SearchHigh(low: nat, to: nat) returns (high: nat)
      requires Valid() && to <= LAST_CODE && low <= |Pairs()|
      requires forall i :: 0 <= i < low ==> Pairs()[i].to < to
      ensures low <= high <= |Pairs()|
      ensures forall i :: 0 <= i < high ==> Pairs()[i].from <= to + 1
      ensures forall i :: high <= i < |Pairs()| ==> to + 1 < Pairs()[i].from
    {
      high := if to == LAST_CODE then p[0] else low;
      var bound := p[0];
      while high < bound
        invariant low <= high <= bound <= p[0]
        invariant forall i :: 0 <= i < high ==> Pairs()[i].from <= to + 1
        invariant forall i :: bound <= i < p[0] ==> to + 1 < Pairs()[i].from
      {
        var x := (high + bound) / 2;
        assert Pairs()[x].from == p[x * 2 + 1];
        if Succ(to) >= p[x * 2 + 1] { high := x + 1; } else { bound := x; }
      }
    }

    /** BBUF_MOVE_RIGHT, BBUF_MOVE_LEFT_REDUCE and the writes: ranges low..high make room for one. */
    method Replace(low: nat, high: nat, iv: Iv)
      requires Valid() && low <= high <= |Pairs()|
      modifies this, p
      ensures p == old(p) || fresh(p)
      ensures 0 < p.Length && 1 + 2 * p[0] <= p.Length && Pairs() == Merged(old(Pairs()), low, high, iv)
    {
      ghost var w := p[..];
      var n := p[0];
      var from, to := 1 + 2 * high, 1 + 2 * (low + 1);
      Ensure(3 + 2 * (n + low - high));
      MoveWords(from, to, 2 * (n - high));
      p[1 + 2 * low] := iv.from;
      p[2 + 2 * low] := iv.to;
      p[0] := n + low + 1 - high;
      Repacked(w, p[..], low, high, iv);
    }

    /** BBUF_EXPAND. */
    method Ensure(size: nat)
      requires 0 < p.Length
      modifies this
      ensures (p == old(p) || fresh(p)) && size <= p.Length && old(p.Length) <= p.Length
          && p[..old(p.Length)] == old(p[..])
    {
      if p.Length < size {
        var alloc := 2 * p.Length;
        while alloc < size
          invariant p.Length < alloc
          decreases size - alloc
        {
          alloc := 2 * alloc;
        }
        var q := new nat[alloc](_ => 0);
        forall i | 0 <= i < p.Length { q[i] := p[i]; }
        p := q;
      }
    }

    /** memmove. */
    method MoveWords(from: nat, to: nat, size: nat)
      requires from + size <= p.Length && to + size <= p.Length
      modifies p
      ensures forall j :: to <= j < to + size ==> p[j] == old(p[j - to + from])
      ensures forall j :: (0 <= j < to || to + size <= j < p.Length) ==> p[j] == old(p[j])
    {
      if from < to {
        var k := to + size;
        while k > to
          invariant to <= k <= to + size
          invariant forall j :: k <= j < to + size ==> p[j] == old(p[j - to + from])
          invariant forall j :: (0 <= j < k || to + size <= j < p.Length) ==> p[j] == old(p[j])
        {
          k := k - 1;
          p[k] := p[k - to + from];
        }
      } else {
        var k := to;
        while k < to + size
          invariant to <= k <= to + size
          invariant forall j :: to <= j < k ==> p[j] == old(p[j - to + from])
          invariant forall j :: (0 <= j < to || k <= j < p.Length) ==> p[j] == old(p[j])
        {
          p[k] := p[k - to + from];
          k := k + 1;
        }
      }
    }

    /** add_code_range_to_buf. */
    method Add(a: nat, b: nat) returns (ok: bool)
      requires Valid() && a <= LAST_CODE && b <= LAST_CODE
      modifies this, p
      ensures Valid() && (p == old(p) || fresh(p))
      ensures if ok then Adds(old(Pairs()), a, b, Pairs()) else Pairs() == old(Pairs()) && |Pairs()| >= MAX_RANGES
      ensures |Pairs()| <= |old(Pairs())| + 1
    {
      var from, to := a, b;
      if from > to { from, to := to, from; }
      hide Adds, In, Merged;
      ghost var s := Pairs();
      var low := SearchLow(from);
      var high := SearchHigh(low, to);
      assert Splits(s, low, high, from, to);
      if p[0] + low + 1 - high > MAX_RANGES { return false; }
      ghost var iv := Hull(s, low, high, from, to);
      MergedAdds(s, low, high, from, to);
      if low < high {
        assert s[low].from == p[1 + 2 * low] && s[high - 1].to == p[2 + 2 * (high - 1)];
        if from > p[1 + 2 * low] { from := p[1 + 2 * low]; }
        if to < p[2 * high] { to := p[2 * high]; }
      }
      assert Iv(from, to) == iv;
      Replace(low, high, Iv(from, to));
      ok := true;
    }

    /** onig_is_in_code_range. */
    method Contains(code: nat) returns (found: bool)
      requires Valid()
      ensures found <==> In(Pairs(), code)
    {
      ghost var s := Pairs();
      var low, high := 0, p[0];
      while low < high
        invariant 0 <= low <= high <= p[0]
        invariant forall i :: 0 <= i < low ==> s[i].to < code
        invariant forall i :: high <= i < |s| ==> code <= s[i].to
      {
        var x := (low + high) / 2;
        assert s[x].to == p[2 + 2 * x];
        if code > p[2 + 2 * x] { low := x + 1; } else { high := x; }
      }
      found := low < p[0] && code >= p[1 + 2 * low];
      if low < |s| {
        assert s[low].from == p[1 + 2 * low];
        assert code <= s[low].to;
        forall i | low < i < |s| ensures code < s[i].from { assert s[low].to + 1 < s[i].from; }
      }
    }
  }
}
