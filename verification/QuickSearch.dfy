/** Searching for an exact string: character by character, and by Sunday's quick search with a skip table
    (regexec.c:2946-2998, 3304-3406; regcomp.c:4216-4285).  Characters may be several bytes long. */
module QuickSearch {
  import opened Common

  const CHAR_TABLE_SIZE := 256

  /** The length of the character that starts at a position; always positive. */
  type CharLength = int -> nat

  ghost predicate Positive(len: CharLength) { forall p :: 0 < len(p) }

  /** The target occurs at p. */
  predicate Occurs(data: seq<byte>, target: seq<byte>, p: int) {
    0 <= p && p + |target| <= |data| && data[p..p + |target|] == target
  }

  /** The first character head from s on, before end, at which the target occurs; -1 if there is none. */
  function FirstHead(data: seq<byte>, target: seq<byte>, len: CharLength, s: nat, end: int): (r: int)
    requires Positive(len)
    ensures r == -1 || (s <= r < end && Occurs(data, target, r))
    decreases end - s
  {
    if s >= end then -1
    else if Occurs(data, target, s) then s
    else FirstHead(data, target, len, s + len(s), end)
  }

  /** p is a character head when s is one. */
  ghost predicate HeadFrom(len: CharLength, s: nat, p: nat)
    requires Positive(len)
    decreases p - s
  {
    s == p || (s < p && HeadFrom(len, s + len(s), p))
  }

  /** FirstHead is the smallest head with an occurrence. */
  lemma {:induction false} FirstHeadIsFirst(data: seq<byte>, target: seq<byte>, len: CharLength, s: nat, end: int,
      p: nat)
    requires Positive(len) && HeadFrom(len, s, p) && p < end && Occurs(data, target, p)
    ensures var r := FirstHead(data, target, len, s, end); s <= r <= p && HeadFrom(len, s, r)
    decreases p - s
  {
    if !Occurs(data, target, s) { FirstHeadIsFirst(data, target, len, s + len(s), end, p); }
  }

  // ---------------------------------------------------------------- the slow search

  /** memcmp_se against the tail of the target: the first byte has been compared. */
  method TailMatches(data: seq<byte>, target: seq<byte>, p: nat) returns (same: bool)
    requires 0 < |target| && p + |target| <= |data| && data[p] == target[0]
    ensures same <==> Occurs(data, target, p)
  {
    var k := 1;
    while k < |target|
      invariant 1 <= k <= |target| && data[p..p + k] == target[..k]
    {
      if data[p + k] != target[k] {
        assert data[p..p + |target|][k] != target[k];
        return false;
      }
      assert data[p..p + k + 1] == data[p..p + k] + [data[p + k]];
      k := k + 1;
    }
    same := true;
  }

  /** The end of the positions worth trying, given the end of the text and of the range. */
  function LastStart(data: seq<byte>, target: seq<byte>, range: int): int
    requires 0 < |target|
  {
    Min(|data| - (|target| - 1), range)
  }

  /** slow_search_se. */
  method SlowSearch(data: seq<byte>, target: seq<byte>, len: CharLength, text: nat, range: int) returns (r: int)
    requires Positive(len) && 0 < |target|
    ensures r == FirstHead(data, target, len, text, LastStart(data, target, range))
  {
    var end := |data| - (|target| - 1);
    if end > range { end := range; }
    var s := text;
    while s < end
      invariant 0 <= s && FirstHead(data, target, len, s, end) == FirstHead(data, target, len, text, end)
      decreases end - s
    {
      if data[s] == target[0] {
        var same := TailMatches(data, target, s);
        if same { return s; }
      } else {
        assert data[s..s + |target|][0] == data[s];
      }
      s := s + len(s);
    }
    r := -1;
  }

  // ---------------------------------------------------------------- the skip table

  /** The last place of c in the target, or -1. */
  function LastPlace(target: seq<byte>, c: int): (k: int)
    ensures -1 <= k < |target| && (k >= 0 ==> target[k] == c) && forall j :: k < j < |target| ==> target[j] != c
  {
    if target == [] then -1
    else if target[|target| - 1] == c then |target| - 1
    else LastPlace(target[..|target| - 1], c)
  }

  /** How far the window may move when c follows it. */
  function SkipFor(target: seq<byte>, c: int): nat { |target| - LastPlace(target, c) }

  /** The entry set_bm_skip stores: byte-wide for short targets. */
  function Stored(target: seq<byte>, v: nat): nat { if |target| < CHAR_TABLE_SIZE then v % 256 else v }

  /** set_bm_skip for case-sensitive targets: `clen` is the length of the target's character at each place. */
  method SetSkip(target: seq<byte>, clen: CharLength, skip: array<nat>)
    requires Positive(clen) && skip.Length == CHAR_TABLE_SIZE && 0 < |target|
    requires forall i :: 0 <= i < |target| && HeadFrom(clen, 0, i) ==> i + clen(i) <= |target|
    modifies skip
    ensures forall c :: 0 <= c < CHAR_TABLE_SIZE ==> skip[c] == Stored(target, SkipFor(target, c))
  {
    hide LastPlace, Stored, HeadFrom;
    var len := |target|;
    NoPlace();
    assert HeadFrom(clen, 0, 0) by { HeadHere(clen, 0); }
    for c := 0 to CHAR_TABLE_SIZE
      invariant forall d :: 0 <= d < c ==> skip[d] == Stored(target, len + 1)
    {
      skip[c] := Stored(target, len + 1);
    }
    assert target[..0] == [];
    var i := 0;
    while i < len
      invariant 0 <= i <= len && HeadFrom(clen, 0, i)
      invariant forall c :: 0 <= c < CHAR_TABLE_SIZE ==> skip[c] == Stored(target, len - LastPlace(target[..i], c))
      decreases len - i
    {
      var n, j := clen(i), 0;
      while j < n
        invariant 0 <= j <= n
        invariant forall c ::
            0 <= c < CHAR_TABLE_SIZE ==> skip[c] == Stored(target, len - LastPlace(target[..i + j], c))
      {
        assert i + (j + 1) == (i + j) + 1;
        PlaceNext(target, i + j);
        skip[target[i + j]] := Stored(target, len - i - j);
        j := j + 1;
      }
      HeadNext(clen, 0, i);
      i := i + n;
    }
    assert target[..len] == target;
  }

  lemma HeadHere(len: CharLength, s: nat)
    requires Positive(len)
    ensures HeadFrom(len, s, s)
  {
  }

  lemma NoPlace()
    ensures forall c :: LastPlace([], c) == -1
  {
  }

  lemma PlaceNext(target: seq<byte>, i: nat)
    requires i < |target|
    ensures forall c :: LastPlace(target[..i + 1], c) == if target[i] == c then i else LastPlace(target[..i], c)
  {
    var t := target[..i + 1];
    assert t[..|t| - 1] == target[..i];
    forall c ensures LastPlace(t, c) == if target[i] == c then i else LastPlace(target[..i], c) {
      assert t[|t| - 1] == target[i];
    }
  }

  lemma {:induction false} HeadNext(len: CharLength, s: nat, p: nat)
    requires Positive(len) && HeadFrom(len, s, p)
    ensures HeadFrom(len, s, p + len(p))
    decreases p - s
  {
    if s < p { HeadNext(len, s + len(s), p); } else { assert HeadFrom(len, p + len(p), p + len(p)); }
  }

  predicate RightEntry(target: seq<byte>, c: int) { Stored(target, SkipFor(target, c)) == SkipFor(target, c) > 0 }

  /** Every entry is exact and at least 1, unless the target has 255 bytes: then those of absent bytes wrap to 0. */
  lemma SkipPositive(target: seq<byte>)
    requires 0 < |target|
    ensures |target| != 255 ==> forall c :: 0 <= c < CHAR_TABLE_SIZE ==> RightEntry(target, c)
    ensures forall c ::
        0 <= c < CHAR_TABLE_SIZE && |target| == 255 ==> (RightEntry(target, c) <==> LastPlace(target, c) >= 0)
  {
  }

  /** Nothing between s and s + skip: an occurrence there would cover the byte after the window. */
  lemma NothingSkipped(data: seq<byte>, target: seq<byte>, s: nat, q: nat)
    requires 0 < |target| && s + |target| < |data| && s < q < s + SkipFor(target, data[s + |target|])
    ensures !Occurs(data, target, q)
  {
    var c, k := data[s + |target|], s + |target| - q;
    if k < |target| {
      assert target[k] != c;
      if q + |target| <= |data| { assert data[q..q + |target|][k] == c; }
    }
  }

  // ---------------------------------------------------------------- quick search

  ghost predicate SkipTable(target: seq<byte>, skip: seq<nat>) {
    |skip| == CHAR_TABLE_SIZE && forall c :: 0 <= c < CHAR_TABLE_SIZE ==> skip[c] == SkipFor(target, c)
  }

  /** The comparison from the tail of the window backwards. */
  method WindowMatches(data: seq<byte>, target: seq<byte>, s: nat) returns (same: bool)
    requires 0 < |target| && s + |target| <= |data|
    ensures same <==> Occurs(data, target, s)
  {
    var k := |target| - 1;
    while data[s + k] == target[k]
      invariant 0 <= k < |target| && data[s + k + 1..s + |target|] == target[k + 1..]
      decreases k
    {
      assert data[s + k..s + |target|] == [data[s + k]] + data[s + k + 1..s + |target|];
      assert target[k..] == [target[k]] + target[k + 1..];
      if k == 0 { return true; }
      k := k - 1;
    }
    assert data[s..s + |target|][k] != target[k];
    same := false;
  }

  /** The cases of FirstHead. */
  lemma PassHead(data: seq<byte>, target: seq<byte>, len: CharLength, s: nat, end: int)
    requires Positive(len)
    ensures s >= end ==> FirstHead(data, target, len, s, end) == -1
    ensures s < end && Occurs(data, target, s) ==> FirstHead(data, target, len, s, end) == s
    ensures !Occurs(data, target, s) ==>
        FirstHead(data, target, len, s, end) == FirstHead(data, target, len, s + len(s), end)
  {
  }

  /** bm_search_notrev_se: any character length. */
  method QuickSearchHeads(data: seq<byte>, target: seq<byte>, len: CharLength, skip: seq<nat>, text: nat,
      range: int) returns (r: int)
    requires Positive(len) && 0 < |target| && SkipTable(target, skip)
    ensures r == FirstHead(data, target, len, text, LastStart(data, target, range))
  {
    hide Occurs, FirstHead, SkipFor;
    var tlen1 := |target| - 1;
    var end := range;
    if end + tlen1 > |data| { end := |data| - tlen1; }
    var s := text;
    while s < end
      invariant 0 <= s && FirstHead(data, target, len, s, end) == FirstHead(data, target, len, text, end)
      decreases end - s
    {
      var same := WindowMatches(data, target, s);
      PassHead(data, target, len, s, end);
      if same { return s; }
      if s + 1 >= end { PassHead(data, target, len, s + len(s), end); return -1; }
      var k := skip[data[s + tlen1 + 1]];
      var p := s;
      s := s + len(s);
      while s - p < k && s < end
        invariant p < s && FirstHead(data, target, len, s, end) == FirstHead(data, target, len, text, end)
        decreases end - s
      {
        NothingSkipped(data, target, p, s);
        PassHead(data, target, len, s, end);
        s := s + len(s);
      }
    }
    PassHead(data, target, len, s, end);
    r := -1;
  }

  lemma SkipAtLeastOne(target: seq<byte>, c: byte)
    ensures SkipFor(target, c) > 0
  {
  }

  /** Positions in single-byte text, passed over all at once. */
  lemma {:induction false} PassMany(data: seq<byte>, target: seq<byte>, len: CharLength, s: nat, k: nat, end: int)
    requires Positive(len) && (forall p :: len(p) == 1) && forall q: nat :: s <= q < s + k ==> !Occurs(data, target, q)
    ensures FirstHead(data, target, len, s, end) == FirstHead(data, target, len, s + k, end)
    decreases k
  {
    if k > 0 {
      assert !Occurs(data, target, s);
      PassMany(data, target, len, s + 1, k - 1, end);
    }
  }

  /** bm_search_se: single-byte characters; s points at the last byte of the window. */
  method QuickSearchBytes(data: seq<byte>, target: seq<byte>, ghost len: CharLength, skip: seq<nat>, text: nat,
      range: int) returns (r: int)
    requires Positive(len) && (forall p :: len(p) == 1) && 0 < |target| && SkipTable(target, skip)
    ensures r == FirstHead(data, target, len, text, LastStart(data, target, range))
  {
    hide Occurs, FirstHead, SkipFor;
    var tlen1 := |target| - 1;
    var end := range + tlen1;
    if end > |data| { end := |data|; }
    ghost var last := LastStart(data, target, range);
    var s := text + tlen1;
    while s < end
      invariant tlen1 <= s && FirstHead(data, target, len, s - tlen1, last) == FirstHead(data, target, len, text, last)
      decreases end - s
    {
      var same := WindowMatches(data, target, s - tlen1);
      PassHead(data, target, len, s - tlen1, last);
      if same { return s - tlen1; }
      if s + 1 >= end { PassHead(data, target, len, s - tlen1 + 1, last); return -1; }
      var k := skip[data[s + 1]];
      forall q: nat | s - tlen1 <= q < s - tlen1 + k ensures !Occurs(data, target, q) {
        if q > s - tlen1 { NothingSkipped(data, target, s - tlen1, q); }
      }
      assert k > 0 by { SkipAtLeastOne(target, data[s + 1]); }
      PassMany(data, target, len, s - tlen1, k, last);
      s := s + k;
    }
    PassHead(data, target, len, s - tlen1, last);
    r := -1;
  }
}
