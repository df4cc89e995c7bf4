/** What the leaves of a tree do to the text, byte by byte: sets, anchors, back-references and \K. */
module Leaves {
  import opened Common
  import opened Tree
  import opened Semantics
  import opened Language
  import opened Remembered

  // ---------------------------------------------------------------- sets

  /** Bit k of a byte, from the lowest on. */
  predicate Bit(v: nat, k: nat) { if k == 0 then v % 2 == 1 else Bit(v / 2, k - 1) }

  lemma BitIs(v: nat, k: nat)
    requires k < 8
    ensures (v / Pow2(k)) % 2 == 1 <==> Bit(v, k)
  {
    assert Pow2(0) == 1 && Pow2(1) == 2 && Pow2(2) == 4 && Pow2(3) == 8;
    assert Pow2(4) == 16 && Pow2(5) == 32 && Pow2(6) == 64 && Pow2(7) == 128;
    Shifted(v, k);
  }

  lemma Shifted(v: nat, k: nat)
    requires k < 8
    ensures Bit(v, k)
        <==> (if k == 0 then v else if k == 1 then v / 2 else if k == 2 then v / 4 else if k == 3 then v / 8
        else if k == 4 then v / 16 else if k == 5 then v / 32 else if k == 6 then v / 64 else v / 128) % 2 == 1
  {
    if k > 0 { Shifted(v / 2, k - 1); }
  }

  lemma {:induction false} BitAdded(v: nat, k: nat, m: nat)
    requires !Bit(v, k)
    ensures Bit(v + Pow2(k), m) <==> Bit(v, m) || m == k
    decreases k
  {
    if k == 0 {
      assert (v + 1) / 2 == v / 2;
    } else {
      assert (v + Pow2(k)) / 2 == v / 2 + Pow2(k - 1);
      if m > 0 { BitAdded(v / 2, k - 1, m - 1); }
    }
  }

  lemma EvenBelow(v: nat, q: nat)
    requires v % 2 == 0 && v < 2 * q
    ensures v + 1 < 2 * q && v / 2 < q
  {
  }

  lemma HalfBelow(v: nat, p: nat, q: nat)
    requires v / 2 + p < q
    ensures v + 2 * p < 2 * q
  {
  }

  lemma {:induction false} ByteStays(v: nat, k: nat, n: nat)
    requires !Bit(v, k) && k < n && v < Pow2(n)
    ensures v + Pow2(k) < Pow2(n)
    decreases k
  {
    var q := Pow2(n - 1);
    assert Pow2(n) == 2 * q;
    if k == 0 {
      assert Pow2(0) == 1;
      EvenBelow(v, q);
    } else {
      var p := Pow2(k - 1);
      assert Pow2(k) == 2 * p;
      ByteStays(v / 2, k - 1, n - 1);
      HalfBelow(v, p, q);
    }
  }

  /** BITSET_SET_BIT. */
  function SetBit(bs: seq<byte>, c: byte): (r: seq<byte>)
    requires |bs| == 32
    ensures |r| == 32
  {
    if BitAt(bs, c) then bs
    else
      BitIs(bs[c / 8], c % 8);
      ByteStays(bs[c / 8], c % 8, 8);
      assert Pow2(8) == 256;
      bs[c / 8 := bs[c / 8] + Pow2(c % 8)]
  }

  lemma SetBitExact(bs: seq<byte>, c: byte, d: byte)
    requires |bs| == 32
    ensures BitAt(SetBit(bs, c), d) <==> BitAt(bs, d) || d == c
  {
    hide Bit;
    BitIs(bs[d / 8], d % 8);
    if !BitAt(bs, c) {
      BitIs(bs[c / 8], c % 8);
      BitIs(SetBit(bs, c)[d / 8], d % 8);
      if d / 8 == c / 8 { BitAdded(bs[c / 8], c % 8, d % 8); }
    }
  }

  /** The bits of some bytes, set one after the other. */
  function ClassOf(cs: seq<byte>): (r: seq<byte>)
    ensures |r| == 32
  {
    if cs == [] then seq(32, _ => 0) else SetBit(ClassOf(cs[1..]), cs[0])
  }

  lemma {:induction false} ClassBits(cs: seq<byte>, c: byte)
    ensures BitAt(ClassOf(cs), c) <==> c in cs
    decreases |cs|
  {
    if cs == [] {
      NoBit(c % 8);
      assert ClassOf(cs)[c / 8] == 0;
    } else {
      ClassBits(cs[1..], c);
      SetBitExact(ClassOf(cs[1..]), cs[0], c);
    }
  }

  lemma NoBit(k: nat)
    ensures 0 / Pow2(k) == 0
  {
  }

  /** A set built from some bytes matches these bytes, or if it is negated all others. */
  lemma ClassExact(cs: seq<byte>, neg: bool, t: Subject, x: St)
    ensures Meaning(CClass(ClassOf(cs), neg), t, x)
        == if x.s < |t.data| && (t.data[x.s] in cs) != neg then [x.(s := x.s + 1, prev := x.s)] else []
  {
    hide ClassOf, BitAt;
    if x.s < |t.data| { ClassBits(cs, t.data[x.s]); }
  }

  // ---------------------------------------------------------------- other leaves

  lemma StringExact(s: seq<byte>, t: Subject, x: St)
    ensures Meaning(Str(s), t, x) ==
      if x.s + |s| <= |t.data| && forall k :: 0 <= k < |s| ==> t.data[x.s + k] == s[k]
      then [if s == [] then x else x.(s := x.s + |s|, prev := x.s + |s| - 1)] else []
  {
    assert Meaning(Str(s), t, x) == if t.Has(x.s, s) then [Advance(x, |s|)] else [];
    HasText(s, t, x.s);
  }

  lemma HasText(s: seq<byte>, t: Subject, i: nat)
    ensures t.Has(i, s) <==> i + |s| <= |t.data| && forall k :: 0 <= k < |s| ==> t.data[i + k] == s[k]
  {
    if i + |s| <= |t.data| {
      var w := t.data[i..i + |s|];
      assert forall k :: 0 <= k < |s| ==> w[k] == t.data[i + k];
      if forall k :: 0 <= k < |s| ==> t.data[i + k] == s[k] { assert w == s; }
    }
  }

  lemma AnyExact(multiline: bool, t: Subject, x: St)
    ensures Meaning(Any(multiline), t, x) ==
      if x.s < |t.data| && (multiline || t.data[x.s] != 0x0a) then [x.(s := x.s + 1, prev := x.s)] else []
  {
  }

  /** An anchor holds where the text says so; \K also moves the start of the reported match. */
  lemma AnchorExact(kind: AnchorKind, t: Subject, x: St)
    requires Tight(x) && x.s <= |t.data|
    ensures Meaning(Anchor(kind), t, x) ==
      if HoldsAt(kind, t, x.s) then [if kind.Keep? then x.(keep := x.s) else x] else []
  {
  }

  lemma SameText(data: seq<byte>, a: nat, start: nat, end: nat)
    requires start <= end <= |data| && a + (end - start) <= |data|
    ensures data[a..a + (end - start)] == data[start..end]
            <==> forall j :: start <= j < end ==> data[a + (j - start)] == data[j]
  {
    var v, w := data[a..a + (end - start)], data[start..end];
    if forall j :: start <= j < end ==> data[a + (j - start)] == data[j] {
      forall k | 0 <= k < |v| ensures v[k] == w[k] { assert data[a + ((start + k) - start)] == data[start + k]; }
    }
    if v == w {
      forall j | start <= j < end ensures data[a + (j - start)] == data[j] { assert v[j - start] == w[j - start]; }
    }
  }

  /** A back-reference matches what its group captured, byte by byte, and nothing if the group is open or unset. */
  lemma BackrefExact(num: nat, t: Subject, x: St, start: nat, end: nat)
    requires Get(x.caps, num) == Closed(start, end) && start <= end <= |t.data|
    ensures Meaning(Backref(num), t, x) ==
      if x.s + (end - start) <= |t.data| && forall j :: start <= j < end ==> t.data[x.s + (j - start)] == t.data[j]
      then [x.(s := x.s + (end - start), prev := if end == start then x.s else x.s + (end - start) - 1)] else []
  {
    assert Meaning(Backref(num), t, x) == BackrefMeaning(t, num, x);
    BackrefText(num, t, x, start, end);
  }

  lemma BackrefText(num: nat, t: Subject, x: St, start: nat, end: nat)
    requires Get(x.caps, num) == Closed(start, end) && start <= end <= |t.data|
    ensures BackrefMeaning(t, num, x) ==
      if x.s + (end - start) <= |t.data| && forall j :: start <= j < end ==> t.data[x.s + (j - start)] == t.data[j]
      then [x.(s := x.s + (end - start), prev := if end == start then x.s else x.s + (end - start) - 1)] else []
  {
    if x.s + (end - start) <= |t.data| { SameText(t.data, x.s, start, end); }
  }

  lemma BackrefFails(num: nat, t: Subject, x: St)
    requires !Get(x.caps, num).Closed?
    ensures Meaning(Backref(num), t, x) == []
  {
  }
}
