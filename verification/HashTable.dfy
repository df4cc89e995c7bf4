/** The chained hash table of st.c:60-525: linked entries that are relinked in place, a bins array that is rebuilt when
    chains get long, and deletion in two steps.  It refines a finite map as long as equal keys hash equally. */
module HashTable {
  const MAX_DENSITY := 5
  const MIN_SIZE := 8
  const DEFAULT_SIZE := 11
  const INT_MAX := 0x7fff_ffff

  type Key = int

  /** primes[i] is 2^(i+3) and a bit. */
  const OFFSETS: seq<nat> := [3, 3, 5, 3, 3, 27, 9, 9, 5, 3, 27, 43, 3, 45, 29, 3, 21, 7, 17, 15, 9, 43, 35, 15, 29, 3,
      11, 85]

  function Power(i: nat): nat { if i == 0 then MIN_SIZE else 2 * Power(i - 1) }

  lemma {:induction false} PowerGrows(i: nat, j: nat)
    requires i <= j
    ensures 0 < Power(i) <= Power(j)
  {
    if i < j { PowerGrows(i, j - 1); } else if i > 0 { PowerGrows(i - 1, i - 1); }
  }

  lemma {:induction false} PowerAdd(i: nat, j: nat)
    ensures MIN_SIZE * Power(i + j) == Power(i) * Power(j)
  {
    if j > 0 {
      PowerAdd(i, j - 1);
      assert Power(i) * Power(j) == 2 * (Power(i) * Power(j - 1));
    }
  }

  lemma LastPower()
    ensures Power(27) == 0x4000_0000
  {
    assert Power(3) == 64;
    PowerAdd(3, 3);
    PowerAdd(6, 6);
    PowerAdd(12, 12);
    PowerAdd(24, 3);
  }

  /** new_size: the first prime of the table for a power of two above size. */
  method NewSize(size: nat) returns (r: nat)
    requires size < 0x4000_0000
    ensures size < r
  {
    var i, newsize := 0, MIN_SIZE;
    LastPower();
    while i < |OFFSETS|
      invariant 0 <= i <= |OFFSETS| && newsize == Power(i) && (i == |OFFSETS| ==> Power(27) <= size)
    {
      if newsize > size { return newsize + OFFSETS[i]; }
      i, newsize := i + 1, 2 * newsize;
    }
    assert false;
  }

  class Entry {
    const hash: nat
    var key: Key
    var record: int
    var next: Entry?

    constructor (hash: nat, key: Key, record: int, next: Entry?)
      ensures this.hash == hash && this.key == key && this.record == record && this.next == next
    {
      this.hash, this.key, this.record, this.next := hash, key, record, next;
    }
  }

  /** Entry k of a list, or the null after its end. */
  ghost function Nth(xs: seq<Entry>, k: nat): Entry? { if k < |xs| then xs[k] else null }

  /** The entries of a bin, linked in this order. */
  ghost predicate Linked(head: Entry?, xs: seq<Entry>)
    reads xs
  {
    head == Nth(xs, 0) && forall k :: 0 <= k < |xs| ==> xs[k].next == Nth(xs, k + 1)
  }

  /** Every entry is in the bin of its hash, once. */
  ghost predicate Binned(chains: seq<seq<Entry>>, nodes: set<Entry>) {
    |chains| > 0
    && (forall i, k :: 0 <= i < |chains| && 0 <= k < |chains[i]| ==>
          chains[i][k] in nodes && chains[i][k].hash % |chains| == i)
    && (forall e :: e in nodes ==> e in chains[e.hash % |chains|])
    && (forall i :: 0 <= i < |chains| ==> Distinct(chains[i]))
  }

  ghost predicate Distinct(xs: seq<Entry>) { forall k, l :: 0 <= k < l < |xs| ==> xs[k] != xs[l] }

  /** Each bin links its entries. */
  ghost predicate AllLinked(bins: array<Entry?>, chains: seq<seq<Entry>>, nodes: set<Entry>)
    requires Binned(chains, nodes)
    reads bins, nodes
  {
    bins.Length == |chains| && forall i :: 0 <= i < |chains| ==> Linked(bins[i], chains[i])
  }

  ghost predicate Chained(bins: array<Entry?>, chains: seq<seq<Entry>>, nodes: set<Entry>)
    reads bins, nodes
  {
    Binned(chains, nodes) && AllLinked(bins, chains, nodes)
  }

  lemma BinnedFront(chains: seq<seq<Entry>>, nodes: set<Entry>, e: Entry)
    requires Binned(chains, nodes) && e !in nodes
    ensures var h := e.hash % |chains|;
      Binned(chains[h := [e] + chains[h]], nodes + {e}) && forall i :: 0 <= i < |chains| ==> e !in chains[i]
  {
    var h := e.hash % |chains|;
    var xs, chains1 := chains[h], chains[h := [e] + chains[h]];
    forall i, k | 0 <= i < |chains1| && 0 <= k < |chains1[i]|
      ensures chains1[i][k] in nodes + {e} && chains1[i][k].hash % |chains1| == i
    {
      if i == h && k > 0 { assert chains1[i][k] == xs[k - 1]; }
    }
    forall i | 0 <= i < |chains1| ensures Distinct(chains1[i]) {
      assert Distinct(chains[i]);
      if i == h {
        forall k, l | 0 <= k < l < |chains1[h]| ensures chains1[h][k] != chains1[h][l] {
          assert chains1[h][l] == xs[l - 1];
        }
      }
    }
    forall f | f in nodes + {e} ensures f in chains1[f.hash % |chains1|] {
      if f == e { assert chains1[h][0] == e; } else if f.hash % |chains| == h { assert f in [e] + xs; }
    }
  }

  lemma LinkedFront(head: Entry?, xs: seq<Entry>, e: Entry)
    requires Linked(head, xs) && e.next == head
    ensures Linked(e, [e] + xs)
  {
    var ys := [e] + xs;
    forall k | 0 <= k < |ys| ensures ys[k].next == Nth(ys, k + 1) {
      if k > 0 { assert ys[k] == xs[k - 1]; }
    }
  }

  /** Puts an entry in front of its bin. */
  method PushFront(bins: array<Entry?>, ghost chains: seq<seq<Entry>>, ghost nodes: set<Entry>, e: Entry)
    returns (ghost chains1: seq<seq<Entry>>)
    requires Chained(bins, chains, nodes) && e !in nodes
    modifies bins, e`next
    ensures |chains1| == |chains| && Chained(bins, chains1, nodes + {e})
  {
    hide Binned, Linked;
    assert |chains| > 0 by { NotEmpty(chains, nodes); }
    BinnedFront(chains, nodes, e);
    var h := e.hash % bins.Length;
    ghost var xs := chains[h];
    assert forall i :: 0 <= i < |chains| ==> Linked(bins[i], chains[i]);
    e.next := bins[h];
    assert forall i :: 0 <= i < |chains| ==> Linked(bins[i], chains[i]);
    LinkedFront(bins[h], xs, e);
    bins[h] := e;
    chains1 := chains[h := [e] + xs];
  }

  lemma NotEmpty(chains: seq<seq<Entry>>, nodes: set<Entry>)
    requires Binned(chains, nodes)
    ensures |chains| > 0
  {
  }

  function Without(xs: seq<Entry>, p: nat): seq<Entry>
    requires p < |xs|
  {
    xs[..p] + xs[p + 1..]
  }

  lemma BinnedWithout(chains: seq<seq<Entry>>, nodes: set<Entry>, i: nat, p: nat)
    requires Binned(chains, nodes) && i < |chains| && p < |chains[i]|
    ensures var e := chains[i][p];
      Binned(chains[i := Without(chains[i], p)], nodes - {e})
      && forall j :: 0 <= j < |chains| && j != i ==> e !in chains[j]
  {
    var xs := chains[i];
    var e, ys := xs[p], Without(xs, p);
    var chains1 := chains[i := ys];
    assert Distinct(xs);
    forall k | 0 <= k < |ys| ensures ys[k] in nodes - {e} && ys[k].hash % |chains| == i {
      assert ys[k] == xs[if k < p then k else k + 1];
    }
    forall j | 0 <= j < |chains1| ensures Distinct(chains1[j]) {
      assert Distinct(chains[j]);
      if j == i {
        forall k, l | 0 <= k < l < |ys| ensures ys[k] != ys[l] {
          assert ys[k] == xs[if k < p then k else k + 1] && ys[l] == xs[if l < p then l else l + 1];
        }
      }
    }
    forall f | f in nodes - {e} ensures f in chains1[f.hash % |chains1|] {
      if f.hash % |chains| == i {
        var k :| 0 <= k < |xs| && xs[k] == f;
        assert f == ys[if k < p then k else k - 1];
      }
    }
  }

  /** Taking an entry out of the middle, after its predecessor has been linked to its successor. */
  lemma LinkedWithout(head: Entry?, xs: seq<Entry>, p: nat)
    requires p < |xs| && (p > 0 ==> head == Nth(xs, 0)) && (p == 0 ==> head == Nth(xs, 1))
    requires forall k :: 0 <= k < |xs| && k != p ==> xs[k].next == Nth(xs, if k + 1 == p then p + 1 else k + 1)
    ensures Linked(head, Without(xs, p))
  {
    var ys := Without(xs, p);
    forall k | 0 <= k < |ys| ensures ys[k].next == Nth(ys, k + 1) {
      assert ys[k] == xs[if k < p then k else k + 1];
    }
  }

  /** Takes entry p of bin i out of its list; `prev` is the entry before it, if there is one. */
  method Unlink(bins: array<Entry?>, ghost chains: seq<seq<Entry>>, ghost nodes: set<Entry>, i: nat, ghost p: nat,
                prev: Entry?, e: Entry)
    returns (ghost chains1: seq<seq<Entry>>)
    requires Chained(bins, chains, nodes) && i < bins.Length && p < |chains[i]| && e == chains[i][p]
    requires prev == if p == 0 then null else chains[i][p - 1]
    modifies bins, if prev == null then {} else {prev}
    ensures chains1 == chains[i := Without(chains[i], p)] && Chained(bins, chains1, nodes - {e})
    ensures prev != null ==> prev.key == old(prev.key) && prev.record == old(prev.record)
  {
    hide Binned, Linked;
    BinnedWithout(chains, nodes, i, p);
    ghost var xs := chains[i];
    assert prev != null ==> forall j :: 0 <= j < |chains| && j != i ==> prev !in chains[j] by {
      if prev != null { BinnedWithout(chains, nodes, i, p - 1); }
    }
    LinkedAt(bins[i], xs);
    DistinctAt(chains, nodes, i);
    assert forall j :: 0 <= j < |chains| && j != i ==> Linked(bins[j], chains[j]);
    if prev == null { bins[i] := e.next; } else { prev.next := e.next; }
    assert forall j :: 0 <= j < |chains| && j != i ==> Linked(bins[j], chains[j]);
    LinkedWithout(bins[i], xs, p);
    chains1 := chains[i := Without(xs, p)];
  }

  lemma LinkedAt(head: Entry?, xs: seq<Entry>)
    requires Linked(head, xs)
    ensures head == Nth(xs, 0) && forall k :: 0 <= k < |xs| ==> xs[k].next == Nth(xs, k + 1)
  {
  }

  lemma DistinctAt(chains: seq<seq<Entry>>, nodes: set<Entry>, i: nat)
    requires Binned(chains, nodes) && i < |chains|
    ensures Distinct(chains[i]) && forall k :: 0 <= k < |chains[i]| ==> chains[i][k] in nodes
  {
  }

  class Table {
    const hashOf: Key -> nat
    const equal: (Key, Key) -> bool
    /** The key that marks entries whose deletion is not finished. */
    const never: Key
    var bins: array<Entry?>
    var numEntries: int
    ghost var chains: seq<seq<Entry>>
    ghost var nodes: set<Entry>
    ghost var live: set<Entry>

    /** Equality is an equivalence and equal keys hash equally. */
    ghost predicate Lawful() {
      (forall a :: equal(a, a)) && (forall a, b :: equal(a, b) ==> equal(b, a) && hashOf(a) == hashOf(b))
      && (forall a, b, c :: equal(a, b) && equal(b, c) ==> equal(a, c))
    }

    lemma Laws(a: Key, b: Key, c: Key)
      requires Lawful()
      ensures equal(a, a) && (equal(a, b) ==> equal(b, a) && hashOf(a) == hashOf(b))
      ensures equal(a, b) && equal(b, c) ==> equal(a, c)
    {
    }

    ghost function Repr(): set<object>
      reads this
    {
      {this, bins} + nodes
    }

    /** Each bin links the entries of its hash. */
    ghost predicate Shape()
      reads this, bins, nodes
    {
      Chained(bins, chains, nodes)
    }

    /** The count is that of the live entries, whose keys differ; the others are marked, and no live key looks
        like them. */
    ghost predicate Entries()
      reads this, nodes
    {
      live <= nodes && numEntries == |live|
      && (forall e :: e in live ==> e.hash == hashOf(e.key) && (nodes != live ==> !equal(e.key, never)))
      && (forall e :: e in nodes && e !in live ==> e.key == never && e.record == never)
      && (forall e, f :: e in live && f in live && equal(e.key, f.key) ==> e == f)
    }

    ghost predicate Valid()
      reads this, bins, nodes
    {
      Lawful() && Shape() && Entries()
    }

    /** The map the table stands for. */
    ghost predicate Maps(k: Key, v: int)
      reads this, nodes
    {
      exists e :: e in live && e in nodes && equal(e.key, k) && e.record == v
    }

    /** Once entries are marked, the marker is no key. */
    ghost predicate Usable(k: Key)
      reads this
    {
      nodes != live ==> !equal(k, never)
    }

    /** e is the live entry of k. */
    ghost predicate Holds(e: Entry, k: Key)
      reads this, e
    {
      e in live && equal(e.key, k)
    }

    ghost predicate Lacks(k: Key)
      reads this, live
    {
      forall f :: f in live ==> !equal(f.key, k)
    }

    /** Keys are found through their one live entry. */
    lemma OnlyEntry(e: Entry, k: Key)
      requires Lawful() && Entries() && Holds(e, k)
      ensures forall v :: Maps(k, v) <==> v == e.record
      ensures forall f :: f in live && equal(f.key, k) ==> f == e
    {
      hide Lawful;
      forall f | f in live && equal(f.key, k) ensures f == e {
        Laws(e.key, k, f.key);
        Laws(f.key, k, e.key);
        Laws(k, e.key, f.key);
      }
    }

    lemma NoEntry(k: Key, h: nat)
      requires Lawful() && Shape() && Entries() && h == hashOf(k)
      requires var xs := chains[h % |chains|]; forall j :: 0 <= j < |xs| ==> !(xs[j].hash == h && equal(k, xs[j].key))
      ensures forall f :: f in live ==> !equal(f.key, k)
    {
      hide Lawful, Linked;
      forall f | f in live ensures !equal(f.key, k) {
        Laws(f.key, k, f.key);
        assert f in chains[f.hash % |chains|];
      }
    }

    constructor (hashOf: Key -> nat, equal: (Key, Key) -> bool, never: Key, size: nat)
      requires (forall a :: equal(a, a)) && (forall a, b :: equal(a, b) ==> equal(b, a) && hashOf(a) == hashOf(b))
      requires (forall a, b, c :: equal(a, b) && equal(b, c) ==> equal(a, c)) && size < 0x4000_0000
      ensures Valid() && fresh(Repr()) && forall k, v :: !Maps(k, v)
    {
      this.hashOf, this.equal, this.never := hashOf, equal, never;
      var n := NewSize(size);
      bins := new Entry?[n](_ => null);
      numEntries := 0;
      chains, nodes, live := seq(n, _ => []), {}, {};
    }

    /** FIND_ENTRY. */
    method Find(k: Key) returns (e: Entry?)
      requires Valid() && Usable(k)
      ensures e == null ==> Lacks(k)
      ensures e != null ==> Holds(e, k)
    {
      hide Lawful, Entries;
      var h := hashOf(k);
      ghost var xs, n := chains[h % bins.Length], 0;
      e := bins[h % bins.Length];
      assert Linked(e, xs);
      while e != null && !(e.hash == h && equal(k, e.key))
        invariant n <= |xs| && e == Nth(xs, n)
        invariant forall j :: 0 <= j < n ==> !(xs[j].hash == h && equal(k, xs[j].key))
        decreases |xs| - n
      {
        assert e.next == xs[n].next;
        e, n := e.next, n + 1;
      }
      if e == null { NoEntry(k, h); } else { FoundLive(e, k); }
    }

    lemma FoundLive(e: Entry, k: Key)
      requires Valid() && e in nodes && equal(k, e.key) && Usable(k)
      ensures Holds(e, k)
    {
      hide Shape, Lawful;
      Laws(k, e.key, k);
    }

    /** st_lookup. */
    method Lookup(k: Key) returns (found: bool, v: int)
      requires Valid() && Usable(k)
      ensures if found then Maps(k, v) else forall w :: !Maps(k, w)
    {
      hide Lawful, Shape;
      var e := Find(k);
      found, v := e != null, 0;
      if e != null {
        v := e.record;
        OnlyEntry(e, k);
      }
    }

    /** A key stands for one value at most. */
    lemma Functional(k: Key, v: int, w: int)
      requires Valid() && Maps(k, v) && Maps(k, w)
      ensures v == w
    {
      hide Lawful, Shape, Entries;
      var e :| e in live && e in nodes && equal(e.key, k) && e.record == v;
      OnlyEntry(e, k);
    }

    /** The chains before i and the first k entries of chain i have moved. */
    ghost predicate Moved(old_: seq<seq<Entry>>, moved: set<Entry>, i: nat, k: nat)
      reads this
    {
      i <= |old_| && moved <= nodes
      && forall j, l :: 0 <= j < |old_| && 0 <= l < |old_[j]| ==> (old_[j][l] in moved <==> j < i || (j == i && l < k))
    }

    /** What has not moved is still linked as it was. */
    ghost predicate Pending(xs: seq<Entry>, k: nat, ptr: Entry?)
      reads xs
    {
      k <= |xs| && ptr == Nth(xs, k) && forall l :: k <= l < |xs| ==> xs[l].next == Nth(xs, l + 1)
    }

    lemma MovedNext(moved: set<Entry>, i: nat, k: nat)
      requires Binned(chains, nodes) && i < |chains| && k < |chains[i]| && Moved(chains, moved, i, k)
      ensures Moved(chains, moved + {chains[i][k]}, i, k + 1) && chains[i][k] !in moved && chains[i][k] in nodes
    {
      var e := chains[i][k];
      assert Distinct(chains[i]);
      forall j, l | 0 <= j < |chains| && 0 <= l < |chains[j]|
        ensures chains[j][l] in moved + {e} <==> j < i || (j == i && l < k + 1)
      {
        if chains[j][l] == e { assert j == i; }
      }
    }

    lemma MovedRow(moved: set<Entry>, i: nat)
      requires Binned(chains, nodes) && i < |chains| && Moved(chains, moved, i, |chains[i]|)
      ensures Moved(chains, moved, i + 1, 0)
    {
    }

    lemma MovedAll(moved: set<Entry>)
      requires Binned(chains, nodes) && Moved(chains, moved, |chains|, 0)
      ensures moved == nodes
    {
      forall e | e in nodes ensures e in moved {
        var xs := chains[e.hash % |chains|];
        var l :| 0 <= l < |xs| && xs[l] == e;
      }
    }

    /** What stays the same while entries are relinked. */
    twostate predicate SameData()
      reads this, nodes
    {
      nodes == old(nodes) && forall e :: e in nodes ==> e.key == old(e.key) && e.record == old(e.record)
    }

    /** The inner loop of rehash. */
    method MoveChain(i: nat, newBins: array<Entry?>, ghost new_: seq<seq<Entry>>, ghost moved: set<Entry>)
      returns (ghost new1: seq<seq<Entry>>, ghost moved1: set<Entry>)
      requires Binned(chains, nodes) && i < bins.Length == |chains| && bins != newBins
      requires Chained(newBins, new_, moved) && Moved(chains, moved, i, 0)
      requires forall j :: i <= j < |chains| ==> Linked(bins[j], chains[j])
      modifies newBins, nodes
      ensures |new1| == |new_| && Chained(newBins, new1, moved1) && Moved(chains, moved1, i + 1, 0) && SameData()
      ensures forall j :: i < j < |chains| ==> Linked(bins[j], chains[j])
    {
      hide Binned, Linked, AllLinked;
      new1, moved1 := new_, moved;
      ghost var xs := chains[i];
      var ptr, k := bins[i], 0;
      PendingStart(i);
      while ptr != null
        invariant |new1| == |new_| && Chained(newBins, new1, moved1) && SameData()
        invariant Pending(xs, k, ptr) && Moved(chains, moved1, i, k)
        invariant forall j :: i < j < |chains| ==> Linked(bins[j], chains[j])
        decreases |xs| - k
      {
        MovedNext(moved1, i, k);
        var next := ptr.next;
        new1 := PushFront(newBins, new1, moved1, ptr);
        moved1 := moved1 + {ptr};
        ptr, k := next, k + 1;
      }
      MovedRow(moved1, i);
    }

    lemma PendingStart(i: nat)
      requires i < bins.Length == |chains| && Linked(bins[i], chains[i])
      ensures Pending(chains[i], 0, bins[i])
    {
    }

    /** rehash: every entry moves to the bin of its hash in a larger array. */
    method Rehash()
      requires Shape() && |chains| + 1 < 0x4000_0000
      modifies this`bins, this`chains, nodes
      ensures Shape() && fresh(bins) && SameData() && |chains| > old(|chains|)
    {
      hide Binned, Linked;
      var n := bins.Length;
      var m := NewSize(n + 1);
      var newBins := new Entry?[m](_ => null);
      ghost var new_: seq<seq<Entry>> := seq(m, _ => []);
      ghost var moved: set<Entry> := {};
      EmptyBins(newBins, new_);
      NoneMoved();
      var i := 0;
      while i < n
        invariant 0 <= i <= n == bins.Length && bins == old(bins) && fresh(newBins) && m == |new_|
            && chains == old(chains)
        invariant Chained(newBins, new_, moved) && Moved(chains, moved, i, 0) && SameData()
        invariant forall j :: i <= j < |chains| ==> Linked(bins[j], chains[j])
      {
        new_, moved := MoveChain(i, newBins, new_, moved);
        i := i + 1;
      }
      MovedAll(moved);
      bins, chains := newBins, new_;
    }

    lemma NoneMoved()
      requires Binned(chains, nodes)
      ensures Moved(chains, {}, 0, 0)
    {
    }

    // -------------------------------------------------------------- changing the map

    /** The map now gives v for k and is otherwise what it was. */
    twostate predicate Stores(k: Key, v: int)
      reads this, nodes
    {
      forall j, w :: Maps(j, w) <==> if equal(j, k) then w == v else old(Maps(j, w))
    }

    /** The map no longer has k and is otherwise what it was. */
    twostate predicate Drops(k: Key)
      reads this, nodes
    {
      forall j, w :: Maps(j, w) <==> !equal(j, k) && old(Maps(j, w))
    }

    /** Storing v for the key of e. */
    twostate lemma StoredMaps(new e: Entry, new k: Key, new v: int)
      requires Lawful() && Entries() && old(live <= nodes) && Holds(e, k) && e.record == v
      requires live == old(live) + {e}
      requires forall f :: f in old(live) && f != e ==> f.key == old(f.key) && f.record == old(f.record)
      requires e in old(live) ==> old(equal(e.key, k))
      requires e !in old(live) ==> old(Lacks(k))
      ensures Stores(k, v)
    {
      hide Lawful;
      OnlyEntry(e, k);
      forall j, w ensures Maps(j, w) <==> if equal(j, k) then w == v else old(Maps(j, w)) {
        Laws(j, k, e.key);
        Laws(e.key, k, j);
        Laws(k, e.key, j);
        Laws(k, j, k);
        if equal(j, k) {
          OnlyEntry(e, j);
        } else {
          if Maps(j, w) {
            var f :| f in live && f in nodes && equal(f.key, j) && f.record == w;
            Laws(f.key, j, k);
            assert f != e by { Laws(j, e.key, k); Laws(e.key, j, k); }
          }
          if old(Maps(j, w)) {
            var f :| f in old(live) && old(equal(f.key, j) && f.record == w);
            if f == e {
              Laws(old(e.key), j, k);
              Laws(j, old(e.key), k);
            }
          }
        }
      }
    }

    twostate lemma AddedEntries(new e: Entry, new k: Key)
      requires Lawful() && old(Entries()) && nodes == old(nodes) + {e} && live == old(live) + {e} && e !in old(nodes)
      requires numEntries == old(numEntries) + 1 && e.key == k && e.hash == hashOf(k) && old(Usable(k))
      requires forall f :: f in old(nodes) ==> f.key == old(f.key) && f.record == old(f.record)
      requires old(Lacks(k))
      ensures Entries()
    {
      hide Lawful;
      forall f, g | f in live && g in live && equal(f.key, g.key) ensures f == g {
        Laws(f.key, g.key, k);
      }
    }

    twostate lemma Added(new e: Entry, new k: Key, new v: int)
      requires Lawful() && old(Entries()) && nodes == old(nodes) + {e} && live == old(live) + {e} && e !in old(nodes)
      requires numEntries == old(numEntries) + 1 && e.key == k && e.record == v && e.hash == hashOf(k)
          && old(Usable(k))
      requires forall f :: f in old(nodes) ==> f.key == old(f.key) && f.record == old(f.record)
      requires old(Lacks(k))
      ensures Entries() && Stores(k, v)
    {
      hide Lawful;
      AddedEntries(e, k);
      Laws(k, k, k);
      StoredMaps(e, k, v);
    }

    /** The density check of ADD_DIRECT. */
    method Grow()
      requires Shape() && 0 <= numEntries <= INT_MAX
      modifies this`bins, this`chains, nodes
      ensures Shape() && SameData() && (bins == old(bins) || fresh(bins))
    {
      hide Chained;
      BinCount();
      if numEntries / bins.Length > MAX_DENSITY { Rehash(); }
    }

    lemma BinCount()
      requires Shape()
      ensures bins.Length == |chains| > 0
    {
    }

    /** The rest of ADD_DIRECT. */
    method Prepend(k: Key, v: int) returns (ghost added: Entry)
      requires Shape()
      modifies this`nodes, this`live, this`chains, this`numEntries, bins
      ensures Shape() && numEntries == old(numEntries) + 1
      ensures fresh(added) && nodes == old(nodes) + {added} && live == old(live) + {added}
      ensures added.key == k && added.record == v && added.hash == hashOf(k)
    {
      hide Binned, Linked;
      var e := new Entry(hashOf(k), k, v, null);
      chains := PushFront(bins, chains, nodes, e);
      nodes, live := nodes + {e}, live + {e};
      numEntries := numEntries + 1;
      added := e;
    }

    /** st_add_direct: the key must be new. */
    method AddDirect(k: Key, v: int)
      requires Valid() && Usable(k) && numEntries < INT_MAX && Lacks(k)
      modifies Repr()
      ensures Valid() && fresh(Repr() - old(Repr())) && numEntries == old(numEntries) + 1
      ensures Stores(k, v)
    {
      hide Lawful, Chained, Entries;
      LiveIn();
      Counted();
      Grow();
      ghost var e := Prepend(k, v);
      Laws(k, k, k);
      Added(e, k, v);
    }

    lemma Counted()
      requires Entries()
      ensures 0 <= numEntries
    {
    }

    /** st_insert. */
    method Insert(k: Key, v: int) returns (replaced: bool)
      requires Valid() && Usable(k) && numEntries < INT_MAX
      modifies Repr()
      ensures Valid() && fresh(Repr() - old(Repr()))
      ensures replaced <==> exists w :: old(Maps(k, w))
      ensures numEntries == old(numEntries) + if replaced then 0 else 1
      ensures Stores(k, v)
    {
      hide Binned, Linked, Lawful, Chained, Entries;
      var e := Find(k);
      if e == null {
        AddDirect(k, v);
        replaced := false;
      } else {
        LiveIn();
        assert Maps(k, e.record);
        e.record := v;
        ShapeKept();
        RecordKept(e);
        StoredMaps(e, k, v);
        replaced := true;
      }
    }

    /** Forgetting the key of e. */
    twostate lemma DroppedMaps(e: Entry, new k: Key)
      requires Lawful() && old(Entries()) && live <= nodes && old(Holds(e, k)) && live == old(live) - {e}
      requires forall f :: f in live ==> f.key == old(f.key) && f.record == old(f.record)
      ensures Drops(k)
    {
      hide Lawful;
      forall j, w ensures Maps(j, w) <==> !equal(j, k) && old(Maps(j, w)) {
        Laws(j, k, old(e.key));
        Laws(k, j, k);
        Laws(old(e.key), k, j);
        Laws(k, old(e.key), j);
        if Maps(j, w) {
          var f :| f in live && f in nodes && equal(f.key, j) && f.record == w;
          Laws(f.key, j, k);
          Laws(f.key, k, old(e.key));
          Laws(old(e.key), k, f.key);
          Laws(k, old(e.key), f.key);
        }
        if old(Maps(j, w)) && !equal(j, k) {
          var f :| f in old(live) && old(equal(f.key, j) && f.record == w);
          Laws(j, old(f.key), k);
          Laws(old(f.key), j, k);
          Laws(j, old(f.key), k);
        }
      }
    }

    /** The entry of a key in its bin, as st_delete and st_delete_safe look for it: by equality alone. */
    lemma InBin(k: Key, f: Entry)
      requires Valid() && Holds(f, k)
      ensures f in chains[hashOf(k) % |chains|]
    {
      hide Lawful, Linked;
      Laws(f.key, k, k);
    }

    lemma LiveHere(e: Entry, k: Key)
      requires Valid() && e in nodes && Usable(k)
      ensures (equal(e.key, k) <==> Holds(e, k)) && (equal(e.key, k) <==> equal(k, e.key))
    {
      hide Shape, Lawful;
      Laws(k, e.key, k);
      Laws(e.key, k, k);
    }

    /** The entry of a key in its bin, and the one before it. */
    method Locate(k: Key) returns (prev: Entry?, e: Entry?, ghost n: nat)
      requires Valid() && Usable(k)
      ensures e == null ==> Lacks(k)
      ensures var xs := chains[hashOf(k) % |chains|];
        e != null ==>
          Holds(e, k) && e in nodes && n < |xs| && xs[n] == e
          && (if n == 0 then prev == null else prev == xs[n - 1] && prev in nodes)
    {
      hide Binned, Lawful, Entries;
      BinCount();
      var h := hashOf(k) % bins.Length;
      ghost var xs := chains[h];
      prev, e, n := null, bins[h], 0;
      assert Linked(e, xs);
      InNodes(h);
      while e != null && !equal(e.key, k)
        invariant n <= |xs| && e == Nth(xs, n) && prev == (if n == 0 then null else xs[n - 1])
        invariant forall j :: 0 <= j < n ==> !equal(xs[j].key, k)
        decreases |xs| - n
      {
        assert e.next == xs[n].next;
        prev, e, n := e, e.next, n + 1;
      }
      if e == null {
        forall f | f in live ensures !equal(f.key, k) {
          if equal(f.key, k) { InBin(k, f); }
        }
      } else {
        LiveHere(e, k);
      }
    }

    lemma InNodes(h: nat)
      requires Shape() && h < |chains|
      ensures forall j :: 0 <= j < |chains[h]| ==> chains[h][j] in nodes
    {
    }

    lemma LiveIn()
      requires Entries()
      ensures live <= nodes
    {
    }

    twostate lemma RecordKept(e: Entry)
      requires old(Entries()) && nodes == old(nodes) && live == old(live) && numEntries == old(numEntries) && e in live
      requires forall f :: f in nodes ==> f.key == old(f.key) && (f != e ==> f.record == old(f.record))
      ensures Entries()
    {
    }

    twostate lemma ShapeKept()
      requires old(Shape()) && nodes == old(nodes) && chains == old(chains) && bins == old(bins)
          && bins[..] == old(bins[..])
      requires forall f :: f in nodes ==> f.next == old(f.next)
      ensures Shape()
    {
      forall i | 0 <= i < |chains| ensures Linked(bins[i], chains[i]) {
        assert bins[i] == bins[..][i] == old(bins[i]);
        assert old(Linked(bins[i], chains[i]));
      }
    }

    twostate lemma RemovedEntries(e: Entry, new k: Key)
      requires Lawful() && old(Entries()) && old(Holds(e, k)) && live == old(live) - {e}
          && numEntries == old(numEntries) - 1
      requires nodes == old(nodes) - {e}
          || (nodes == old(nodes) && e.key == never && e.record == never
              && forall f :: f in live ==> !equal(old(f.key), never))
      requires forall f :: f in nodes && f != e ==> f.key == old(f.key) && f.record == old(f.record)
      ensures Entries()
    {
      hide Lawful;
      if nodes != old(nodes) { assert nodes != live ==> old(nodes) != old(live); }
    }

    lemma NoMarkerKey()
      requires Entries() && forall w :: !Maps(never, w)
      ensures forall f :: f in live ==> !equal(f.key, never)
    {
      forall f | f in live ensures !equal(f.key, never) { if equal(f.key, never) { KeyMaps(f, never); } }
    }

    lemma KeyMaps(e: Entry, k: Key)
      requires Entries() && Holds(e, k)
      ensures Maps(k, e.record)
    {
    }

    lemma NoneMaps(k: Key)
      requires Lawful() && Lacks(k)
      ensures forall j, w :: equal(j, k) ==> !Maps(j, w)
    {
      hide Lawful;
      forall j, w | equal(j, k) ensures !Maps(j, w) {
        forall f | f in live ensures !equal(f.key, j) { Laws(f.key, j, k); }
      }
      assert forall w :: !Maps(k, w) by { Laws(k, k, k); }
    }

    /** st_delete. */
    method Delete(k: Key) returns (found: bool, v: int, key: Key)
      requires Valid() && Usable(k)
      modifies Repr()
      ensures Valid() && nodes <= old(nodes) && bins == old(bins)
      ensures if found then old(Maps(k, v)) else forall w :: !old(Maps(k, w))
      ensures if found then equal(key, k) && exists e :: e in old(live) && old(e.key) == key else key == k
      ensures numEntries == old(numEntries) - if found then 1 else 0
      ensures Drops(k)
    {
      hide Binned, Linked, Lawful, Entries, AllLinked;
      ghost var n;
      var prev, e;
      prev, e, n := Locate(k);
      found, v, key := e != null, 0, k;
      if e == null {
        NoneMaps(k);
        Laws(k, k, k);
        return;
      }
      v, key := e.record, e.key;
      OnlyEntry(e, k);
      BinCount();
      var h := hashOf(k) % bins.Length;
      DistinctAt(chains, nodes, h);
      LiveIn();
      chains := Unlink(bins, chains, nodes, h, n, prev, e);
      nodes, live, numEntries := nodes - {e}, live - {e}, numEntries - 1;
      assert forall f :: f in nodes ==> f.key == old(f.key) && f.record == old(f.record);
      RemovedEntries(e, k);
      DroppedMaps(e, k);
    }

    /** st_delete_safe: the entry stays linked but is marked. */
    method DeleteSafe(k: Key) returns (found: bool, v: int, key: Key)
      requires Valid() && !equal(k, never) && forall w :: !Maps(never, w)
      modifies Repr()
      ensures Valid() && nodes == old(nodes) && bins == old(bins) && chains == old(chains)
      ensures if found then old(Maps(k, v)) else forall w :: !old(Maps(k, w))
      ensures if found then equal(key, k) && exists e :: e in old(live) && old(e.key) == key else key == k
      ensures numEntries == old(numEntries) - if found then 1 else 0
      ensures Drops(k)
    {
      hide Lawful, Entries, Chained;
      ghost var n;
      var prev, e;
      prev, e, n := Locate(k);
      found, v, key := e != null, 0, k;
      if e == null {
        NoneMaps(k);
        Laws(k, k, k);
        return;
      }
      v, key := e.record, e.key;
      OnlyEntry(e, k);
      LiveIn();
      NoMarkerKey();
      e.key, e.record := never, never;
      live, numEntries := live - {e}, numEntries - 1;
      ShapeKept();
      RemovedEntries(e, k);
      DroppedMaps(e, k);
    }

    /** What is left after bins before i, and the first n entries of bin i as it now is, have been cleaned. */
    ghost predicate Cleaned(i: nat, n: nat)
      reads this, nodes
    {
      i <= |chains| && (i < |chains| ==> n <= |chains[i]|)
      && forall j, l :: 0 <= j < |chains| && 0 <= l < |chains[j]| && (j < i || (j == i && l < n)) ==>
           chains[j][l] in nodes && chains[j][l].record != never
    }

    lemma NotCleaned()
      ensures Cleaned(0, 0)
    {
    }

    lemma CleanedAll()
      requires Binned(chains, nodes) && Cleaned(|chains|, 0)
      ensures forall e :: e in nodes ==> e.record != never
    {
      forall e | e in nodes ensures e.record != never {
        var xs := chains[e.hash % |chains|];
        var l :| 0 <= l < |xs| && xs[l] == e;
      }
    }

    /** The entries that have gone are those marked with the record `never`. */
    twostate predicate Swept()
      reads this, nodes
    {
      nodes <= old(nodes)
      && (forall e :: e in nodes ==> e.key == old(e.key) && e.record == old(e.record))
      && forall e :: e in old(nodes) && e !in nodes ==> old(e.record) == never
    }

    /** The inner loop of st_foreach with delete_never. */
    method SweepBin(i: nat)
      requires Shape() && i < bins.Length && Cleaned(i, 0)
      modifies bins, this`chains, this`nodes, this`numEntries, nodes
      ensures Shape() && |chains| == old(|chains|) && Cleaned(i + 1, 0) && Swept()
    {
      hide Binned, Linked, AllLinked, Cleaned;
      var last, ptr: Entry?, n := null, bins[i], 0;
      StartAt(i);
      while ptr != null
        invariant Shape() && |chains| == old(|chains|) && Cleaned(i, n) && Swept()
        invariant n <= |chains[i]| && ptr == Nth(chains[i], n)
            && (if n == 0 then last == null else last == chains[i][n - 1])
        decreases |chains[i]| - n
      {
        BinAt(i);
        if ptr.record == never {
          var tmp := ptr;
          ptr := ptr.next;
          SweepOne(i, n, last, tmp);
        } else {
          CleanedNext(i, n);
          last, ptr, n := ptr, ptr.next, n + 1;
        }
      }
      CleanedRow(i);
    }

    lemma BinAt(i: nat)
      requires Shape() && i < |chains|
      ensures bins.Length == |chains|
      ensures forall k :: 0 <= k < |chains[i]| ==> chains[i][k] in nodes && chains[i][k].next == Nth(chains[i], k + 1)
    {
    }

    lemma CleanedNext(i: nat, n: nat)
      requires Cleaned(i, n) && i < |chains| && n < |chains[i]| && chains[i][n] in nodes && chains[i][n].record != never
      ensures Cleaned(i, n + 1)
    {
    }

    lemma StartAt(i: nat)
      requires Shape() && i < bins.Length
      ensures i < |chains| && bins[i] == Nth(chains[i], 0)
    {
    }

    lemma CleanedRow(i: nat)
      requires i < |chains| && Cleaned(i, |chains[i]|)
      ensures Cleaned(i + 1, 0)
    {
    }

    /** ST_DELETE. */
    method SweepOne(i: nat, ghost n: nat, last: Entry?, tmp: Entry)
      requires Shape() && i < bins.Length && Cleaned(i, n) && n < |chains[i]| && chains[i][n] == tmp
          && tmp.record == never
      requires if n == 0 then last == null else last == chains[i][n - 1] && last in nodes
      modifies bins, this`chains, this`nodes, this`numEntries, nodes
      ensures Shape() && |chains| == old(|chains|) && Cleaned(i, n)
      ensures n <= |chains[i]| == old(|chains[i]|) - 1 && nodes == old(nodes) - {tmp}
      ensures Nth(chains[i], n) == old(tmp.next) && (n > 0 ==> chains[i][n - 1] == last)
      ensures forall e :: e in nodes ==> e.key == old(e.key) && e.record == old(e.record)
    {
      hide Binned, Linked;
      ghost var xs := chains[i];
      LinkedAt(bins[i], xs);
      chains := Unlink(bins, chains, nodes, i, n, last, tmp);
      nodes := nodes - {tmp};
      numEntries := numEntries - 1;
      assert chains[i] == Without(xs, n);
      assert Nth(Without(xs, n), n) == Nth(xs, n + 1);
      assert Cleaned(i, n) by {
        DistinctAt(chains, nodes, i);
        forall j, l | 0 <= j < |chains| && 0 <= l < |chains[j]| && (j < i || (j == i && l < n))
          ensures chains[j][l] in nodes && chains[j][l].record != never
        {
          DistinctAt(chains, nodes, j);
        }
      }
    }

    /** st_cleanup_safe: removes the marked entries.  The count is right again, and the map unchanged, exactly when no
        live entry holds the marker as its record. */
    method CleanupSafe()
      requires Valid()
      modifies Repr()
      ensures Lawful() && Shape() && nodes <= old(nodes) && live <= nodes && numEntries == old(numEntries)
      ensures Entries() <==> forall e :: e in old(live) ==> old(e.record) != never
      ensures Entries() ==> nodes == live
      ensures forall j, w :: Maps(j, w) <==> w != never && old(Maps(j, w))
    {
      hide Binned, AllLinked, Lawful, Cleaned, Entries;
      BinCount();
      NotCleaned();
      var num, i := numEntries, 0;
      while i < bins.Length
        invariant Shape() && |chains| == old(|chains|) == bins.Length && 0 <= i <= bins.Length && bins == old(bins)
        invariant Cleaned(i, 0) && Swept() && live == old(live)
      {
        SweepBin(i);
        i := i + 1;
      }
      BinCount();
      CleanedAll();
      live := live * nodes;
      numEntries := num;
      SweptMaps();
    }

    twostate lemma SweptMaps()
      requires old(Entries()) && Swept() && live == old(live) * nodes && numEntries == old(numEntries)
      requires forall e :: e in nodes ==> e.record != never
      ensures Entries() <==> forall e :: e in old(live) ==> old(e.record) != never
      ensures Entries() ==> nodes == live
      ensures forall j, w :: Maps(j, w) <==> w != never && old(Maps(j, w))
    {
      if forall e :: e in old(live) ==> old(e.record) != never {
        assert live == old(live);
      } else {
        var e :| e in old(live) && old(e.record) == never;
        assert e !in live;
        assert live < old(live);
        Fewer(live, old(live));
      }
    }

    lemma Fewer(a: set<Entry>, b: set<Entry>)
      requires a < b
      ensures |a| < |b|
    {
      assert b == a + (b - a);
    }
  }

  lemma EmptyBins(bins: array<Entry?>, chains: seq<seq<Entry>>)
    requires bins.Length == |chains| > 0
    requires forall i :: 0 <= i < |chains| ==> chains[i] == [] && bins[i] == null
    ensures Chained(bins, chains, {})
  {
  }
}
