/** Finding an embedded file: a bloom filter turns most strangers away, a perfect hash
    picks the one slot to look at, and the stored 64-bit hash decides. Machine words
    are bit vectors, so that multiplication and addition wrap round. */
module EmbedLookup {
  import opened Options

  /** A path as bytes, lower-cased, without the final zero. */
  type Path = seq<bv8>

  datatype Entry = Entry(hash: bv64, path: Path, isDirectory: bool)

  /** The blob: header sizes and the tables they describe. */
  datatype Blob = Blob(numEntries: nat, numBuckets: nat, numHashes: nat, numBits: nat,
                       bloom: seq<bv64>, seeds: seq<bv32>, entries: seq<Entry>)

  const FNV_OFFSET: bv64 := 0xcbf29ce484222325
  const FNV_PRIME: bv64 := 0x100000001b3

  /** FNV-1a. */
  function Hash(p: Path): bv64 {
    if p == [] then FNV_OFFSET else HashStep(Hash(p[..|p| - 1]), p[|p| - 1])
  }

  function HashStep(h: bv64, c: bv8): bv64 {
    (h ^ (c as bv64)) * FNV_PRIME
  }

  /** The splitmix64 finaliser, salted with the bucket's seed. */
  function ChdMix(h: bv64, seed: bv32): bv64 {
    var a := h ^ ((seed as bv64) * 0x9E3779B97F4A7C15);
    var b := (a ^ (a >> 30)) * 0xbf58476d1ce4e5b9;
    var c := (b ^ (b >> 27)) * 0x94d049bb133111eb;
    c ^ (c >> 31)
  }

  /** A word reduced to an index. */
  function Reduce(x: bv64, n: nat): (r: nat)
    requires n > 0
    ensures r < n
  {
    Remainder(x as nat, n)
  }

  function Remainder(x: nat, n: nat): (r: nat)
    requires n > 0
    ensures r < n
  {
    x % n
  }

  /** The i-th bit of the filter that a hash sets. */
  function BloomBit(h: bv64, i: nat, bits: nat): (bit: nat)
    requires bits > 0 && i < 0x1_0000_0000
    ensures bit < bits
  {
    Reduce(h * 0x9E3779B97F4A7C15 + (i as bv64) * 0xbf58476d1ce4e5b9, bits)
  }

  /** Known values of the hash of a path, of the finaliser and of the bits of the filter. */
  lemma KnownHashes()
    ensures Hash([]) == 0xcbf29ce484222325 && Hash([97]) == 0xaf63dc4c8601ec8c
    ensures ChdMix(0, 0) == 0 && ChdMix(0, 1) == 0xe220a8397b1dcdaf
    ensures ChdMix(0xaf63dc4c8601ec8c, 7) == 0x85c488a451e546a7
    ensures BloomBit(1, 0, 1000) == 485 && BloomBit(0, 1, 1000) == 929
  {
    assert [97 as bv8][..0] == [];
    assert Hash([97]) == HashStep(Hash([]), 97);
    assert (0x9E3779B97F4A7C15 as bv64) as nat == 0x9E3779B97F4A7C15;
    assert (0xbf58476d1ce4e5b9 as bv64) as nat == 0xbf58476d1ce4e5b9;
  }

  /** The place of a bit in its word. */
  function Place(n: nat): bv6
    requires n < 64
  {
    n as bv6
  }

  function Bit(p: bv6): bv64 {
    (1 as bv64) << p
  }

  function Mask(bit: nat): bv64 {
    Bit(Place(bit % 64))
  }

  function With(w: bv64, m: bv64): bv64 {
    w | m
  }

  predicate Meets(w: bv64, m: bv64) {
    w & m != 0
  }

  predicate BitSet(bloom: seq<bv64>, bit: nat)
    requires bit < 64 * |bloom|
  {
    Meets(bloom[bit / 64], Mask(bit))
  }

  /** The sizes in the header are those of the tables, and fit their 32-bit fields. */
  predicate Sized(b: Blob) {
    && b.numEntries == |b.entries|
    && (b.numEntries > 0 ==>
          && b.numBuckets == |b.seeds| > 0 && b.numBuckets < 0x1_0000_0000
          && 0 < b.numBits <= 64 * |b.bloom|
          && b.numHashes < 0x1_0000_0000)
  }

  function Bucket(b: Blob, h: bv64): (r: nat)
    requires Sized(b) && b.numEntries > 0
    ensures r < |b.seeds|
  {
    Reduce(h, b.numBuckets)
  }

  function SlotOf(b: Blob, h: bv64): (r: nat)
    requires Sized(b) && b.numEntries > 0
    ensures r < |b.entries|
  {
    hide ChdMix;
    Reduce(ChdMix(h, b.seeds[Bucket(b, h)]), b.numEntries)
  }

  predicate MayContain(b: Blob, h: bv64)
    requires Sized(b) && b.numEntries > 0
  {
    forall i | 0 <= i < b.numHashes :: BitSet(b.bloom, BloomBit(h, i, b.numBits))
  }

  /* ----- building the filter ----- */

  function WithBit(bloom: seq<bv64>, bit: nat): (r: seq<bv64>)
    requires bit < 64 * |bloom|
    ensures |r| == |bloom|
  {
    bloom[bit / 64 := With(bloom[bit / 64], Mask(bit))]
  }

  /** The filter after the first `n` bits of a hash have been set. */
  function Insert(bloom: seq<bv64>, h: bv64, n: nat, bits: nat): (r: seq<bv64>)
    requires 0 < bits <= 64 * |bloom| && n < 0x1_0000_0000
    ensures |r| == |bloom|
  {
    if n == 0 then bloom else WithBit(Insert(bloom, h, n - 1, bits), BloomBit(h, n - 1, bits))
  }

  /** The filter of some entries: each in turn sets its bits in `words` empty words. */
  function Built(es: seq<Entry>, words: nat, n: nat, bits: nat): (r: seq<bv64>)
    requires 0 < bits <= 64 * words && n < 0x1_0000_0000
    ensures |r| == words
  {
    if es == [] then seq(words, i => 0) else Insert(Built(es[..|es| - 1], words, n, bits), es[|es| - 1].hash, n, bits)
  }

  /** Every bit of `small` is set in `big`. */
  predicate Covers(big: seq<bv64>, small: seq<bv64>) {
    |big| == |small| && forall i | 0 <= i < |big| :: Includes(big[i], small[i])
  }

  predicate Includes(v: bv64, w: bv64) {
    v & w == w
  }

  /** What the generator promises: every entry sits in the slot its hash leads to, and
      the filter has the bits that inserting the entries sets. */
  predicate WellFormed(b: Blob) {
    && Sized(b)
    && (forall i | 0 <= i < |b.entries| :: b.entries[i].hash == Hash(b.entries[i].path))
    && (forall i | 0 <= i < |b.entries| :: SlotOf(b, b.entries[i].hash) == i)
    && (b.numEntries > 0 ==> Covers(b.bloom, Built(b.entries, |b.bloom|, b.numHashes, b.numBits)))
  }

  /** Setting a bit sets that one and no other. */
  lemma WithBitSets(bloom: seq<bv64>, bit: nat, y: nat)
    requires bit < 64 * |bloom| && y < 64 * |bloom|
    ensures BitSet(WithBit(bloom, bit), y) <==> BitSet(bloom, y) || y == bit
  {
    hide Mask, Meets, With;
    if y / 64 == bit / 64 {
      assert y == bit <==> y % 64 == bit % 64;
      MaskAdded(bloom[bit / 64], bit, y);
    }
  }

  /** A bit added to a word shows through its own mask only. */
  lemma MaskAdded(w: bv64, x: nat, y: nat)
    ensures Meets(With(w, Mask(x)), Mask(y)) <==> Meets(w, Mask(y)) || x % 64 == y % 64
  {
    hide Meets, With, Bit, Place;
    Places(x % 64);
    Places(y % 64);
    BitAdded(w, Place(x % 64), Place(y % 64));
  }

  lemma BitAdded(w: bv64, a: bv6, b: bv6)
    ensures Meets(With(w, Bit(a)), Bit(b)) <==> Meets(w, Bit(b)) || a == b
  {
    OneBit(b);
    hide Bit, Meets, With;
    if a == b {
      Absorbed(w, Bit(b));
    } else {
      BitsApart(a, b);
      OrMasks(w, Bit(a), Bit(b));
    }
  }

  lemma Absorbed(w: bv64, m: bv64)
    requires m != 0
    ensures Meets(With(w, m), m)
  {
    assert (w | m) & m == m;
  }

  /** A mask added shows nothing through a disjoint one. */
  lemma OrMasks(w: bv64, a: bv64, b: bv64)
    requires !Meets(a, b)
    ensures Meets(With(w, a), b) <==> Meets(w, b)
  {
    MeetsIs(a, b);
    MeetsIs(w, b);
    MeetsIs(w | a, b);
    assert With(w, a) == w | a;
    hide Meets, With;
    Disjoint(w, a, b);
  }

  lemma MeetsIs(w: bv64, m: bv64)
    ensures Meets(w, m) <==> w & m != 0
  {
  }

  lemma Disjoint(w: bv64, a: bv64, b: bv64)
    requires a & b == 0
    ensures (w | a) & b == w & b
  {
  }

  lemma Places(a: nat)
    requires a < 64
    ensures Place(a) as nat == a
  {
  }

  lemma OneBit(x: bv6)
    ensures Bit(x) != 0
  {
  }

  lemma BitsApart(x: bv6, y: bv6)
    requires x != y
    ensures !Meets(Bit(x), Bit(y))
  {
  }

  /** Bit `y` is one of the first `n` that a hash sets. */
  ghost predicate Sets(h: bv64, n: nat, bits: nat, y: nat)
    requires 0 < bits && n < 0x1_0000_0000
  {
    exists i :: 0 <= i < n && BloomBit(h, i, bits) == y
  }

  /** Some entry sets bit `y`. */
  ghost predicate SomeSets(es: seq<Entry>, n: nat, bits: nat, y: nat)
    requires 0 < bits && n < 0x1_0000_0000
  {
    exists k :: 0 <= k < |es| && Sets(es[k].hash, n, bits, y)
  }

  lemma SomeSetsLast(es: seq<Entry>, n: nat, bits: nat, y: nat)
    requires es != [] && 0 < bits && n < 0x1_0000_0000
    ensures var m := |es| - 1;
            SomeSets(es, n, bits, y) <==> SomeSets(es[..m], n, bits, y) || Sets(es[m].hash, n, bits, y)
  {
    hide Sets;
    var m := |es| - 1;
    if SomeSets(es[..m], n, bits, y) {
      var k :| 0 <= k < m && Sets(es[..m][k].hash, n, bits, y);
      assert Sets(es[k].hash, n, bits, y);
    }
    if k :| 0 <= k < |es| && Sets(es[k].hash, n, bits, y) {
      if k < m { assert Sets(es[..m][k].hash, n, bits, y); }
    }
  }

  lemma {:induction false} InsertSets(bloom: seq<bv64>, h: bv64, n: nat, bits: nat, y: nat)
    requires 0 < bits <= 64 * |bloom| && n < 0x1_0000_0000 && y < 64 * |bloom|
    ensures BitSet(Insert(bloom, h, n, bits), y) <==> BitSet(bloom, y) || Sets(h, n, bits, y)
    decreases n
  {
    hide BloomBit, BitSet, WithBit;
    if n > 0 {
      InsertSets(bloom, h, n - 1, bits, y);
      WithBitSets(Insert(bloom, h, n - 1, bits), BloomBit(h, n - 1, bits), y);
      if Sets(h, n, bits, y) && !Sets(h, n - 1, bits, y) {
        assert BloomBit(h, n - 1, bits) == y;
      } else if BloomBit(h, n - 1, bits) == y {
        assert Sets(h, n, bits, y);
      }
    }
  }

  /** The built filter has exactly the bits that some entry sets. */
  lemma {:induction false} BuiltSets(es: seq<Entry>, words: nat, n: nat, bits: nat, y: nat)
    requires 0 < bits <= 64 * words && n < 0x1_0000_0000 && y < 64 * words
    ensures BitSet(Built(es, words, n, bits), y) <==> SomeSets(es, n, bits, y)
    decreases |es|
  {
    hide Mask;
    if es == [] {
      NoBit(words, y);
    } else {
      hide Sets, SomeSets, BitSet, Insert;
      var m := |es| - 1;
      BuiltSets(es[..m], words, n, bits, y);
      SomeSetsLast(es, n, bits, y);
      InsertSets(Built(es[..m], words, n, bits), es[m].hash, n, bits, y);
    }
  }

  lemma NoBit(words: nat, y: nat)
    requires y < 64 * words
    ensures !BitSet(seq(words, i => 0), y)
  {
    hide Mask;
    NoMask(Mask(y));
    assert seq(words, i => 0 as bv64)[y / 64] == 0;
  }

  lemma NoMask(m: bv64)
    ensures 0 & m == 0
  {
  }

  lemma CoveredBit(big: seq<bv64>, small: seq<bv64>, y: nat)
    requires Covers(big, small) && y < 64 * |big| && BitSet(small, y)
    ensures BitSet(big, y)
  {
    hide Mask, Meets, Includes;
    AndMasks(big[y / 64], small[y / 64], Mask(y));
  }

  lemma AndMasks(v: bv64, w: bv64, m: bv64)
    requires Includes(v, w) && Meets(w, m)
    ensures Meets(v, m)
  {
  }

  /** The lookup: at most one slot is ever compared. */
  function Find(b: Blob, p: Path): (r: Option<nat>)
    requires Sized(b)
    ensures r.Some? ==> r.value < |b.entries|
  {
    if b.numEntries == 0 then None
    else
      var h := Hash(p);
      if MayContain(b, h) && b.entries[SlotOf(b, h)].hash == h then Some(SlotOf(b, h)) else None
  }

  /* ----- what it finds ----- */

  /** No stored hash is turned away by the filter: the bits it sets stay set while other
      entries are inserted. */
  lemma NoFalseNegative(b: Blob, i: nat)
    requires WellFormed(b) && i < |b.entries|
    ensures MayContain(b, b.entries[i].hash)
  {
    hide Hash, SlotOf, BloomBit, BitSet, Built;
    var h := b.entries[i].hash;
    var filter := Built(b.entries, |b.bloom|, b.numHashes, b.numBits);
    forall k | 0 <= k < b.numHashes ensures BitSet(b.bloom, BloomBit(h, k, b.numBits)) {
      var y := BloomBit(h, k, b.numBits);
      assert Sets(h, b.numHashes, b.numBits, y);
      assert SomeSets(b.entries, b.numHashes, b.numBits, y);
      BuiltSets(b.entries, |b.bloom|, b.numHashes, b.numBits, y);
      CoveredBit(b.bloom, filter, y);
    }
  }

  /** A filter that has just the bits built passes exactly the hashes all of whose bits
      some entries set. */
  lemma PassesExactly(b: Blob, h: bv64)
    requires Sized(b) && b.numEntries > 0 && b.bloom == Built(b.entries, |b.bloom|, b.numHashes, b.numBits)
    ensures MayContain(b, h) <==>
            forall i :: 0 <= i < b.numHashes ==> SomeSets(b.entries, b.numHashes, b.numBits, BloomBit(h, i, b.numBits))
  {
    hide BloomBit, BitSet, Built, SomeSets;
    forall i | 0 <= i < b.numHashes
      ensures BitSet(b.bloom, BloomBit(h, i, b.numBits))
         <==> SomeSets(b.entries, b.numHashes, b.numBits, BloomBit(h, i, b.numBits))
    {
      BuiltSets(b.entries, |b.bloom|, b.numHashes, b.numBits, BloomBit(h, i, b.numBits));
    }
  }

  /** Entries with the same hash are one entry. */
  lemma HashesDistinct(b: Blob, i: nat, j: nat)
    requires WellFormed(b) && i < |b.entries| && j < |b.entries| && b.entries[i].hash == b.entries[j].hash
    ensures i == j
  {
    hide Hash, SlotOf, Built;
  }

  /** The lookup is a search through all entries by hash, which are all different. */
  lemma FindIsSearch(b: Blob, p: Path, i: nat)
    requires WellFormed(b)
    ensures Find(b, p) == Some(i) <==> i < |b.entries| && b.entries[i].hash == Hash(p)
  {
    hide Hash, MayContain, SlotOf, Built;
    if b.numEntries > 0 && i < |b.entries| && b.entries[i].hash == Hash(p) {
      NoFalseNegative(b, i);
      HashesDistinct(b, i, SlotOf(b, Hash(p)));
    }
  }

  /** The plain map that the blob stands for. */
  ghost predicate Stores(b: Blob, p: Path, i: nat) {
    i < |b.entries| && b.entries[i].path == p
  }

  /** A path the blob does not store, with the hash of one it does. */
  ghost predicate Collides(b: Blob, p: Path) {
    (forall i :: !Stores(b, p, i)) && exists i :: 0 <= i < |b.entries| && b.entries[i].hash == Hash(p)
  }

  /** The lookup agrees with the map on every path, exactly unless the path is a
      stranger with a stored hash: then a stored entry is returned for it. */
  lemma FindRefinesMap(b: Blob, p: Path)
    requires WellFormed(b)
    ensures (forall i: nat :: Find(b, p) == Some(i) <==> Stores(b, p, i)) <==> !Collides(b, p)
    ensures Collides(b, p) ==> Find(b, p).Some?
  {
    hide Hash, MayContain, SlotOf, Find, Built;
    forall i: nat ensures Find(b, p) == Some(i) <==> i < |b.entries| && b.entries[i].hash == Hash(p) {
      FindIsSearch(b, p, i);
    }
    forall i: nat | Stores(b, p, i) ensures Find(b, p) == Some(i) {
      assert b.entries[i].hash == Hash(p);
    }
    if !Collides(b, p) {
      forall i: nat | Find(b, p) == Some(i) ensures Stores(b, p, i) {
        if j: nat :| Stores(b, p, j) { assert Find(b, p) == Some(j); }
      }
    } else {
      var i: nat :| i < |b.entries| && b.entries[i].hash == Hash(p);
      assert Find(b, p) == Some(i) && !Stores(b, p, i);
    }
  }

  /** Well-formed blobs exist for any single path. */
  lemma SingleEntry(p: Path)
    ensures var b := Blob(1, 1, 7, 64, [0xFFFF_FFFF_FFFF_FFFF], [0], [Entry(Hash(p), p, false)]);
            WellFormed(b) && Find(b, p) == Some(0)
  {
    hide Hash, ChdMix, BloomBit, BitSet, Built, MayContain;
    var b := Blob(1, 1, 7, 64, [0xFFFF_FFFF_FFFF_FFFF], [0], [Entry(Hash(p), p, false)]);
    AllCovered(Built(b.entries, 1, 7, 64));
    assert SlotOf(b, Hash(p)) == 0;
    NoFalseNegative(b, 0);
  }

  lemma AllCovered(bloom: seq<bv64>)
    requires |bloom| == 1
    ensures Covers([0xFFFF_FFFF_FFFF_FFFF], bloom)
  {
    assert 0xFFFF_FFFF_FFFF_FFFF & bloom[0] == bloom[0];
  }

  /* ----- the loops ----- */

  method Hash64(p: Path) returns (h: bv64)
    ensures h == Hash(p)
  {
    hide HashStep;
    h := FNV_OFFSET;
    var i := 0;
    while i < |p|
      invariant 0 <= i <= |p| && h == Hash(p[..i])
    {
      assert p[..i + 1][..i] == p[..i];
      h := HashStep(h, p[i]);
      i := i + 1;
    }
    assert p[..i] == p;
  }

  method BloomCheck(b: Blob, h: bv64) returns (maybe: bool)
    requires Sized(b) && b.numEntries > 0
    ensures maybe == MayContain(b, h)
  {
    hide BloomBit, BitSet;
    var i := 0;
    while i < b.numHashes
      invariant 0 <= i <= b.numHashes
      invariant forall j | 0 <= j < i :: BitSet(b.bloom, BloomBit(h, j, b.numBits))
    {
      if !BitSet(b.bloom, BloomBit(h, i, b.numBits)) { return false; }
      i := i + 1;
    }
    return true;
  }

  method EmbedFind(b: Blob, p: Path) returns (r: Option<nat>)
    requires WellFormed(b)
    ensures r == Find(b, p)
    ensures forall i :: r == Some(i) <==> 0 <= i < |b.entries| && b.entries[i].hash == Hash(p)
  {
    forall i: nat ensures Find(b, p) == Some(i) <==> i < |b.entries| && b.entries[i].hash == Hash(p) {
      FindIsSearch(b, p, i);
    }
    hide Hash, ChdMix, MayContain, Reduce, Built;
    if b.numEntries == 0 { return None; }
    var h := Hash64(p);
    var maybe := BloomCheck(b, h);
    if !maybe { return None; }
    var bucket := Reduce(h, b.numBuckets);
    var slot := Reduce(ChdMix(h, b.seeds[bucket]), b.numEntries);
    if b.entries[slot].hash == h { return Some(slot); }
    return None;
  }
}
