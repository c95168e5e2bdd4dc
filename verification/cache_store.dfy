/**
 One cached core: the core volume, the cache volume, the mapping of core lines to cache lines and
 the valid and dirty bits.  The plain disk the cache has to look like is Contents.
 */
module CacheStore {
  import opened Division
  import opened SectorMath

  /** The content of one sector. */
  type Data = int

  datatype Store = Store(
    w: nat,                     // sectors per line
    phys: seq<nat>,             // cache line -> line position on the cache volume
    logical: seq<nat>,          // line position on the cache volume -> cache line
    core: seq<Data>,            // by sector
    data: seq<seq<Data>>,       // by line position and sector within the line
    valid: seq<seq<bool>>,      // by cache line and sector within the line
    dirty: seq<seq<bool>>,
    mapping: map<nat, nat>,     // core line -> cache line
    owner: seq<nat>,            // cache line -> core line it was last mapped for
    free: set<nat>)             // cache lines on the free list

  predicate Sizes(st: Store) {
    && st.w > 0
    && |st.data| == |st.phys| && |st.valid| == |st.phys| && |st.dirty| == |st.phys|
    && |st.logical| == |st.phys| && |st.owner| == |st.phys|
    && (forall p :: 0 <= p < |st.data| ==> |st.data[p]| == st.w)
    && (forall l :: 0 <= l < |st.valid| ==> |st.valid[l]| == st.w)
    && (forall l :: 0 <= l < |st.dirty| ==> |st.dirty[l]| == st.w)
    && (forall l :: 0 <= l < |st.phys| ==> st.phys[l] < |st.phys| && st.logical[st.phys[l]] == l)
  }

  predicate InUse(st: Store, l: nat)
    requires l < |st.owner|
  {
    st.owner[l] in st.mapping && st.mapping[st.owner[l]] == l
  }

  ghost predicate Mapping(st: Store)
    requires |st.owner| == |st.phys|
  {
    && (forall k :: k in st.mapping ==> st.mapping[k] < |st.phys| && st.owner[st.mapping[k]] == k)
    && (forall l: nat :: l in st.free <==> l < |st.phys| && !InUse(st, l))
  }

  /** Structure without regard to data: bits of free lines are clear, dirty implies valid. */
  ghost predicate Shape(st: Store) {
    && Sizes(st) && Mapping(st)
    && (forall l, o :: 0 <= l < |st.phys| && 0 <= o < st.w && st.dirty[l][o] ==> st.valid[l][o])
    && (forall l, o :: l in st.free && 0 <= o < st.w ==> !st.valid[l][o])
    && (forall k, o :: k in st.mapping && 0 <= o < st.w && st.valid[st.mapping[k]][o] ==> Times(k, st.w) + o < |st.core|)
  }

  /** Is sector x of the core cached, and is it newer in the cache? */
  ghost predicate V(st: Store, x: nat)
    requires Shape(st)
  {
    Quot(x, st.w) in st.mapping && st.valid[st.mapping[Quot(x, st.w)]][Rem(x, st.w)]
  }

  ghost predicate D(st: Store, x: nat)
    requires Shape(st)
  {
    Quot(x, st.w) in st.mapping && st.dirty[st.mapping[Quot(x, st.w)]][Rem(x, st.w)]
  }

  /** The cache volume's copy of sector x. */
  ghost function C(st: Store, x: nat): Data
    requires Shape(st) && Quot(x, st.w) in st.mapping
  {
    st.data[st.phys[st.mapping[Quot(x, st.w)]]][Rem(x, st.w)]
  }

  ghost function Latest(st: Store, x: nat): Data
    requires Shape(st) && x < |st.core|
  {
    if D(st, x) then C(st, x) else st.core[x]
  }

  /** What a reader must see: the content of the plain disk. */
  ghost function Contents(st: Store): seq<Data>
    requires Shape(st)
  {
    seq(|st.core|, x requires 0 <= x < |st.core| => Latest(st, x))
  }

  /** A valid sector is as recent as any. */
  ghost predicate Coherent(st: Store) {
    Shape(st) && forall x: nat :: V(st, x) && !D(st, x) ==> x < |st.core| && C(st, x) == st.core[x]
  }

  function Overwrite(disk: seq<Data>, a: nat, buf: seq<Data>): seq<Data>
    requires a + |buf| <= |disk|
  {
    disk[..a] + buf + disk[a + |buf|..]
  }

  predicate In(x: nat, a: nat, n: int) {
    a <= x < a + n
  }

  lemma ValidInCore(st: Store, x: nat)
    requires Shape(st) && V(st, x)
    ensures x < |st.core|
  {
    Split(x, st.w);
  }

  // ----- what single steps do, sector by sector -----

  predicate SameDevice(st: Store, st': Store) {
    st'.w == st.w && st'.phys == st.phys && st'.logical == st.logical && |st'.core| == |st.core|
  }

  /** Nothing is lost: clean copies may go away and lines may be reassigned. */
  ghost predicate Calm(st: Store, st': Store)
    requires Shape(st)
  {
    && Shape(st') && SameDevice(st, st') && st'.core == st.core
    && (forall x: nat :: V(st', x) ==> V(st, x) && C(st', x) == C(st, x))
    && (forall x: nat :: D(st', x) <==> D(st, x))
  }

  ghost predicate ValidSet(st: Store, st': Store, a: nat, n: nat)
    requires Shape(st)
  {
    && st' == st.(valid := st'.valid) && Shape(st')
    && forall x: nat :: V(st', x) <==> V(st, x) || In(x, a, n)
  }

  ghost predicate DirtySet(st: Store, st': Store, a: nat, n: nat)
    requires Shape(st)
  {
    && st' == st.(dirty := st'.dirty) && Shape(st')
    && forall x: nat :: D(st', x) <==> D(st, x) || In(x, a, n)
  }

  ghost predicate DirtyCleared(st: Store, st': Store, a: nat, n: nat)
    requires Shape(st)
  {
    && st' == st.(dirty := st'.dirty) && Shape(st')
    && forall x: nat :: D(st', x) <==> D(st, x) && !In(x, a, n)
  }

  ghost predicate Written(st: Store, st': Store, a: nat, buf: seq<Data>)
    requires Shape(st)
  {
    && st' == st.(data := st'.data) && Shape(st')
    && forall x: nat :: Quot(x, st.w) in st.mapping ==> C(st', x) == if In(x, a, |buf|) then buf[x - a] else C(st, x)
  }

  /** Dirty sectors of the core lines from lo up to hi are copied back and become clean. */
  ghost predicate Cleaned(st: Store, st': Store, lo: nat, hi: nat)
    requires Shape(st)
  {
    && st' == st.(core := st'.core, dirty := st'.dirty) && Shape(st') && |st'.core| == |st.core|
    && (forall x: nat :: D(st', x) <==> D(st, x) && !(lo <= Quot(x, st.w) < hi))
    && (forall x: nat :: x < |st.core| ==> st'.core[x] == if lo <= Quot(x, st.w) < hi then Latest(st, x) else st.core[x])
  }

  ghost predicate Purged(st: Store, st': Store, a: nat, n: nat)
    requires Shape(st)
  {
    && Shape(st') && SameDevice(st, st') && st'.core == st.core
    && (forall x: nat :: V(st', x) <==> V(st, x) && !In(x, a, n))
    && (forall x: nat :: V(st', x) ==> C(st', x) == C(st, x))
    && (forall x: nat :: D(st', x) <==> D(st, x) && !In(x, a, n))
  }

  // ----- what that means for the plain disk -----

  lemma CalmKeeps(st: Store, st': Store)
    requires Coherent(st) && Calm(st, st')
    ensures Coherent(st') && Contents(st') == Contents(st)
  {
    forall x: nat | x < |st.core| ensures Latest(st', x) == Latest(st, x) {
      if D(st, x) { assert D(st', x) && V(st', x); }
    }
  }

  lemma CleanedKeeps(st: Store, st': Store, lo: nat, hi: nat)
    requires Coherent(st) && Cleaned(st, st', lo, hi)
    ensures Coherent(st') && Contents(st') == Contents(st)
  {
    forall x: nat | V(st', x) && !D(st', x) ensures x < |st'.core| && C(st', x) == st'.core[x] {
      CleanedSector(st, st', lo, hi, x);
    }
    forall x: nat | x < |st.core| ensures Latest(st', x) == Latest(st, x) {
      CleanedSector(st, st', lo, hi, x);
    }
  }

  lemma CleanedSector(st: Store, st': Store, lo: nat, hi: nat, x: nat)
    requires Coherent(st) && Cleaned(st, st', lo, hi)
    ensures x < |st.core| ==> Latest(st', x) == Latest(st, x)
    ensures V(st', x) && !D(st', x) ==> x < |st'.core| && C(st', x) == st'.core[x]
  {
    assert D(st', x) <==> D(st, x) && !(lo <= Quot(x, st.w) < hi);
    if V(st', x) {
      assert V(st, x);
      ValidInCore(st, x);
    }
  }

  lemma OverwriteAt(disk: seq<Data>, a: nat, buf: seq<Data>, x: nat)
    requires a + |buf| <= |disk| && x < |disk|
    ensures |Overwrite(disk, a, buf)| == |disk|
    ensures Overwrite(disk, a, buf)[x] == if In(x, a, |buf|) then buf[x - a] else disk[x]
  {
  }

  /** A store that differs from a coherent one by a completed write shows the overwritten disk. */
  lemma WriteShows(st: Store, st': Store, a: nat, buf: seq<Data>)
    requires Coherent(st) && a + |buf| <= |st.core| && Shape(st') && SameDevice(st, st')
    requires forall x: nat :: V(st', x) && !D(st', x) ==> x < |st.core| && C(st', x) == st'.core[x]
    requires forall x: nat :: x < |st.core| ==> Latest(st', x) == if In(x, a, |buf|) then buf[x - a] else Latest(st, x)
    ensures Coherent(st') && Contents(st') == Overwrite(Contents(st), a, buf)
  {
    forall x: nat | x < |st.core| ensures Contents(st')[x] == Overwrite(Contents(st), a, buf)[x] {
      OverwriteAt(Contents(st), a, buf, x);
    }
  }
}
