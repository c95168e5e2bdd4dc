/** Mapping, dropping, cleaning and purging single lines. */
module CacheLines {
  import opened Division
  import opened SectorMath
  import opened CacheStore
  import opened CacheBits
  import opened CacheIo
  import opened CacheRequest

  /** Core line k gets the free cache line l. */
  function MapLine(st: Store, k: nat, l: nat): Store
    requires l < |st.owner|
  {
    st.(mapping := st.mapping[k := l], owner := st.owner[l := k], free := st.free - {l})
  }

  lemma MapLineOK(st: Store, k: nat, l: nat)
    requires Shape(st) && k !in st.mapping && l in st.free
    ensures Shape(MapLine(st, k, l)) && Calm(st, MapLine(st, k, l)) && !AnySet(st.valid[l])
  {
    var st' := MapLine(st, k, l);
    assert Shape(st');
  }

  /** Clear valid bits of core line k; a line without valid bits and without waiters goes back to the free list. */
  function DropLine(st: Store, k: nat, s: nat, e: nat, waiters: bool): Store
    requires Sizes(st) && k in st.mapping && st.mapping[k] < |st.phys|
  {
    var l := st.mapping[k];
    var st' := st.(valid := st.valid[l := Mark(st.valid[l], s, e, false)]);
    if !AnySet(st'.valid[l]) && !waiters then st'.(mapping := st'.mapping - {k}, free := st'.free + {l}) else st'
  }

  ghost predicate Dropped(st: Store, st': Store, k: nat, s: nat, e: nat)
    requires Shape(st)
  {
    && Shape(st') && st' == st.(valid := st'.valid, mapping := st'.mapping, free := st'.free)
    && (st'.mapping == st.mapping || st'.mapping == st.mapping - {k})
    && (forall x: nat :: V(st', x) <==> V(st, x) && !(Quot(x, st.w) == k && s <= Rem(x, st.w) <= e))
    && (forall x: nat :: D(st', x) <==> D(st, x))
    && (forall x: nat :: V(st', x) ==> C(st', x) == C(st, x))
  }

  lemma DropShape(st: Store, k: nat, s: nat, e: nat, waiters: bool)
    requires Shape(st) && k in st.mapping
    requires forall o :: 0 <= o < st.w && s <= o <= e ==> !st.dirty[st.mapping[k]][o]
    ensures Shape(DropLine(st, k, s, e, waiters))
  {
    var st' := DropLine(st, k, s, e, waiters);
    var l := st.mapping[k];
    assert Sizes(st');
    assert Mapping(st');
  }

  lemma DropOK(st: Store, k: nat, s: nat, e: nat, waiters: bool)
    requires Shape(st) && k in st.mapping
    requires forall o :: 0 <= o < st.w && s <= o <= e ==> !st.dirty[st.mapping[k]][o]
    ensures Dropped(st, DropLine(st, k, s, e, waiters), k, s, e)
    ensures !waiters && s == 0 && e == st.w - 1 ==> k !in DropLine(st, k, s, e, waiters).mapping
  {
    DropShape(st, k, s, e, waiters);
    var st' := DropLine(st, k, s, e, waiters);
    forall x: nat
      ensures V(st', x) <==> V(st, x) && !(Quot(x, st.w) == k && s <= Rem(x, st.w) <= e)
      ensures D(st', x) <==> D(st, x)
    {
      DropSector(st, k, s, e, waiters, x);
    }
  }

  lemma DropSector(st: Store, k: nat, s: nat, e: nat, waiters: bool, x: nat)
    requires Shape(st) && k in st.mapping && Shape(DropLine(st, k, s, e, waiters))
    requires forall o :: 0 <= o < st.w && s <= o <= e ==> !st.dirty[st.mapping[k]][o]
    ensures var st' := DropLine(st, k, s, e, waiters);
      && (V(st', x) <==> V(st, x) && !(Quot(x, st.w) == k && s <= Rem(x, st.w) <= e))
      && (D(st', x) <==> D(st, x))
  {
    if Quot(x, st.w) == k {
      var l := st.mapping[k];
      var bits := Mark(st.valid[l], s, e, false);
      assert st.dirty[l][Rem(x, st.w)] ==> bits[Rem(x, st.w)];
    }
  }

  /** The core volume with the dirty sectors of core line k copied back. */
  function CopyBack(core: seq<Data>, w: nat, k: nat, bits: seq<bool>, line: seq<Data>): seq<Data>
    requires 0 < w == |bits| == |line|
  {
    seq(|core|, x requires 0 <= x < |core| => if Quot(x, w) == k && bits[Rem(x, w)] then line[Rem(x, w)] else core[x])
  }

  function CleanLine(st: Store, k: nat): Store
    requires Sizes(st) && k in st.mapping && st.mapping[k] < |st.phys|
  {
    var l := st.mapping[k];
    st.(core := CopyBack(st.core, st.w, k, st.dirty[l], st.data[st.phys[l]]),
        dirty := st.dirty[l := Mark(st.dirty[l], 0, st.w - 1, false)])
  }

  lemma CleanLineOK(st: Store, k: nat)
    requires Shape(st) && k in st.mapping
    ensures Cleaned(st, CleanLine(st, k), k, k + 1)
  {
    var st' := CleanLine(st, k);
    assert Shape(st');
    forall x: nat ensures D(st', x) <==> D(st, x) && !(k <= Quot(x, st.w) < k + 1) {}
  }

  // ----- loops over lines -----

  lemma CalmTrans(st: Store, st1: Store, st2: Store)
    requires Shape(st) && Calm(st, st1) && Calm(st1, st2)
    ensures Calm(st, st2)
  {
  }

  lemma DroppedCalm(st: Store, st': Store, k: nat, s: nat, e: nat)
    requires Shape(st) && Dropped(st, st', k, s, e)
    ensures Calm(st, st')
  {
  }

  lemma DropCalm(st: Store, k: nat)
    requires Shape(st) && k in st.mapping && forall o :: 0 <= o < st.w ==> !st.dirty[st.mapping[k]][o]
    ensures Calm(st, DropLine(st, k, 0, st.w - 1, false))
  {
    DropOK(st, k, 0, st.w - 1, false);
    DroppedCalm(st, DropLine(st, k, 0, st.w - 1, false), k, 0, st.w - 1);
  }

  ghost predicate Evictable(st: Store, k: nat)
    requires Shape(st) && k in st.mapping
  {
    !AnySet(st.dirty[st.mapping[k]])
  }

  /** The victims that can be evicted. */
  ghost function Reclaimable(st: Store, victims: seq<nat>): set<nat>
    requires Shape(st)
  {
    set k | k in victims && k in st.mapping && Evictable(st, k)
  }

  /** The clean lines among the victims, n in number, were unlocked from their core lines; nothing else was. */
  ghost predicate Freed(st: Store, st': Store, victims: seq<nat>, n: nat)
    requires Shape(st)
  {
    && st'.dirty == st.dirty && |st'.valid| == |st.valid| && |st'.free| == |st.free| + n && n == |Reclaimable(st, victims)|
    && forall k ::
         && (k in st'.mapping <==> k in st.mapping && !(k in victims && Evictable(st, k)))
         && (k in st'.mapping ==> st'.mapping[k] == st.mapping[k] && st'.valid[st.mapping[k]] == st.valid[st.mapping[k]])
  }

  lemma FreedSkip(st: Store, st1: Store, victims: seq<nat>, k: nat, n: nat)
    requires Shape(st) && Shape(st1) && Freed(st, st1, victims, n) && !(k in st1.mapping && Evictable(st1, k))
    ensures Freed(st, st1, victims + [k], n)
  {
    assert Reclaimable(st, victims + [k]) == Reclaimable(st, victims);
  }

  lemma ReclaimMore(st: Store, victims: seq<nat>, k: nat)
    requires Shape(st) && k in st.mapping && Evictable(st, k) && k !in victims
    ensures |Reclaimable(st, victims + [k])| == |Reclaimable(st, victims)| + 1
  {
    assert Reclaimable(st, victims + [k]) == Reclaimable(st, victims) + {k};
  }

  lemma FreedMore(st: Store, st1: Store, victims: seq<nat>, k: nat, n: nat)
    requires Shape(st) && Shape(st1) && Freed(st, st1, victims, n) && k in st1.mapping && Evictable(st1, k)
    ensures Freed(st, DropLine(st1, k, 0, st1.w - 1, false), victims + [k], n + 1)
  {
    ReclaimMore(st, victims, k);
    DropFrees(st1, k);
  }

  lemma DropFrees(st: Store, k: nat)
    requires Shape(st) && k in st.mapping
    ensures var st' := DropLine(st, k, 0, st.w - 1, false);
      && st'.mapping == st.mapping - {k} && |st'.free| == |st.free| + 1 && st'.dirty == st.dirty && |st'.valid| == |st.valid|
      && forall m :: m in st.mapping && m != k ==> st'.valid[st.mapping[m]] == st.valid[st.mapping[m]]
  {
    var st' := DropLine(st, k, 0, st.w - 1, false);
    assert !AnySet(st'.valid[st.mapping[k]]);
    assert InUse(st, st.mapping[k]);
    assert st'.free == st.free + {st.mapping[k]} && st.mapping[k] !in st.free;
  }

  lemma TallyStore(st: Store, st': Store, r: Req, info: Info, i: nat)
    requires Sizes(st) && r.n > 0 && i <= |r.entries| && Tally(st, r, info, i)
    requires st'.w == st.w && st'.phys == st.phys && st'.valid == st.valid && st'.dirty == st.dirty
    ensures Tally(st', r, info, i)
  {
    forall j | 0 <= j < i
      ensures LineHit(st', r, j) == LineHit(st, r, j)
      ensures LineDirty(st', r, j) == LineDirty(st, r, j) && LineAllDirty(st', r, j) == LineAllDirty(st, r, j)
    {
    }
    assert InSequence(st', r.entries, i) <==> InSequence(st, r.entries, i);
  }

  lemma TallyMapped(st: Store, r: Req, i: nat, k: nat, l: nat)
    requires Sizes(st) && r.n > 0 && i <= |r.entries| && l < |st.phys| && Tally(st, r, r.info, i)
    ensures Tally(MapLine(st, k, l), r, r.info, i)
  {
    TallyStore(st, MapLine(st, k, l), r, r.info, i);
  }

  lemma MapEntriesKept(st: Store, r: Req, i: nat, l: nat)
    requires st.w > 0 && i < |r.entries| && l < |st.owner| && EntriesUpto(st, r, i) && Quot(r.a, st.w) + i !in st.mapping
    ensures EntriesUpto(MapLine(st, Quot(r.a, st.w) + i, l), r, i)
  {
    var st' := MapLine(st, Quot(r.a, st.w) + i, l);
    forall j | 0 <= j < i ensures EntryOK(st', Quot(r.a, st.w) + j, r.entries[j]) && EmptyIfMapped(st', r.entries[j]) {
      assert EntryOK(st, Quot(r.a, st.w) + j, r.entries[j]) && EmptyIfMapped(st, r.entries[j]);
    }
  }

  /** Mapping line i leaves what was found for the lines before it. */
  lemma MapStep(st: Store, r: Req, i: nat, l: nat)
    requires Shape(st) && i < |r.entries| && TraversedUpto(st, r, i)
    requires Quot(r.a, st.w) + i !in st.mapping && l in st.free
    ensures var st' := MapLine(st, Quot(r.a, st.w) + i, l);
      && Shape(st') && Calm(st, st') && TraversedUpto(st', r, i)
      && EntryOK(st', Quot(r.a, st.w) + i, Mapped(l)) && EmptyIfMapped(st', Mapped(l))
  {
    var k := Quot(r.a, st.w) + i;
    MapLineOK(st, k, l);
    MapEntriesKept(st, r, i, l);
    TallyMapped(st, r, i, k, l);
  }

  /** Enough free lines are left for what the traversal did not find from line i on. */
  ghost predicate Enough(st: Store, r: Req, i: nat)
    requires st.w > 0 && i <= |r.entries|
  {
    |st.free| >= NonHits(r.entries, |r.entries|) - NonHits(r.entries, i) && EntriesFrom(st, r, i)
    && forall j :: 0 <= j < |r.entries| ==> !r.entries[j].Mapped?
  }

  /** None of the victims is a line of the request. */
  predicate Elsewhere(st: Store, a: nat, n: nat, victims: seq<nat>)
    requires st.w > 0 && n > 0
  {
    forall k :: k in victims ==> !(Quot(a, st.w) <= k < Quot(a, st.w) + Lines(a, n, st.w))
  }

  /** One line of a request, when other lines get evicted. */
  lemma LineKept(st: Store, st': Store, r: Req, victims: seq<nat>, n: nat, j: nat)
    requires Shape(st) && Placed(st, r) && Freed(st, st', victims, n) && Elsewhere(st, r.a, r.n, victims)
    requires st'.w == st.w && j < |r.entries| && !r.entries[j].Mapped?
    ensures EntryOK(st', Quot(r.a, st.w) + j, r.entries[j])
    ensures r.entries[j].Hit? ==> r.entries[j].line < |st.valid| == |st'.valid| && st'.valid[r.entries[j].line] == st.valid[r.entries[j].line]
  {
    assert EntryOK(st, Quot(r.a, st.w) + j, r.entries[j]);
  }

  lemma TallyKept(st: Store, st': Store, r: Req)
    requires Sizes(st) && r.n > 0 && Tally(st, r, r.info, |r.entries|)
    requires st'.w == st.w && st'.phys == st.phys && st'.dirty == st.dirty && |st'.valid| == |st.valid|
    requires forall j :: 0 <= j < |r.entries| && r.entries[j].Hit? ==>
      r.entries[j].line < |st.valid| && st'.valid[r.entries[j].line] == st.valid[r.entries[j].line]
    ensures Tally(st', r, r.info, |r.entries|)
  {
    forall j | 0 <= j < |r.entries|
      ensures LineHit(st', r, j) == LineHit(st, r, j)
      ensures LineDirty(st', r, j) == LineDirty(st, r, j) && LineAllDirty(st', r, j) == LineAllDirty(st, r, j)
    {
    }
    assert InSequence(st', r.entries, |r.entries|) <==> InSequence(st, r.entries, |r.entries|);
  }

  lemma EntriesEvicted(st: Store, st': Store, r: Req, victims: seq<nat>, n: nat)
    requires Shape(st) && Placed(st, r) && Freed(st, st', victims, n) && Elsewhere(st, r.a, r.n, victims)
    requires st'.w == st.w && |st'.core| == |st.core| && forall j :: 0 <= j < |r.entries| ==> !r.entries[j].Mapped?
    ensures EntriesUpto(st', r, |r.entries|)
  {
    forall j: nat | j < |r.entries| ensures EntryOK(st', Quot(r.a, st.w) + j, r.entries[j]) { LineKept(st, st', r, victims, n, j); }
  }

  lemma ValidEvicted(st: Store, st': Store, r: Req, victims: seq<nat>, n: nat)
    requires Shape(st) && Placed(st, r) && Freed(st, st', victims, n) && Elsewhere(st, r.a, r.n, victims)
    requires st'.w == st.w && forall j :: 0 <= j < |r.entries| ==> !r.entries[j].Mapped?
    ensures forall j :: 0 <= j < |r.entries| && r.entries[j].Hit? ==>
      r.entries[j].line < |st.valid| == |st'.valid| && st'.valid[r.entries[j].line] == st.valid[r.entries[j].line]
  {
    forall j: nat | j < |r.entries| && r.entries[j].Hit?
      ensures r.entries[j].line < |st.valid| == |st'.valid| && st'.valid[r.entries[j].line] == st.valid[r.entries[j].line]
    {
      LineKept(st, st', r, victims, n, j);
    }
  }

  /** Evicting other lines leaves what a lookup found as it was. */
  lemma TraversedKept(st: Store, st': Store, r: Req, victims: seq<nat>, n: nat)
    requires Shape(st) && Traversed(st, r) && Freed(st, st', victims, n) && Elsewhere(st, r.a, r.n, victims)
    requires st'.w == st.w && st'.phys == st.phys && |st'.core| == |st.core|
    requires forall j :: 0 <= j < |r.entries| ==> !r.entries[j].Mapped?
    ensures Traversed(st', r)
  {
    EntriesEvicted(st, st', r, victims, n);
    ValidEvicted(st, st', r, victims, n);
    TallyKept(st, st', r);
  }

  predicate EntriesFrom(st: Store, r: Req, i: nat)
    requires st.w > 0
  {
    forall j :: i <= j < |r.entries| ==> EntryOK(st, Quot(r.a, st.w) + j, r.entries[j])
  }

  /** Core lines from k up to k + m that are not mapped. */
  function Missing(mapping: map<nat, nat>, k: nat, m: nat): nat {
    if m == 0 then 0 else Missing(mapping, k, m - 1) + if k + m - 1 in mapping then 0 else 1
  }

  /** A lookup misses exactly the lines that are not mapped. */
  lemma {:induction false} MissingIsNonHits(st: Store, r: Req, m: nat)
    requires st.w > 0 && m <= |r.entries| && forall j :: 0 <= j < m ==> EntryOK(st, Quot(r.a, st.w) + j, r.entries[j]) && !r.entries[j].Mapped?
    ensures Missing(st.mapping, Quot(r.a, st.w), m) == NonHits(r.entries, m)
  {
    if m > 0 {
      MissingIsNonHits(st, r, m - 1);
      assert EntryOK(st, Quot(r.a, st.w) + (m - 1), r.entries[m - 1]);
    }
  }

  /** Core lines that are mapped, other than the victims, stay where they are, with all their valid sectors. */
  predicate Spares(st: Store, st': Store, victims: seq<nat>) {
    && |st'.valid| == |st.valid|
    && forall k :: k in st.mapping && k !in victims ==>
         k in st'.mapping && st'.mapping[k] == st.mapping[k] && st.mapping[k] < |st.valid|
         && st'.valid[st.mapping[k]] == st.valid[st.mapping[k]]
  }

  lemma SparesTrans(st: Store, st1: Store, st2: Store, victims: seq<nat>)
    requires Spares(st, st1, victims) && Spares(st1, st2, [])
    ensures Spares(st, st2, victims)
  {
  }

  lemma FreedSpares(st: Store, st1: Store, st2: Store, victims: seq<nat>, n: nat)
    requires Shape(st) && Shape(st1) && Shape(st2) && st1.mapping == st.mapping && Spares(st, st1, []) && Freed(st1, st2, victims, n)
    ensures Spares(st, st2, victims)
  {
  }

  /** The core lines mapped by the entries from i up to j, of which the first is that of core line first. */
  function Keys(first: nat, entries: seq<Entry>, i: nat, j: nat): set<nat>
    requires j <= |entries|
    decreases j - i
  {
    if i >= j then {}
    else (if entries[i].Mapped? then {first + i} else {}) + Keys(first, entries, i + 1, j)
  }

  lemma {:induction false} KeysLast(first: nat, entries: seq<Entry>, i: nat, j: nat)
    requires i <= j < |entries|
    ensures Keys(first, entries, i, j + 1) == Keys(first, entries, i, j) + if entries[j].Mapped? then {first + j} else {}
    decreases j - i
  {
    if i < j { KeysLast(first, entries, i + 1, j); }
  }

  lemma {:induction false} KeysAbove(first: nat, entries: seq<Entry>, i: nat, j: nat)
    requires j <= |entries|
    ensures forall k :: k in Keys(first, entries, i, j) ==> first + i <= k
    decreases j - i
  {
    if i < j { KeysAbove(first, entries, i + 1, j); }
  }

  lemma KeysFirst(first: nat, entries: seq<Entry>, j: nat)
    requires j < |entries|
    ensures entries[j].Mapped? ==> first + j in Keys(first, entries, j, |entries|)
    ensures Keys(first, entries, j + 1, |entries|) == if entries[j].Mapped? then Keys(first, entries, j, |entries|) - {first + j}
            else Keys(first, entries, j, |entries|)
  {
    KeysAbove(first, entries, j + 1, |entries|);
  }

  /** These core lines, and no others, were added to the mapping m0. */
  predicate Added(m0: map<nat, nat>, m: map<nat, nat>, keys: set<nat>) {
    && (forall k :: k in m0 ==> k in m && m[k] == m0[k] && k !in keys)
    && forall k :: k in m ==> k in m0 || k in keys
  }

  /** The mapping m0 with what the first i entries added. */
  function WithEntries(m0: map<nat, nat>, first: nat, entries: seq<Entry>, i: nat): map<nat, nat>
    requires i <= |entries|
  {
    if i == 0 then m0
    else if entries[i - 1].Mapped? then WithEntries(m0, first, entries, i - 1)[first + i - 1 := entries[i - 1].line]
    else WithEntries(m0, first, entries, i - 1)
  }

  predicate NewEntries(m0: map<nat, nat>, first: nat, entries: seq<Entry>, i: nat)
    requires i <= |entries|
  {
    i == 0 || (NewEntries(m0, first, entries, i - 1) && (entries[i - 1].Mapped? ==> first + i - 1 !in m0))
  }

  /** The first i entries added what they mapped, and nothing else happened to the mapping. */
  predicate Grown(m0: map<nat, nat>, m: map<nat, nat>, first: nat, entries: seq<Entry>, i: nat)
    requires i <= |entries|
  {
    m == WithEntries(m0, first, entries, i) && NewEntries(m0, first, entries, i)
  }

  lemma {:induction false} EntriesFrame(m0: map<nat, nat>, first: nat, entries: seq<Entry>, other: seq<Entry>, i: nat)
    requires i <= |entries| && i <= |other| && forall m :: 0 <= m < i ==> other[m] == entries[m]
    ensures WithEntries(m0, first, other, i) == WithEntries(m0, first, entries, i)
    ensures NewEntries(m0, first, other, i) == NewEntries(m0, first, entries, i)
  {
    if i > 0 { EntriesFrame(m0, first, entries, other, i - 1); }
  }

  lemma {:induction false} GrownAdded(m0: map<nat, nat>, m: map<nat, nat>, first: nat, entries: seq<Entry>, i: nat)
    requires i <= |entries| && Grown(m0, m, first, entries, i)
    ensures Added(m0, m, Keys(first, entries, 0, i))
  {
    if i > 0 {
      GrownAdded(m0, WithEntries(m0, first, entries, i - 1), first, entries, i - 1);
      KeysLast(first, entries, 0, i - 1);
    }
  }

  /** What finding or mapping core line k does to the mapping. */
  predicate EntryTaken(m: map<nat, nat>, m': map<nat, nat>, k: nat, e: Entry) {
    match e
    case Miss => false
    case Hit(_) => m' == m
    case Mapped(l) => k !in m && m' == m[k := l]
  }

  lemma GrownNext(m0: map<nat, nat>, m: map<nat, nat>, m': map<nat, nat>, first: nat, entries: seq<Entry>, i: nat, e: Entry)
    requires i < |entries| && Grown(m0, m, first, entries, i) && EntryTaken(m, m', first + i, e)
    ensures Grown(m0, m', first, entries[i := e], i + 1)
  {
    EntriesFrame(m0, first, entries, entries[i := e], i);
    GrownAdded(m0, m, first, entries, i);
  }

  lemma {:induction false} GrownAll(m0: map<nat, nat>, m: map<nat, nat>, first: nat, entries: seq<Entry>, i: nat)
    requires i <= |entries| && Grown(m0, m, first, entries, i) && forall j :: i <= j < |entries| ==> !entries[j].Mapped?
    ensures Grown(m0, m, first, entries, |entries|)
    decreases |entries| - i
  {
    if i < |entries| { GrownAll(m0, m, first, entries, i + 1); }
  }

  lemma AddedSpares(st: Store, st': Store, keys: set<nat>)
    requires Shape(st) && Added(st.mapping, st'.mapping, keys) && st'.valid == st.valid
    ensures Spares(st, st', [])
  {
  }

  /** The free lines are those that no core line is mapped to. */
  lemma FreeFromMapping(st: Store, st': Store)
    requires Shape(st) && Shape(st') && st'.mapping == st.mapping && |st'.phys| == |st.phys|
    ensures st'.free == st.free
  {
    forall l: nat ensures l in st'.free <==> l in st.free {
      if l < |st.phys| { InUseIff(st, l); InUseIff(st', l); }
    }
  }

  lemma InUseIff(st: Store, l: nat)
    requires Shape(st) && l < |st.phys|
    ensures InUse(st, l) <==> exists k :: k in st.mapping && st.mapping[k] == l
  {
    if InUse(st, l) { assert st.owner[l] in st.mapping && st.mapping[st.owner[l]] == l; }
  }

  /** How the request being mapped, r, relates to the request as it came in, r0. */
  predicate MapEntries(r0: Req, r: Req, i: nat) {
    && r.a == r0.a && r.n == r0.n && |r.entries| == |r0.entries| && i <= |r.entries|
    && (forall j :: 0 <= j < i ==> !r.entries[j].Miss?)
    && (forall j :: i <= j < |r.entries| ==> !r.entries[j].Mapped?)
  }

  /** The mapping loop has reached line i; exact tells that the counters were still up to date when it began. */
  ghost predicate MapProgress(st0: Store, st: Store, r0: Req, r: Req, i: nat, exact: bool)
    requires Shape(st0)
  {
    && Calm(st0, st) && TraversedUpto(st, r, i) && MapEntries(r0, r, i) && (exact ==> Enough(st, r0, i))
    && Grown(st0.mapping, st.mapping, Quot(r.a, st.w), r.entries, i)
  }

  lemma MapEntriesNext(r0: Req, r: Req, i: nat, e: Entry, info: Info)
    requires MapEntries(r0, r, i) && i < |r.entries| && !e.Miss?
    ensures MapEntries(r0, WithEntry(r, i, e).(info := info), i + 1)
  {
  }

  /** Line i of the request is found where it was. */
  lemma FoundNext(st0: Store, st: Store, r0: Req, r: Req, i: nat, exact: bool)
    requires Shape(st0) && i < |r.entries| && MapProgress(st0, st, r0, r, i, exact) && Quot(r.a, st.w) + i in st.mapping
    ensures var e := Hit(st.mapping[Quot(r.a, st.w) + i]);
      CanStep(st, r, i, e) && MapProgress(st0, st, r0, StepReq(st, r, i, e), i + 1, exact)
  {
    var e := Hit(st.mapping[Quot(r.a, st.w) + i]);
    TraverseStep(st, r, i, e);
    FoundRest(st0, st, r0, r, i, exact, e);
  }

  /** The parts of the progress that do not look at the bits. */
  lemma FoundRest(st0: Store, st: Store, r0: Req, r: Req, i: nat, exact: bool, e: Entry)
    requires CanStep(st, r, i, e) && MapEntries(r0, r, i) && (exact ==> Enough(st, r0, i))
    requires Quot(r.a, st.w) + i in st.mapping && e.Hit? && Grown(st0.mapping, st.mapping, Quot(r.a, st.w), r.entries, i)
    ensures var r' := StepReq(st, r, i, e);
      MapEntries(r0, r', i + 1) && (exact ==> Enough(st, r0, i + 1)) && Grown(st0.mapping, st.mapping, Quot(r.a, st.w), r'.entries, i + 1)
  {
    MapEntriesNext(r0, r, i, e, StepReq(st, r, i, e).info);
    ExactFound(st, r0, r, i, exact);
    GrownNext(st0.mapping, st.mapping, st.mapping, Quot(r.a, st.w), r.entries, i, e);
  }

  lemma ExactFound(st: Store, r0: Req, r: Req, i: nat, exact: bool)
    requires st.w > 0 && MapEntries(r0, r, i) && i < |r.entries| && (exact ==> Enough(st, r0, i)) && Quot(r.a, st.w) + i in st.mapping
    ensures exact ==> Enough(st, r0, i + 1)
  {
    if exact { EnoughFound(st, r0, i); }
  }

  lemma EnoughFound(st: Store, r: Req, i: nat)
    requires st.w > 0 && i < |r.entries| && Enough(st, r, i) && Quot(r.a, st.w) + i in st.mapping
    ensures Enough(st, r, i + 1)
  {
    assert EntryOK(st, Quot(r.a, st.w) + i, r.entries[i]);
  }

  /** Line i of the request gets the free line l. */
  lemma MappedNext(st0: Store, st: Store, st': Store, r0: Req, r: Req, i: nat, exact: bool, l: nat)
    requires Shape(st0) && i < |r.entries| && MapProgress(st0, st, r0, r, i, exact)
    requires Quot(r.a, st.w) + i !in st.mapping && l in st.free && l < |st.owner| && st' == MapLine(st, Quot(r.a, st.w) + i, l)
    ensures CanStep(st', r, i, Mapped(l)) && MapProgress(st0, st', r0, StepReq(st', r, i, Mapped(l)), i + 1, exact)
  {
    MappedCalm(st0, st, Quot(r.a, st.w) + i, l);
    MappedTraversed(st, st', r, i, l);
    MappedRest(st0, st, st', r0, r, i, exact, l, StepReq(st', r, i, Mapped(l)).info);
  }

  lemma MappedRest(st0: Store, st: Store, st': Store, r0: Req, r: Req, i: nat, exact: bool, l: nat, info: Info)
    requires st.w > 0 && MapEntries(r0, r, i) && i < |r.entries| && (exact ==> Enough(st, r0, i))
    requires Grown(st0.mapping, st.mapping, Quot(r.a, st.w), r.entries, i)
    requires Quot(r.a, st.w) + i !in st.mapping && l in st.free && l < |st.owner| && st' == MapLine(st, Quot(r.a, st.w) + i, l)
    ensures var r' := WithEntry(r, i, Mapped(l)).(info := info);
      MapEntries(r0, r', i + 1) && (exact ==> Enough(st', r0, i + 1)) && Grown(st0.mapping, st'.mapping, Quot(r.a, st.w), r'.entries, i + 1)
  {
    MapEntriesNext(r0, r, i, Mapped(l), info);
    ExactNext(st, st', r0, r, i, exact, l);
    GrownNext(st0.mapping, st.mapping, st'.mapping, Quot(r.a, st.w), r.entries, i, Mapped(l));
  }

  lemma MappedCalm(st0: Store, st: Store, k: nat, l: nat)
    requires Shape(st0) && Calm(st0, st) && k !in st.mapping && l in st.free && l < |st.owner|
    ensures Shape(MapLine(st, k, l)) && Calm(st0, MapLine(st, k, l))
  {
    MapLineOK(st, k, l);
    CalmTrans(st0, st, MapLine(st, k, l));
  }

  lemma MappedTraversed(st: Store, st': Store, r: Req, i: nat, l: nat)
    requires Shape(st) && i < |r.entries| && TraversedUpto(st, r, i)
    requires Quot(r.a, st.w) + i !in st.mapping && l in st.free && l < |st.owner| && st' == MapLine(st, Quot(r.a, st.w) + i, l)
    ensures CanStep(st', r, i, Mapped(l)) && TraversedUpto(st', StepReq(st', r, i, Mapped(l)), i + 1)
  {
    MapStep(st, r, i, l);
    TraverseStep(st', r, i, Mapped(l));
  }

  lemma ExactNext(st: Store, st': Store, r0: Req, r: Req, i: nat, exact: bool, l: nat)
    requires st.w > 0 && MapEntries(r0, r, i) && i < |r.entries| && (exact ==> Enough(st, r0, i))
    requires Quot(r.a, st.w) + i !in st.mapping && l in st.free && l < |st.owner| && st' == MapLine(st, Quot(r.a, st.w) + i, l)
    ensures exact ==> Enough(st', r0, i + 1)
  {
    if exact { EnoughNext(st, r0, i, l); }
  }

  lemma EnoughNext(st: Store, r: Req, i: nat, l: nat)
    requires st.w > 0 && i < |r.entries| && Enough(st, r, i) && l in st.free && l < |st.owner| && Quot(r.a, st.w) + i !in st.mapping
    ensures Enough(MapLine(st, Quot(r.a, st.w) + i, l), r, i + 1)
  {
    var st' := MapLine(st, Quot(r.a, st.w) + i, l);
    assert EntryOK(st, Quot(r.a, st.w) + i, r.entries[i]);
    assert |st'.free| == |st.free| - 1;
    forall j | i + 1 <= j < |r.entries| ensures EntryOK(st', Quot(r.a, st.w) + j, r.entries[j]) {
      assert EntryOK(st, Quot(r.a, st.w) + j, r.entries[j]);
    }
  }

  /** The free list cannot run out while the counters are up to date. */
  lemma NeverShort(st: Store, r: Req, i: nat)
    requires st.w > 0 && i < |r.entries| && Enough(st, r, i) && Quot(r.a, st.w) + i !in st.mapping
    ensures st.free != {}
  {
    assert EntryOK(st, Quot(r.a, st.w) + i, r.entries[i]);
    NonHitsMono(r.entries, i + 1, |r.entries|);
  }

  lemma MappingStart(st: Store, r: Req, exact: bool)
    requires Shape(st) && Sized(st, r) && forall j :: 0 <= j < |r.entries| ==> !r.entries[j].Mapped?
    requires exact ==> Traversed(st, r) && |r.entries| - (r.info.hits + r.info.invalid) <= |st.free|
    ensures MapProgress(st, st, r, r.(info := First()), 0, exact)
  {
  }

  lemma MappingEnd(st0: Store, st: Store, r0: Req, r: Req, i: nat, exact: bool)
    requires Shape(st0) && MapProgress(st0, st, r0, r, i, exact)
    ensures Calm(st0, st) && Cancellable(st, r, 0) && r.a == r0.a && r.n == r0.n
    ensures i == |r.entries| ==> Traversed(st, r) && AllMapped(r)
    ensures Grown(st0.mapping, st.mapping, Quot(r.a, st.w), r.entries, |r.entries|)
  {
    GrownAll(st0.mapping, st.mapping, Quot(r.a, st.w), r.entries, i);
  }

  /** The lines that the request was told it may cancel. */
  ghost predicate Cancellable(st: Store, r: Req, from: nat)
    requires st.w > 0
  {
    forall j :: from <= j < |r.entries| && r.entries[j].Mapped? ==>
      EntryOK(st, Quot(r.a, st.w) + j, r.entries[j]) && EmptyIfMapped(st, r.entries[j])
  }

  lemma CancelStep(st: Store, r: Req, j: nat)
    requires Shape(st) && j < |r.entries| && r.entries[j].Mapped? && Cancellable(st, r, j)
    ensures var k := Quot(r.a, st.w) + j;
      k in st.mapping && st.mapping[k] < |st.phys| && Calm(st, DropLine(st, k, 0, st.w - 1, false))
      && Cancellable(DropLine(st, k, 0, st.w - 1, false), r, j + 1)
  {
    var k := Quot(r.a, st.w) + j;
    assert EntryOK(st, k, r.entries[j]) && EmptyIfMapped(st, r.entries[j]);
    EmptyClean(st, st.mapping[k]);
    DropCalm(st, k);
    forall m | j + 1 <= m < |r.entries| && r.entries[m].Mapped?
      ensures EntryOK(DropLine(st, k, 0, st.w - 1, false), Quot(r.a, st.w) + m, r.entries[m])
      ensures EmptyIfMapped(DropLine(st, k, 0, st.w - 1, false), r.entries[m])
    {
      assert EntryOK(st, Quot(r.a, st.w) + m, r.entries[m]) && EmptyIfMapped(st, r.entries[m]);
      EntryKept(st, k, 0, st.w - 1, false, Quot(r.a, st.w) + m, r.entries[m]);
    }
  }

  ghost predicate Cancelling(st0: Store, st: Store, r: Req, j: nat)
    requires Shape(st0)
  {
    && Calm(st0, st) && Cancellable(st, r, j) && Spares(st0, st, [])
    && j <= |r.entries| && Added(st0.mapping, st.mapping, Keys(Quot(r.a, st.w), r.entries, j, |r.entries|))
  }

  lemma CancelSkip(st0: Store, st: Store, r: Req, j: nat)
    requires Shape(st0) && j < |r.entries| && !r.entries[j].Mapped? && Cancelling(st0, st, r, j)
    ensures Cancelling(st0, st, r, j + 1)
  {
    KeysFirst(Quot(r.a, st.w), r.entries, j);
  }

  /** One of the added core lines is unmapped again. */
  lemma AddedLess(st0: Store, st: Store, keys: set<nat>, k: nat)
    requires Shape(st) && Added(st0.mapping, st.mapping, keys) && Spares(st0, st, []) && k in keys && k in st.mapping
    ensures var st' := DropLine(st, k, 0, st.w - 1, false);
      Added(st0.mapping, st'.mapping, keys - {k}) && Spares(st0, st', [])
  {
    var st' := DropLine(st, k, 0, st.w - 1, false);
    assert !AnySet(st'.valid[st.mapping[k]]);
    assert st'.mapping == st.mapping - {k};
    forall m | m in st0.mapping ensures st.mapping[m] != st.mapping[k] { assert m != k; }
  }

  /** Everything is given back: the mapping and the free list are what they were. */
  lemma NothingAdded(st0: Store, st: Store)
    requires Shape(st0) && Shape(st) && Added(st0.mapping, st.mapping, {}) && |st.phys| == |st0.phys|
    ensures st.mapping == st0.mapping && st.free == st0.free
  {
    forall k ensures k in st.mapping <==> k in st0.mapping {}
    FreeFromMapping(st0, st);
  }

  lemma CancelNext(st0: Store, st: Store, r: Req, j: nat)
    requires Shape(st0) && j < |r.entries| && r.entries[j].Mapped? && Cancelling(st0, st, r, j)
    ensures var k := Quot(r.a, st.w) + j;
      k in st.mapping && st.mapping[k] < |st.phys| && Cancelling(st0, DropLine(st, k, 0, st.w - 1, false), r, j + 1)
  {
    CancelStep(st, r, j);
    CalmTrans(st0, st, DropLine(st, Quot(r.a, st.w) + j, 0, st.w - 1, false));
    KeysFirst(Quot(r.a, st.w), r.entries, j);
    AddedLess(st0, st, Keys(Quot(r.a, st.w), r.entries, j, |r.entries|), Quot(r.a, st.w) + j);
  }

  lemma Cancelled(st0: Store, st: Store, r: Req, j: nat) returns (st': Store)
    requires Shape(st0) && j < |r.entries| && r.entries[j].Mapped? && Cancelling(st0, st, r, j)
    ensures var k := Quot(r.a, st.w) + j; k in st.mapping && st.mapping[k] < |st.phys| && st' == DropLine(st, k, 0, st.w - 1, false)
    ensures Cancelling(st0, st', r, j + 1)
  {
    CancelNext(st0, st, r, j);
    st' := DropLine(st, Quot(r.a, st.w) + j, 0, st.w - 1, false);
  }

  lemma EmptyClean(st: Store, l: nat)
    requires Shape(st) && l < |st.phys| && !AnySet(st.valid[l])
    ensures forall o :: 0 <= o < st.w ==> !st.dirty[l][o]
  {
  }

  /** Dropping one core line leaves the entry of another. */
  lemma EntryKept(st: Store, k: nat, s: nat, e: nat, waiters: bool, j: nat, entry: Entry)
    requires Sizes(st) && Mapping(st) && k in st.mapping && j != k && EntryOK(st, j, entry)
    ensures EntryOK(DropLine(st, k, s, e, waiters), j, entry)
    ensures EmptyIfMapped(st, entry) ==> EmptyIfMapped(DropLine(st, k, s, e, waiters), entry)
  {
  }

  lemma CleanedNone(st: Store, lo: nat)
    requires Shape(st)
    ensures Cleaned(st, st, lo, lo)
  {
  }

  lemma CleanedNext(st: Store, st1: Store, st2: Store, lo: nat, k: nat)
    requires Shape(st) && lo <= k && Cleaned(st, st1, lo, k) && Cleaned(st1, st2, k, k + 1)
    ensures Cleaned(st, st2, lo, k + 1)
  {
    forall x: nat
      ensures D(st2, x) <==> D(st, x) && !(lo <= Quot(x, st.w) < k + 1)
      ensures x < |st.core| ==> st2.core[x] == if lo <= Quot(x, st.w) < k + 1 then Latest(st, x) else st.core[x]
    {
      assert D(st1, x) <==> D(st, x) && !(lo <= Quot(x, st.w) < k);
      assert D(st2, x) <==> D(st1, x) && !(k <= Quot(x, st.w) < k + 1);
    }
  }

  /** A line without dirty sectors counts as cleaned. */
  lemma CleanedSkip(st: Store, k: nat)
    requires Shape(st) && (k in st.mapping ==> !AnySet(st.dirty[st.mapping[k]]))
    ensures Cleaned(st, st, k, k + 1)
  {
  }

  /** The first i lines of the request are purged. */
  ghost predicate PurgedUpto(st: Store, st': Store, r: Req, i: nat)
    requires Shape(st)
  {
    && Shape(st') && SameDevice(st, st') && st'.core == st.core
    && (forall x: nat :: V(st', x) <==> V(st, x) && !Upto(r, st.w, i, x))
    && (forall x: nat :: V(st', x) ==> C(st', x) == C(st, x))
    && (forall x: nat :: D(st', x) <==> D(st, x) && !Upto(r, st.w, i, x))
  }

  /** Clean, then invalidate the covered sectors of line i. */
  function PurgeLine(st: Store, r: Req, i: nat, waiters: bool): Store
    requires Sizes(st) && Sized(st, r) && i < |r.entries| && !r.entries[i].Miss? && r.entries[i].line < |st.phys|
    requires Quot(r.a, st.w) + i in st.mapping && st.mapping[Quot(r.a, st.w) + i] < |st.phys|
  {
    DropLine(SetDirtyLine(st, r, i, false), Quot(r.a, st.w) + i, Start(r.a, st.w, i), End(r.a, r.n, st.w, i), waiters)
  }

  /** One line: covered sectors end up neither valid nor dirty, everything else stays. */
  lemma PurgeOne(st: Store, r: Req, i: nat, waiters: bool)
    requires Shape(st) && Sized(st, r) && i < |r.entries| && !r.entries[i].Miss? && EntriesFrom(st, r, i)
    ensures EntryOK(st, Quot(r.a, st.w) + i, r.entries[i])
    ensures var st' := PurgeLine(st, r, i, waiters);
      && Shape(st') && SameDevice(st, st') && st'.core == st.core && EntriesFrom(st', r, i + 1)
      && (forall x: nat :: V(st', x) <==> V(st, x) && !(In(x, r.a, r.n) && Quot(x, st.w) == Quot(r.a, st.w) + i))
      && (forall x: nat :: V(st', x) ==> C(st', x) == C(st, x))
      && (forall x: nat :: D(st', x) <==> D(st, x) && !(In(x, r.a, r.n) && Quot(x, st.w) == Quot(r.a, st.w) + i))
  {
    var k, s, e := Quot(r.a, st.w) + i, Start(r.a, st.w, i), End(r.a, r.n, st.w, i);
    assert EntryOK(st, k, r.entries[i]);
    var st1 := SetDirtyLine(st, r, i, false);
    SetDirtyStep(st, r, i, false);
    DropOK(st1, k, s, e, waiters);
    PurgeEntries(st, r, i, waiters);
    forall x: nat ensures Quot(x, st.w) == k ==> (In(x, r.a, r.n) <==> s <= Rem(x, st.w) <= e) { LineCover(st, r, i, x); }
    PurgeSectors(st, st1, PurgeLine(st, r, i, waiters), r, k, s, e);
  }

  lemma PurgeEntries(st: Store, r: Req, i: nat, waiters: bool)
    requires Sizes(st) && Mapping(st) && Sized(st, r) && i < |r.entries| && !r.entries[i].Miss? && EntriesFrom(st, r, i)
    requires EntryOK(st, Quot(r.a, st.w) + i, r.entries[i])
    ensures EntriesFrom(PurgeLine(st, r, i, waiters), r, i + 1)
  {
  }

  lemma PurgeSectors(st: Store, st1: Store, st2: Store, r: Req, k: nat, s: nat, e: nat)
    requires Shape(st) && Shape(st1) && st1 == st.(dirty := st1.dirty) && Dropped(st1, st2, k, s, e)
    requires forall x: nat :: D(st1, x) <==> if In(x, r.a, r.n) && Quot(x, st.w) == k then false else D(st, x)
    requires forall x: nat :: Quot(x, st.w) == k ==> (In(x, r.a, r.n) <==> s <= Rem(x, st.w) <= e)
    ensures forall x: nat :: V(st2, x) <==> V(st, x) && !(In(x, r.a, r.n) && Quot(x, st.w) == k)
    ensures forall x: nat :: V(st2, x) ==> C(st2, x) == C(st, x)
    ensures forall x: nat :: D(st2, x) <==> D(st, x) && !(In(x, r.a, r.n) && Quot(x, st.w) == k)
  {
  }

  lemma PurgeStep(st: Store, st': Store, r: Req, i: nat, waiters: bool)
    requires Shape(st) && Sized(st, r) && PurgedUpto(st, st', r, i)
    requires i < |r.entries| && !r.entries[i].Miss? && EntriesFrom(st', r, i)
    ensures EntryOK(st', Quot(r.a, st.w) + i, r.entries[i])
    ensures PurgedUpto(st, PurgeLine(st', r, i, waiters), r, i + 1) && EntriesFrom(PurgeLine(st', r, i, waiters), r, i + 1)
  {
    PurgeOne(st', r, i, waiters);
  }

  /** A line that is not mapped holds nothing to purge. */
  lemma PurgeSkip(st: Store, st': Store, r: Req, i: nat)
    requires Shape(st) && Sized(st, r) && PurgedUpto(st, st', r, i)
    requires i < |r.entries| && r.entries[i].Miss? && Quot(r.a, st.w) + i !in st.mapping && EntriesFrom(st', r, i)
    ensures PurgedUpto(st, st', r, i + 1) && EntriesFrom(st', r, i + 1)
  {
  }

  /** The first i lines of the request are clean. */
  ghost predicate CleanedUpto(st0: Store, st: Store, r: Req, i: nat)
    requires Shape(st0)
  {
    Cleaned(st0, st, Quot(r.a, st0.w), Quot(r.a, st0.w) + i)
  }

  lemma CleanNext(st0: Store, st: Store, st': Store, r: Req, i: nat)
    requires Shape(st0) && CleanedUpto(st0, st, r, i) && Cleaned(st, st', Quot(r.a, st.w) + i, Quot(r.a, st.w) + i + 1)
    ensures CleanedUpto(st0, st', r, i + 1)
  {
    CleanedNext(st0, st, st', Quot(r.a, st.w), Quot(r.a, st.w) + i);
  }

  lemma CleanSkip(st0: Store, st: Store, r: Req, i: nat)
    requires Shape(st0) && Placed(st0, r) && i < |r.entries| && CleanedUpto(st0, st, r, i)
    requires !r.entries[i].Miss? ==> r.entries[i].line < |st.dirty| && !AnySet(st.dirty[r.entries[i].line])
    ensures CleanedUpto(st0, st, r, i + 1)
  {
    assert EntryOK(st0, Quot(r.a, st0.w) + i, r.entries[i]);
    CleanedSkip(st, Quot(r.a, st.w) + i);
    CleanNext(st0, st, st, r, i);
  }

  /** Freshly mapped lines stay without dirty sectors while other lines are cleaned. */
  lemma StillClean(st0: Store, st: Store, r: Req, i: nat)
    requires Shape(st0) && Placed(st0, r) && i < |r.entries| && CleanedUpto(st0, st, r, i) && r.entries[i].Mapped?
    requires r.entries[i].line < |st0.dirty| && !AnySet(st0.dirty[r.entries[i].line])
    ensures !AnySet(st.dirty[r.entries[i].line])
  {
    var k := Quot(r.a, st0.w) + i;
    assert EntryOK(st0, k, r.entries[i]);
    forall o: nat | o < st.w ensures !st.dirty[r.entries[i].line][o] {
      QuotRem(k, o, st.w);
      assert D(st, Times(k, st.w) + o) <==> D(st0, Times(k, st.w) + o);
    }
  }
}
