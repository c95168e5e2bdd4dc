/** What complete engine paths do to the plain disk. */
module CacheEffects {
  import opened Division
  import opened SectorMath
  import opened CacheStore
  import opened CacheBits
  import opened CacheIo
  import opened CacheRequest
  import opened CacheOverlay

  /** Valid sectors read from the cache are the latest. */
  lemma HitShows(st: Store, r: Req, buf: seq<Data>)
    requires Coherent(st) && InRange(st, r.a, r.n) && |buf| == r.n && ReadUpto(st, r, buf)
    requires forall x: nat :: In(x, r.a, r.n) ==> V(st, x)
    ensures buf == Contents(st)[r.a..r.a + r.n]
  {
    forall k: nat | k < r.n ensures buf[k] == Contents(st)[r.a..r.a + r.n][k] {
      assert V(st, r.a + k) && In(r.a + k, r.a, |buf|);
    }
  }

  ghost predicate AllDirty(st: Store, a: nat, n: nat) {
    Shape(st) && forall x: nat :: In(x, a, n) ==> D(st, x)
  }

  lemma NoneDirty(st: Store, r: Req)
    requires Shape(st) && Ready(st, r) && r.info.dirtyAny == 0
    ensures forall x: nat :: In(x, r.a, r.n) ==> !D(st, x)
  {
    forall x: nat | In(x, r.a, r.n) ensures !D(st, x) { LineOfRequest(st, r, x); }
  }

  /** Sectors without a dirty copy can be read from the core volume. */
  lemma CoreShows(st: Store, a: nat, n: nat)
    requires Shape(st) && InRange(st, a, n) && forall x: nat :: In(x, a, n) ==> !D(st, x)
    ensures st.core[a..a + n] == Contents(st)[a..a + n]
  {
    var seen, latest := st.core[a..a + n], Contents(st)[a..a + n];
    forall k: nat | k < n ensures seen[k] == latest[k] {
      assert In(a + k, a, n);
    }
  }

  /** A read miss makes sectors valid and fills them from the core volume. */
  lemma BackfillKeeps(st: Store, st1: Store, st2: Store, a: nat, n: nat)
    requires Coherent(st) && InRange(st, a, n) && forall x: nat :: In(x, a, n) ==> !D(st, x)
    requires ValidSet(st, st1, a, n) && Written(st1, st2, a, st.core[a..a + n])
    ensures Coherent(st2) && Contents(st2) == Contents(st)
  {
    forall x: nat | V(st2, x) && !D(st2, x) ensures x < |st.core| && C(st2, x) == st.core[x] {
      assert V(st1, x) && (D(st, x) <==> D(st2, x));
      ValidInCore(st2, x);
    }
    forall x: nat | x < |st.core| ensures Latest(st2, x) == Latest(st, x) {
      assert D(st, x) <==> D(st2, x);
    }
  }

  /** A write to the cache alone: the sectors become valid and dirty. */
  lemma WriteBackShows(st: Store, st1: Store, st2: Store, st3: Store, a: nat, buf: seq<Data>)
    requires Coherent(st) && InRange(st, a, |buf|)
    requires ValidSet(st, st1, a, |buf|) && DirtySet(st1, st2, a, |buf|) && Written(st2, st3, a, buf)
    requires forall x: nat :: In(x, a, |buf|) ==> Quot(x, st.w) in st.mapping
    ensures Coherent(st3) && Contents(st3) == Overwrite(Contents(st), a, buf)
  {
    forall x: nat
      ensures D(st3, x) <==> D(st, x) || In(x, a, |buf|)
      ensures V(st3, x) <==> V(st, x) || In(x, a, |buf|)
    {
      assert D(st1, x) == D(st, x) && D(st3, x) == D(st2, x) && V(st3, x) == V(st1, x);
    }
    WriteShows(st, st3, a, buf);
  }

  /** A write to both volumes: the sectors become valid and clean. */
  lemma WriteThroughShows(st: Store, st1: Store, st2: Store, st3: Store, st4: Store, a: nat, buf: seq<Data>)
    requires Coherent(st) && InRange(st, a, |buf|)
    requires ValidSet(st, st1, a, |buf|) && DirtyCleared(st1, st2, a, |buf|) && Written(st2, st3, a, buf)
    requires Shape(st4) && st4 == st3.(core := Overwrite(st.core, a, buf))
    ensures Coherent(st4) && Contents(st4) == Overwrite(Contents(st), a, buf)
  {
    forall x: nat
      ensures D(st4, x) <==> D(st, x) && !In(x, a, |buf|)
      ensures V(st4, x) <==> V(st, x) || In(x, a, |buf|)
      ensures Quot(x, st.w) in st.mapping ==> C(st4, x) == if In(x, a, |buf|) then buf[x - a] else C(st, x)
      ensures x < |st.core| ==> st4.core[x] == if In(x, a, |buf|) then buf[x - a] else st.core[x]
    {
      assert D(st1, x) == D(st, x) && D(st4, x) == D(st2, x) && V(st4, x) == V(st1, x);
      if x < |st.core| { OverwriteAt(st.core, a, buf, x); }
    }
    forall x: nat | V(st4, x) ensures x < |st4.core| { ValidInCore(st4, x); }
    WriteShows(st, st4, a, buf);
  }

  /** A write to the core volume alone, after which the cached copies are purged. */
  lemma WriteInvalidateShows(st: Store, st1: Store, st2: Store, a: nat, buf: seq<Data>)
    requires Coherent(st) && InRange(st, a, |buf|)
    requires Shape(st1) && st1 == st.(core := Overwrite(st.core, a, buf)) && Purged(st1, st2, a, |buf|)
    ensures Coherent(st2) && Contents(st2) == Overwrite(Contents(st), a, buf)
  {
    forall x: nat
      ensures D(st2, x) <==> D(st, x) && !In(x, a, |buf|)
      ensures V(st2, x) ==> V(st, x) && !In(x, a, |buf|) && C(st2, x) == C(st, x)
      ensures x < |st.core| ==> st2.core[x] == if In(x, a, |buf|) then buf[x - a] else st.core[x]
    {
      assert D(st1, x) == D(st, x) && V(st1, x) == V(st, x);
      if x < |st.core| { OverwriteAt(st.core, a, buf, x); }
    }
    forall x: nat | V(st2, x) ensures x < |st2.core| { ValidInCore(st2, x); }
    WriteShows(st, st2, a, buf);
  }

  /** A request that is nowhere mapped has nothing to purge. */
  lemma NothingToPurge(st: Store, r: Req)
    requires Shape(st) && Placed(st, r) && forall i :: 0 <= i < |r.entries| ==> r.entries[i].Miss?
    ensures Purged(st, st, r.a, r.n)
  {
    forall x: nat | In(x, r.a, r.n) ensures !V(st, x) && !D(st, x) { LineOfRequest(st, r, x); }
  }

  lemma CoreShape(st: Store, core: seq<Data>)
    requires Shape(st) && |core| == |st.core|
    ensures Shape(st.(core := core))
  {
  }

  /** After cleaning, a request has no dirty line left and its counters say so. */
  lemma CleanedReady(st: Store, st': Store, r: Req)
    requires Shape(st) && Ready(st, r) && Cleaned(st, st', Quot(r.a, st.w), Quot(r.a, st.w) + |r.entries|)
    ensures Ready(st', r.(info := r.info.(dirtyAny := 0, dirtyAll := 0)))
  {
    var r' := r.(info := r.info.(dirtyAny := 0, dirtyAll := 0));
    forall x: nat | OnLines(r', st'.w, x) ensures !D(st', x) {}
    forall x: nat | r.info.hits == |r.entries| && In(x, r.a, r.n) ensures V(st', x) { assert V(st, x); }
    forall i | 0 <= i < |r.entries| ensures EntryOK(st', Quot(r.a, st'.w) + i, r.entries[i]) {
      assert EntryOK(st, Quot(r.a, st.w) + i, r.entries[i]);
    }
    forall i | 0 <= i < |r.entries| && r.entries[i].Mapped? ensures !AnySet(st'.dirty[r.entries[i].line]) {
      CleanedMapped(st, st', r, i);
    }
  }

  lemma CleanedMapped(st: Store, st': Store, r: Req, i: nat)
    requires Shape(st) && Placed(st, r) && Cleaned(st, st', Quot(r.a, st.w), Quot(r.a, st.w) + |r.entries|)
    requires i < |r.entries| && r.entries[i].Mapped?
    ensures r.entries[i].line < |st'.dirty| && !AnySet(st'.dirty[r.entries[i].line])
  {
    var k := Quot(r.a, st.w) + i;
    assert EntryOK(st, k, r.entries[i]);
    forall o: nat | o < st.w ensures !st'.dirty[r.entries[i].line][o] {
      QuotRem(k, o, st.w);
      assert !D(st', Times(k, st.w) + o);
    }
  }

  /** Nothing the lookup depends on has changed. */
  lemma SamePlace(st: Store, st': Store, r: Req)
    requires Shape(st) && Placed(st, r) && Shape(st')
    requires st'.w == st.w && st'.phys == st.phys && |st'.core| == |st.core| && st'.mapping == st.mapping
    ensures Placed(st', r) && (r.info.seqReq && Consecutive(st, r) ==> Consecutive(st', r))
  {
    forall i | 0 <= i < |r.entries| ensures EntryOK(st', Quot(r.a, st'.w) + i, r.entries[i]) {
      assert EntryOK(st, Quot(r.a, st.w) + i, r.entries[i]);
    }
  }

  lemma RequestMapped(st: Store, r: Req)
    requires Shape(st) && Placed(st, r) && AllMapped(r)
    ensures forall x: nat :: In(x, r.a, r.n) ==> Quot(x, st.w) in st.mapping
  {
    forall x: nat | In(x, r.a, r.n) ensures Quot(x, st.w) in st.mapping { LineOfRequest(st, r, x); }
  }

  /** What a write-only read returns: valid sectors from the cache, the others from the core volume. */
  lemma OverlayShows(st: Store, r: Req, ios: seq<Io>, buf: seq<Data>)
    requires Coherent(st) && InRange(st, r.a, r.n) && Issued(st, r.a, ios, r.n)
    requires LaidUpto(st, r.a, ios, st.core[r.a..r.a + r.n], buf, |ios|)
    ensures buf == Contents(st)[r.a..r.a + r.n]
  {
    assert ios[..|ios|] == ios;
    var latest := Contents(st)[r.a..r.a + r.n];
    forall k: nat | k < r.n ensures buf[k] == latest[k] {
      OverlaySector(st, r, ios, buf, r.a + k);
      assert latest[k] == Latest(st, r.a + k);
    }
  }

  lemma OverlaySector(st: Store, r: Req, ios: seq<Io>, buf: seq<Data>, x: nat)
    requires Coherent(st) && InRange(st, r.a, r.n) && CoverValid(st, r.a, ios, r.n) && In(x, r.a, r.n) && ios[..|ios|] == ios
    requires LaidUpto(st, r.a, ios, st.core[r.a..r.a + r.n], buf, |ios|)
    ensures buf[x - r.a] == Latest(st, x)
  {
    assert Covered(ios, x - r.a) <==> V(st, x);
  }

  /** A read miss on clean lines returns the latest content and leaves it cached. */
  lemma MissShows(st: Store, st1: Store, st2: Store, r: Req)
    requires Coherent(st) && Ready(st, r) && r.info.dirtyAny == 0
    requires ValidSet(st, st1, r.a, r.n) && Written(st1, st2, r.a, st.core[r.a..r.a + r.n])
    ensures Coherent(st2) && Contents(st2) == Contents(st)
  {
    NoneDirty(st, r);
    BackfillKeeps(st, st1, st2, r.a, r.n);
  }

  lemma MissReads(st: Store, r: Req)
    requires Coherent(st) && Ready(st, r) && r.info.dirtyAny == 0
    ensures st.core[r.a..r.a + r.n] == Contents(st)[r.a..r.a + r.n]
  {
    NoneDirty(st, r);
    CoreShows(st, r.a, r.n);
  }

  // ----- steps that the counters allow to skip -----

  lemma HitValid(st: Store, r: Req)
    requires Shape(st) && Ready(st, r) && r.info.hits == |r.entries|
    ensures ValidSet(st, st, r.a, r.n)
  {
  }

  lemma AllDirtySet(st: Store, st1: Store, r: Req)
    requires Shape(st) && Ready(st, r) && r.info.dirtyAll == |r.entries| && ValidSet(st, st1, r.a, r.n)
    ensures DirtySet(st1, st1, r.a, r.n)
  {
    forall x: nat | In(x, r.a, r.n) ensures D(st1, x) { assert D(st, x); }
  }

  lemma NoneDirtyCleared(st: Store, st1: Store, r: Req)
    requires Shape(st) && Ready(st, r) && r.info.dirtyAny == 0 && ValidSet(st, st1, r.a, r.n)
    ensures DirtyCleared(st1, st1, r.a, r.n)
  {
    NoneDirty(st, r);
    forall x: nat | In(x, r.a, r.n) ensures !D(st1, x) { assert !D(st, x); }
  }
}
