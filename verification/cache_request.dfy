/** What the traversal of a request finds out, and what an engine may conclude from it. */
module CacheRequest {
  import opened Division
  import opened SectorMath
  import opened CacheStore
  import opened CacheBits
  import opened CacheIo

  function First(): Info {
    Info(0, 0, 0, 0, true)
  }

  predicate AllSet(bits: seq<bool>, s: nat, e: nat) {
    forall o :: 0 <= o < |bits| && s <= o <= e ==> bits[o]
  }

  predicate AnySet(bits: seq<bool>) {
    exists o :: 0 <= o < |bits| && bits[o]
  }

  /** What is found at line i of the request. */
  predicate LineHit(st: Store, r: Req, i: nat)
    requires st.w > 0 && r.n > 0 && i < |r.entries|
  {
    r.entries[i].Hit? && r.entries[i].line < |st.valid|
    && AllSet(st.valid[r.entries[i].line], Start(r.a, st.w, i), End(r.a, r.n, st.w, i))
  }

  predicate LineDirty(st: Store, r: Req, i: nat)
    requires i < |r.entries|
  {
    r.entries[i].Hit? && r.entries[i].line < |st.dirty| && AnySet(st.dirty[r.entries[i].line])
  }

  predicate LineAllDirty(st: Store, r: Req, i: nat)
    requires st.w > 0 && r.n > 0 && i < |r.entries|
  {
    LineDirty(st, r, i) && AllSet(st.dirty[r.entries[i].line], Start(r.a, st.w, i), End(r.a, r.n, st.w, i))
  }

  /** The first i lines lie one behind the other on the cache volume. */
  predicate InSequence(st: Store, entries: seq<Entry>, i: nat)
    requires i <= |entries|
  {
    && (forall j :: 0 <= j < i ==> !entries[j].Miss? && entries[j].line < |st.phys|)
    && (forall j :: 0 <= j < i ==> st.phys[entries[j].line] == st.phys[entries[0].line] + j)
  }

  /** How many of the first i lines were not found. */
  function NonHits(entries: seq<Entry>, i: nat): (c: nat)
    requires i <= |entries|
    ensures c <= i
  {
    if i == 0 then 0 else NonHits(entries, i - 1) + if entries[i - 1].Hit? then 0 else 1
  }

  lemma {:induction false} NonHitsFrame(entries: seq<Entry>, other: seq<Entry>, i: nat)
    requires i <= |entries| && i <= |other| && forall j :: 0 <= j < i ==> entries[j] == other[j]
    ensures NonHits(entries, i) == NonHits(other, i)
  {
    if i > 0 { NonHitsFrame(entries, other, i - 1); }
  }

  lemma {:induction false} NonHitsMono(entries: seq<Entry>, i: nat, j: nat)
    requires i <= j <= |entries|
    ensures NonHits(entries, i) <= NonHits(entries, j)
  {
    if i < j { NonHitsMono(entries, i, j - 1); }
  }

  /** The counters summarize the first i lines. */
  ghost predicate Tally(st: Store, r: Req, info: Info, i: nat)
    requires st.w > 0 && r.n > 0 && i <= |r.entries|
  {
    && info.hits + info.invalid == i - NonHits(r.entries, i) && info.dirtyAll <= info.dirtyAny <= i
    && (info.hits == i <==> forall j :: 0 <= j < i ==> LineHit(st, r, j))
    && (info.hits + info.invalid == i <==> forall j :: 0 <= j < i ==> r.entries[j].Hit?)
    && (info.hits + info.invalid == 0 <==> forall j :: 0 <= j < i ==> !r.entries[j].Hit?)
    && (info.dirtyAny == 0 <==> forall j :: 0 <= j < i ==> !LineDirty(st, r, j))
    && (info.dirtyAll == i <==> forall j :: 0 <= j < i ==> LineAllDirty(st, r, j))
    && (info.seqReq <==> InSequence(st, r.entries, i))
  }

  /** The first i entries agree with the mapping, and freshly mapped lines hold nothing. */
  predicate EntriesUpto(st: Store, r: Req, i: nat)
    requires st.w > 0
  {
    && InRange(st, r.a, r.n) && |r.entries| == Lines(r.a, r.n, st.w) && i <= |r.entries|
    && (forall j :: 0 <= j < i ==> EntryOK(st, Quot(r.a, st.w) + j, r.entries[j]))
    && (forall j :: 0 <= j < i ==> EmptyIfMapped(st, r.entries[j]))
  }

  predicate EmptyIfMapped(st: Store, e: Entry) {
    e.Mapped? ==> e.line < |st.valid| && !AnySet(st.valid[e.line])
  }

  /** Lookup or mapping got as far as line i. */
  ghost predicate TraversedUpto(st: Store, r: Req, i: nat)
    requires st.w > 0
  {
    EntriesUpto(st, r, i) && Tally(st, r, r.info, i)
  }

  /** The outcome of a lookup or of a mapping of all lines. */
  ghost predicate Traversed(st: Store, r: Req)
    requires st.w > 0
  {
    TraversedUpto(st, r, |r.entries|)
  }

  function WithEntry(r: Req, i: nat, e: Entry): Req
    requires i < |r.entries|
  {
    r.(entries := r.entries[i := e])
  }

  lemma TallyFrame(st: Store, r: Req, i: nat, e: Entry)
    requires Sizes(st) && r.n > 0 && i < |r.entries| && Tally(st, r, r.info, i)
    ensures Tally(st, WithEntry(r, i, e), r.info, i)
  {
    var r' := WithEntry(r, i, e);
    NonHitsFrame(r.entries, r'.entries, i);
    forall j | 0 <= j < i
      ensures r'.entries[j] == r.entries[j] && LineHit(st, r', j) == LineHit(st, r, j)
      ensures LineDirty(st, r', j) == LineDirty(st, r, j) && LineAllDirty(st, r', j) == LineAllDirty(st, r, j)
    {
    }
    assert InSequence(st, r'.entries, i) <==> InSequence(st, r.entries, i);
  }

  lemma TallyStep(st: Store, r: Req, i: nat, e: Entry)
    requires Sizes(st) && r.n > 0 && i < |r.entries| && Tally(st, r, r.info, i) && (!e.Miss? ==> e.line < |st.phys|)
    ensures var r' := WithEntry(r, i, e);
      && Tally(st, r', r.info, i) && InSequence(st, r'.entries, if r.info.seqReq then i else 0)
      && Tally(st, r'.(info := Counted(st, r', r.info, i)), Counted(st, r', r.info, i), i + 1)
  {
    var r' := WithEntry(r, i, e);
    TallyFrame(st, r, i, e);
    CountedTally(st, r', r.info, i);
    TallyInfo(st, r', Counted(st, r', r.info, i), i + 1);
  }

  lemma EntriesStep(st: Store, r: Req, i: nat, e: Entry, info: Info)
    requires st.w > 0 && i < |r.entries| && EntriesUpto(st, r, i)
    requires EntryOK(st, Quot(r.a, st.w) + i, e) && EmptyIfMapped(st, e)
    ensures EntriesUpto(st, WithEntry(r, i, e).(info := info), i + 1)
  {
  }

  predicate CanStep(st: Store, r: Req, i: nat, e: Entry) {
    && Sizes(st) && r.n > 0 && i < |r.entries| && (!e.Miss? ==> e.line < |st.phys|)
    && InSequence(st, WithEntry(r, i, e).entries, if r.info.seqReq then i else 0)
  }

  /** The request after e was found or mapped for line i. */
  function StepReq(st: Store, r: Req, i: nat, e: Entry): Req
    requires CanStep(st, r, i, e)
  {
    var r' := WithEntry(r, i, e);
    r'.(info := Counted(st, r', r.info, i))
  }

  lemma TraverseStep(st: Store, r: Req, i: nat, e: Entry)
    requires Sizes(st) && i < |r.entries| && TraversedUpto(st, r, i) && (!e.Miss? ==> e.line < |st.phys|)
    requires EntryOK(st, Quot(r.a, st.w) + i, e) && EmptyIfMapped(st, e)
    ensures CanStep(st, r, i, e) && TraversedUpto(st, StepReq(st, r, i, e), i + 1)
  {
    TallyStep(st, r, i, e);
    EntriesStep(st, r, i, e, Counted(st, WithEntry(r, i, e), r.info, i));
  }

  /** The counters are a parameter of Tally; the copy in the request plays no role. */
  lemma TallyInfo(st: Store, r: Req, info: Info, i: nat)
    requires Sizes(st) && r.n > 0 && i <= |r.entries| && Tally(st, r, info, i)
    ensures Tally(st, r.(info := info), info, i)
  {
    var r' := r.(info := info);
    forall j | 0 <= j < i
      ensures LineHit(st, r', j) == LineHit(st, r, j)
      ensures LineDirty(st, r', j) == LineDirty(st, r, j) && LineAllDirty(st, r', j) == LineAllDirty(st, r, j)
    {
    }
  }

  /** The counters after line i. */
  function Counted(st: Store, r: Req, info: Info, i: nat): Info
    requires Sizes(st) && r.n > 0 && i < |r.entries| && InSequence(st, r.entries, if info.seqReq then i else 0)
    requires !r.entries[i].Miss? ==> r.entries[i].line < |st.phys|
  {
    var hit := LineHit(st, r, i);
    Info(if hit then info.hits + 1 else info.hits,
         if r.entries[i].Hit? && !hit then info.invalid + 1 else info.invalid,
         if LineDirty(st, r, i) then info.dirtyAny + 1 else info.dirtyAny,
         if LineAllDirty(st, r, i) then info.dirtyAll + 1 else info.dirtyAll,
         info.seqReq && !r.entries[i].Miss? &&
           (i == 0 || st.phys[r.entries[i - 1].line] + 1 == st.phys[r.entries[i].line]))
  }

  lemma CountedTally(st: Store, r: Req, info: Info, i: nat)
    requires Sizes(st) && r.n > 0 && i < |r.entries| && Tally(st, r, info, i)
    requires !r.entries[i].Miss? ==> r.entries[i].line < |st.phys|
    ensures Tally(st, r, Counted(st, r, info, i), i + 1)
  {
    CountedHits(st, r, info, i);
    CountedFound(st, r, info, i);
    CountedDirty(st, r, info, i);
    CountedSequence(st, r, info, i);
  }

  lemma CountedHits(st: Store, r: Req, info: Info, i: nat)
    requires Sizes(st) && r.n > 0 && i < |r.entries| && Tally(st, r, info, i)
    requires !r.entries[i].Miss? ==> r.entries[i].line < |st.phys|
    ensures Counted(st, r, info, i).hits == i + 1 <==> forall j :: 0 <= j < i + 1 ==> LineHit(st, r, j)
  {
  }

  lemma CountedFound(st: Store, r: Req, info: Info, i: nat)
    requires Sizes(st) && r.n > 0 && i < |r.entries| && Tally(st, r, info, i)
    requires !r.entries[i].Miss? ==> r.entries[i].line < |st.phys|
    ensures var info' := Counted(st, r, info, i);
      && info'.hits + info'.invalid == i + 1 - NonHits(r.entries, i + 1)
      && (info'.hits + info'.invalid == i + 1 <==> forall j :: 0 <= j < i + 1 ==> r.entries[j].Hit?)
      && (info'.hits + info'.invalid == 0 <==> forall j :: 0 <= j < i + 1 ==> !r.entries[j].Hit?)
  {
  }

  lemma CountedDirty(st: Store, r: Req, info: Info, i: nat)
    requires Sizes(st) && r.n > 0 && i < |r.entries| && Tally(st, r, info, i)
    requires !r.entries[i].Miss? ==> r.entries[i].line < |st.phys|
    ensures var info' := Counted(st, r, info, i);
      && info'.dirtyAll <= info'.dirtyAny <= i + 1
      && (info'.dirtyAny == 0 <==> forall j :: 0 <= j < i + 1 ==> !LineDirty(st, r, j))
      && (info'.dirtyAll == i + 1 <==> forall j :: 0 <= j < i + 1 ==> LineAllDirty(st, r, j))
  {
  }

  lemma CountedSequence(st: Store, r: Req, info: Info, i: nat)
    requires Sizes(st) && r.n > 0 && i < |r.entries| && Tally(st, r, info, i)
    requires !r.entries[i].Miss? ==> r.entries[i].line < |st.phys|
    ensures Counted(st, r, info, i).seqReq <==> InSequence(st, r.entries, i + 1)
  {
  }

  predicate OnLines(r: Req, w: nat, x: nat)
    requires w > 0
  {
    Quot(r.a, w) <= Quot(x, w) < Quot(r.a, w) + |r.entries|
  }

  /** What an engine may conclude from the counters once the lines are locked. */
  ghost predicate Ready(st: Store, r: Req)
    requires Shape(st)
  {
    && Placed(st, r)
    && (r.info.hits == |r.entries| ==> forall x: nat :: In(x, r.a, r.n) ==> V(st, x))
    && (r.info.dirtyAll == |r.entries| ==> forall x: nat :: In(x, r.a, r.n) ==> D(st, x))
    && (r.info.dirtyAny == 0 ==> forall x: nat :: OnLines(r, st.w, x) ==> !D(st, x))
    && (r.info.seqReq ==> Consecutive(st, r))
    && (r.info.hits == |r.entries| || r.info.hits + r.info.invalid == |r.entries| ==> AllMapped(r))
    && (r.info.hits + r.info.invalid == 0 && (forall i :: 0 <= i < |r.entries| ==> !r.entries[i].Mapped?) ==>
          forall i :: 0 <= i < |r.entries| ==> r.entries[i].Miss?)
    && (forall i :: 0 <= i < |r.entries| && r.entries[i].Mapped? ==> !AnySet(st.dirty[r.entries[i].line]))
  }

  lemma LineOfRequest(st: Store, r: Req, x: nat)
    requires Shape(st) && Placed(st, r) && (In(x, r.a, r.n) || OnLines(r, st.w, x))
    ensures OnLines(r, st.w, x)
    ensures var i := Quot(x, st.w) - Quot(r.a, st.w);
      EntryOK(st, Quot(x, st.w), r.entries[i]) && (In(x, r.a, r.n) <==> Start(r.a, st.w, i) <= Rem(x, st.w) <= End(r.a, r.n, st.w, i))
  {
    Cover(r.a, r.n, st.w, x);
    var i := Quot(x, st.w) - Quot(r.a, st.w);
    assert EntryOK(st, Quot(r.a, st.w) + i, r.entries[i]);
  }

  lemma HitSector(st: Store, r: Req, x: nat)
    requires Shape(st) && Traversed(st, r) && In(x, r.a, r.n)
    ensures r.info.hits == |r.entries| ==> V(st, x)
    ensures r.info.dirtyAll == |r.entries| ==> D(st, x)
  {
    LineOfRequest(st, r, x);
    var i := Quot(x, st.w) - Quot(r.a, st.w);
    if r.info.hits == |r.entries| { assert LineHit(st, r, i); }
    if r.info.dirtyAll == |r.entries| { assert LineAllDirty(st, r, i); }
  }

  lemma CleanSector(st: Store, r: Req, x: nat)
    requires Shape(st) && Traversed(st, r) && OnLines(r, st.w, x) && r.info.dirtyAny == 0
    ensures !D(st, x)
  {
    LineOfRequest(st, r, x);
    var i := Quot(x, st.w) - Quot(r.a, st.w);
    assert !LineDirty(st, r, i);
  }

  lemma SequenceOK(st: Store, r: Req)
    requires Shape(st) && Placed(st, r) && InSequence(st, r.entries, |r.entries|)
    ensures Consecutive(st, r)
  {
  }

  lemma MappedClean(st: Store, r: Req)
    requires Shape(st) && Traversed(st, r)
    ensures forall i :: 0 <= i < |r.entries| && r.entries[i].Mapped? ==> !AnySet(st.dirty[r.entries[i].line])
  {
    forall i | 0 <= i < |r.entries| && r.entries[i].Mapped? ensures !AnySet(st.dirty[r.entries[i].line]) {
      assert EntryOK(st, Quot(r.a, st.w) + i, r.entries[i]);
      assert EmptyIfMapped(st, r.entries[i]);
    }
  }

  /** The sector at offset o of line i of the request. */
  lemma SectorOfLine(st: Store, r: Req, i: nat, o: nat) returns (x: nat)
    requires Shape(st) && Placed(st, r) && i < |r.entries| && Start(r.a, st.w, i) <= o <= End(r.a, r.n, st.w, i)
    ensures In(x, r.a, r.n) && Quot(x, st.w) == Quot(r.a, st.w) + i && Rem(x, st.w) == o
    ensures V(st, x) ==> r.entries[i].line < |st.valid| && !r.entries[i].Miss? && st.valid[r.entries[i].line][o]
    ensures D(st, x) ==> r.entries[i].line < |st.dirty| && !r.entries[i].Miss? && st.dirty[r.entries[i].line][o]
  {
    ChunkOK(r, st.w, i);
    x := Times(Quot(r.a, st.w) + i, st.w) + o;
    QuotRem(Quot(r.a, st.w) + i, o, st.w);
    assert EntryOK(st, Quot(r.a, st.w) + i, r.entries[i]);
  }

  lemma ValidLineHit(st: Store, r: Req, i: nat)
    requires Shape(st) && Traversed(st, r) && i < |r.entries| && forall x: nat :: In(x, r.a, r.n) ==> V(st, x)
    ensures LineHit(st, r, i)
  {
    ChunkOK(r, st.w, i);
    var x := SectorOfLine(st, r, i, Start(r.a, st.w, i));
    assert EmptyIfMapped(st, r.entries[i]);
    forall o | 0 <= o < st.w && Start(r.a, st.w, i) <= o <= End(r.a, r.n, st.w, i) ensures st.valid[r.entries[i].line][o] {
      var y := SectorOfLine(st, r, i, o);
    }
  }

  lemma DirtyLineAll(st: Store, r: Req, i: nat)
    requires Shape(st) && Traversed(st, r) && i < |r.entries| && forall x: nat :: In(x, r.a, r.n) ==> D(st, x)
    ensures LineAllDirty(st, r, i)
  {
    forall x: nat | In(x, r.a, r.n) ensures V(st, x) { assert D(st, x); }
    ValidLineHit(st, r, i);
    ChunkOK(r, st.w, i);
    var x := SectorOfLine(st, r, i, Start(r.a, st.w, i));
    forall o | 0 <= o < st.w && Start(r.a, st.w, i) <= o <= End(r.a, r.n, st.w, i) ensures st.dirty[r.entries[i].line][o] {
      var y := SectorOfLine(st, r, i, o);
    }
  }

  /** A traversal reports a hit exactly if every sector is valid, and dirty throughout exactly if every sector is dirty. */
  lemma CountersExact(st: Store, r: Req)
    requires Shape(st) && Traversed(st, r)
    ensures r.info.hits == |r.entries| <==> forall x: nat :: In(x, r.a, r.n) ==> V(st, x)
    ensures r.info.dirtyAll == |r.entries| <==> forall x: nat :: In(x, r.a, r.n) ==> D(st, x)
  {
    TraversedReady(st, r);
    if forall x: nat :: In(x, r.a, r.n) ==> V(st, x) {
      forall i | 0 <= i < |r.entries| ensures LineHit(st, r, i) { ValidLineHit(st, r, i); }
    }
    if forall x: nat :: In(x, r.a, r.n) ==> D(st, x) {
      forall i | 0 <= i < |r.entries| ensures LineAllDirty(st, r, i) { DirtyLineAll(st, r, i); }
    }
  }

  lemma TraversedReady(st: Store, r: Req)
    requires Shape(st) && Traversed(st, r)
    ensures Ready(st, r)
  {
    forall x: nat | In(x, r.a, r.n)
      ensures (r.info.hits == |r.entries| ==> V(st, x)) && (r.info.dirtyAll == |r.entries| ==> D(st, x))
    {
      HitSector(st, r, x);
    }
    forall x: nat | OnLines(r, st.w, x) ensures r.info.dirtyAny == 0 ==> !D(st, x) {
      if r.info.dirtyAny == 0 { CleanSector(st, r, x); }
    }
    if r.info.seqReq { SequenceOK(st, r); }
    MappedClean(st, r);
    if r.info.hits == |r.entries| {
      assert forall i :: 0 <= i < |r.entries| ==> LineHit(st, r, i);
    }
  }

  /** A request with a miss has a sector that is not dirty. */
  lemma MissNotDirty(st: Store, r: Req, i: nat) returns (x: nat)
    requires Shape(st) && Placed(st, r) && i < |r.entries| && r.entries[i].Miss?
    ensures In(x, r.a, r.n) && !D(st, x)
  {
    x := Times(Quot(r.a, st.w) + i, st.w) + Start(r.a, st.w, i);
    QuotRem(Quot(r.a, st.w) + i, Start(r.a, st.w, i), st.w);
    ChunkOK(r, st.w, i);
    assert EntryOK(st, Quot(r.a, st.w) + i, r.entries[i]);
  }
}
