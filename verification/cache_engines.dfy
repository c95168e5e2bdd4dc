/**
 The I/O engines over one cached core.  Every method is the serial run of one request from entry to
 completion; the fields are the state the engines share.
 */
module CacheEngines {
  import opened Division
  import opened SectorMath
  import opened CacheStore
  import opened CacheBits
  import opened CacheIo
  import opened CacheRequest
  import opened CacheLines
  import opened CacheEffects
  import opened CacheOverlay
  import opened CachePlaces
  import opened PlainDisk

  class Cache {
    const w: nat
    const phys: seq<nat>
    const logical: seq<nat>
    var core: seq<Data>
    var data: seq<seq<Data>>
    var valid: seq<seq<bool>>
    var dirty: seq<seq<bool>>
    var mapping: map<nat, nat>
    var owner: seq<nat>
    var free: set<nat>
    /** The ranges that reads have fetched from the core volume, in order. */
    ghost var fetched: seq<(nat, nat)>

    ghost function Now(): Store
      reads this
    {
      Store(w, phys, logical, core, data, valid, dirty, mapping, owner, free)
    }

    /** An empty cache in front of a core volume; the cache volume may hold anything. */
    constructor (w: nat, phys: seq<nat>, logical: seq<nat>, core: seq<Data>, data: seq<seq<Data>>)
      requires VolumeOK(data, w) && |data| == |phys| == |logical|
      requires forall l :: 0 <= l < |phys| ==> phys[l] < |phys| && logical[phys[l]] == l
      ensures Coherent(Now()) && Contents(Now()) == core
    {
      this.w, this.phys, this.logical, this.core, this.data := w, phys, logical, core, data;
      valid := seq(|phys|, l => seq(w, o => false));
      dirty := seq(|phys|, l => seq(w, o => false));
      mapping := map[];
      owner := seq(|phys|, l => 0);
      free := Below(|phys|);
    }

    // ----- status bits of the request's sectors -----

    method SetValid(r: Req)
      requires Shape(Now()) && Placed(Now(), r) && AllMapped(r)
      modifies this`valid
      ensures ValidSet(old(Now()), Now(), r.a, r.n)
    {
      ghost var st := Now();
      for i := 0 to |r.entries|
        invariant ValidUpto(st, Now(), r, i)
      {
        var l := r.entries[i].line;
        ValidLoop(st, Now(), r, i);
        valid := valid[l := Mark(valid[l], Start(r.a, w, i), End(r.a, r.n, w, i), true)];
      }
      UptoAll(st, r);
    }

    method SetDirty(r: Req)
      requires Shape(Now()) && Placed(Now(), r) && AllMapped(r)
      requires forall x: nat :: In(x, r.a, r.n) ==> V(Now(), x)
      modifies this`dirty
      ensures DirtySet(old(Now()), Now(), r.a, r.n)
    {
      ghost var st := Now();
      for i := 0 to |r.entries|
        invariant DirtyUpto(st, Now(), r, i, true)
      {
        var l := r.entries[i].line;
        DirtyLoop(st, Now(), r, i, true);
        dirty := dirty[l := Mark(dirty[l], Start(r.a, w, i), End(r.a, r.n, w, i), true)];
      }
      UptoAll(st, r);
    }

    method SetClean(r: Req)
      requires Shape(Now()) && Placed(Now(), r) && AllMapped(r)
      modifies this`dirty
      ensures DirtyCleared(old(Now()), Now(), r.a, r.n)
    {
      ghost var st := Now();
      for i := 0 to |r.entries|
        invariant DirtyUpto(st, Now(), r, i, false)
      {
        var l := r.entries[i].line;
        DirtyLoop(st, Now(), r, i, false);
        dirty := dirty[l := Mark(dirty[l], Start(r.a, w, i), End(r.a, r.n, w, i), false)];
      }
      UptoAll(st, r);
    }

    // ----- data transfers -----

    /** One transfer for a sequential request, else one for each line. */
    method WriteCache(r: Req, buf: seq<Data>)
      requires Shape(Now()) && Placed(Now(), r) && AllMapped(r) && |buf| == r.n
      requires r.info.seqReq ==> Consecutive(Now(), r)
      modifies this`data
      ensures Written(old(Now()), Now(), r.a, buf)
    {
      assert EntryOK(Now(), Quot(r.a, w) + 0, r.entries[0]);
      if r.info.seqReq || |r.entries| == 1 {
        RunWrite(Now(), r, buf);
        data := DevWrite(data, w, phys[r.entries[0].line], Rem(r.a, w), buf);
      } else {
        WriteLines(r, buf);
      }
    }

    method WriteLines(r: Req, buf: seq<Data>)
      requires Shape(Now()) && Placed(Now(), r) && AllMapped(r) && |buf| == r.n && |r.entries| > 1
      modifies this`data
      ensures Written(old(Now()), Now(), r.a, buf)
    {
      ghost var st := Now();
      var total: nat := 0;
      Split(r.a, w);
      for i := 0 to |r.entries|
        invariant WrittenUpto(st, Now(), r, buf, i)
        invariant total == if i < |r.entries| then Done(r.a, w, i) else r.n
      {
        var seek := if i == 0 then Rem(r.a, w) else 0;
        ChunkNext(r, w, i);
        var bytes := ChunkLen(w, r.a, r.n, |r.entries|, i, total);
        WriteRound(st, Now(), r, buf, i, total, bytes);
        assert bytes != 0;
        data := DevWrite(data, w, phys[r.entries[i].line], seek, buf[total..total + bytes]);
        total := total + bytes;
      }
      assert total == r.n;
      UptoAll(st, r);
    }

    method ReadCache(r: Req) returns (buf: seq<Data>)
      requires Shape(Now()) && Placed(Now(), r) && AllMapped(r)
      requires r.info.seqReq ==> Consecutive(Now(), r)
      ensures |buf| == r.n && ReadUpto(Now(), r, buf)
    {
      assert EntryOK(Now(), Quot(r.a, w) + 0, r.entries[0]);
      if r.info.seqReq || |r.entries| == 1 {
        buf := DevRead(data, w, phys[r.entries[0].line], Rem(r.a, w), r.n);
        forall x: nat | In(x, r.a, r.n) ensures Quot(x, w) in mapping && buf[x - r.a] == C(Now(), x) {
          RunRead(Now(), r, x);
        }
      } else {
        buf := ReadLines(r);
      }
    }

    method ReadLines(r: Req) returns (buf: seq<Data>)
      requires Shape(Now()) && Placed(Now(), r) && AllMapped(r) && |r.entries| > 1
      ensures |buf| == r.n && ReadUpto(Now(), r, buf)
    {
      buf := [];
      Split(r.a, w);
      for i := 0 to |r.entries|
        invariant ReadUpto(Now(), r, buf)
        invariant |buf| == if i < |r.entries| then Done(r.a, w, i) else r.n
      {
        var seek := if i == 0 then Rem(r.a, w) else 0;
        ChunkNext(r, w, i);
        var bytes := ChunkLen(w, r.a, r.n, |r.entries|, i, |buf|);
        ReadRound(Now(), r, buf, i, bytes);
        assert bytes != 0;
        buf := buf + DevRead(data, w, phys[r.entries[i].line], seek, bytes);
      }
    }

    // ----- lookup and mapping -----

    method UpdateReqInfo(r: Req, i: nat) returns (info: Info)
      requires Sizes(Now()) && r.n > 0 && i < |r.entries| && (!r.entries[i].Miss? ==> r.entries[i].line < |phys|)
      requires InSequence(Now(), r.entries, if r.info.seqReq then i else 0)
      ensures info == Counted(Now(), r, r.info, i)
    {
      info := r.info;
      match r.entries[i] {
      case Hit(l) =>
        var s, e := Start(r.a, w, i), End(r.a, r.n, w, i);
        if AllSet(valid[l], s, e) {
          info := info.(hits := info.hits + 1);
        } else {
          info := info.(invalid := info.invalid + 1);
        }
        if AnySet(dirty[l]) {
          info := info.(dirtyAny := info.dirtyAny + 1);
          if AllSet(dirty[l], s, e) { info := info.(dirtyAll := info.dirtyAll + 1); }
        }
      case Miss => info := info.(seqReq := false);
        case Mapped(_) =>
      }
      if info.seqReq && i > 0 && phys[r.entries[i - 1].line] + 1 != phys[r.entries[i].line] {
        info := info.(seqReq := false);
      }
    }

    method Lookup(k: nat) returns (e: Entry)
      ensures EntryOK(Now(), k, e) && !e.Mapped?
    {
      e := if k in mapping then Hit(mapping[k]) else Miss;
    }

    method Traverse(a: nat, n: nat) returns (r: Req)
      requires Shape(Now()) && InRange(Now(), a, n)
      ensures r.a == a && r.n == n && Traversed(Now(), r)
      ensures forall j :: 0 <= j < |r.entries| ==> !r.entries[j].Mapped?
    {
      r := Req(a, n, seq(Lines(a, n, w), i => Miss), First());
      for i := 0 to |r.entries|
        invariant r.a == a && r.n == n && TraversedUpto(Now(), r, i) && |r.entries| == Lines(a, n, w)
        invariant forall j :: 0 <= j < |r.entries| ==> !r.entries[j].Mapped?
      {
        r := TraverseLine(r, i);
      }
    }

    /** A lookup, and what an engine may conclude from it. */
    method Look(a: nat, n: nat) returns (r: Req)
      requires Shape(Now()) && InRange(Now(), a, n)
      ensures r.a == a && r.n == n && Traversed(Now(), r) && Ready(Now(), r)
      ensures forall j :: 0 <= j < |r.entries| ==> !r.entries[j].Mapped?
      ensures r.info.hits == |r.entries| <==> AllValid(Now(), a, n)
      ensures r.info.dirtyAll == |r.entries| <==> AllDirty(Now(), a, n)
    {
      r := Traverse(a, n);
      TraversedReady(Now(), r);
      CountersExact(Now(), r);
    }

    method TraverseLine(r: Req, i: nat) returns (r': Req)
      requires Sizes(Now()) && Mapping(Now()) && i < |r.entries| && TraversedUpto(Now(), r, i)
      requires forall j :: 0 <= j < |r.entries| ==> !r.entries[j].Mapped?
      ensures r'.a == r.a && r'.n == r.n && |r'.entries| == |r.entries| && TraversedUpto(Now(), r', i + 1)
      ensures forall j :: 0 <= j < |r.entries| ==> !r'.entries[j].Mapped?
    {
      ghost var st := Now();
      var e := Lookup(Quot(r.a, w) + i);
      TraverseStep(st, r, i, e);
      r' := TakeEntry(r, i, e);
    }

    /** Take one line off the free list for core line k. */
    method MapCacheLine(k: nat) returns (l: nat)
      requires Shape(Now()) && k !in mapping && free != {}
      modifies this`mapping, this`owner, this`free
      ensures l in old(free) && Now() == MapLine(old(Now()), k, l)
    {
      l :| l in free;
      mapping := mapping[k := l];
      owner := owner[l := k];
      free := free - {l};
    }

    /** Clear valid bits of a line and release it when none is left and nobody waits for it. */
    method SetInvalid(k: nat, s: nat, e: nat, waiters: bool)
      requires Sizes(Now()) && k in mapping && mapping[k] < |phys|
      modifies this`valid, this`mapping, this`free
      ensures Now() == DropLine(old(Now()), k, s, e, waiters)
    {
      var l := mapping[k];
      valid := valid[l := Mark(valid[l], s, e, false)];
      if !AnySet(valid[l]) && !waiters {
        mapping := mapping - {k};
        free := free + {l};
      }
    }

    /** Give back the lines that a failed mapping took since st. */
    method CancelMapping(ghost st: Store, r: Req)
      requires Shape(st) && Cancelling(st, Now(), r, 0)
      modifies this`valid, this`mapping, this`free
      ensures Calm(st, Now()) && Spares(st, Now(), []) && mapping == st.mapping && free == st.free
    {
      for j := 0 to |r.entries|
        invariant Cancelling(st, Now(), r, j)
      {
        CancelEntry(st, r, j);
      }
      NothingAdded(st, Now());
    }

    method CancelEntry(ghost st: Store, r: Req, j: nat)
      requires Shape(st) && j < |r.entries| && Cancelling(st, Now(), r, j)
      modifies this`valid, this`mapping, this`free
      ensures Cancelling(st, Now(), r, j + 1)
    {
      if r.entries[j].Mapped? {
        CancelLine(st, r, j);
      } else {
        CancelSkip(st, Now(), r, j);
      }
    }

    method CancelLine(ghost st: Store, r: Req, j: nat)
      requires Shape(st) && j < |r.entries| && r.entries[j].Mapped? && Cancelling(st, Now(), r, j)
      modifies this`valid, this`mapping, this`free
      ensures Cancelling(st, Now(), r, j + 1)
    {
      ghost var st1 := Now();
      ghost var st2 := Cancelled(st, st1, r, j);
      SetInvalid(Quot(r.a, w) + j, 0, w - 1, false);
      assert Now() == st2;
    }

    /** Unlock the clean lines among the victims from their core lines; returns how many. */
    method Evict(victims: seq<nat>) returns (evicted: nat)
      requires Shape(Now())
      modifies this`valid, this`mapping, this`free
      ensures Calm(old(Now()), Now()) && Freed(old(Now()), Now(), victims, evicted)
    {
      ghost var st := Now();
      evicted := 0;
      for j := 0 to |victims|
        invariant Calm(st, Now()) && Freed(st, Now(), victims[..j], evicted)
      {
        assert victims[..j + 1] == victims[..j] + [victims[j]];
        evicted := EvictOne(st, victims[..j], victims[j], evicted);
      }
      assert victims[..|victims|] == victims;
    }

    method EvictOne(ghost st: Store, ghost before: seq<nat>, k: nat, evicted: nat) returns (evicted': nat)
      requires Shape(st) && Calm(st, Now()) && Freed(st, Now(), before, evicted)
      modifies this`valid, this`mapping, this`free
      ensures Calm(st, Now()) && Freed(st, Now(), before + [k], evicted')
    {
      evicted' := evicted;
      if k in mapping && !AnySet(dirty[mapping[k]]) {
        FreedMore(st, Now(), before, k, evicted);
        EvictLine(st, k);
        evicted' := evicted + 1;
      } else {
        FreedSkip(st, Now(), before, k, evicted);
      }
    }

    method EvictLine(ghost st: Store, k: nat)
      requires Shape(st) && Calm(st, Now()) && k in mapping && !AnySet(dirty[mapping[k]])
      modifies this`valid, this`mapping, this`free
      ensures Calm(st, Now()) && Now() == DropLine(old(Now()), k, 0, w - 1, false)
    {
      ghost var st1 := Now();
      DropCalm(st1, k);
      SetInvalid(k, 0, w - 1, false);
      CalmTrans(st, st1, Now());
    }

    /** Map every line of the request that is not found; on failure nothing stays mapped. */
    method Map(r: Req) returns (r': Req, err: bool)
      requires Shape(Now()) && Sized(Now(), r) && forall j :: 0 <= j < |r.entries| ==> !r.entries[j].Mapped?
      requires r.info.hits + r.info.invalid == |r.entries| ==> Traversed(Now(), r)
      modifies this`valid, this`mapping, this`owner, this`free
      ensures Calm(old(Now()), Now()) && Spares(old(Now()), Now(), []) && r'.a == r.a && r'.n == r.n
      ensures if err then mapping == old(mapping) && free == old(free) else Traversed(Now(), r') && AllMapped(r')
      ensures err && old(Traversed(Now(), r)) ==> r' == r && Now() == old(Now())
      ensures old(Traversed(Now(), r)) ==> (err <==> |r.entries| - (r.info.hits + r.info.invalid) > |old(free)|)
    {
      ghost var st := Now();
      r', err := r, false;
      if r.info.hits + r.info.invalid == |r.entries| { return; }
      if |r.entries| - (r.info.hits + r.info.invalid) > |free| { err := true; return; }
      ghost var exact := Traversed(st, r);
      r', err := MapAll(r, exact);
      GrownAdded(st.mapping, mapping, Quot(r.a, w), r'.entries, |r'.entries|);
      AddedSpares(st, Now(), Keys(Quot(r.a, w), r'.entries, 0, |r'.entries|));
      if err { CancelMapping(st, r'); }
    }

    method MapAll(r: Req, ghost exact: bool) returns (r': Req, err: bool)
      requires Shape(Now()) && Sized(Now(), r) && forall j :: 0 <= j < |r.entries| ==> !r.entries[j].Mapped?
      requires exact ==> Traversed(Now(), r) && |r.entries| - (r.info.hits + r.info.invalid) <= |free|
      modifies this`mapping, this`owner, this`free
      ensures Calm(old(Now()), Now()) && r'.a == r.a && r'.n == r.n
      ensures Grown(old(mapping), mapping, Quot(r.a, w), r'.entries, |r'.entries|)
      ensures !err ==> Traversed(Now(), r') && AllMapped(r')
      ensures err ==> !exact && Cancellable(Now(), r', 0)
    {
      ghost var st := Now();
      MappingStart(st, r, exact);
      r', err := r.(info := First()), false;
      var i := 0;
      while i < |r.entries| && !err
        invariant i <= |r.entries| && MapProgress(st, Now(), r, r', i, exact)
        invariant err ==> !exact
        decreases |r.entries| - i, !err
      {
        r', err := MapEntry(st, r, r', i, exact);
        i := if err then i else i + 1;
      }
      MappingEnd(st, Now(), r, r', i, exact);
    }

    method MapEntry(ghost st: Store, ghost r0: Req, r: Req, i: nat, ghost exact: bool) returns (r': Req, err: bool)
      requires Shape(st) && i < |r.entries| && MapProgress(st, Now(), r0, r, i, exact)
      modifies this`mapping, this`owner, this`free
      ensures MapProgress(st, Now(), r0, r', if err then i else i + 1, exact)
      ensures err ==> !exact
    {
      err, r' := false, r;
      var e;
      if Quot(r.a, w) + i in mapping {
        e := Hit(mapping[Quot(r.a, w) + i]);
        FoundNext(st, Now(), r0, r, i, exact);
      } else {
        if exact { NeverShort(Now(), r0, i); }
        if free == {} { err := true; return; }
        e := MapMissing(st, r0, r, i, exact);
      }
      r' := TakeEntry(r, i, e);
    }

    method MapMissing(ghost st: Store, ghost r0: Req, r: Req, i: nat, ghost exact: bool) returns (e: Entry)
      requires Shape(st) && i < |r.entries| && MapProgress(st, Now(), r0, r, i, exact) && Quot(r.a, w) + i !in mapping && free != {}
      modifies this`mapping, this`owner, this`free
      ensures CanStep(Now(), r, i, e) && MapProgress(st, Now(), r0, StepReq(Now(), r, i, e), i + 1, exact)
    {
      ghost var st1 := Now();
      var line := MapCacheLine(Quot(r.a, w) + i);
      MappedNext(st, st1, Now(), r0, r, i, exact, line);
      e := Mapped(line);
    }

    /** Line i of the request is e; count it. */
    method TakeEntry(r: Req, i: nat, e: Entry) returns (r': Req)
      requires CanStep(Now(), r, i, e)
      ensures r' == StepReq(Now(), r, i, e)
    {
      r' := WithEntry(r, i, e);
      var info := UpdateReqInfo(r', i);
      r' := r'.(info := info);
    }

    /**
     Look the request up and map what is missing, with one round of eviction when lines run short.
     The promotion policy and the choice of victims are the environment's.
     */
    method PrepareClines(a: nat, n: nat, promote: bool, victims: seq<nat>) returns (r: Req, err: bool)
      requires Shape(Now()) && InRange(Now(), a, n)
      modifies this`valid, this`mapping, this`owner, this`free
      ensures Calm(old(Now()), Now()) && Spares(old(Now()), Now(), victims) && r.a == a && r.n == n
      ensures !err ==> Traversed(Now(), r) && AllMapped(r)
      ensures err ==> exists x: nat :: In(x, a, n) && !D(old(Now()), x)
      ensures var missing := Missing(old(mapping), Quot(a, w), Lines(a, n, w));
        && (AllValid(old(Now()), a, n) ==> missing == 0)
        && (missing == 0 || !promote ==> Now() == old(Now()) && (err <==> missing > 0))
        && (promote && missing <= |old(free)| ==> !err && Spares(old(Now()), Now(), []))
        && (missing > |old(free)| + |Reclaimable(old(Now()), victims)| ==> err)
        && (promote && missing <= |old(free)| + |Reclaimable(old(Now()), victims)| && Elsewhere(old(Now()), a, n, victims) ==> !err)
    {
      ghost var st := Now();
      r := Traverse(a, n);
      err := false;
      MissingIsNonHits(st, r, |r.entries|);
      CountersExact(st, r);
      if r.info.hits + r.info.invalid == |r.entries| { return; }
      ghost var i :| 0 <= i < |r.entries| && r.entries[i].Miss?;
      ghost var x := MissNotDirty(st, r, i);
      if !promote { err := true; return; }
      r, err := Map(r);
      if err { r, err := MakeRoom(st, r, victims); }
    }

    /** Lines ran short: evict, and try to map once more with the counters as they were. */
    method MakeRoom(ghost st: Store, r: Req, victims: seq<nat>) returns (r': Req, err: bool)
      requires Shape(st) && Now() == st && Traversed(st, r) && forall j :: 0 <= j < |r.entries| ==> !r.entries[j].Mapped?
      requires r.info.hits + r.info.invalid + |free| < |r.entries|
      modifies this`valid, this`mapping, this`owner, this`free
      ensures Calm(st, Now()) && Spares(st, Now(), victims) && r'.a == r.a && r'.n == r.n
      ensures !err ==> Traversed(Now(), r') && AllMapped(r')
      ensures var missing := |r.entries| - (r.info.hits + r.info.invalid);
        && (missing > |st.free| + |Reclaimable(st, victims)| ==> err)
        && (missing <= |st.free| + |Reclaimable(st, victims)| && Elsewhere(st, r.a, r.n, victims) ==> !err)
    {
      r', err := r, true;
      var unmapped := |r.entries| - (r.info.hits + r.info.invalid);
      if unmapped > |free| {
        var wanted := unmapped - |free|;
        var evicted := Evict(victims);
        FreedSpares(st, st, Now(), victims, evicted);
        if Elsewhere(st, r.a, r.n, victims) { TraversedKept(st, Now(), r, victims, evicted); }
        if evicted < wanted { return; }
      }
      ghost var st1 := Now();
      r', err := Map(r);
      CalmTrans(st, st1, Now());
      SparesTrans(st, st1, Now(), victims);
    }

    // ----- cleaning and purging -----

    /** Copy the dirty sectors of a line back to the core volume. */
    method CleanCacheLine(k: nat)
      requires Shape(Now()) && k in mapping
      modifies this`core, this`dirty
      ensures Cleaned(old(Now()), Now(), k, k + 1)
    {
      CleanLineOK(Now(), k);
      var l := mapping[k];
      core := CopyBack(core, w, k, dirty[l], data[phys[l]]);
      dirty := dirty[l := Mark(dirty[l], 0, w - 1, false)];
    }

    /** Clean every dirty line the request hit. */
    method Clean(r: Req)
      requires Shape(Now()) && Ready(Now(), r)
      modifies this`core, this`dirty
      ensures Cleaned(old(Now()), Now(), Quot(r.a, w), Quot(r.a, w) + |r.entries|)
    {
      ghost var st := Now();
      CleanedNone(st, Quot(r.a, w));
      for i := 0 to |r.entries|
        invariant CleanedUpto(st, Now(), r, i)
      {
        CleanEntry(st, r, i);
      }
    }

    method CleanEntry(ghost st: Store, r: Req, i: nat)
      requires Shape(st) && Placed(st, r) && i < |r.entries| && CleanedUpto(st, Now(), r, i)
      requires r.entries[i].Mapped? ==> r.entries[i].line < |st.dirty| && !AnySet(st.dirty[r.entries[i].line])
      modifies this`core, this`dirty
      ensures CleanedUpto(st, Now(), r, i + 1)
    {
      assert EntryOK(st, Quot(r.a, w) + i, r.entries[i]);
      if r.entries[i].Hit? && AnySet(dirty[r.entries[i].line]) {
        ghost var st1 := Now();
        CleanCacheLine(Quot(r.a, w) + i);
        CleanNext(st, st1, Now(), r, i);
      } else {
        if r.entries[i].Mapped? { StillClean(st, Now(), r, i); }
        CleanSkip(st, Now(), r, i);
      }
    }

    /** Drop the sectors of the request from every line that is mapped; lines of the request in waiters are kept. */
    method Purge(r: Req, waiters: set<nat>)
      requires Shape(Now()) && Placed(Now(), r)
      modifies this`valid, this`dirty, this`mapping, this`free
      ensures Purged(old(Now()), Now(), r.a, r.n)
    {
      ghost var st := Now();
      for i := 0 to |r.entries|
        invariant PurgedUpto(st, Now(), r, i) && EntriesFrom(Now(), r, i)
      {
        assert EntryOK(st, Quot(r.a, w) + i, r.entries[i]);
        if r.entries[i].Miss? {
          PurgeSkip(st, Now(), r, i);
        } else {
          PurgeEntry(st, r, i, waiters);
        }
      }
      UptoAll(st, r);
    }

    method PurgeEntry(ghost st: Store, r: Req, i: nat, waiters: set<nat>)
      requires Shape(st) && Sized(st, r) && PurgedUpto(st, Now(), r, i) && EntriesFrom(Now(), r, i)
      requires i < |r.entries| && !r.entries[i].Miss?
      modifies this`valid, this`dirty, this`mapping, this`free
      ensures PurgedUpto(st, Now(), r, i + 1) && EntriesFrom(Now(), r, i + 1)
    {
      PurgeStep(st, Now(), r, i, r.entries[i].line in waiters);
      PurgeCacheLine(r, i, r.entries[i].line in waiters);
    }

    method PurgeCacheLine(r: Req, i: nat, waiters: bool)
      requires Sizes(Now()) && Sized(Now(), r) && i < |r.entries| && !r.entries[i].Miss?
      requires EntryOK(Now(), Quot(r.a, w) + i, r.entries[i]) && r.entries[i].line < |phys|
      modifies this`valid, this`dirty, this`mapping, this`free
      ensures Now() == PurgeLine(old(Now()), r, i, waiters)
    {
      var l := r.entries[i].line;
      dirty := dirty[l := Mark(dirty[l], Start(r.a, w, i), End(r.a, r.n, w, i), false)];
      assert Now() == SetDirtyLine(old(Now()), r, i, false);
      SetInvalid(Quot(r.a, w) + i, Start(r.a, w, i), End(r.a, r.n, w, i), waiters);
    }

    method WriteCore(a: nat, buf: seq<Data>)
      requires Shape(Now()) && a + |buf| <= |core|
      modifies this`core
      ensures Shape(Now()) && Now() == old(Now()).(core := Overwrite(old(core), a, buf))
    {
      CoreShape(Now(), Overwrite(core, a, buf));
      core := core[..a] + buf + core[a + |buf|..];
    }

    // ----- reads -----

    method ReadCore(a: nat, n: nat) returns (buf: seq<Data>)
      requires a + n <= |core|
      modifies this`fetched
      ensures buf == core[a..a + n] && fetched == old(fetched) + [(a, n)]
    {
      buf := core[a..a + n];
      fetched := fetched + [(a, n)];
    }

    /** Clean the request's lines and forget that they were dirty; the request then starts over. */
    method CleanAgain(r: Req) returns (r': Req)
      requires Coherent(Now()) && Ready(Now(), r)
      modifies this`core, this`dirty
      ensures Coherent(Now()) && Contents(Now()) == old(Contents(Now())) && Ready(Now(), r')
      ensures r' == r.(info := r.info.(dirtyAny := 0, dirtyAll := 0))
    {
      ghost var st := Now();
      Clean(r);
      CleanedReady(st, Now(), r);
      CleanedKeeps(st, Now(), Quot(r.a, w), Quot(r.a, w) + |r.entries|);
      r' := r.(info := r.info.(dirtyAny := 0, dirtyAll := 0));
    }

    /** Read once the lines are locked; a miss cleans first, then fills the lines from the core volume. */
    method ReadGenericDo(r: Req, rdLocked: bool) returns (buf: seq<Data>)
      requires Coherent(Now()) && Ready(Now(), r) && AllMapped(r)
      modifies this`core, this`data, this`valid, this`dirty, this`fetched
      ensures Coherent(Now()) && Contents(Now()) == old(Contents(Now()))
      ensures buf == old(Contents(Now()))[r.a..r.a + r.n]
      ensures if r.info.hits == |r.entries| then Now() == old(Now()) && fetched == old(fetched)
              else fetched == old(fetched) + [(r.a, r.n)] && NoneNewer(Now(), r.a, r.n) && (!rdLocked ==> AllValid(Now(), r.a, r.n))
      decreases r.info.dirtyAny
    {
      var hit := r.info.hits == |r.entries|;
      if !hit && rdLocked {
        buf := ReadPtDo(r);
      } else if !hit && r.info.dirtyAny > 0 {
        var r' := CleanAgain(r);
        buf := ReadGenericDo(r', rdLocked);
      } else if hit {
        buf := ReadHit(r);
      } else {
        buf := ReadMiss(r);
      }
    }

    method ReadHit(r: Req) returns (buf: seq<Data>)
      requires Coherent(Now()) && Ready(Now(), r) && AllMapped(r) && r.info.hits == |r.entries|
      ensures buf == Contents(Now())[r.a..r.a + r.n]
    {
      buf := ReadCache(r);
      HitShows(Now(), r, buf);
    }

    /** Valid bits first, then the core read, then the backfill of the cache. */
    method ReadMiss(r: Req) returns (buf: seq<Data>)
      requires Coherent(Now()) && Ready(Now(), r) && AllMapped(r) && r.info.dirtyAny == 0
      modifies this`data, this`valid, this`fetched
      ensures Coherent(Now()) && Contents(Now()) == old(Contents(Now()))
      ensures buf == old(Contents(Now()))[r.a..r.a + r.n]
      ensures fetched == old(fetched) + [(r.a, r.n)] && AllValid(Now(), r.a, r.n) && NoneNewer(Now(), r.a, r.n)
    {
      ghost var st := Now();
      ghost var st1;
      buf, st1 := FillFromCore(r);
      MissReads(st, r);
      MissShows(st, st1, Now(), r);
      FilledPlaces(st, st1, Now(), r, buf);
    }

    method FillFromCore(r: Req) returns (buf: seq<Data>, ghost st1: Store)
      requires Shape(Now()) && Placed(Now(), r) && AllMapped(r) && (r.info.seqReq ==> Consecutive(Now(), r))
      modifies this`data, this`valid, this`fetched
      ensures ValidSet(old(Now()), st1, r.a, r.n) && buf == old(core)[r.a..r.a + r.n]
      ensures Written(st1, Now(), r.a, buf) && fetched == old(fetched) + [(r.a, r.n)]
    {
      ghost var st := Now();
      SetValid(r);
      st1 := Now();
      buf := ReadCore(r.a, r.n);
      SamePlace(st, st1, r);
      WriteCache(r, buf);
    }

    /** Pass-through read once the lines are locked. */
    method ReadPtDo(r: Req) returns (buf: seq<Data>)
      requires Coherent(Now()) && Ready(Now(), r)
      modifies this`core, this`dirty, this`fetched
      ensures Coherent(Now()) && Contents(Now()) == old(Contents(Now()))
      ensures buf == old(Contents(Now()))[r.a..r.a + r.n]
      ensures fetched == old(fetched) + [(r.a, r.n)] && NoneNewer(Now(), r.a, r.n)
      ensures r.info.dirtyAny == 0 ==> Now() == old(Now())
      decreases r.info.dirtyAny
    {
      if r.info.dirtyAny > 0 {
        var r' := CleanAgain(r);
        buf := ReadPtDo(r');
      } else {
        MissReads(Now(), r);
        LinesClean(Now(), r);
        buf := ReadCore(r.a, r.n);
      }
    }

    /**
     Generic read.  The flag that blocks misses is sampled at each entry; blocked says how many more
     times it will be found set.
     */
    method ReadGeneric(a: nat, n: nat, seqCutoff: bool, blocked: nat, promote: bool, victims: seq<nat>) returns (buf: seq<Data>)
      requires Coherent(Now()) && InRange(Now(), a, n)
      modifies this`core, this`data, this`valid, this`dirty, this`mapping, this`owner, this`free, this`fetched
      ensures Coherent(Now()) && Contents(Now()) == old(Contents(Now()))
      ensures buf == old(Contents(Now()))[a..a + n]
      ensures ReadByCache(old(Now()), Now(), old(fetched), fetched, a, n, seqCutoff, blocked, promote, victims)
      decreases blocked, 1, 1
    {
      if blocked > 0 {
        buf := ReadPt(a, n, seqCutoff, blocked - 1, promote, victims);
      } else {
        buf := ReadUnblocked(a, n, seqCutoff, blocked, promote, victims);
      }
    }

    method ReadUnblocked(a: nat, n: nat, seqCutoff: bool, blocked: nat, promote: bool, victims: seq<nat>) returns (buf: seq<Data>)
      requires Coherent(Now()) && InRange(Now(), a, n)
      modifies this`core, this`data, this`valid, this`dirty, this`mapping, this`owner, this`free, this`fetched
      ensures Coherent(Now()) && Contents(Now()) == old(Contents(Now()))
      ensures buf == old(Contents(Now()))[a..a + n]
      ensures ReadByCache(old(Now()), Now(), old(fetched), fetched, a, n, seqCutoff, 0, promote, victims)
      decreases blocked, 1, 0
    {
      var r, err := Prepare(a, n, promote, victims);
      if err {
        buf := ReadPt(a, n, seqCutoff, blocked, promote, victims);
      } else {
        buf := ReadMapped(r);
      }
    }

    /** PrepareClines as the engines use it, on a coherent cache. */
    method Prepare(a: nat, n: nat, promote: bool, victims: seq<nat>) returns (r: Req, err: bool)
      requires Coherent(Now()) && InRange(Now(), a, n)
      modifies this`valid, this`mapping, this`owner, this`free
      ensures Coherent(Now()) && Contents(Now()) == old(Contents(Now())) && r.a == a && r.n == n
      ensures if err then !AllDirty(Now(), a, n) else Traversed(Now(), r) && AllMapped(r)
      ensures if old(AllValid(Now(), a, n)) then !err && Now() == old(Now()) else !AllValid(Now(), a, n)
      ensures (CanMap(old(Now()), a, n, promote, victims) ==> !err) && (CannotMap(old(Now()), a, n, promote, victims) ==> err)
    {
      ghost var st := Now();
      r, err := PrepareClines(a, n, promote, victims);
      CalmKeeps(st, Now());
      if err { ErrNotDirty(st, Now(), a, n); }
      if !AllValid(st, a, n) { StillNotValid(st, Now(), a, n); }
    }

    /** All lines of the request are mapped and its counters are right. */
    method ReadMapped(r: Req) returns (buf: seq<Data>)
      requires Coherent(Now()) && Traversed(Now(), r) && AllMapped(r)
      modifies this`core, this`data, this`valid, this`dirty, this`fetched
      ensures Coherent(Now()) && Contents(Now()) == old(Contents(Now()))
      ensures buf == old(Contents(Now()))[r.a..r.a + r.n]
      ensures if old(AllValid(Now(), r.a, r.n)) then Now() == old(Now()) && fetched == old(fetched)
              else fetched == old(fetched) + [(r.a, r.n)] && NoneNewer(Now(), r.a, r.n) && AllValid(Now(), r.a, r.n)
    {
      TraversedReady(Now(), r);
      CountersExact(Now(), r);
      buf := ReadGenericDo(r, r.info.hits == |r.entries|);
    }

    /** Pass-through read; with sequential cut-off, a request that is dirty throughout is served by the cache. */
    method ReadPt(a: nat, n: nat, seqCutoff: bool, blocked: nat, promote: bool, victims: seq<nat>) returns (buf: seq<Data>)
      requires Coherent(Now()) && InRange(Now(), a, n)
      modifies this`core, this`data, this`valid, this`dirty, this`mapping, this`owner, this`free, this`fetched
      ensures Coherent(Now()) && Contents(Now()) == old(Contents(Now()))
      ensures buf == old(Contents(Now()))[a..a + n]
      ensures ReadAround(old(Now()), Now(), old(fetched), fetched, a, n, seqCutoff)
      decreases blocked, if AllDirty(Now(), a, n) then 2 else 0, 0
    {
      var r := Look(a, n);
      if seqCutoff && r.info.dirtyAll == |r.entries| {
        buf := ReadGeneric(a, n, seqCutoff, blocked, promote, victims);
      } else {
        buf := ReadPtDo(r);
      }
    }

    /** Write-only read: a hit is served by the cache, else the cache is laid over what the core returns. */
    method ReadWo(a: nat, n: nat) returns (buf: seq<Data>)
      requires Coherent(Now()) && InRange(Now(), a, n)
      modifies this`fetched
      ensures buf == Contents(Now())[a..a + n]
      ensures fetched == if AllValid(Now(), a, n) then old(fetched) else old(fetched) + [(a, n)]
    {
      var r := Look(a, n);
      if r.info.hits == |r.entries| {
        buf := ReadHit(r);
      } else {
        buf := ReadWoMiss(r);
      }
    }

    method ReadWoMiss(r: Req) returns (buf: seq<Data>)
      requires Coherent(Now()) && Ready(Now(), r)
      modifies this`fetched
      ensures buf == Contents(Now())[r.a..r.a + r.n] && fetched == old(fetched) + [(r.a, r.n)]
    {
      buf := ReadCore(r.a, r.n);
      if r.info.dirtyAny == 0 {
        MissReads(Now(), r);
      } else {
        var ios := WoTransfers(r);
        buf := WoOverlay(r, ios, buf);
        OverlayShows(Now(), r, ios, buf);
      }
    }

    /** The transfers of a write-only read, in the order in which they are issued. */
    method WoTransfers(r: Req) returns (ios: seq<Io>)
      requires Shape(Now()) && Placed(Now(), r)
      ensures Issued(Now(), r.a, ios, r.n) && Longest(Now(), r.a, ios, r.n)
    {
      var io, start, off: nat, physCurr: nat := false, 0, 0, 0;
      ios := [];
      Split(r.a, w);
      for i := 0 to |r.entries|
        invariant BeforeLine(Now(), r, i, ios, io, start, off, physCurr) && Longest(Now(), r.a, ios, r.n)
      {
        ios, io, start, off, physCurr := WoLine(r, i, ios, io, start, off, physCurr);
      }
      if io {
        EmitOK(Now(), r.a, ios, start, off);
        LongestEmit(Now(), r.a, ios, start, off, r.n);
        ios := ios + [Io(start, off - start)];
      }
    }

    method WoLine(r: Req, i: nat, ios0: seq<Io>, io0: bool, start0: nat, off0: nat, physPrev: nat)
        returns (ios: seq<Io>, io: bool, start: nat, off: nat, physCurr: nat)
      requires Shape(Now()) && Placed(Now(), r) && i < |r.entries| && BeforeLine(Now(), r, i, ios0, io0, start0, off0, physPrev)
      requires Longest(Now(), r.a, ios0, r.n)
      ensures BeforeLine(Now(), r, i + 1, ios, io, start, off, physCurr) && Longest(Now(), r.a, ios, r.n)
    {
      ios, io, start, off := ios0, io0, start0, off0;
      var s, e := Start(r.a, w, i), End(r.a, r.n, w, i);
      EnterLine(Now(), r, i, ios, io, start, off, physPrev);
      physCurr := if r.entries[i].Miss? then physPrev else phys[r.entries[i].line];
      if io && physPrev + 1 != physCurr {
        LineStops(Now(), r, i, off, physPrev);
        LongestEmit(Now(), r.a, ios, start, off, r.n);
        ios := ios + [Io(start, off - start)];
        io := false;
      }
      DoneNext(r.a, r.n, w, i);
      if r.entries[i].Miss? {
        ios, io, start, off := WoRegion(r, i, ios, io, start, off, s, e - s + 1, false);
      } else if r.entries[i].Hit? && AllSet(valid[r.entries[i].line], s, e) {
        ios, io, start, off := WoRegion(r, i, ios, io, start, off, s, e - s + 1, true);
      } else {
        ios, io, start, off := WoSectors(r, i, ios, io, start, off);
      }
      LeaveLine(Now(), r, i, ios, io, start, off, physCurr);
    }

    /** Go through a partly valid line region by region. */
    method WoSectors(r: Req, i: nat, ios0: seq<Io>, io0: bool, start0: nat, off0: nat)
        returns (ios: seq<Io>, io: bool, start: nat, off: nat)
      requires Shape(Now()) && Placed(Now(), r) && i < |r.entries| && !r.entries[i].Miss?
      requires InLine(Now(), r, i, ios0, io0, start0, off0, Start(r.a, w, i)) && Longest(Now(), r.a, ios0, r.n)
      ensures InLine(Now(), r, i, ios, io, start, off, End(r.a, r.n, w, i) + 1) && Longest(Now(), r.a, ios, r.n)
    {
      ios, io, start, off := ios0, io0, start0, off0;
      assert EntryOK(Now(), Quot(r.a, w) + i, r.entries[i]);
      var bits := valid[r.entries[i].line];
      var e := End(r.a, r.n, w, i);
      var p := Start(r.a, w, i);
      while p <= e
        invariant InLine(Now(), r, i, ios, io, start, off, p) && Longest(Now(), r.a, ios, r.n)
      {
        var v := bits[p];
        var inc := 1;
        while p + inc <= e && bits[p + inc] == v
          invariant 0 < inc && p + inc <= e + 1 && forall o :: p <= o < p + inc ==> bits[o] == v
        {
          inc := inc + 1;
        }
        ios, io, start, off := WoRegion(r, i, ios, io, start, off, p, inc, v);
        p := p + inc;
      }
    }

    /** One region of sectors that are all valid or all invalid. */
    method WoRegion(r: Req, i: nat, ios0: seq<Io>, io0: bool, start0: nat, off0: nat, p: nat, inc: nat, v: bool)
        returns (ios: seq<Io>, io: bool, start: nat, off: nat)
      requires Shape(Now()) && Placed(Now(), r) && i < |r.entries| && InLine(Now(), r, i, ios0, io0, start0, off0, p)
      requires inc > 0 && p + inc <= End(r.a, r.n, w, i) + 1 && forall o :: p <= o < p + inc ==> ValidAt(Now(), r, i, o) == v
      requires Longest(Now(), r.a, ios0, r.n)
      ensures InLine(Now(), r, i, ios, io, start, off, p + inc) && io == v && Longest(Now(), r.a, ios, r.n)
    {
      if io0 && !v {
        RegionStops(Now(), r, i, off0, p);
        LongestEmit(Now(), r.a, ios0, start0, off0, r.n);
      }
      ios := if io0 && !v then ios0 + [Io(start0, off0 - start0)] else ios0;
      io := v;
      start := if !io0 && v then off0 else start0;
      off := off0 + inc;
      RegionNext(Now(), r, i, ios0, io0, start0, off0, p, inc, v);
    }

    /** Complete the transfers into the buffer that holds what the core returned. */
    method WoOverlay(r: Req, ios: seq<Io>, buf0: seq<Data>) returns (buf: seq<Data>)
      requires Shape(Now()) && |buf0| == r.n && Ascending(ios, r.n) && AllRuns(Now(), r.a, ios)
      ensures LaidUpto(Now(), r.a, ios, buf0, buf, |ios|)
    {
      buf := buf0;
      assert ios[..0] == [];
      for i := 0 to |ios|
        invariant LaidUpto(Now(), r.a, ios, buf0, buf, i)
      {
        buf := WoTransfer(r, ios, buf0, buf, i);
      }
    }

    method WoTransfer(r: Req, ios: seq<Io>, buf0: seq<Data>, buf: seq<Data>, i: nat) returns (buf': seq<Data>)
      requires Shape(Now()) && Ascending(ios, |buf0|) && AllRuns(Now(), r.a, ios) && i < |ios|
      requires LaidUpto(Now(), r.a, ios, buf0, buf, i)
      ensures LaidUpto(Now(), r.a, ios, buf0, buf', i + 1)
    {
      RunStart(Now(), r.a, ios, |buf0|, i);
      var x := r.a + ios[i].offset;
      var got := DevRead(data, w, phys[mapping[Quot(x, w)]], Rem(x, w), ios[i].size);
      LaidNext(Now(), r.a, ios, buf0, buf, i, x, got);
      buf' := Laid(buf, ios[i], got);
    }

    // ----- writes -----

    /** The valid bits of a write, set only on a miss. */
    method MakeValid(r: Req)
      requires Shape(Now()) && Ready(Now(), r) && AllMapped(r)
      modifies this`valid
      ensures ValidSet(old(Now()), Now(), r.a, r.n) && Placed(Now(), r)
      ensures r.info.seqReq ==> Consecutive(Now(), r)
    {
      ghost var st := Now();
      if r.info.hits != |r.entries| {
        SetValid(r);
      } else {
        HitValid(st, r);
      }
      SamePlace(st, Now(), r);
    }

    /** Write-back once the lines are locked: status bits, then data. */
    method WriteWbDo(r: Req, buf: seq<Data>)
      requires Coherent(Now()) && Ready(Now(), r) && AllMapped(r) && |buf| == r.n
      modifies this`data, this`valid, this`dirty
      ensures Coherent(Now()) && Contents(Now()) == Overwrite(old(Contents(Now())), r.a, buf)
      ensures WroteBack(old(Now()), Now(), r.a, buf)
    {
      ghost var st := Now();
      MakeValid(r);
      ghost var st1 := Now();
      if r.info.dirtyAll != |r.entries| {
        SetDirty(r);
      } else {
        AllDirtySet(st, st1, r);
      }
      ghost var st2 := Now();
      SamePlace(st1, st2, r);
      WriteCache(r, buf);
      RequestMapped(st, r);
      WriteBackShows(st, st1, st2, Now(), r.a, buf);
      BackPlaces(st, st1, st2, Now(), r.a, buf);
    }

    /** Write-through once the lines are locked: status bits, then both volumes. */
    method WriteWtDo(r: Req, buf: seq<Data>)
      requires Coherent(Now()) && Ready(Now(), r) && AllMapped(r) && |buf| == r.n
      modifies this`core, this`data, this`valid, this`dirty
      ensures Coherent(Now()) && Contents(Now()) == Overwrite(old(Contents(Now())), r.a, buf)
      ensures r.a + |buf| <= old(|core|) && WroteThrough(old(Now()), Now(), r.a, buf)
    {
      ghost var st := Now();
      MakeValid(r);
      ghost var st1 := Now();
      if r.info.dirtyAny > 0 {
        SetClean(r);
      } else {
        NoneDirtyCleared(st, st1, r);
      }
      ghost var st2 := Now();
      SamePlace(st1, st2, r);
      WriteCache(r, buf);
      ghost var st3 := Now();
      WriteCore(r.a, buf);
      RequestMapped(st, r);
      WriteThroughShows(st, st1, st2, st3, Now(), r.a, buf);
      ThroughPlaces(st, st1, st2, st3, Now(), r.a, buf);
    }

    /** Write-back: the cache alone takes the data, unless the request cannot be mapped. */
    method WriteWb(a: nat, buf: seq<Data>, promote: bool, victims: seq<nat>, waiters: set<nat>)
      requires Coherent(Now()) && InRange(Now(), a, |buf|)
      modifies this`core, this`data, this`valid, this`dirty, this`mapping, this`owner, this`free
      ensures Coherent(Now()) && Contents(Now()) == Overwrite(old(Contents(Now())), a, buf)
      ensures PutBack(old(Now()), Now(), a, buf, promote, victims)
    {
      var r, err := Prepare(a, |buf|, promote, victims);
      if err {
        WriteWi(a, buf, waiters);
      } else {
        TraversedReady(Now(), r);
        WriteWbDo(r, buf);
      }
    }

    /** Write-through: the core volume always takes the data, the cache does if the request can be mapped. */
    method WriteWt(a: nat, buf: seq<Data>, promote: bool, victims: seq<nat>, waiters: set<nat>)
      requires Coherent(Now()) && InRange(Now(), a, |buf|)
      modifies this`core, this`data, this`valid, this`dirty, this`mapping, this`owner, this`free
      ensures Coherent(Now()) && Contents(Now()) == Overwrite(old(Contents(Now())), a, buf)
      ensures PutThrough(old(Now()), Now(), a, buf, promote, victims)
    {
      var r, err := Prepare(a, |buf|, promote, victims);
      if err {
        WriteWi(a, buf, waiters);
      } else {
        TraversedReady(Now(), r);
        WriteWtDo(r, buf);
      }
    }

    /** Write-invalidate: the core volume is written, then whatever is mapped loses the sectors. */
    method WriteWi(a: nat, buf: seq<Data>, waiters: set<nat>)
      requires Coherent(Now()) && InRange(Now(), a, |buf|)
      modifies this`core, this`valid, this`dirty, this`mapping, this`free
      ensures Coherent(Now()) && Contents(Now()) == Overwrite(old(Contents(Now())), a, buf)
      ensures Invalidated(old(Now()), Now(), a, buf)
    {
      ghost var st := Now();
      var r := Look(a, |buf|);
      WriteCore(a, buf);
      ghost var st1 := Now();
      SamePlace(st, st1, r);
      if r.info.hits + r.info.invalid > 0 {
        Purge(r, waiters);
      } else {
        NothingToPurge(st1, r);
      }
      WriteInvalidateShows(st, st1, Now(), a, buf);
      InvalidatePlaces(st, st1, Now(), a, buf);
    }

    /** Write-around: through on a hit, invalidate on a partial miss, else straight to the core volume. */
    method WriteWa(a: nat, buf: seq<Data>, promote: bool, victims: seq<nat>, waiters: set<nat>)
      requires Coherent(Now()) && InRange(Now(), a, |buf|)
      modifies this`core, this`data, this`valid, this`dirty, this`mapping, this`owner, this`free
      ensures Coherent(Now()) && Contents(Now()) == Overwrite(old(Contents(Now())), a, buf)
      ensures PutAround(old(Now()), Now(), a, buf)
    {
      ghost var st := Now();
      var r := Look(a, |buf|);
      if r.info.hits == |r.entries| {
        ValidMapped(st, r);
        WriteWt(a, buf, promote, victims, waiters);
      } else if r.info.hits + r.info.invalid > 0 {
        WriteWi(a, buf, waiters);
      } else {
        WriteCore(a, buf);
        SamePlace(st, Now(), r);
        NothingToPurge(Now(), r);
        WriteInvalidateShows(st, Now(), Now(), a, buf);
        InvalidatePlaces(st, Now(), Now(), a, buf);
      }
    }

    // ----- any sequence of operations -----

    method Read(op: Op) returns (buf: seq<Data>)
      requires Coherent(Now()) && op.Read? && InRange(Now(), op.a, op.n)
      modifies this`core, this`data, this`valid, this`dirty, this`mapping, this`owner, this`free, this`fetched
      ensures Coherent(Now()) && Contents(Now()) == old(Contents(Now())) && buf == old(Contents(Now()))[op.a..op.a + op.n]
      ensures ReadAs(old(Now()), Now(), old(fetched), fetched, op)
    {
      match op.mode {
        case PT => buf := ReadPt(op.a, op.n, op.env.seqCutoff, op.env.blocked, op.env.promote, op.env.victims);
        case WO => buf := ReadWo(op.a, op.n);
        case WT | WB | WA | WI =>
          buf := ReadGeneric(op.a, op.n, op.env.seqCutoff, op.env.blocked, op.env.promote, op.env.victims);
      }
    }

    method Write(op: Op)
      requires Coherent(Now()) && op.Write? && InRange(Now(), op.a, |op.buf|)
      modifies this`core, this`data, this`valid, this`dirty, this`mapping, this`owner, this`free
      ensures Coherent(Now()) && Contents(Now()) == Overwrite(old(Contents(Now())), op.a, op.buf)
      ensures WrittenAs(old(Now()), Now(), op)
    {
      match op.mode {
        case WT => WriteWt(op.a, op.buf, op.env.promote, op.env.victims, op.env.waiters);
        case WB | WO => WriteWb(op.a, op.buf, op.env.promote, op.env.victims, op.env.waiters);
        case WA => WriteWa(op.a, op.buf, op.env.promote, op.env.victims, op.env.waiters);
        case WI | PT => WriteWi(op.a, op.buf, op.env.waiters);
      }
    }

    /** Eviction of clean lines and cleaning of any line happen between requests at any time. */
    method Background(op: Op)
      requires Coherent(Now()) && (op.Evict? || op.CleanUp?)
      modifies this`core, this`valid, this`dirty, this`mapping, this`free
      ensures Coherent(Now()) && Contents(Now()) == old(Contents(Now()))
      ensures TidiedAs(old(Now()), Now(), op)
    {
      ghost var st := Now();
      match op {
        case Evict(victims) =>
          var evicted := this.Evict(victims);
          CalmKeeps(st, Now());
        case CleanUp(k) =>
          if k in mapping {
            CleanCacheLine(k);
            CleanedKeeps(st, Now(), k, k + 1);
          }
      }
    }

    /** One operation of any kind. */
    method Step(op: Op) returns (reply: seq<seq<Data>>)
      requires Coherent(Now()) && Fits(op, |core|)
      modifies this`core, this`data, this`valid, this`dirty, this`mapping, this`owner, this`free, this`fetched
      ensures Coherent(Now()) && |core| == old(|core|)
      ensures Contents(Now()) == DiskStep(old(Contents(Now())), op) && reply == DiskReply(old(Contents(Now())), op)
      ensures DoneAs(old(Now()), Now(), old(fetched), fetched, op)
    {
      reply := [];
      match op {
        case Read(_, _, _, _) =>
          var buf := Read(op);
          reply := [buf];
        case Write(_, _, _, _) => Write(op);
        case Evict(_) => Background(op);
        case CleanUp(_) => Background(op);
      }
      assert |Contents(Now())| == |core|;
    }

    /**
     The cache is indistinguishable from a plain disk: whatever the modes, the mapping failures, the
     evictions and the cleanings, every read returns what the disk would have returned.
     */
    method Serve(ops: seq<Op>) returns (replies: seq<seq<Data>>)
      requires Coherent(Now()) && AllFit(ops, |core|)
      modifies this`core, this`data, this`valid, this`dirty, this`mapping, this`owner, this`free, this`fetched
      ensures Coherent(Now())
      ensures replies == Replies(old(Contents(Now())), ops) && Contents(Now()) == DiskAfter(old(Contents(Now())), ops)
    {
      replies := [];
      if ops != [] {
        var first := Step(ops[0]);
        var rest := Serve(ops[1..]);
        replies := first + rest;
      }
    }
  }
}
