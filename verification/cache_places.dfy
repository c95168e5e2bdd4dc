/** Where the data of a request is after an engine has run: which volume holds it, and what the cache keeps. */
module CachePlaces {
  import opened Division
  import opened SectorMath
  import opened CacheStore
  import opened CacheBits
  import opened CacheIo
  import opened CacheRequest
  import opened CacheEffects
  import opened CacheLines
  import opened PlainDisk

  ghost predicate AllValid(st: Store, a: nat, n: nat) {
    Shape(st) && forall x: nat :: In(x, a, n) ==> V(st, x)
  }

  /** The cache holds the buffer, newer than the core volume or not. */
  ghost predicate CachedAs(st: Store, a: nat, buf: seq<Data>, dirty: bool) {
    Shape(st) && forall x: nat :: In(x, a, |buf|) ==> V(st, x) && C(st, x) == buf[x - a] && D(st, x) == dirty
  }

  /** The cache holds none of these sectors. */
  ghost predicate Uncached(st: Store, a: nat, n: nat) {
    Shape(st) && forall x: nat :: In(x, a, n) ==> !V(st, x) && !D(st, x)
  }

  ghost predicate NoneNewer(st: Store, a: nat, n: nat) {
    Shape(st) && forall x: nat :: In(x, a, n) ==> !D(st, x)
  }

  /** Write-back: the cache alone takes the data, nothing else changes. */
  ghost predicate WroteBack(st: Store, st': Store, a: nat, buf: seq<Data>)
    requires Shape(st)
  {
    && st' == st.(data := st'.data, valid := st'.valid, dirty := st'.dirty) && CachedAs(st', a, buf, true)
    && forall x: nat :: !In(x, a, |buf|) ==> V(st', x) == V(st, x) && D(st', x) == D(st, x) && (V(st, x) ==> C(st', x) == C(st, x))
  }

  /** Write-through: both volumes take the data, nothing else changes. */
  ghost predicate WroteThrough(st: Store, st': Store, a: nat, buf: seq<Data>)
    requires Shape(st) && a + |buf| <= |st.core|
  {
    && st' == st.(core := Overwrite(st.core, a, buf), data := st'.data, valid := st'.valid, dirty := st'.dirty)
    && CachedAs(st', a, buf, false)
    && forall x: nat :: !In(x, a, |buf|) ==> V(st', x) == V(st, x) && D(st', x) == D(st, x) && (V(st, x) ==> C(st', x) == C(st, x))
  }

  /** Write-invalidate: the core volume alone takes the data, and the cache drops what it has of these sectors. */
  ghost predicate Invalidated(st: Store, st': Store, a: nat, buf: seq<Data>)
    requires Shape(st) && a + |buf| <= |st.core|
  {
    && SameDevice(st, st') && st'.core == Overwrite(st.core, a, buf) && Uncached(st', a, |buf|)
    && forall x: nat :: !In(x, a, |buf|) ==> V(st', x) == V(st, x) && D(st', x) == D(st, x) && (V(st, x) ==> C(st', x) == C(st, x))
  }

  lemma BackPlaces(st: Store, st1: Store, st2: Store, st3: Store, a: nat, buf: seq<Data>)
    requires Shape(st) && ValidSet(st, st1, a, |buf|) && DirtySet(st1, st2, a, |buf|) && Written(st2, st3, a, buf)
    requires forall x: nat :: In(x, a, |buf|) ==> Quot(x, st.w) in st.mapping
    ensures WroteBack(st, st3, a, buf)
  {
    forall x: nat
      ensures D(st3, x) <==> D(st, x) || In(x, a, |buf|)
      ensures V(st3, x) <==> V(st, x) || In(x, a, |buf|)
    {
      assert D(st1, x) == D(st, x) && D(st3, x) == D(st2, x) && V(st3, x) == V(st1, x);
    }
  }

  lemma ThroughPlaces(st: Store, st1: Store, st2: Store, st3: Store, st4: Store, a: nat, buf: seq<Data>)
    requires Shape(st) && a + |buf| <= |st.core|
    requires ValidSet(st, st1, a, |buf|) && DirtyCleared(st1, st2, a, |buf|) && Written(st2, st3, a, buf)
    requires Shape(st4) && st4 == st3.(core := Overwrite(st.core, a, buf))
    requires forall x: nat :: In(x, a, |buf|) ==> Quot(x, st.w) in st.mapping
    ensures WroteThrough(st, st4, a, buf)
  {
    forall x: nat
      ensures D(st4, x) <==> D(st, x) && !In(x, a, |buf|)
      ensures V(st4, x) <==> V(st, x) || In(x, a, |buf|)
      ensures Quot(x, st.w) in st.mapping ==> C(st4, x) == C(st3, x)
    {
      assert D(st1, x) == D(st, x) && D(st4, x) == D(st2, x) && V(st4, x) == V(st1, x);
    }
  }

  lemma InvalidatePlaces(st: Store, st1: Store, st2: Store, a: nat, buf: seq<Data>)
    requires Shape(st) && a + |buf| <= |st.core|
    requires Shape(st1) && st1 == st.(core := Overwrite(st.core, a, buf)) && Purged(st1, st2, a, |buf|)
    ensures Invalidated(st, st2, a, buf)
  {
    forall x: nat
      ensures D(st2, x) <==> D(st, x) && !In(x, a, |buf|)
      ensures V(st2, x) <==> V(st, x) && !In(x, a, |buf|)
      ensures V(st2, x) ==> C(st2, x) == C(st, x)
    {
      assert D(st1, x) == D(st, x) && V(st1, x) == V(st, x);
    }
    forall x: nat | In(x, a, |buf|) ensures !V(st2, x) && !D(st2, x) {}
  }

  /** A backfilled request is valid throughout. */
  lemma FilledValid(st: Store, st1: Store, st2: Store, a: nat, n: nat, buf: seq<Data>)
    requires Shape(st) && ValidSet(st, st1, a, n) && Written(st1, st2, a, buf)
    ensures AllValid(st2, a, n)
  {
    forall x: nat | In(x, a, n) ensures V(st2, x) { assert V(st1, x); }
  }

  /** Once the lines of a request are clean, none of its sectors is newer in the cache. */
  lemma LinesClean(st: Store, r: Req)
    requires Shape(st) && Placed(st, r) && forall x: nat :: OnLines(r, st.w, x) ==> !D(st, x)
    ensures NoneNewer(st, r.a, r.n)
  {
    forall x: nat | In(x, r.a, r.n) ensures !D(st, x) { LineOfRequest(st, r, x); }
  }

  lemma FilledPlaces(st: Store, st1: Store, st2: Store, r: Req, buf: seq<Data>)
    requires Shape(st) && Ready(st, r) && r.info.dirtyAny == 0
    requires ValidSet(st, st1, r.a, r.n) && Written(st1, st2, r.a, buf)
    ensures AllValid(st2, r.a, r.n) && NoneNewer(st2, r.a, r.n)
  {
    FilledValid(st, st1, st2, r.a, r.n, buf);
    NoneDirty(st, r);
    forall x: nat | In(x, r.a, r.n) ensures !D(st2, x) { assert D(st1, x) == D(st, x); }
  }

  /** A request with a sector that is not dirty keeps one when lines get mapped or evicted. */
  lemma ErrNotDirty(st: Store, st': Store, a: nat, n: nat)
    requires Shape(st) && Calm(st, st') && exists x: nat :: In(x, a, n) && !D(st, x)
    ensures !AllDirty(st', a, n)
  {
    var x: nat :| In(x, a, n) && !D(st, x);
    assert !D(st', x);
  }

  /** Mapping and evicting lines makes nothing valid. */
  lemma StillNotValid(st: Store, st': Store, a: nat, n: nat)
    requires Shape(st) && Calm(st, st') && !AllValid(st, a, n)
    ensures !AllValid(st', a, n)
  {
    var x: nat :| In(x, a, n) && !V(st, x);
    assert !V(st', x);
  }

  // ----- what the engines promise about the two volumes -----

  /** Every line of the request is mapped, or can be with the lines that are free or become free by eviction. */
  ghost predicate CanMap(st: Store, a: nat, n: nat, promote: bool, victims: seq<nat>)
    requires Shape(st) && n > 0
  {
    var missing := Missing(st.mapping, Quot(a, st.w), Lines(a, n, st.w));
    || missing == 0
    || (promote && missing <= |st.free|)
    || (promote && missing <= |st.free| + |Reclaimable(st, victims)| && Elsewhere(st, a, n, victims))
  }

  /** Only if the victims include lines of the request itself, neither this nor CanMap holds. */
  ghost predicate CannotMap(st: Store, a: nat, n: nat, promote: bool, victims: seq<nat>)
    requires Shape(st) && n > 0
  {
    var missing := Missing(st.mapping, Quot(a, st.w), Lines(a, n, st.w));
    missing > 0 && (!promote || missing > |st.free| + |Reclaimable(st, victims)|)
  }

  /** A pass-through read: the core volume is up to date and is read; what is dirty throughout may be cut off from that. */
  ghost predicate ReadAround(st: Store, st': Store, before: seq<(nat, nat)>, after: seq<(nat, nat)>, a: nat, n: nat, seqCutoff: bool) {
    if seqCutoff && AllDirty(st, a, n) then st' == st && after == before
    else st' == st.(core := st'.core, dirty := st'.dirty) && NoneNewer(st', a, n) && after == before + [(a, n)]
  }

  /** A generic read: a hit leaves both volumes alone; a miss fetches the request once and, if it can be mapped, keeps it. */
  ghost predicate ReadByCache(st: Store, st': Store, before: seq<(nat, nat)>, after: seq<(nat, nat)>, a: nat, n: nat,
                              seqCutoff: bool, blocked: nat, promote: bool, victims: seq<nat>)
    requires Shape(st) && n > 0
  {
    if blocked > 0 then ReadAround(st, st', before, after, a, n, seqCutoff)
    else if AllValid(st, a, n) then st' == st && after == before
    else after == before + [(a, n)] && NoneNewer(st', a, n) && (CanMap(st, a, n, promote, victims) ==> AllValid(st', a, n))
  }

  /** A write-back: the cache alone takes the data if the request can be mapped, else the core volume alone. */
  ghost predicate PutBack(st: Store, st': Store, a: nat, buf: seq<Data>, promote: bool, victims: seq<nat>)
    requires Shape(st) && |buf| > 0 && a + |buf| <= |st.core|
  {
    var back, around := st'.core == st.core && CachedAs(st', a, buf, true), st'.core == Overwrite(st.core, a, buf) && Uncached(st', a, |buf|);
    && (back || around)
    && (CanMap(st, a, |buf|, promote, victims) ==> back)
    && (CannotMap(st, a, |buf|, promote, victims) ==> around)
  }

  /** A write-through: the core volume takes the data in any case. */
  ghost predicate PutThrough(st: Store, st': Store, a: nat, buf: seq<Data>, promote: bool, victims: seq<nat>)
    requires Shape(st) && |buf| > 0 && a + |buf| <= |st.core|
  {
    && st'.core == Overwrite(st.core, a, buf)
    && (CachedAs(st', a, buf, false) || Uncached(st', a, |buf|))
    && (CanMap(st, a, |buf|, promote, victims) ==> CachedAs(st', a, buf, false))
    && (CannotMap(st, a, |buf|, promote, victims) ==> Uncached(st', a, |buf|))
  }

  /** A write-around: the core volume takes the data; the cache keeps it only if it had all of it. */
  ghost predicate PutAround(st: Store, st': Store, a: nat, buf: seq<Data>)
    requires a + |buf| <= |st.core|
  {
    && st'.core == Overwrite(st.core, a, buf)
    && if AllValid(st, a, |buf|) then CachedAs(st', a, buf, false) else Uncached(st', a, |buf|)
  }

  /** What a read in each mode does to the two volumes. */
  ghost predicate ReadAs(st: Store, st': Store, before: seq<(nat, nat)>, after: seq<(nat, nat)>, op: Op)
    requires Shape(st) && op.Read? && op.n > 0
  {
    match op.mode
    case PT => ReadAround(st, st', before, after, op.a, op.n, op.env.seqCutoff)
    case WO => st' == st && after == if AllValid(st, op.a, op.n) then before else before + [(op.a, op.n)]
    case WT | WB | WA | WI =>
      ReadByCache(st, st', before, after, op.a, op.n, op.env.seqCutoff, op.env.blocked, op.env.promote, op.env.victims)
  }

  /** What a write in each mode does to the two volumes. */
  ghost predicate WrittenAs(st: Store, st': Store, op: Op)
    requires Shape(st) && op.Write? && |op.buf| > 0 && op.a + |op.buf| <= |st.core|
  {
    match op.mode
    case WT => PutThrough(st, st', op.a, op.buf, op.env.promote, op.env.victims)
    case WB | WO => PutBack(st, st', op.a, op.buf, op.env.promote, op.env.victims)
    case WA => PutAround(st, st', op.a, op.buf)
    case WI | PT => st'.core == Overwrite(st.core, op.a, op.buf) && Uncached(st', op.a, |op.buf|)
  }

  /** What happens between requests. */
  ghost predicate TidiedAs(st: Store, st': Store, op: Op)
    requires Shape(st) && (op.Evict? || op.CleanUp?)
  {
    match op
    case Evict(victims) => st'.core == st.core && exists n: nat :: Freed(st, st', victims, n)
    case CleanUp(k) => if k in st.mapping then Cleaned(st, st', k, k + 1) else st' == st
  }

  /** What an operation does to the two volumes and to the cache. */
  ghost predicate DoneAs(st: Store, st': Store, before: seq<(nat, nat)>, after: seq<(nat, nat)>, op: Op)
    requires Shape(st) && Fits(op, |st.core|)
  {
    match op
    case Read(_, _, _, _) => ReadAs(st, st', before, after, op)
    case Write(_, _, _, _) => WrittenAs(st, st', op) && after == before
    case Evict(_) => TidiedAs(st, st', op) && after == before
    case CleanUp(_) => TidiedAs(st, st', op) && after == before
  }

  /** A request that is valid throughout is mapped throughout. */
  lemma ValidMapped(st: Store, r: Req)
    requires Shape(st) && Traversed(st, r) && r.info.hits == |r.entries| && forall j :: 0 <= j < |r.entries| ==> !r.entries[j].Mapped?
    ensures Missing(st.mapping, Quot(r.a, st.w), Lines(r.a, r.n, st.w)) == 0
  {
    MissingIsNonHits(st, r, |r.entries|);
  }
}
