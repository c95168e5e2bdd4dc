/** The cache transfers of a write-only read: runs of valid sectors laid over what the core returned. */
module CacheOverlay {
  import opened Division
  import opened SectorMath
  import opened CacheStore
  import opened CacheBits
  import opened CacheIo

  /** A transfer of size sectors from the offset-th sector of the request on. */
  datatype Io = Io(offset: nat, size: nat)

  /** Where the cache keeps sector x, counted from the start of the cache volume. */
  ghost function Position(st: Store, x: nat): nat
    requires Shape(st) && V(st, x)
  {
    Times(st.phys[st.mapping[Quot(x, st.w)]], st.w) + Rem(x, st.w)
  }

  /** Sectors from to to of the request are valid and follow each other on the cache volume. */
  ghost predicate Run(st: Store, a: nat, from: nat, to: nat)
    requires Shape(st)
  {
    forall x: nat :: In(x, a + from, to - from) ==>
      V(st, x) && V(st, a + from) && Position(st, x) == Position(st, a + from) + (x - (a + from))
  }

  predicate Covered(ios: seq<Io>, k: nat) {
    exists j :: 0 <= j < |ios| && ios[j].offset <= k < ios[j].offset + ios[j].size
  }

  /** The transfers are not empty, ascending, disjoint and end before lim. */
  predicate Ascending(ios: seq<Io>, lim: nat) {
    && (forall j :: 0 <= j < |ios| ==> ios[j].size > 0 && ios[j].offset + ios[j].size <= lim)
    && (forall i, j :: 0 <= i < j < |ios| ==> ios[i].offset + ios[i].size <= ios[j].offset)
  }

  ghost predicate AllRuns(st: Store, a: nat, ios: seq<Io>)
    requires Shape(st)
  {
    forall j :: 0 <= j < |ios| ==> Run(st, a, ios[j].offset, ios[j].offset + ios[j].size)
  }

  /** Together the transfers are exactly the valid sectors below lim. */
  ghost predicate CoverValid(st: Store, a: nat, ios: seq<Io>, lim: nat)
    requires Shape(st)
  {
    forall x: nat :: In(x, a, lim) ==> (Covered(ios, x - a) <==> V(st, x))
  }

  ghost predicate Issued(st: Store, a: nat, ios: seq<Io>, lim: nat)
    requires Shape(st)
  {
    Ascending(ios, lim) && AllRuns(st, a, ios) && CoverValid(st, a, ios, lim)
  }

  /** The loop has seen the first off sectors; from start on they form an open run if io is set. */
  ghost predicate Overlaying(st: Store, a: nat, ios: seq<Io>, io: bool, start: nat, off: nat)
    requires Shape(st)
  {
    Issued(st, a, ios, if io then start else off) && (io ==> start < off && Run(st, a, start, off))
  }

  lemma EmitOK(st: Store, a: nat, ios: seq<Io>, start: nat, off: nat)
    requires Shape(st) && Overlaying(st, a, ios, true, start, off)
    ensures Overlaying(st, a, ios + [Io(start, off - start)], false, start, off)
  {
    EmitCovers(st, a, ios, start, off);
    EmitRuns(st, a, ios, start, off);
  }

  lemma EmitRuns(st: Store, a: nat, ios: seq<Io>, start: nat, off: nat)
    requires Shape(st) && start < off && AllRuns(st, a, ios) && Run(st, a, start, off)
    ensures AllRuns(st, a, ios + [Io(start, off - start)])
  {
  }

  lemma EmitCovers(st: Store, a: nat, ios: seq<Io>, start: nat, off: nat)
    requires Shape(st) && start < off && Ascending(ios, start) && CoverValid(st, a, ios, start) && Run(st, a, start, off)
    ensures CoverValid(st, a, ios + [Io(start, off - start)], off)
  {
    var ios' := ios + [Io(start, off - start)];
    forall x: nat | In(x, a, off) ensures Covered(ios', x - a) <==> V(st, x) {
      EmitCovered(ios, Io(start, off - start), x - a);
      if x - a < start { assert V(st, x) <==> Covered(ios, x - a); } else { NotBefore(ios, start, x - a); assert V(st, x); }
    }
  }

  lemma EmitCovered(ios: seq<Io>, io: Io, k: nat)
    ensures Covered(ios + [io], k) <==> Covered(ios, k) || io.offset <= k < io.offset + io.size
  {
    var ios' := ios + [io];
    assert ios'[..|ios|] == ios && ios'[..|ios| + 1] == ios';
    CoveredNext(ios', |ios|, k);
  }

  lemma NotBefore(ios: seq<Io>, lim: nat, k: nat)
    requires k >= lim && forall j :: 0 <= j < |ios| ==> ios[j].offset + ios[j].size <= lim
    ensures !Covered(ios, k)
  {
  }

  /** Invalid sectors behind closed runs change nothing. */
  lemma SkipOK(st: Store, a: nat, ios: seq<Io>, start: nat, off: nat, inc: nat)
    requires Shape(st) && Overlaying(st, a, ios, false, start, off)
    requires forall x: nat :: In(x, a + off, inc) ==> !V(st, x)
    ensures Overlaying(st, a, ios, false, start, off + inc)
  {
  }

  lemma OpenOK(st: Store, a: nat, ios: seq<Io>, start: nat, off: nat, inc: nat)
    requires Shape(st) && Overlaying(st, a, ios, false, start, off) && inc > 0 && Run(st, a, off, off + inc)
    ensures Overlaying(st, a, ios, true, off, off + inc)
  {
  }

  lemma ExtendOK(st: Store, a: nat, ios: seq<Io>, start: nat, off: nat, inc: nat)
    requires Shape(st) && Overlaying(st, a, ios, true, start, off) && inc > 0 && Run(st, a, off, off + inc)
    requires V(st, a + off) && V(st, a + off - 1) && Position(st, a + off) == Position(st, a + off - 1) + 1
    ensures Overlaying(st, a, ios, true, start, off + inc)
  {
    assert V(st, a + start);
    forall x: nat | In(x, a + start, off + inc - start)
      ensures V(st, x) && V(st, a + start) && Position(st, x) == Position(st, a + start) + (x - (a + start))
    {
      assert V(st, x);
    }
  }

  /** Valid sectors of one line are a run. */
  lemma LineRun(st: Store, a: nat, from: nat, to: nat)
    requires Shape(st) && from < to && Quot(a + from, st.w) == Quot(a + to - 1, st.w)
    requires forall x: nat :: In(x, a + from, to - from) ==> V(st, x)
    ensures Run(st, a, from, to)
  {
    assert V(st, a + from);
    forall x: nat | In(x, a + from, to - from) ensures Position(st, x) == Position(st, a + from) + (x - (a + from)) {
      Order(a + from, x, st.w);
      Order(x, a + from, st.w);
      Order(x, a + to - 1, st.w);
      Order(a + to - 1, x, st.w);
    }
  }

  /** Two neighbouring sectors of one line. */
  lemma NextInLine(st: Store, x: nat)
    requires Shape(st) && x > 0 && V(st, x) && V(st, x - 1) && Quot(x, st.w) == Quot(x - 1, st.w)
    ensures Position(st, x) == Position(st, x - 1) + 1
  {
    Order(x - 1, x, st.w);
  }

  /** The first sector of a line whose position follows that of the line before. */
  lemma NextLine(st: Store, x: nat, k: nat)
    requires Shape(st) && V(st, x) && x > 0 && V(st, x - 1) && x == Times(k, st.w) && k > 0
    requires Quot(x, st.w) == k && Quot(x - 1, st.w) == k - 1
    requires st.phys[st.mapping[k]] == st.phys[st.mapping[k - 1]] + 1
    ensures Position(st, x) == Position(st, x - 1) + 1
  {
    QuotRem(k, 0, st.w);
    QuotRem(k - 1, st.w - 1, st.w);
  }

  /** Reading one run of sectors. */
  lemma RunIs(st: Store, a: nat, from: nat, to: nat, x: nat)
    requires Shape(st) && from < to && Run(st, a, from, to) && In(x, a + from, to - from)
    ensures V(st, a + from) && V(st, x)
    ensures DevRead(st.data, st.w, st.phys[st.mapping[Quot(a + from, st.w)]], Rem(a + from, st.w), to - from)[x - (a + from)] == C(st, x)
  {
    assert V(st, a + from) && V(st, x);
    var p, q := st.phys[st.mapping[Quot(a + from, st.w)]], st.phys[st.mapping[Quot(x, st.w)]];
    var y := Rem(a + from, st.w) + (x - (a + from));
    assert Times(p, st.w) + y == Times(q, st.w) + Rem(x, st.w);
    if q < p { TimesMono(q, p, st.w); }
    TimesSum(p, q - p, st.w);
    QuotRem(q - p, Rem(x, st.w), st.w);
    assert At(st.data, st.w, p, y) == st.data[q][Rem(x, st.w)];
  }

  lemma RunGot(st: Store, a: nat, from: nat, to: nat)
    requires Shape(st) && from < to && Run(st, a, from, to)
    ensures V(st, a + from)
    ensures var got := DevRead(st.data, st.w, st.phys[st.mapping[Quot(a + from, st.w)]], Rem(a + from, st.w), to - from);
      forall x: nat :: In(x, a + from, to - from) ==> V(st, x) && got[x - (a + from)] == C(st, x)
  {
    RunIs(st, a, from, to, a + from);
    forall x: nat | In(x, a + from, to - from)
      ensures V(st, x)
      ensures DevRead(st.data, st.w, st.phys[st.mapping[Quot(a + from, st.w)]], Rem(a + from, st.w), to - from)[x - (a + from)] == C(st, x)
    {
      RunIs(st, a, from, to, x);
    }
  }

  /** The buffer with one transfer laid over it. */
  function Laid(buf: seq<Data>, io: Io, got: seq<Data>): seq<Data>
    requires io.offset + io.size <= |buf| && |got| == io.size
  {
    buf[..io.offset] + got + buf[io.offset + io.size..]
  }

  /** After the first i transfers: valid sectors among them come from the cache, the rest is as it was. */
  ghost predicate LaidUpto(st: Store, a: nat, ios: seq<Io>, buf0: seq<Data>, buf: seq<Data>, i: nat)
    requires Shape(st) && i <= |ios|
  {
    && |buf| == |buf0|
    && forall x: nat :: In(x, a, |buf0|) ==>
         (Covered(ios[..i], x - a) ==> V(st, x) && buf[x - a] == C(st, x))
         && (!Covered(ios[..i], x - a) ==> buf[x - a] == buf0[x - a])
  }

  lemma CoveredNext(ios: seq<Io>, i: nat, k: nat)
    requires i < |ios|
    ensures Covered(ios[..i + 1], k) <==> Covered(ios[..i], k) || ios[i].offset <= k < ios[i].offset + ios[i].size
  {
    if Covered(ios[..i], k) {
      var j :| 0 <= j < i && ios[..i][j].offset <= k < ios[..i][j].offset + ios[..i][j].size;
      assert ios[..i + 1][j] == ios[..i][j];
    }
    if Covered(ios[..i + 1], k) {
      var j :| 0 <= j < i + 1 && ios[..i + 1][j].offset <= k < ios[..i + 1][j].offset + ios[..i + 1][j].size;
      if j < i { assert ios[..i][j] == ios[..i + 1][j]; }
    }
    if ios[i].offset <= k < ios[i].offset + ios[i].size { assert ios[..i + 1][i] == ios[i]; }
  }

  /** The i-th transfer starts on a valid sector and stays within the buffer. */
  lemma RunStart(st: Store, a: nat, ios: seq<Io>, lim: nat, i: nat)
    requires Shape(st) && i < |ios| && Ascending(ios, lim) && AllRuns(st, a, ios)
    ensures V(st, a + ios[i].offset) && ios[i].offset + ios[i].size <= lim
  {
    assert Run(st, a, ios[i].offset, ios[i].offset + ios[i].size);
    RunGot(st, a, ios[i].offset, ios[i].offset + ios[i].size);
  }

  lemma LaidNext(st: Store, a: nat, ios: seq<Io>, buf0: seq<Data>, buf: seq<Data>, i: nat, x: nat, got: seq<Data>)
    requires Shape(st) && i < |ios| && Ascending(ios, |buf0|) && AllRuns(st, a, ios) && LaidUpto(st, a, ios, buf0, buf, i)
    requires x == a + ios[i].offset && V(st, x)
    requires got == DevRead(st.data, st.w, st.phys[st.mapping[Quot(x, st.w)]], Rem(x, st.w), ios[i].size)
    ensures ios[i].offset + ios[i].size <= |buf| && LaidUpto(st, a, ios, buf0, Laid(buf, ios[i], got), i + 1)
  {
    assert Run(st, a, ios[i].offset, ios[i].offset + ios[i].size);
    RunGot(st, a, ios[i].offset, ios[i].offset + ios[i].size);
    LaidOver(st, a, ios, buf0, buf, i, got);
  }

  lemma LaidOver(st: Store, a: nat, ios: seq<Io>, buf0: seq<Data>, buf: seq<Data>, i: nat, got: seq<Data>)
    requires Shape(st) && i < |ios| && LaidUpto(st, a, ios, buf0, buf, i)
    requires ios[i].offset + ios[i].size <= |buf| && |got| == ios[i].size
    requires forall x: nat :: In(x, a + ios[i].offset, ios[i].size) ==> V(st, x) && got[x - (a + ios[i].offset)] == C(st, x)
    ensures LaidUpto(st, a, ios, buf0, Laid(buf, ios[i], got), i + 1)
  {
    var io := ios[i];
    var buf' := Laid(buf, io, got);
    forall x: nat | In(x, a, |buf0|)
      ensures Covered(ios[..i + 1], x - a) ==> V(st, x) && buf'[x - a] == C(st, x)
      ensures !Covered(ios[..i + 1], x - a) ==> buf'[x - a] == buf0[x - a]
    {
      CoveredNext(ios, i, x - a);
      var k := x - a;
      assert buf'[k] == if io.offset <= k < io.offset + io.size then got[k - io.offset] else buf[k];
    }
  }

  // ----- the loop over lines -----

  /** Sector off of the request when it lies on line i. */
  lemma LineSector(r: Req, w: nat, i: nat, off: nat)
    requires w > 0 && r.n > 0 && i < Lines(r.a, r.n, w)
    requires Done(r.a, w, i) <= off <= Done(r.a, w, i) + End(r.a, r.n, w, i) - Start(r.a, w, i)
    ensures Quot(r.a + off, w) == Quot(r.a, w) + i && Rem(r.a + off, w) == Start(r.a, w, i) + off - Done(r.a, w, i)
  {
    QuotRem(Quot(r.a, w) + i, Start(r.a, w, i) + off - Done(r.a, w, i), w);
  }

  /** Sector o of line i is valid. */
  predicate ValidAt(st: Store, r: Req, i: nat, o: nat)
    requires i < |r.entries|
  {
    !r.entries[i].Miss? && r.entries[i].line < |st.valid| && o < |st.valid[r.entries[i].line]| && st.valid[r.entries[i].line][o]
  }

  lemma ValidThere(st: Store, r: Req, i: nat, off: nat)
    requires Shape(st) && Placed(st, r) && i < |r.entries|
    requires Done(r.a, st.w, i) <= off <= Done(r.a, st.w, i) + End(r.a, r.n, st.w, i) - Start(r.a, st.w, i)
    ensures V(st, r.a + off) <==> ValidAt(st, r, i, Start(r.a, st.w, i) + off - Done(r.a, st.w, i))
  {
    LineSector(r, st.w, i, off);
    assert EntryOK(st, Quot(r.a, st.w) + i, r.entries[i]);
  }

  /** Sectors off to off + inc of the request lie on line i and are all valid or all invalid. */
  ghost predicate Uniform(st: Store, r: Req, i: nat, off: nat, inc: nat, v: bool)
    requires Shape(st) && r.n > 0 && i < |r.entries|
  {
    && inc > 0 && Done(r.a, st.w, i) <= off
    && off + inc <= Done(r.a, st.w, i) + End(r.a, r.n, st.w, i) - Start(r.a, st.w, i) + 1
    && forall o :: Start(r.a, st.w, i) + off - Done(r.a, st.w, i) <= o < Start(r.a, st.w, i) + off - Done(r.a, st.w, i) + inc ==>
         ValidAt(st, r, i, o) == v
  }

  lemma UniformSectors(st: Store, r: Req, i: nat, off: nat, inc: nat, v: bool)
    requires Shape(st) && Placed(st, r) && i < |r.entries| && Uniform(st, r, i, off, inc, v)
    ensures forall x: nat :: In(x, r.a + off, inc) ==> V(st, x) == v
    ensures v ==> Run(st, r.a, off, off + inc)
  {
    forall x: nat | In(x, r.a + off, inc) ensures V(st, x) == v {
      ValidThere(st, r, i, x - r.a);
    }
    if v {
      LineSector(r, st.w, i, off);
      LineSector(r, st.w, i, off + inc - 1);
      LineRun(st, r.a, off, off + inc);
    }
  }

  /** An open run may go on with line i from sector off. */
  ghost predicate Joins(st: Store, r: Req, i: nat, off: nat)
    requires Shape(st) && Placed(st, r) && i < |r.entries|
  {
    && off > 0 && V(st, r.a + off - 1)
    && (if off == Done(r.a, st.w, i) then
          i > 0 && !r.entries[i - 1].Miss? && !r.entries[i].Miss?
          && r.entries[i].line < |st.phys| && r.entries[i - 1].line < |st.phys|
          && st.phys[r.entries[i - 1].line] + 1 == st.phys[r.entries[i].line]
        else true)
  }

  lemma JoinsNext(st: Store, r: Req, i: nat, off: nat)
    requires Shape(st) && Placed(st, r) && i < |r.entries| && Joins(st, r, i, off) && V(st, r.a + off)
    requires Done(r.a, st.w, i) <= off <= Done(r.a, st.w, i) + End(r.a, r.n, st.w, i) - Start(r.a, st.w, i)
    ensures Position(st, r.a + off) == Position(st, r.a + off - 1) + 1
  {
    LineSector(r, st.w, i, off);
    if off == Done(r.a, st.w, i) {
      DoneNext(r.a, r.n, st.w, i - 1);
      LineSector(r, st.w, i - 1, off - 1);
      assert EntryOK(st, Quot(r.a, st.w) + i, r.entries[i]) && EntryOK(st, Quot(r.a, st.w) + (i - 1), r.entries[i - 1]);
      NextLine(st, r.a + off, Quot(r.a, st.w) + i);
    } else {
      LineSector(r, st.w, i, off - 1);
      NextInLine(st, r.a + off);
    }
  }

  /** One uniform region after another: close the open run, open one, or extend it. */
  lemma RegionOK(st: Store, r: Req, i: nat, ios: seq<Io>, io: bool, start: nat, off: nat, inc: nat, v: bool)
    requires Shape(st) && Placed(st, r) && i < |r.entries| && Uniform(st, r, i, off, inc, v)
    requires Overlaying(st, r.a, ios, io, start, off) && (io ==> Joins(st, r, i, off))
    ensures Overlaying(st, r.a, if io && !v then ios + [Io(start, off - start)] else ios, v, if !io && v then off else start, off + inc)
  {
    UniformSectors(st, r, i, off, inc, v);
    if io && !v {
      EmitOK(st, r.a, ios, start, off);
      SkipOK(st, r.a, ios + [Io(start, off - start)], start, off, inc);
    } else if !v {
      SkipOK(st, r.a, ios, start, off, inc);
    } else if !io {
      OpenOK(st, r.a, ios, start, off, inc);
    } else {
      assert V(st, r.a + off);
      JoinsNext(st, r, i, off);
      ExtendOK(st, r.a, ios, start, off, inc);
    }
  }

  /** The loop stands before line i, having last seen the line position physCurr. */
  ghost predicate BeforeLine(st: Store, r: Req, i: nat, ios: seq<Io>, io: bool, start: nat, off: nat, physCurr: nat)
    requires Shape(st) && Placed(st, r) && i <= |r.entries|
  {
    && Overlaying(st, r.a, ios, io, start, off)
    && off == (if i < |r.entries| then Done(r.a, st.w, i) else r.n)
    && (i > 0 && !r.entries[i - 1].Miss? ==> r.entries[i - 1].line < |st.phys| && physCurr == st.phys[r.entries[i - 1].line])
    && (io ==> i > 0 && off > 0 && !r.entries[i - 1].Miss? && V(st, r.a + off - 1))
  }

  /** The loop stands inside line i, before its sector p. */
  ghost predicate InLine(st: Store, r: Req, i: nat, ios: seq<Io>, io: bool, start: nat, off: nat, p: nat)
    requires Shape(st) && Placed(st, r) && i < |r.entries|
  {
    && Start(r.a, st.w, i) <= p <= End(r.a, r.n, st.w, i) + 1
    && off == Done(r.a, st.w, i) + p - Start(r.a, st.w, i)
    && Overlaying(st, r.a, ios, io, start, off)
    && (io ==> Joins(st, r, i, off))
  }

  lemma RegionNext(st: Store, r: Req, i: nat, ios: seq<Io>, io: bool, start: nat, off: nat, p: nat, inc: nat, v: bool)
    requires Shape(st) && Placed(st, r) && i < |r.entries| && InLine(st, r, i, ios, io, start, off, p)
    requires inc > 0 && p + inc <= End(r.a, r.n, st.w, i) + 1 && forall o :: p <= o < p + inc ==> ValidAt(st, r, i, o) == v
    ensures InLine(st, r, i, if io && !v then ios + [Io(start, off - start)] else ios, v, if !io && v then off else start, off + inc, p + inc)
  {
    DoneNext(r.a, r.n, st.w, i);
    RegionOK(st, r, i, ios, io, start, off, inc, v);
    if v { ValidThere(st, r, i, off + inc - 1); assert ValidAt(st, r, i, p + inc - 1); }
  }

  /** Entering line i: an open run is closed unless the line follows directly. */
  lemma EnterLine(st: Store, r: Req, i: nat, ios: seq<Io>, io: bool, start: nat, off: nat, physPrev: nat)
    requires Shape(st) && Placed(st, r) && i < |r.entries| && BeforeLine(st, r, i, ios, io, start, off, physPrev)
    ensures EntryOK(st, Quot(r.a, st.w) + i, r.entries[i])
    ensures var physCurr := if r.entries[i].Miss? then physPrev else st.phys[r.entries[i].line];
      var close := io && physPrev + 1 != physCurr;
      InLine(st, r, i, if close then ios + [Io(start, off - start)] else ios, io && !close, start, off, Start(r.a, st.w, i))
  {
    assert EntryOK(st, Quot(r.a, st.w) + i, r.entries[i]);
    DoneNext(r.a, r.n, st.w, i);
    if io { EmitOK(st, r.a, ios, start, off); }
  }

  lemma LeaveLine(st: Store, r: Req, i: nat, ios: seq<Io>, io: bool, start: nat, off: nat, physCurr: nat)
    requires Shape(st) && Placed(st, r) && i < |r.entries| && EntryOK(st, Quot(r.a, st.w) + i, r.entries[i])
    requires InLine(st, r, i, ios, io, start, off, End(r.a, r.n, st.w, i) + 1)
    requires !r.entries[i].Miss? ==> physCurr == st.phys[r.entries[i].line]
    requires r.entries[i].Miss? ==> !io
    ensures BeforeLine(st, r, i + 1, ios, io, start, off, physCurr)
  {
    DoneNext(r.a, r.n, st.w, i);
  }

  // ----- no transfer could have been longer -----

  /** A run that ends before offset off of a request of n sectors could not go on. */
  ghost predicate Stops(st: Store, a: nat, off: nat, n: nat)
    requires Shape(st)
  {
    off >= n || !V(st, a + off) || off == 0 || !V(st, a + off - 1) || Position(st, a + off) != Position(st, a + off - 1) + 1
  }

  ghost predicate Longest(st: Store, a: nat, ios: seq<Io>, n: nat)
    requires Shape(st)
  {
    forall j :: 0 <= j < |ios| ==> Stops(st, a, ios[j].offset + ios[j].size, n)
  }

  lemma LongestEmit(st: Store, a: nat, ios: seq<Io>, start: nat, off: nat, n: nat)
    requires Shape(st) && start < off && Longest(st, a, ios, n) && Stops(st, a, off, n)
    ensures Longest(st, a, ios + [Io(start, off - start)], n)
  {
  }

  /** A region of invalid sectors stops a run. */
  lemma RegionStops(st: Store, r: Req, i: nat, off: nat, p: nat)
    requires Shape(st) && Placed(st, r) && i < |r.entries| && Start(r.a, st.w, i) <= p <= End(r.a, r.n, st.w, i)
    requires off == Done(r.a, st.w, i) + p - Start(r.a, st.w, i) && !ValidAt(st, r, i, p)
    ensures Stops(st, r.a, off, r.n)
  {
    ValidThere(st, r, i, off);
  }

  /** So does a line that is not mapped or does not follow on the cache volume. */
  lemma LineStops(st: Store, r: Req, i: nat, off: nat, physPrev: nat)
    requires Shape(st) && Placed(st, r) && 0 < i < |r.entries| && off == Done(r.a, st.w, i) > 0
    requires !r.entries[i - 1].Miss? && r.entries[i - 1].line < |st.phys| && physPrev == st.phys[r.entries[i - 1].line]
    requires !r.entries[i].Miss? ==> r.entries[i].line < |st.phys| && physPrev + 1 != st.phys[r.entries[i].line]
    ensures Stops(st, r.a, off, r.n)
  {
    DoneNext(r.a, r.n, st.w, i);
    DoneNext(r.a, r.n, st.w, i - 1);
    LineSector(r, st.w, i, off);
    LineSector(r, st.w, i - 1, off - 1);
    assert EntryOK(st, Quot(r.a, st.w) + i, r.entries[i]) && EntryOK(st, Quot(r.a, st.w) + (i - 1), r.entries[i - 1]);
    if !r.entries[i].Miss? {
      var p, q := physPrev, st.phys[r.entries[i].line];
      if p + 1 < q { TimesMono(p + 1, q, st.w); }
      if q < p + 1 { TimesMono(q, p + 1, st.w); }
    }
  }
}
