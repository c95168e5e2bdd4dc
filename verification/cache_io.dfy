/** Transfers between a request's buffer and the cache volume, as one run or line by line. */
module CacheIo {
  import opened Division
  import opened SectorMath
  import opened CacheStore
  import opened CacheBits

  predicate VolumeOK(data: seq<seq<Data>>, w: nat) {
    w > 0 && forall p :: 0 <= p < |data| ==> |data[p]| == w
  }

  /** The sector of the cache volume y sectors behind the start of line p; nothing lies past the last line. */
  function At(data: seq<seq<Data>>, w: nat, p: nat, y: nat): Data
    requires VolumeOK(data, w)
  {
    if p + Quot(y, w) < |data| then data[p + Quot(y, w)][Rem(y, w)] else 0
  }

  /** Read m consecutive sectors from sector s of line p on. */
  function DevRead(data: seq<seq<Data>>, w: nat, p: nat, s: nat, m: nat): (buf: seq<Data>)
    requires VolumeOK(data, w)
    ensures |buf| == m
  {
    seq(m, k requires 0 <= k < m => At(data, w, p, s + k))
  }

  /** Write the buffer to consecutive sectors from sector s of line p on. */
  function DevWrite(data: seq<seq<Data>>, w: nat, p: nat, s: nat, buf: seq<Data>): seq<seq<Data>>
    requires VolumeOK(data, w)
  {
    seq(|data|, q requires 0 <= q < |data| =>
          seq(w, o requires 0 <= o < w =>
                var k := Times(q, w) + o - (Times(p, w) + s);
                if 0 <= k < |buf| then buf[k] else data[q][o]))
  }

  /** The lines of the request follow each other on the cache volume. */
  predicate Consecutive(st: Store, r: Req)
    requires Sizes(st)
  {
    && AllMapped(r)
    && (forall i :: 0 <= i < |r.entries| ==> r.entries[i].line < |st.phys|)
    && (forall i :: 0 <= i < |r.entries| ==> st.phys[r.entries[i].line] == st.phys[r.entries[0].line] + i)
  }

  /** Sector x of the request lies in the run that starts with the first sector of the request. */
  lemma InRun(st: Store, r: Req, x: nat)
    requires Shape(st) && Placed(st, r) && Consecutive(st, r) && In(x, r.a, r.n)
    ensures var i := Quot(x, st.w) - Quot(r.a, st.w); var p := st.phys[r.entries[0].line];
      && 0 <= i < |r.entries| && Quot(x, st.w) in st.mapping && st.phys[st.mapping[Quot(x, st.w)]] == p + i
      && Quot(Rem(r.a, st.w) + (x - r.a), st.w) == i && Rem(Rem(r.a, st.w) + (x - r.a), st.w) == Rem(x, st.w)
      && Times(p + i, st.w) + Rem(x, st.w) == Times(p, st.w) + Rem(r.a, st.w) + (x - r.a)
  {
    Cover(r.a, r.n, st.w, x);
    var i := Quot(x, st.w) - Quot(r.a, st.w);
    assert EntryOK(st, Quot(r.a, st.w) + i, r.entries[i]);
    Mirror(r.a, x, st.phys[r.entries[0].line], st.w);
    Mirror(r.a, x, 0, st.w);
    QuotRem(i, Rem(x, st.w), st.w);
  }

  /** One transfer reads a request whose lines follow each other. */
  lemma RunRead(st: Store, r: Req, x: nat)
    requires Shape(st) && Placed(st, r) && Consecutive(st, r) && In(x, r.a, r.n)
    ensures Quot(x, st.w) in st.mapping
    ensures DevRead(st.data, st.w, st.phys[r.entries[0].line], Rem(r.a, st.w), r.n)[x - r.a] == C(st, x)
  {
    InRun(st, r, x);
    var k := x - r.a;
    var p := st.phys[r.entries[0].line];
    assert DevRead(st.data, st.w, p, Rem(r.a, st.w), r.n)[k] == At(st.data, st.w, p, Rem(r.a, st.w) + k);
  }

  lemma SameLine(st: Store, k: nat, j: nat)
    requires Shape(st) && k in st.mapping && j in st.mapping
    ensures st.phys[st.mapping[k]] == st.phys[st.mapping[j]] <==> k == j
  {
  }

  /** A run never touches a mapped sector outside the request. */
  lemma RunSector(st: Store, r: Req, x: nat)
    requires Shape(st) && Placed(st, r) && Consecutive(st, r) && Quot(x, st.w) in st.mapping
    ensures var k := Times(st.phys[st.mapping[Quot(x, st.w)]], st.w) + Rem(x, st.w) - (Times(st.phys[r.entries[0].line], st.w) + Rem(r.a, st.w));
      if In(x, r.a, r.n) then k == x - r.a else !(0 <= k < r.n)
  {
    var k := Times(st.phys[st.mapping[Quot(x, st.w)]], st.w) + Rem(x, st.w) - (Times(st.phys[r.entries[0].line], st.w) + Rem(r.a, st.w));
    if In(x, r.a, r.n) {
      InRun(st, r, x);
    } else if 0 <= k < r.n {
      RunOnly(st, r, x, r.a + k);
    }
  }

  lemma RunOnly(st: Store, r: Req, x: nat, y: nat)
    requires Shape(st) && Placed(st, r) && Consecutive(st, r) && Quot(x, st.w) in st.mapping && In(y, r.a, r.n)
    requires Times(st.phys[st.mapping[Quot(x, st.w)]], st.w) + Rem(x, st.w) == Times(st.phys[r.entries[0].line], st.w) + Rem(r.a, st.w) + (y - r.a)
    ensures x == y
  {
    InRun(st, r, y);
    Unique(st.phys[st.mapping[Quot(x, st.w)]], Rem(x, st.w), st.phys[st.mapping[Quot(y, st.w)]], Rem(y, st.w), st.w);
    SameLine(st, Quot(x, st.w), Quot(y, st.w));
    SameSector(x, y, st.w);
  }

  /** One transfer writes a request whose lines follow each other, and nothing else. */
  lemma RunWrite(st: Store, r: Req, buf: seq<Data>)
    requires Shape(st) && Placed(st, r) && Consecutive(st, r) && |buf| == r.n
    ensures Written(st, st.(data := DevWrite(st.data, st.w, st.phys[r.entries[0].line], Rem(r.a, st.w), buf)), r.a, buf)
  {
    var st' := st.(data := DevWrite(st.data, st.w, st.phys[r.entries[0].line], Rem(r.a, st.w), buf));
    assert Shape(st');
    forall x: nat | Quot(x, st.w) in st.mapping ensures C(st', x) == if In(x, r.a, |buf|) then buf[x - r.a] else C(st, x) {
      RunSector(st, r, x);
    }
  }

  // ----- line by line -----

  /** Offset in the buffer of the part that belongs to line i. */
  function Done(a: nat, w: nat, i: nat): int
    requires w > 0
  {
    Times(Quot(a, w) + i, w) + Start(a, w, i) - a
  }

  /** Number of sectors the i-th of several transfers moves. */
  function ChunkLen(w: nat, a: nat, n: nat, reqs: nat, i: nat, total: nat): int
    requires w > 0
  {
    var bytes := if i == 0 then w - Rem(a, w)
                 else if i == reqs - 1 then w - Rem(w - Rem(a + n, w), w)
                 else w;
    if bytes <= n - total then bytes else n - total
  }

  lemma TailLen(y: nat, w: nat)
    requires w > 0
    ensures w - Rem(w - Rem(y + 1, w), w) == Rem(y, w) + 1
  {
    Split(y, w);
    var k := Quot(y, w);
    if Rem(y, w) == w - 1 {
      QuotRem(k + 1, 0, w);
      QuotRem(1, 0, w);
    } else {
      QuotRem(k, Rem(y, w) + 1, w);
    }
  }

  lemma DoneNext(a: nat, n: nat, w: nat, i: nat)
    requires w > 0 && n > 0 && i < Lines(a, n, w)
    ensures 0 <= Done(a, w, i) < n && Start(a, w, i) <= End(a, n, w, i) < w
    ensures Done(a, w, i) + End(a, n, w, i) - Start(a, w, i) + 1 == if i == Lines(a, n, w) - 1 then n else Done(a, w, i + 1)
  {
    var k := Quot(a, w) + i;
    Split(a, w);
    Split(a + n - 1, w);
    var x := Times(k, w) + Start(a, w, i);
    QuotRem(k, Start(a, w, i), w);
    Order(a, a + n - 1, w);
    Cover(a, n, w, x);
  }

  /** Sectors s to e of line i are the d-th and following sectors of the request. */
  ghost predicate Chunk(r: Req, w: nat, i: nat, d: nat, s: nat, e: nat)
    requires w > 0
  {
    && s <= e < w && d + e - s + 1 <= r.n
    && (forall x: nat :: Quot(x, w) == Quot(r.a, w) + i ==> (In(x, r.a, r.n) <==> s <= Rem(x, w) <= e) && x - r.a == d + Rem(x, w) - s)
    && (forall x: nat :: In(x, r.a, r.n) ==> (Quot(x, w) < Quot(r.a, w) + i <==> x - r.a < d))
  }

  /** The transfer of line i moves exactly the covered sectors of that line. */
  lemma ChunkOK(r: Req, w: nat, i: nat)
    requires w > 0 && r.n > 0 && i < Lines(r.a, r.n, w)
    ensures var s, e, d := Start(r.a, w, i), End(r.a, r.n, w, i), Done(r.a, w, i);
      && 0 <= d && Chunk(r, w, i, d, s, e)
      && d + e - s + 1 == if i == Lines(r.a, r.n, w) - 1 then r.n else Done(r.a, w, i + 1)
  {
    var s, e, d := Start(r.a, w, i), End(r.a, r.n, w, i), Done(r.a, w, i);
    DoneNext(r.a, r.n, w, i);
    if i + 1 < Lines(r.a, r.n, w) { DoneNext(r.a, r.n, w, i + 1); }
    var y := r.a + d;
    QuotRem(Quot(r.a, w) + i, s, w);
    forall x: nat | Quot(x, w) == Quot(r.a, w) + i ensures (In(x, r.a, r.n) <==> s <= Rem(x, w) <= e) && x - r.a == d + Rem(x, w) - s {
      Split(x, w);
      Cover(r.a, r.n, w, x);
    }
    forall x: nat | In(x, r.a, r.n) ensures Quot(x, w) < Quot(r.a, w) + i <==> x - r.a < d {
      Order(x, y, w);
      Order(y, x, w);
    }
  }

  /** The length computed from seek and skip is that of the covered part of the line. */
  lemma ChunkLenOK(r: Req, w: nat, i: nat)
    requires w > 0 && r.n > 0 && i < Lines(r.a, r.n, w) && Lines(r.a, r.n, w) > 1
    ensures Done(r.a, w, i) >= 0
    ensures ChunkLen(w, r.a, r.n, Lines(r.a, r.n, w), i, Done(r.a, w, i)) == End(r.a, r.n, w, i) - Start(r.a, w, i) + 1 > 0
  {
    DoneNext(r.a, r.n, w, i);
    if i + 1 < Lines(r.a, r.n, w) { DoneNext(r.a, r.n, w, i + 1); }
    TailLen(r.a + r.n - 1, w);
  }

  /** A transfer that stays within one line. */
  lemma LineWrite(data: seq<seq<Data>>, w: nat, p: nat, s: nat, buf: seq<Data>)
    requires VolumeOK(data, w) && p < |data| && s + |buf| <= w
    ensures VolumeOK(DevWrite(data, w, p, s, buf), w) && |DevWrite(data, w, p, s, buf)| == |data|
    ensures forall q, o :: 0 <= q < |data| && 0 <= o < w ==>
      DevWrite(data, w, p, s, buf)[q][o] == if q == p && s <= o < s + |buf| then buf[o - s] else data[q][o]
  {
    forall q: nat, o: nat | q < |data| && o < w
      ensures DevWrite(data, w, p, s, buf)[q][o] == if q == p && s <= o < s + |buf| then buf[o - s] else data[q][o]
    {
      var k := Times(q, w) + o - (Times(p, w) + s);
      if 0 <= k < |buf| { Unique(q, o, p, s + k, w); }
    }
  }

  lemma LineRead(data: seq<seq<Data>>, w: nat, p: nat, s: nat, m: nat)
    requires VolumeOK(data, w) && p < |data| && s + m <= w
    ensures DevRead(data, w, p, s, m) == data[p][s..s + m]
  {
    forall k: nat | k < m ensures DevRead(data, w, p, s, m)[k] == data[p][s..s + m][k] {
      QuotRem(0, s + k, w);
      assert At(data, w, p, s + k) == data[p][s + k];
    }
  }

  /** The first d sectors of the request are written. */
  ghost predicate WrittenUpto(st: Store, st': Store, r: Req, buf: seq<Data>, i: nat)
    requires Shape(st) && |buf| == r.n
  {
    && st' == st.(data := st'.data) && Shape(st')
    && forall x: nat :: Quot(x, st.w) in st.mapping ==> C(st', x) == if Upto(r, st.w, i, x) then buf[x - r.a] else C(st, x)
  }

  lemma DataShape(st: Store, data: seq<seq<Data>>)
    requires Shape(st) && |data| == |st.data| && VolumeOK(data, st.w)
    ensures Shape(st.(data := data))
  {
  }

  lemma WriteLineStep(st0: Store, st: Store, r: Req, buf: seq<Data>, i: nat, d: nat, s: nat, e: nat)
    requires Shape(st0) && Placed(st0, r) && AllMapped(r) && |buf| == r.n && i < |r.entries|
    requires WrittenUpto(st0, st, r, buf, i) && Chunk(r, st0.w, i, d, s, e)
    ensures EntryOK(st, Quot(r.a, st.w) + i, r.entries[i])
    ensures WrittenUpto(st0, st.(data := DevWrite(st.data, st.w, st.phys[r.entries[i].line], s, buf[d..d + e - s + 1])), r, buf, i + 1)
  {
    assert EntryOK(st0, Quot(r.a, st0.w) + i, r.entries[i]);
    var chunk := buf[d..d + e - s + 1];
    var data := DevWrite(st.data, st.w, st.phys[r.entries[i].line], s, chunk);
    LineWrite(st.data, st.w, st.phys[r.entries[i].line], s, chunk);
    DataShape(st, data);
    forall x: nat | Quot(x, st.w) in st.mapping
      ensures C(st.(data := data), x) == if Upto(r, st.w, i + 1, x) then buf[x - r.a] else C(st0, x)
    {
      WriteLineSector(st0, st, r, buf, i, d, s, e, data, x);
    }
  }

  lemma WriteLineSector(st0: Store, st: Store, r: Req, buf: seq<Data>, i: nat, d: nat, s: nat, e: nat, data: seq<seq<Data>>, x: nat)
    requires Shape(st0) && |buf| == r.n && i < |r.entries| && !r.entries[i].Miss?
    requires EntryOK(st0, Quot(r.a, st0.w) + i, r.entries[i])
    requires WrittenUpto(st0, st, r, buf, i) && Chunk(r, st0.w, i, d, s, e)
    requires Quot(x, st.w) in st.mapping && Shape(st.(data := data))
    requires data == DevWrite(st.data, st.w, st.phys[r.entries[i].line], s, buf[d..d + e - s + 1])
    ensures C(st.(data := data), x) == if Upto(r, st.w, i + 1, x) then buf[x - r.a] else C(st0, x)
  {
    LineWrite(st.data, st.w, st.phys[r.entries[i].line], s, buf[d..d + e - s + 1]);
    SameLine(st0, Quot(x, st.w), Quot(r.a, st.w) + i);
    if Quot(x, st.w) == Quot(r.a, st.w) + i {
      assert In(x, r.a, r.n) <==> s <= Rem(x, st.w) <= e;
    }
  }

  /** The buffer holds the sectors of the request read so far. */
  ghost predicate ReadUpto(st: Store, r: Req, buf: seq<Data>)
    requires Shape(st)
  {
    forall x: nat :: In(x, r.a, |buf|) ==> Quot(x, st.w) in st.mapping && buf[x - r.a] == C(st, x)
  }

  lemma ReadLineStep(st: Store, r: Req, buf: seq<Data>, i: nat, d: nat, s: nat, e: nat)
    requires Shape(st) && Placed(st, r) && AllMapped(r) && i < |r.entries|
    requires |buf| == d && ReadUpto(st, r, buf) && Chunk(r, st.w, i, d, s, e)
    requires forall x: nat :: In(x, r.a, r.n) && d <= x - r.a < d + e - s + 1 ==> Quot(x, st.w) == Quot(r.a, st.w) + i
    ensures EntryOK(st, Quot(r.a, st.w) + i, r.entries[i])
    ensures ReadUpto(st, r, buf + DevRead(st.data, st.w, st.phys[r.entries[i].line], s, e - s + 1))
  {
    assert EntryOK(st, Quot(r.a, st.w) + i, r.entries[i]);
    LineRead(st.data, st.w, st.phys[r.entries[i].line], s, e - s + 1);
    var more := DevRead(st.data, st.w, st.phys[r.entries[i].line], s, e - s + 1);
    var buf' := buf + more;
    forall x: nat | In(x, r.a, |buf'|) ensures Quot(x, st.w) in st.mapping && buf'[x - r.a] == C(st, x) {
      if x - r.a >= d {
        Split(x, st.w);
        assert buf'[x - r.a] == more[x - r.a - d];
      }
    }
  }

  /** The sectors of chunk i are those of line i. */
  lemma ChunkLine(r: Req, w: nat, i: nat, d: nat, s: nat, e: nat)
    requires w > 0 && r.n > 0 && Chunk(r, w, i, d, s, e) && d == Done(r.a, w, i) && s == Start(r.a, w, i)
    ensures forall x: nat :: In(x, r.a, r.n) && d <= x - r.a < d + e - s + 1 ==> Quot(x, w) == Quot(r.a, w) + i
  {
    forall x: nat | In(x, r.a, r.n) && d <= x - r.a < d + e - s + 1 ensures Quot(x, w) == Quot(r.a, w) + i {
      assert x == Times(Quot(r.a, w) + i, w) + (s + (x - r.a - d));
      QuotRem(Quot(r.a, w) + i, s + (x - r.a - d), w);
    }
  }

  lemma ChunkNext(r: Req, w: nat, i: nat)
    requires w > 0 && r.n > 0 && i < Lines(r.a, r.n, w) && Lines(r.a, r.n, w) > 1
    ensures Done(r.a, w, i) >= 0
    ensures var bytes := ChunkLen(w, r.a, r.n, Lines(r.a, r.n, w), i, Done(r.a, w, i));
      && bytes > 0 && bytes == End(r.a, r.n, w, i) - Start(r.a, w, i) + 1
      && Done(r.a, w, i) + bytes == (if i + 1 < Lines(r.a, r.n, w) then Done(r.a, w, i + 1) else r.n) <= r.n
  {
    DoneNext(r.a, r.n, w, i);
    if i + 1 < Lines(r.a, r.n, w) { DoneNext(r.a, r.n, w, i + 1); }
    ChunkLenOK(r, w, i);
  }

  lemma WriteRound(st0: Store, st: Store, r: Req, buf: seq<Data>, i: nat, d: nat, m: nat)
    requires Shape(st0) && Placed(st0, r) && AllMapped(r) && |buf| == r.n && i < |r.entries|
    requires WrittenUpto(st0, st, r, buf, i) && d == Done(r.a, st0.w, i) && m == End(r.a, r.n, st0.w, i) - Start(r.a, st0.w, i) + 1 <= r.n - d
    ensures EntryOK(st, Quot(r.a, st.w) + i, r.entries[i])
    ensures WrittenUpto(st0, st.(data := DevWrite(st.data, st.w, st.phys[r.entries[i].line], Start(r.a, st.w, i), buf[d..d + m])), r, buf, i + 1)
  {
    ChunkOK(r, st.w, i);
    WriteLineStep(st0, st, r, buf, i, d, Start(r.a, st.w, i), End(r.a, r.n, st.w, i));
  }

  lemma ReadRound(st: Store, r: Req, buf: seq<Data>, i: nat, m: nat)
    requires Shape(st) && Placed(st, r) && AllMapped(r) && i < |r.entries|
    requires ReadUpto(st, r, buf) && |buf| == Done(r.a, st.w, i) && m == End(r.a, r.n, st.w, i) - Start(r.a, st.w, i) + 1
    ensures EntryOK(st, Quot(r.a, st.w) + i, r.entries[i])
    ensures ReadUpto(st, r, buf + DevRead(st.data, st.w, st.phys[r.entries[i].line], Start(r.a, st.w, i), m))
  {
    ChunkOK(r, st.w, i);
    ChunkLine(r, st.w, i, |buf|, Start(r.a, st.w, i), End(r.a, r.n, st.w, i));
    ReadLineStep(st, r, buf, i, |buf|, Start(r.a, st.w, i), End(r.a, r.n, st.w, i));
  }
}
