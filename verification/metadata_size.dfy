/**
 How many cache lines a device can have when the metadata of the lines lives on the same device.
 The size of the metadata depends on the number of lines, so the number is found by iteration.
 */
module MetadataSize {
  import opened Division

  const PAGE: nat := 4096
  const MAX_ITERATIONS: nat := 1000

  /** A metadata segment whose size depends on the number of lines; a hash entry serves four of them. */
  datatype Segment = Segment(hash: bool, perPage: nat, onDevice: bool)

  /** Where a segment lies on the device. */
  datatype Raw = Raw(entries: nat, offset: nat, pages: nat)

  /** The quotient rounded up. */
  function Ceil(x: nat, m: nat): nat
    requires m > 0
  {
    if x == 0 then 0 else if x <= m then 1 else Ceil(x - m, m) + 1
  }

  lemma {:induction false} IsCeil(x: nat, m: nat)
    requires m > 0
    ensures Ceil(x, m) * m >= x && (x > 0 ==> (Ceil(x, m) - 1) * m < x)
  {
    if x > m {
      IsCeil(x - m, m);
      assert Ceil(x, m) * m == Ceil(x - m, m) * m + m;
      assert (Ceil(x, m) - 1) * m == (Ceil(x - m, m) - 1) * m + m;
    }
  }

  /** OCF_DIV_ROUND_UP adds the divisor less one and truncates. */
  lemma IsDivRoundUp(x: nat, m: nat)
    requires m > 0
    ensures Ceil(x, m) == (x + m - 1) / m
  {
    CeilIsQuot(x, m);
    IsQuotRem(x + m - 1, m);
  }

  lemma {:induction false} CeilIsQuot(x: nat, m: nat)
    requires m > 0
    ensures Ceil(x, m) == Quot(x + m - 1, m)
  {
    if x > m { CeilIsQuot(x - m, m); }
  }

  lemma {:induction false} CeilMono(x: nat, y: nat, m: nat)
    requires m > 0 && x <= y
    ensures Ceil(x, m) <= Ceil(y, m)
  {
    if x > m { CeilMono(x - m, y - m, m); }
  }

  /** Larger divisors give smaller quotients. */
  lemma {:induction false} CeilAnti(x: nat, m: nat, k: nat)
    requires 0 < k <= m
    ensures Ceil(x, m) <= Ceil(x, k)
  {
    if x > m {
      CeilAnti(x - m, m, k);
      CeilMono(x - m, x - k, k);
    }
  }

  lemma {:induction false} CeilSum(x: nat, y: nat, m: nat)
    requires m > 0
    ensures Ceil(x + y, m) <= Ceil(x, m) + Ceil(y, m)
  {
    if x > m {
      CeilSum(x - m, y, m);
    } else if x > 0 && x + y > m {
      CeilMono(x + y - m, y, m);
    }
  }

  lemma {:induction false} CeilIdentity(x: nat)
    ensures Ceil(x, 1) == x
  {
    if x > 1 { CeilIdentity(x - 1); }
  }

  // ----- the pages n lines need -----

  function Entries(s: Segment, n: nat): nat {
    if s.hash then Ceil(n, 4) else n
  }

  function Pages(s: Segment, n: nat): nat
    requires s.perPage > 0
  {
    Ceil(Entries(s, n), s.perPage)
  }

  /** Pages on the device, in units of 128 KiB. */
  function Room(s: Segment, n: nat): nat
    requires s.perPage > 0
  {
    if s.onDevice then Ceil(Pages(s, n), 32) * 32 else 0
  }

  predicate SegmentsOK(segs: seq<Segment>) {
    forall i :: 0 <= i < |segs| ==> segs[i].perPage > 0
  }

  /** Pages of the first i segments behind the fixed ones. */
  function Count(fixedPages: nat, segs: seq<Segment>, n: nat, i: nat): nat
    requires SegmentsOK(segs) && i <= |segs|
  {
    if i == 0 then fixedPages else Count(fixedPages, segs, n, i - 1) + Room(segs[i - 1], n)
  }

  lemma EntriesGrowth(s: Segment, x: nat, y: nat)
    requires y <= x
    ensures Entries(s, y) <= Entries(s, x) <= Entries(s, y) + (x - y)
  {
    CeilMono(y, x, 4);
    CeilSum(y, x - y, 4);
    CeilAnti(x - y, 4, 1);
    CeilIdentity(x - y);
  }

  lemma PagesGrowth(s: Segment, x: nat, y: nat)
    requires s.perPage >= 64 && y <= x
    ensures Pages(s, y) <= Pages(s, x) <= Pages(s, y) + Ceil(x - y, 64)
  {
    EntriesGrowth(s, x, y);
    var a, b := Entries(s, y), Entries(s, x);
    CeilMono(a, b, s.perPage);
    CeilSum(a, b - a, s.perPage);
    CeilMono(b - a, x - y, s.perPage);
    CeilAnti(x - y, s.perPage, 64);
  }

  lemma RoomGrowth(s: Segment, x: nat, y: nat)
    requires s.perPage >= 64 && y <= x
    ensures Room(s, y) <= Room(s, x) <= Room(s, y) + Ceil(x - y, 64) + 31
  {
    PagesGrowth(s, x, y);
    var p, q := Pages(s, y), Pages(s, x);
    CeilMono(p, q, 32);
    CeilSum(p, q - p, 32);
    IsCeil(q - p, 32);
  }

  lemma {:induction false} CountGrowth(fixedPages: nat, segs: seq<Segment>, x: nat, y: nat, i: nat)
    requires SegmentsOK(segs) && i <= |segs| && (forall j :: 0 <= j < |segs| ==> segs[j].perPage >= 64) && y <= x
    ensures Count(fixedPages, segs, y, i) <= Count(fixedPages, segs, x, i)
    ensures Count(fixedPages, segs, x, i) <= Count(fixedPages, segs, y, i) + i * (Ceil(x - y, 64) + 31)
  {
    if i > 0 {
      CountGrowth(fixedPages, segs, x, y, i - 1);
      RoomGrowth(segs[i - 1], x, y);
      assert i * (Ceil(x - y, 64) + 31) == (i - 1) * (Ceil(x - y, 64) + 31) + (Ceil(x - y, 64) + 31);
    }
  }

  // ----- one device -----

  /** Device size in lines, line size in bytes, pages of fixed metadata, and the variable segments. */
  datatype Device = Device(lines: nat, lineSize: nat, fixedPages: nat, segs: seq<Segment>)

  predicate DeviceOK(d: Device) {
    && d.lines < 0x1_0000_0000
    && d.lineSize in {4096, 8192, 16384, 32768, 65536}
    && |d.segs| <= 5 && SegmentsOK(d.segs) && (forall j :: 0 <= j < |d.segs| ==> d.segs[j].perPage >= 64)
    // the metadata of a device full of lines leaves room for a line, and its size in bytes fits 32 bits
    && Total(d, d.lines) * PAGE < 0x1_0000_0000
    && Total(d, d.lines) * PAGE + d.lineSize <= d.lines * d.lineSize
  }

  function Total(d: Device, n: nat): nat
    requires SegmentsOK(d.segs)
  {
    Count(d.fixedPages, d.segs, n, |d.segs|)
  }

  /** The lines that remain when the metadata for n lines is taken off. */
  function Remaining(d: Device, n: nat): int
    requires SegmentsOK(d.segs) && d.lineSize in {4096, 8192, 16384, 32768, 65536}
  {
    (d.lines * d.lineSize - Total(d, n) * PAGE) / d.lineSize
  }

  /** The next difference is at most this when the last one was g. */
  function Next(g: nat): nat {
    5 * ((g + 63) / 64) + 155
  }

  lemma Ceil64(g: nat)
    ensures Ceil(g, 64) == (g + 63) / 64
  {
    IsCeil(g, 64);
  }

  /** More pages of metadata, fewer lines; a page costs at most one line. */
  lemma FewerLines(lines: nat, size: nat, c: nat, e: nat)
    requires size in {4096, 8192, 16384, 32768, 65536} && c <= e
    ensures (lines * size - e * PAGE) / size <= (lines * size - c * PAGE) / size <= (lines * size - e * PAGE) / size + (e - c)
    ensures (lines * size - c * PAGE) / size <= lines
    ensures e * PAGE + size <= lines * size ==> (lines * size - e * PAGE) / size >= 1
  {
    if size == 4096 {
    } else if size == 8192 {
    } else if size == 16384 {
    } else if size == 32768 {
    } else {
    }
  }

  lemma Antitone(d: Device, x: nat, y: nat)
    requires DeviceOK(d) && y <= x <= d.lines
    ensures 1 <= Remaining(d, x) <= Remaining(d, y) <= d.lines
    ensures Remaining(d, y) - Remaining(d, x) <= Next(x - y)
    ensures Total(d, y) <= Total(d, x) <= Total(d, d.lines)
  {
    CountGrowth(d.fixedPages, d.segs, x, y, |d.segs|);
    CountGrowth(d.fixedPages, d.segs, d.lines, x, |d.segs|);
    Ceil64(x - y);
    FewerLines(d.lines, d.lineSize, Total(d, y), Total(d, x));
    FewerLines(d.lines, d.lineSize, Total(d, x), Total(d, d.lines));
    var c := Ceil(x - y, 64) + 31;
    AtMostFive(|d.segs|, c);
  }

  lemma AtMostFive(i: nat, c: nat)
    requires i <= 5
    ensures i * c <= 5 * c
  {
  }

  /** How far apart consecutive numbers of lines can be, by round. */
  function Gap(k: nat): nat {
    if k == 0 then 4294967296
    else if k == 1 then 335544475
    else if k == 2 then 26214570
    else if k == 3 then 2048170
    else if k == 4 then 160175
    else if k == 5 then 12675
    else if k == 6 then 1150
    else if k == 7 then 245
    else if k == 8 then 175
    else 170
  }

  lemma GapShrinks(k: nat, g: nat)
    requires g <= Gap(k)
    ensures Next(g) <= Gap(k + 1)
  {
  }

  /** The segments lie one behind the other, behind the fixed pages and before page last. */
  ghost predicate Laid(d: Device, raws: seq<Raw>, n: nat, last: nat)
    requires SegmentsOK(d.segs) && |raws| <= |d.segs|
  {
    && last == Count(d.fixedPages, d.segs, n, |raws|)
    && forall i :: 0 <= i < |raws| ==> RawOK(d, raws[i], n, i)
  }

  predicate RawOK(d: Device, raw: Raw, n: nat, i: nat)
    requires SegmentsOK(d.segs) && i < |d.segs|
  {
    raw == Raw(Entries(d.segs[i], n), Count(d.fixedPages, d.segs, n, i), Pages(d.segs[i], n))
  }

  lemma RoomCovers(s: Segment, n: nat)
    requires s.perPage > 0 && s.onDevice
    ensures Pages(s, n) <= Room(s, n)
  {
    IsCeil(Pages(s, n), 32);
  }

  lemma SegmentEnd(d: Device, n: nat, i: nat)
    requires SegmentsOK(d.segs) && i < |d.segs| && d.segs[i].onDevice
    ensures Count(d.fixedPages, d.segs, n, i) + Pages(d.segs[i], n) <= Count(d.fixedPages, d.segs, n, i + 1)
  {
    RoomCovers(d.segs[i], n);
  }

  /** Entries for n lines, one each or, in the hash table, one for four; and just enough pages to hold them. */
  predicate HoldsLines(s: Segment, raw: Raw, n: nat) {
    && (if s.hash then n <= 4 * raw.entries < n + 4 else raw.entries == n)
    && (raw.pages - 1) * s.perPage < raw.entries <= raw.pages * s.perPage
  }

  /** What the segment at this offset leaves to the next: its pages, rounded up to 128 KiB, if it is on the device. */
  predicate LeavesTo(s: Segment, raw: Raw, next: nat) {
    if s.onDevice then raw.offset + raw.pages <= next < raw.offset + raw.pages + 32 && (next - raw.offset) % 32 == 0
    else next == raw.offset
  }

  predicate LaysOut(d: Device, raws: seq<Raw>, n: nat, last: nat) {
    && |raws| == |d.segs| && (if raws == [] then last == d.fixedPages else raws[0].offset == d.fixedPages)
    && (forall i :: 0 <= i < |raws| ==> HoldsLines(d.segs[i], raws[i], n))
    && (forall i :: 0 <= i < |raws| ==> LeavesTo(d.segs[i], raws[i], if i + 1 < |raws| then raws[i + 1].offset else last))
  }

  lemma PagesHold(s: Segment, n: nat, offset: nat)
    requires s.perPage > 0
    ensures HoldsLines(s, Raw(Entries(s, n), offset, Pages(s, n)), n)
    ensures LeavesTo(s, Raw(Entries(s, n), offset, Pages(s, n)), offset + Room(s, n))
  {
    IsCeil(n, 4);
    IsCeil(Entries(s, n), s.perPage);
    IsCeil(Pages(s, n), 32);
  }

  lemma LaidHolds(d: Device, raws: seq<Raw>, n: nat, last: nat)
    requires SegmentsOK(d.segs) && |raws| == |d.segs| && Laid(d, raws, n, last)
    ensures LaysOut(d, raws, n, last)
  {
    forall i: nat | i < |raws|
      ensures HoldsLines(d.segs[i], raws[i], n) && LeavesTo(d.segs[i], raws[i], if i + 1 < |raws| then raws[i + 1].offset else last)
    {
      SegmentHolds(d, raws, n, last, i);
    }
    if raws != [] { assert RawOK(d, raws[0], n, 0); }
  }

  lemma SegmentHolds(d: Device, raws: seq<Raw>, n: nat, last: nat, i: nat)
    requires SegmentsOK(d.segs) && i < |raws| == |d.segs| && Laid(d, raws, n, last)
    ensures HoldsLines(d.segs[i], raws[i], n) && LeavesTo(d.segs[i], raws[i], if i + 1 < |raws| then raws[i + 1].offset else last)
  {
    assert RawOK(d, raws[i], n, i);
    PagesHold(d.segs[i], n, raws[i].offset);
    CountNext(d, n, i);
    NextOffset(d, raws, n, last, i);
  }

  lemma NextOffset(d: Device, raws: seq<Raw>, n: nat, last: nat, i: nat)
    requires SegmentsOK(d.segs) && i < |raws| == |d.segs| && Laid(d, raws, n, last)
    ensures (if i + 1 < |raws| then raws[i + 1].offset else last) == Count(d.fixedPages, d.segs, n, i + 1)
  {
    if i + 1 < |raws| { assert RawOK(d, raws[i + 1], n, i + 1); }
  }

  /** Segments that live on the device never overlap. */
  lemma Disjoint(d: Device, raws: seq<Raw>, n: nat, last: nat, i: nat, j: nat)
    requires SegmentsOK(d.segs) && |raws| == |d.segs| && Laid(d, raws, n, last) && i < j < |raws| && d.segs[i].onDevice
    ensures d.fixedPages <= raws[i].offset && raws[i].offset + raws[i].pages <= raws[j].offset <= last
  {
    SegmentEnd(d, n, i);
    Ordered(d, n, i, j);
    assert RawOK(d, raws[i], n, i) && RawOK(d, raws[j], n, j);
  }

  lemma Ordered(d: Device, n: nat, i: nat, j: nat)
    requires SegmentsOK(d.segs) && i < j < |d.segs|
    ensures d.fixedPages <= Count(d.fixedPages, d.segs, n, i) && Count(d.fixedPages, d.segs, n, i + 1) <= Count(d.fixedPages, d.segs, n, j)
    ensures Count(d.fixedPages, d.segs, n, j) <= Count(d.fixedPages, d.segs, n, |d.segs|)
  {
    CountMono(d, n, 0, i);
    CountMono(d, n, i + 1, j);
    CountMono(d, n, j, |d.segs|);
  }

  lemma {:induction false} CountMono(d: Device, n: nat, i: nat, j: nat)
    requires SegmentsOK(d.segs) && i <= j <= |d.segs|
    ensures Count(d.fixedPages, d.segs, n, i) <= Count(d.fixedPages, d.segs, n, j)
  {
    if i < j { CountMono(d, n, i, j - 1); }
  }

  /** Entries and places of all segments for n lines. */
  method LayOut(d: Device, n: nat) returns (raws: seq<Raw>, count: nat)
    requires SegmentsOK(d.segs)
    ensures |raws| == |d.segs| && Laid(d, raws, n, count) && LaysOut(d, raws, n, count)
  {
    raws, count := [], d.fixedPages;
    for i := 0 to |d.segs|
      invariant |raws| == i && Laid(d, raws, n, count)
    {
      var entries, pages, room := Measure(d.segs[i], n);
      LaidNext(d, raws, n, count);
      raws := raws + [Raw(entries, count, pages)];
      count := count + room;
    }
    LaidHolds(d, raws, n, count);
  }

  lemma LaidNext(d: Device, raws: seq<Raw>, n: nat, last: nat)
    requires SegmentsOK(d.segs) && |raws| < |d.segs| && Laid(d, raws, n, last)
    ensures var s := d.segs[|raws|]; Laid(d, raws + [Raw(Entries(s, n), last, Pages(s, n))], n, last + Room(s, n))
  {
    CountNext(d, n, |raws|);
  }

  lemma CountNext(d: Device, n: nat, i: nat)
    requires SegmentsOK(d.segs) && i < |d.segs|
    ensures Count(d.fixedPages, d.segs, n, i + 1) == Count(d.fixedPages, d.segs, n, i) + Room(d.segs[i], n)
  {
  }

  method Measure(s: Segment, n: nat) returns (entries: nat, pages: nat, room: nat)
    requires s.perPage > 0
    ensures entries == Entries(s, n) && pages == Pages(s, n) && room == Room(s, n)
  {
    IsDivRoundUp(n, 4);
    entries := if s.hash then (n + 3) / 4 else n;
    IsDivRoundUp(entries, s.perPage);
    pages := (entries + s.perPage - 1) / s.perPage;
    IsDivRoundUp(pages, 32);
    room := if s.onDevice then (pages + 31) / 32 * 32 else 0;
  }

  /** What two rounds say about the next: iterates enclose each other, and their distance shrinks. */
  predicate Numbers(lines: nat, k: nat, x: nat, p: nat, q: nat, lowest: nat) {
    && 1 <= x <= lines && 1 <= p <= lines && 1 <= q <= lines
    && (k == 0 ==> x == lines && lowest == lines)
    && (k == 1 ==> p == lines && lowest == lines)
    && (k >= 2 ==> 0 < lowest)
    && (k >= 2 && k % 2 == 0 ==> p <= x <= q && lowest == x - p && (k >= 10 ==> 2 * lowest + k <= 350))
    && (k >= 2 && k % 2 == 1 ==> q <= x <= p && lowest == p - q && (k >= 10 ==> 2 * lowest + k <= 351))
  }

  ghost predicate Enclosed(d: Device, k: nat, x: nat, p: nat, q: nat, lowest: nat)
    requires SegmentsOK(d.segs) && d.lineSize in {4096, 8192, 16384, 32768, 65536}
  {
    && Numbers(d.lines, k, x, p, q, lowest)
    && (k >= 1 ==> x == Remaining(d, p))
    && (k >= 2 ==> p == Remaining(d, q))
    && (k >= 1 ==> p - x <= Gap(k - 1) && x - p <= Gap(k - 1))
  }

  lemma EvenNumbers(lines: nat, k: nat, x: nat, p: nat, q: nat, lowest: nat, y: nat)
    requires Numbers(lines, k, x, p, q, lowest) && k >= 2 && k % 2 == 0 && p <= y < x
    ensures Numbers(lines, k + 1, y, x, p, lowest)
  {
  }

  lemma OddNumbers(lines: nat, k: nat, x: nat, p: nat, q: nat, lowest: nat, y: nat)
    requires Numbers(lines, k, x, p, q, lowest) && k >= 2 && k % 2 == 1 && x < y <= p && y - x < lowest && (k == 9 ==> y - x <= 170)
    ensures Numbers(lines, k + 1, y, x, p, y - x)
  {
  }

  /** Lines and metadata fit the device, and the number repeats itself, at once or every other round. */
  ghost predicate Solution(d: Device, x: nat)
    requires SegmentsOK(d.segs) && d.lineSize in {4096, 8192, 16384, 32768, 65536}
  {
    && x * d.lineSize + Total(d, x) * PAGE <= d.lines * d.lineSize
    && (Remaining(d, x) == x || (Remaining(d, x) > x && Remaining(d, Remaining(d, x)) == x))
  }

  /** With the metadata for n lines on it, the device has room for m lines, but not for one more. */
  predicate Leaves(d: Device, n: nat, m: nat)
    requires SegmentsOK(d.segs)
  {
    m * d.lineSize + Total(d, n) * PAGE <= d.lines * d.lineSize < (m + 1) * d.lineSize + Total(d, n) * PAGE
  }

  lemma RemainingLeaves(d: Device, n: nat)
    requires DeviceOK(d) && n <= d.lines
    ensures Remaining(d, n) >= 0 && Leaves(d, n, Remaining(d, n))
  {
    Antitone(d, d.lines, n);
    RoomFor(d.lines, d.lineSize, Total(d, n), Remaining(d, n));
  }

  lemma RoomFor(lines: nat, size: nat, c: nat, m: nat)
    requires size in {4096, 8192, 16384, 32768, 65536} && m == (lines * size - c * PAGE) / size
    ensures m * size + c * PAGE <= lines * size < (m + 1) * size + c * PAGE
  {
    if size == 4096 {
    } else if size == 8192 {
    } else if size == 16384 {
    } else if size == 32768 {
    } else {
    }
  }

  /**
   The number found and its partner in the cycle, which is the number itself on a fixed point, leave
   room for exactly each other, and beyond the partner no larger number of lines fits the device.
   */
  lemma NothingLargerFits(d: Device, x: nat, m: nat)
    requires DeviceOK(d) && 1 <= x <= d.lines && Solution(d, x)
    ensures var y := Remaining(d, x);
      && x <= y <= d.lines && Leaves(d, x, y) && Leaves(d, y, x)
      && (m > x && m >= y ==> m * d.lineSize + Total(d, m) * PAGE > d.lines * d.lineSize)
  {
    Antitone(d, d.lines, x);
    var y := Remaining(d, x);
    RemainingLeaves(d, x);
    RemainingLeaves(d, y);
    if m > x && m >= y && m <= d.lines { Antitone(d, m, y); }
    if m > x && m >= y { TooMany(d.lines, d.lineSize, x, m, Total(d, y), Total(d, m)); }
  }

  lemma TooMany(lines: nat, size: nat, x: nat, m: nat, c: nat, e: nat)
    requires size > 0 && m > x && lines * size < (x + 1) * size + c * PAGE && (m > lines || e >= c)
    ensures m * size + e * PAGE > lines * size
  {
    if m > lines {
      Product(lines + 1, m, size);
      assert (lines + 1) * size == lines * size + size;
    } else {
      Product(x + 1, m, size);
    }
  }

  lemma Product(a: nat, b: nat, k: nat)
    requires a <= b
    ensures a * k <= b * k
  {
  }

  lemma NextGap(d: Device, k: nat, x: nat, p: nat)
    requires DeviceOK(d) && 1 <= x <= d.lines && 1 <= p <= d.lines && k >= 1
    requires x == Remaining(d, p) && p - x <= Gap(k - 1) && x - p <= Gap(k - 1)
    ensures x - Remaining(d, x) <= Gap(k) && Remaining(d, x) - x <= Gap(k)
    ensures p <= x ==> Remaining(d, x) <= x
    ensures x <= p ==> Remaining(d, x) >= x
  {
    if p <= x {
      Antitone(d, x, p);
      GapShrinks(k - 1, x - p);
    } else {
      Antitone(d, p, x);
      GapShrinks(k - 1, p - x);
    }
  }

  /** One round after which the loop goes on. */
  lemma Round(d: Device, k: nat, x: nat, p: nat, q: nat, lowest: nat, diff: int)
    requires DeviceOK(d) && Enclosed(d, k, x, p, q, lowest) && diff == Remaining(d, x) - x && diff != 0
    requires !(diff > 0 && diff == lowest)
    ensures diff > 0 ==> diff < lowest
    ensures x + diff >= 1 && Enclosed(d, k + 1, x + diff, x, p, if diff > 0 then diff else lowest)
  {
    if k < 2 {
      RoundStart(d, k, x, p, q, lowest);
    } else if k % 2 == 0 {
      RoundEven(d, k, x, p, q, lowest);
    } else {
      RoundOdd(d, k, x, p, q, lowest);
    }
  }

  lemma RoundStart(d: Device, k: nat, x: nat, p: nat, q: nat, lowest: nat)
    requires DeviceOK(d) && Enclosed(d, k, x, p, q, lowest) && k < 2 && Remaining(d, x) != x
    ensures Remaining(d, x) >= 1 && Remaining(d, x) - x < lowest
    ensures Enclosed(d, k + 1, Remaining(d, x), x, p, if Remaining(d, x) > x then Remaining(d, x) - x else lowest)
  {
    Antitone(d, d.lines, x);
    if k == 0 {
      Antitone(d, x, x);
    } else {
      NextGap(d, k, x, p);
    }
  }

  /** After an even number of rounds the next number is lower, but not below the last low one. */
  lemma RoundEven(d: Device, k: nat, x: nat, p: nat, q: nat, lowest: nat)
    requires DeviceOK(d) && Enclosed(d, k, x, p, q, lowest) && k >= 2 && k % 2 == 0 && Remaining(d, x) != x
    ensures 1 <= p <= Remaining(d, x) < x
    ensures Enclosed(d, k + 1, Remaining(d, x), x, p, lowest)
  {
    NextGap(d, k, x, p);
    Antitone(d, q, x);
    EvenNumbers(d.lines, k, x, p, q, lowest, Remaining(d, x));
  }

  /** After an odd number of rounds it is higher, but not above the last high one. */
  lemma RoundOdd(d: Device, k: nat, x: nat, p: nat, q: nat, lowest: nat)
    requires DeviceOK(d) && Enclosed(d, k, x, p, q, lowest) && k >= 2 && k % 2 == 1 && Remaining(d, x) - x != lowest && Remaining(d, x) != x
    ensures x < Remaining(d, x) <= p && Remaining(d, x) - x < lowest
    ensures Enclosed(d, k + 1, Remaining(d, x), x, p, Remaining(d, x) - x)
  {
    NextGap(d, k, x, p);
    Antitone(d, x, q);
    OddNumbers(d.lines, k, x, p, q, lowest, Remaining(d, x));
  }

  /** The loop stops on a fixed point or on the lower end of a two-cycle; both fit. */
  lemma Stop(d: Device, k: nat, x: nat, p: nat, q: nat, lowest: nat, diff: int)
    requires DeviceOK(d) && Enclosed(d, k, x, p, q, lowest) && diff == Remaining(d, x) - x
    requires diff == 0 || (diff > 0 && diff == lowest)
    ensures Solution(d, x)
  {
    Fits(d.lines, d.lineSize, Total(d, x), x);
    Antitone(d, d.lines, x);
    if diff > 0 {
      if k >= 2 && k % 2 == 1 {
        Antitone(d, x, q);
      } else if k >= 2 {
        NextGap(d, k, x, p);
      } else if k == 0 {
        Antitone(d, x, x);
      }
    }
  }

  lemma Fits(lines: nat, size: nat, c: nat, x: nat)
    requires size in {4096, 8192, 16384, 32768, 65536} && (lines * size - c * PAGE) / size >= x
    ensures x * size + c * PAGE <= lines * size
  {
  }

  /** Bytes of the device less bytes of metadata, in lines, less the lines assumed. */
  method DiffLines(d: Device, cacheLines: nat, countPages: nat) returns (diff: int)
    requires DeviceOK(d) && cacheLines <= d.lines && countPages == Total(d, cacheLines)
    ensures diff == Remaining(d, cacheLines) - cacheLines
  {
    Antitone(d, d.lines, cacheLines);
    assert countPages * PAGE < 0x1_0000_0000;
    diff := d.lines * d.lineSize;
    diff := diff - countPages * PAGE;
    assert diff >= 0;
    diff := diff / d.lineSize;
    diff := diff - cacheLines;
  }

  /**
   The iteration.  It never needs the exception exit: differences shrink to less than 170 within nine
   rounds, and from then on every second difference is smaller than the one before.
   */
  method Calculate(d: Device) returns (cacheLines: nat, countPages: nat, raws: seq<Raw>)
    requires DeviceOK(d)
    ensures 1 <= cacheLines <= d.lines && Solution(d, cacheLines)
    ensures |raws| == |d.segs| && Laid(d, raws, cacheLines, countPages) && countPages == Total(d, cacheLines)
    ensures LaysOut(d, raws, cacheLines, countPages)
    ensures cacheLines * d.lineSize + countPages * PAGE <= d.lines * d.lineSize
  {
    var lowest: nat := d.lines;
    var k: nat := 0;
    ghost var p: nat, q: nat := d.lines, d.lines;
    var diff: int;
    Antitone(d, d.lines, d.lines);
    cacheLines := d.lines;
    while true
      invariant Enclosed(d, k, cacheLines, p, q, lowest)
      decreases MAX_ITERATIONS - k
    {
      raws, countPages := LayOut(d, cacheLines);
      if k >= MAX_ITERATIONS {
        assert false;
      }
      diff := DiffLines(d, cacheLines, countPages);
      if diff > 0 && diff == lowest {
        Stop(d, k, cacheLines, p, q, lowest, diff);
        break;
      }
      if diff == 0 {
        Stop(d, k, cacheLines, p, q, lowest, diff);
        break;
      }
      Round(d, k, cacheLines, p, q, lowest, diff);
      p, q := cacheLines, p;
      if diff > 0 { lowest := diff; }
      cacheLines := cacheLines + diff;
      k := k + 1;
    }
  }
}
