/**
 The chunks of a core volume, sorted into buckets by the number of their dirty cache lines.  A chunk
 is a fixed range of core lines; it moves at most one bucket per update.
 */
module AcpBuckets {
  import opened Division
  import opened IndexLists
  import opened SetFacts

  const CHUNK_BYTES: nat := 104857600
  const BUCKETS: nat := 11

  predicate LineSizeOK(size: nat) {
    size in {4096, 8192, 16384, 32768, 65536}
  }

  /** Core lines in one chunk. */
  function ChunkLines(size: nat): nat
    requires LineSizeOK(size)
  {
    CHUNK_BYTES / size
  }

  /** Upper limit of a bucket: ten percent more for each. */
  function Threshold(size: nat, bucket: nat): nat
    requires LineSizeOK(size)
  {
    (ChunkLines(size) * (10 * bucket)) / 100
  }

  /** The bucket whose interval contains the number of dirty lines. */
  predicate BucketOK(size: nat, num: nat, bucket: nat)
    requires LineSizeOK(size)
  {
    bucket < BUCKETS && num <= Threshold(size, bucket) && (bucket > 0 ==> Threshold(size, bucket - 1) < num)
  }

  lemma ThresholdStep(size: nat, bucket: nat)
    requires LineSizeOK(size)
    ensures Threshold(size, 0) == 0 && Threshold(size, BUCKETS - 1) == ChunkLines(size) < 0x1_0000
    ensures Threshold(size, bucket) + 1 < Threshold(size, bucket + 1)
  {
    if size == 4096 {
    } else if size == 8192 {
    } else if size == 16384 {
    } else if size == 32768 {
    } else {
    }
  }

  lemma {:induction false} ThresholdOrder(size: nat, a: nat, b: nat)
    requires LineSizeOK(size) && a < b
    ensures Threshold(size, a) < Threshold(size, b)
  {
    ThresholdStep(size, b - 1);
    if a < b - 1 { ThresholdOrder(size, a, b - 1); }
  }

  /** There is only one such bucket. */
  lemma BucketUnique(size: nat, num: nat, a: nat, b: nat)
    requires LineSizeOK(size) && BucketOK(size, num, a) && BucketOK(size, num, b)
    ensures a == b
  {
    if a < b - 1 { ThresholdOrder(size, a, b - 1); }
    if b < a - 1 { ThresholdOrder(size, b, a - 1); }
  }

  // ----- counting -----

  /** Flagged cache lines of chunk c; core[l] is the core line that cache line l caches. */
  ghost function Flagged(size: nat, flags: seq<bool>, core: seq<nat>, c: nat): set<nat>
    requires LineSizeOK(size) && |core| == |flags|
  {
    set l | 0 <= l < |flags| && flags[l] && ChunkOf(size, core[l]) == c
  }

  function ChunkOf(size: nat, coreLine: nat): nat
    requires LineSizeOK(size)
  {
    ChunkPositive(size);
    Quot(coreLine, ChunkLines(size))
  }

  /** The chunk number is the one that the byte address gives. */
  lemma IsChunk(size: nat, coreLine: nat)
    requires LineSizeOK(size)
    ensures ChunkOf(size, coreLine) == coreLine * size / CHUNK_BYTES
  {
    ChunkPositive(size);
    IsQuotRem(coreLine, ChunkLines(size));
    assert CHUNK_BYTES == ChunkLines(size) * size by { ChunkBytes(size); }
    Scaled(coreLine, ChunkLines(size), size);
  }

  lemma ChunkBytes(size: nat)
    requires LineSizeOK(size)
    ensures ChunkLines(size) * size == CHUNK_BYTES
  {
    if size == 4096 {
    } else if size == 8192 {
    } else if size == 16384 {
    } else if size == 32768 {
    } else {
    }
  }

  /** A core volume of so many bytes gets a chunk for each of its lines. */
  lemma ChunkInVolume(size: nat, coreLine: nat, bytes: nat)
    requires LineSizeOK(size) && coreLine * size < bytes
    ensures ChunkOf(size, coreLine) < (bytes + CHUNK_BYTES - 1) / CHUNK_BYTES
  {
    IsChunk(size, coreLine);
  }

  lemma ChunkPositive(size: nat)
    requires LineSizeOK(size)
    ensures ChunkLines(size) > 0
  {
    ThresholdStep(size, 0);
  }

  lemma {:induction false} ImageCard(s: set<nat>, f: seq<nat>)
    requires (forall l :: l in s ==> l < |f|) && (forall l, m :: l in s && m in s && l != m ==> f[l] != f[m])
    ensures |set l | l in s :: f[l]| == |s|
  {
    var image := set l | l in s :: f[l];
    if s == {} {
      assert image == {};
    } else {
      var x :| x in s;
      ImageCard(s - {x}, f);
      assert image == (set l | l in s - {x} :: f[l]) + {f[x]};
    }
  }

  predicate Injective(flags: seq<bool>, core: seq<nat>) {
    |core| == |flags| && forall l, m :: 0 <= l < m < |flags| && flags[l] && flags[m] ==> core[l] != core[m]
  }

  /** A chunk has no more flagged lines than core lines: no count leaves the top bucket or 16 bits. */
  lemma ChunkBound(size: nat, flags: seq<bool>, core: seq<nat>, c: nat)
    requires LineSizeOK(size) && Injective(flags, core)
    ensures |Flagged(size, flags, core, c)| <= ChunkLines(size) < 0x1_0000
  {
    ChunkPositive(size);
    ThresholdStep(size, 0);
    var lines := ChunkLines(size);
    var s := Flagged(size, flags, core, c);
    var offset: seq<nat> := seq<nat>(|core|, l requires 0 <= l < |core| => Rem(core[l], lines));
    forall l, m | l in s && m in s && l != m ensures offset[l] != offset[m] {
      Order(core[l], core[m], lines);
      assert core[l] != core[m] by { if l < m {} else { assert m < l; } }
    }
    ImageCard(s, offset);
    var image := set l | l in s :: offset[l];
    assert image <= Below(lines);
    SubsetCard(image, Below(lines));
    BelowCard(lines);
  }

  /** One flag more or less. */
  lemma FlagChange(size: nat, flags: seq<bool>, core: seq<nat>, l: nat, v: bool, c: nat)
    requires LineSizeOK(size) && |core| == |flags| && l < |flags| && flags[l] != v
    ensures |Flagged(size, flags[l := v], core, c)| ==
            |Flagged(size, flags, core, c)| + if ChunkOf(size, core[l]) != c then 0 else if v then 1 else -1
  {
    var s, s' := Flagged(size, flags, core, c), Flagged(size, flags[l := v], core, c);
    if ChunkOf(size, core[l]) != c {
      assert s' == s;
    } else if v {
      assert s' == s + {l};
    } else {
      assert s' == s - {l};
    }
  }

  datatype Chunk = Chunk(num: nat, bucket: nat)

  datatype State = State(size: nat, flags: seq<bool>, core: seq<nat>, chunks: seq<Chunk>, lists: seq<seq<nat>>)

  predicate Sizes(s: State) {
    && LineSizeOK(s.size) && Injective(s.flags, s.core) && |s.lists| == BUCKETS
    && forall l :: 0 <= l < |s.core| ==> ChunkOf(s.size, s.core[l]) < |s.chunks|
  }

  /** A chunk counts its flagged lines and sits in the bucket for that count. */
  ghost predicate ChunkOK(s: State, c: nat)
    requires Sizes(s) && c < |s.chunks|
  {
    s.chunks[c].num == |Flagged(s.size, s.flags, s.core, c)| && BucketOK(s.size, s.chunks[c].num, s.chunks[c].bucket)
  }

  /** The list of a bucket names the chunks of that bucket, once each, and nothing else. */
  ghost predicate ListOK(s: State, b: nat)
    requires |s.lists| == BUCKETS && b < BUCKETS
  {
    Distinct(s.lists[b]) && forall c: nat :: c in s.lists[b] <==> c < |s.chunks| && s.chunks[c].bucket == b
  }

  ghost predicate AcpOK(s: State) {
    Sizes(s) && (forall c: nat :: c < |s.chunks| ==> ChunkOK(s, c)) && (forall b: nat :: b < BUCKETS ==> ListOK(s, b))
  }

  /** After a change by one, one comparison with each neighbour finds the bucket again. */
  lemma OneMove(size: nat, before: nat, num: nat, bucket: nat)
    requires LineSizeOK(size) && BucketOK(size, before, bucket) && num <= ChunkLines(size)
    requires num == before || num == before + 1 || num + 1 == before
    ensures num > Threshold(size, bucket) ==> bucket != BUCKETS - 1 && BucketOK(size, num, bucket + 1)
    ensures num <= Threshold(size, bucket) && bucket > 0 && num <= Threshold(size, bucket - 1) ==> BucketOK(size, num, bucket - 1)
    ensures num <= Threshold(size, bucket) && !(bucket > 0 && num <= Threshold(size, bucket - 1)) ==> BucketOK(size, num, bucket)
  {
    ThresholdStep(size, bucket);
    if bucket > 1 { ThresholdStep(size, bucket - 2); }
    if bucket > 0 { ThresholdStep(size, bucket - 1); }
  }

  /** The list b is the list a with chunk c taken out, in the same order. */
  predicate Without1(a: seq<nat>, c: nat, b: seq<nat>) {
    exists i :: 0 <= i < |a| && a[i] == c && b == a[..i] + a[i + 1..]
  }

  /** A chunk that fills up goes behind the chunks of the next bucket, one that empties in front of the previous one's. */
  predicate MovedTo(before: seq<seq<nat>>, after: seq<seq<nat>>, c: nat, from: nat, to: nat)
    requires |before| == |after| == BUCKETS && from < BUCKETS && to < BUCKETS
  {
    && (forall b :: 0 <= b < BUCKETS && b != from && b != to ==> after[b] == before[b])
    && if to == from then after[from] == before[from]
       else Without1(before[from], c, after[from]) && after[to] == if to > from then before[to] + [c] else [c] + before[to]
  }

  class Acp {
    const size: nat
    var flags: seq<bool>
    var core: seq<nat>
    var chunks: seq<Chunk>
    var lists: seq<seq<nat>>

    ghost function Now(): State
      reads this
    {
      State(size, flags, core, chunks, lists)
    }

    ghost predicate Valid()
      reads this
    {
      AcpOK(Now())
    }

    /** No line is dirty, and all chunks are in the first bucket, the last one in front. */
    constructor (size: nat, core: seq<nat>, num: nat)
      requires LineSizeOK(size) && forall l :: 0 <= l < |core| ==> ChunkOf(size, core[l]) < num
      ensures Valid() && this.size == size && this.core == core && |chunks| == num
      ensures flags == seq(|core|, _ => false)
    {
      var first: seq<nat> := [];
      for i := 0 to num
        invariant Distinct(first) && forall c: nat :: c in first <==> c < i
      {
        DistinctPush(first, i);
        first := [i] + first;
      }
      this.size, this.core := size, core;
      flags, chunks := seq(|core|, _ => false), seq(num, _ => Chunk(0, 0));
      lists := [first] + seq(BUCKETS - 1, _ => []);
      new;
      forall c: nat | c < num ensures ChunkOK(Now(), c) {
        ThresholdStep(size, 0);
        assert Flagged(size, flags, core, c) == {};
      }
    }

    /** Count the dirty lines that a restart found in the metadata. */
    method Rebuild(dirty: seq<bool>)
      requires Valid() && flags == seq(|core|, _ => false) && Injective(dirty, core)
      modifies this`flags, this`chunks, this`lists
      ensures Valid() && flags == dirty && |chunks| == |old(chunks)|
    {
      for line := 0 to |flags|
        invariant Valid() && |flags| == |core| && |chunks| == |old(chunks)|
        invariant forall l :: 0 <= l < |flags| ==> flags[l] == (l < line && dirty[l])
      {
        if dirty[line] { SetHot(line); }
      }
    }

    /** The line is mapped for another core line while it is clean. */
    method Remap(line: nat, coreLine: nat)
      requires Valid() && line < |flags| && !flags[line] && ChunkOf(size, coreLine) < |chunks|
      modifies this`core
      ensures Valid() && core == old(core)[line := coreLine]
    {
      Remapped(Now(), line, coreLine);
      core := core[line := coreLine];
    }

    /** Move the chunk one bucket up or down if its count left the bucket. */
    method UpdateBucket(c: nat, ghost was: nat)
      requires LineSizeOK(size) && |lists| == BUCKETS && c < |chunks|
      requires forall b: nat :: b < BUCKETS ==> ListOK(Now(), b)
      requires chunks[c].num <= ChunkLines(size) && BucketOK(size, was, chunks[c].bucket)
      requires chunks[c].num == was || chunks[c].num == was + 1 || chunks[c].num + 1 == was
      modifies this`chunks, this`lists
      ensures |lists| == BUCKETS && |chunks| == |old(chunks)| && BucketOK(size, chunks[c].num, chunks[c].bucket)
      ensures forall b: nat :: b < BUCKETS ==> ListOK(Now(), b)
      ensures chunks == old(chunks)[c := old(chunks)[c].(bucket := chunks[c].bucket)]
      ensures var from, to := old(chunks)[c].bucket, chunks[c].bucket; from < BUCKETS && to < BUCKETS && MovedTo(old(lists), lists, c, from, to)
    {
      var chunk := chunks[c];
      OneMove(size, was, chunk.num, chunk.bucket);
      if chunk.num > Threshold(size, chunk.bucket) {
        assert chunk.bucket != BUCKETS - 1;
        MoveChunk(c, chunk.bucket + 1, false);
      } else if chunk.bucket > 0 && chunk.num <= Threshold(size, chunk.bucket - 1) {
        MoveChunk(c, chunk.bucket - 1, true);
      }
    }

    /** Take the chunk off its list and put it at the front or the back of another. */
    method MoveChunk(c: nat, to: nat, front: bool)
      requires |lists| == BUCKETS && c < |chunks| && to < BUCKETS && chunks[c].bucket < BUCKETS && chunks[c].bucket != to
      requires forall b: nat :: b < BUCKETS ==> ListOK(Now(), b)
      modifies this`chunks, this`lists
      ensures |lists| == BUCKETS && forall b: nat :: b < BUCKETS ==> ListOK(Now(), b)
      ensures chunks == old(chunks)[c := old(chunks)[c].(bucket := to)]
      ensures lists == old(lists)[old(chunks)[c].bucket := lists[old(chunks)[c].bucket]][to := lists[to]]
      ensures Without1(old(lists)[old(chunks)[c].bucket], c, lists[old(chunks)[c].bucket])
      ensures lists[to] == if front then [c] + old(lists)[to] else old(lists)[to] + [c]
    {
      ghost var s := Now();
      var from := chunks[c].bucket;
      var rest := Omit(lists[from], c);
      lists := lists[from := rest];
      lists := lists[to := if front then [c] + lists[to] else lists[to] + [c]];
      chunks := chunks[c := chunks[c].(bucket := to)];
      forall b: nat | b < BUCKETS ensures ListOK(Now(), b) {
        assert ListOK(s, b) && ListOK(s, from);
        forall k: nat ensures k in rest <==> k in s.lists[from] && k != c { OmitMembers(s.lists[from], c, k); }
        OmitDistinct(s.lists[from], c);
      }
      assert ListOK(s, from);
      ghost var i := Place(s.lists[from], c);
      OmitIs(s.lists[from], i);
    }

    /** A line became dirty, or was written again. */
    method SetHot(line: nat)
      requires Valid() && line < |flags| && Injective(flags[line := true], core)
      modifies this`flags, this`chunks, this`lists
      ensures Valid() && flags == old(flags)[line := true] && |chunks| == |old(chunks)|
    {
      ghost var s := Now();
      var c := ChunkOf(size, core[line]);
      assert ChunkOK(s, c);
      ghost var was := chunks[c].num;
      if !flags[line] {
        FlagChange(size, flags, core, line, true, c);
        flags := flags[line := true];
        chunks := chunks[c := chunks[c].(num := chunks[c].num + 1)];
      }
      ChunkBound(size, flags, core, c);
      ListsKept(s, Now());
      UpdateBucket(c, was);
      Counted(s, Now(), line, true, c);
    }

    /** A line became clean. */
    method PurgeBlock(line: nat)
      requires Valid() && line < |flags|
      modifies this`flags, this`chunks, this`lists
      ensures Valid() && flags == old(flags)[line := false] && |chunks| == |old(chunks)|
    {
      ghost var s := Now();
      var c := ChunkOf(size, core[line]);
      assert ChunkOK(s, c);
      ghost var was := chunks[c].num;
      if flags[line] {
        FlagChange(size, flags, core, line, false, c);
        flags := flags[line := false];
        chunks := chunks[c := chunks[c].(num := chunks[c].num - 1)];
      }
      ChunkBound(size, flags, core, c);
      ListsKept(s, Now());
      UpdateBucket(c, was);
      Counted(s, Now(), line, false, c);
    }
  }

  /** Which core line an unflagged cache line stands for does not matter. */
  lemma Remapped(s: State, line: nat, coreLine: nat)
    requires AcpOK(s) && line < |s.flags| && !s.flags[line] && ChunkOf(s.size, coreLine) < |s.chunks|
    ensures AcpOK(s.(core := s.core[line := coreLine]))
  {
    var s' := s.(core := s.core[line := coreLine]);
    forall c: nat | c < |s.chunks| ensures ChunkOK(s', c) {
      assert ChunkOK(s, c);
      assert Flagged(s.size, s'.flags, s'.core, c) == Flagged(s.size, s.flags, s.core, c);
    }
    forall b: nat | b < BUCKETS ensures ListOK(s', b) { assert ListOK(s, b); }
  }

  lemma ListsKept(s: State, s': State)
    requires |s.lists| == BUCKETS && forall b: nat :: b < BUCKETS ==> ListOK(s, b)
    requires s'.lists == s.lists && |s'.chunks| == |s.chunks| && forall c: nat :: c < |s.chunks| ==> s'.chunks[c].bucket == s.chunks[c].bucket
    ensures forall b: nat :: b < BUCKETS ==> ListOK(s', b)
  {
    forall b: nat | b < BUCKETS ensures ListOK(s', b) { assert ListOK(s, b); }
  }

  /** Only the chunk of the line changed its count. */
  lemma Counted(s: State, s': State, line: nat, v: bool, c: nat)
    requires AcpOK(s) && line < |s.flags| && c == ChunkOf(s.size, s.core[line]) < |s.chunks|
    requires Sizes(s') && s'.size == s.size && s'.core == s.core && s'.flags == s.flags[line := v] && |s'.chunks| == |s.chunks|
    requires s'.chunks[c].num == s.chunks[c].num + if s.flags[line] == v then 0 else if v then 1 else -1
    requires BucketOK(s.size, s'.chunks[c].num, s'.chunks[c].bucket)
    requires forall k: nat :: k < |s.chunks| && k != c ==> s'.chunks[k] == s.chunks[k]
    requires forall b: nat :: b < BUCKETS ==> ListOK(s', b)
    ensures AcpOK(s')
  {
    forall k: nat | k < |s.chunks| ensures ChunkOK(s', k) {
      assert ChunkOK(s, k);
      if s.flags[line] != v {
        FlagChange(s.size, s.flags, s.core, line, v, k);
      } else {
        assert s'.flags == s.flags;
      }
    }
  }
}
