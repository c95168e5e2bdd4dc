/**
 The hash buckets of one request in ascending order, each once, and why locking them in this order
 never ends in a circular wait.
 */
module HashOrder {
  import opened Division
  import opened HashBucket

  /** Buckets of the core lines of a request, in the order of the lines. */
  function Hashes(first: Key, n: nat, entries: nat): (h: seq<nat>)
    requires entries > 0
    ensures |h| == n
    ensures forall i :: 0 <= i < n ==> h[i] == Bucket(Key(first.core, first.line + i), entries)
  {
    seq<nat>(n, i requires 0 <= i < n => Bucket(Key(first.core, first.line + i), entries))
  }

  lemma {:induction false} RemNext(x: nat, m: nat)
    requires m > 0
    ensures Rem(x + 1, m) == if Rem(x, m) + 1 == m then 0 else Rem(x, m) + 1
  {
    if x >= m { RemNext(x - m, m); }
  }

  /** Consecutive lines have consecutive buckets, except that the last bucket is followed by the first. */
  lemma HashNext(first: Key, n: nat, entries: nat, i: nat)
    requires entries > 0 && i + 1 < n
    ensures var h := Hashes(first, n, entries); h[i + 1] == if h[i] + 1 == entries then 0 else h[i] + 1
  {
    RemNext(first.line + i + Times(first.core, entries / 32), entries);
  }

  lemma {:induction false} HashAt(first: Key, n: nat, entries: nat, i: nat)
    requires entries > 0 && i < n && i < entries
    ensures var h := Hashes(first, n, entries); h[0] < entries && h[i] == if h[0] + i < entries then h[0] + i else h[0] + i - entries
  {
    if i > 0 {
      HashAt(first, n, entries, i - 1);
      HashNext(first, n, entries, i - 1);
    }
  }

  // ----- the macros -----

  predicate IsMonotonic(h: seq<nat>, entries: nat)
    requires |h| > 0
  {
    h[0] + |h| <= entries
  }

  function MinHash(h: seq<nat>, entries: nat): nat
    requires |h| > 0
  {
    if IsMonotonic(h, entries) then h[0] else 0
  }

  function MaxHash(h: seq<nat>, entries: nat): nat
    requires |h| > 0 && entries > 0
  {
    if IsMonotonic(h, entries) then h[|h| - 1] else entries - 1
  }

  function HashCount(h: seq<nat>, entries: nat): nat {
    if |h| <= entries then |h| else entries
  }

  predicate HasGap(h: seq<nat>, entries: nat)
    requires |h| > 0 && entries > 0
  {
    MaxHash(h, entries) - MinHash(h, entries) + 1 > HashCount(h, entries)
  }

  function GapVal(h: seq<nat>, entries: nat): int
    requires |h| > 0 && entries > 0
  {
    (MaxHash(h, entries) - MinHash(h, entries) + 1) - HashCount(h, entries)
  }

  function GapStart(h: seq<nat>): nat
    requires |h| > 0
  {
    h[|h| - 1]
  }

  function Following(h: seq<nat>, entries: nat, hash: nat): int
    requires |h| > 0 && entries > 0
  {
    hash + 1 + if HasGap(h, entries) && hash == GapStart(h) then GapVal(h, entries) else 0
  }

  // ----- what they enumerate -----

  /** Bucket b belongs to one of n consecutive lines, the first of which has bucket h0. */
  predicate Covers(h0: nat, n: nat, entries: nat, b: nat) {
    b < entries &&
    if n >= entries then true
    else if h0 + n <= entries then h0 <= b < h0 + n
    else b >= h0 || b < h0 + n - entries
  }

  lemma CoversIff(first: Key, n: nat, entries: nat, b: nat)
    requires entries > 0 && n > 0
    ensures var h := Hashes(first, n, entries); Covers(h[0], n, entries, b) <==> b in h
  {
    var h := Hashes(first, n, entries);
    HashAt(first, n, entries, 0);
    if Covers(h[0], n, entries, b) {
      var i := if b >= h[0] then b - h[0] else b + entries - h[0];
      HashAt(first, n, entries, i);
      assert h[i] == b;
    }
    if b in h {
      var i :| 0 <= i < n && h[i] == b;
      if n < entries { HashAt(first, n, entries, i); }
    }
  }

  /** Where the enumeration starts, stops, and what it steps over. */
  lemma StepsOver(first: Key, n: nat, entries: nat, hash: nat)
    requires entries > 0 && n > 0
    ensures var h := Hashes(first, n, entries);
      && h[0] < entries
      && (forall b :: 0 <= b < MinHash(h, entries) ==> !Covers(h[0], n, entries, b))
      && Covers(h[0], n, entries, MinHash(h, entries))
      && (forall b :: b > MaxHash(h, entries) ==> !Covers(h[0], n, entries, b))
      && (Covers(h[0], n, entries, hash) ==>
            var f := Following(h, entries, hash);
            && f > hash && (forall b :: hash < b < f ==> !Covers(h[0], n, entries, b))
            && (f <= MaxHash(h, entries) ==> Covers(h[0], n, entries, f)))
  {
    HashAt(first, n, entries, 0);
    if n <= entries { HashAt(first, n, entries, n - 1); }
  }

  predicate Ascending(s: seq<nat>) {
    forall i, j :: 0 <= i < j < |s| ==> s[i] < s[j]
  }

  /** The iteration visits exactly the buckets of the request, each once, in ascending order. */
  method Enumerate(first: Key, n: nat, entries: nat) returns (visited: seq<nat>)
    requires entries > 0 && n > 0
    ensures Ascending(visited)
    ensures forall b :: b in visited <==> b in Hashes(first, n, entries)
  {
    var h := Hashes(first, n, entries);
    visited := [];
    StepsOver(first, n, entries, 0);
    var hash: nat := MinHash(h, entries);
    while hash <= MaxHash(h, entries)
      invariant Ascending(visited)
      invariant forall b: nat :: b in visited <==> b < hash && Covers(h[0], n, entries, b)
      invariant hash <= MaxHash(h, entries) ==> Covers(h[0], n, entries, hash)
      decreases MaxHash(h, entries) - hash
    {
      StepsOver(first, n, entries, hash);
      forall i | 0 <= i < |visited| ensures visited[i] < hash { assert visited[i] in visited; }
      visited := visited + [hash];
      hash := Following(h, entries, hash);
    }
    StepsOver(first, n, entries, 0);
    forall b: nat ensures b in visited <==> b in h { CoversIff(first, n, entries, b); }
  }

  // ----- locking in that order -----

  datatype Mode = Rd | Wr

  /** A request locks its buckets one by one, holds them all, and gives them back one by one. */
  datatype Phase =
    | Idle
    | Acquire(k: nat)    // holds the first k buckets, wants the next
    | Hold
    | Release(k: nat)    // has given back the first k buckets

  datatype Thread = Thread(buckets: seq<nat>, mode: Mode, phase: Phase)

  predicate ThreadOK(t: Thread) {
    Ascending(t.buckets) && match t.phase
      case Acquire(k) => k <= |t.buckets|
      case Release(k) => k <= |t.buckets|
      case Idle => true
      case Hold => true
  }

  predicate Holds(t: Thread, b: nat) {
    match t.phase
    case Idle => false
    case Acquire(k) => exists i :: 0 <= i < k && i < |t.buckets| && t.buckets[i] == b
    case Hold => b in t.buckets
    case Release(k) => exists i :: k <= i < |t.buckets| && t.buckets[i] == b
  }

  predicate Wants(t: Thread, b: nat) {
    t.phase.Acquire? && t.phase.k < |t.buckets| && t.buckets[t.phase.k] == b
  }

  predicate Wanting(t: Thread) {
    t.phase.Acquire? && t.phase.k < |t.buckets|
  }

  /** One more than the bucket the thread waits for, or 0. */
  function Wanted(t: Thread): nat {
    if Wanting(t) then t.buckets[t.phase.k] + 1 else 0
  }

  /** Whoever holds a bucket wants only larger ones. */
  lemma WantsMore(t: Thread, b: nat)
    requires ThreadOK(t) && Holds(t, b)
    ensures Wanting(t) ==> b + 1 < Wanted(t)
  {
  }

  /** Something can go on: a thread that waits for nothing, or a bucket that is wanted and held by nobody. */
  predicate Progress(threads: seq<Thread>) {
    || (exists t :: 0 <= t < |threads| && threads[t].phase != Idle && !Wanting(threads[t]))
    || (exists t :: 0 <= t < |threads| && Wanting(threads[t]) && Free(threads, threads[t].buckets[threads[t].phase.k]))
  }

  predicate Free(threads: seq<Thread>, b: nat) {
    forall u :: 0 <= u < |threads| ==> !Holds(threads[u], b)
  }

  lemma {:induction false} LargestWanted(threads: seq<Thread>, n: nat) returns (t: nat)
    requires 0 < n <= |threads|
    ensures t < n && forall u :: 0 <= u < n ==> Wanted(threads[u]) <= Wanted(threads[t])
  {
    if n == 1 {
      t := 0;
    } else {
      t := LargestWanted(threads, n - 1);
      if Wanted(threads[n - 1]) > Wanted(threads[t]) { t := n - 1; }
    }
  }

  /**
   No circular wait, whatever the bucket locks' policy towards waiting readers and writers: look at the
   largest bucket anybody wants; its holders, if any, want nothing.
   */
  lemma NoCircularWait(threads: seq<Thread>)
    requires forall t :: 0 <= t < |threads| ==> ThreadOK(threads[t])
    requires exists t :: 0 <= t < |threads| && threads[t].phase != Idle
    ensures Progress(threads)
  {
    var t0 :| 0 <= t0 < |threads| && threads[t0].phase != Idle;
    if Wanting(threads[t0]) {
      var t := LargestWanted(threads, |threads|);
      assert Wanted(threads[t0]) <= Wanted(threads[t]);
      var b := threads[t].buckets[threads[t].phase.k];
      if !Free(threads, b) {
        var u :| 0 <= u < |threads| && Holds(threads[u], b);
        WantsMore(threads[u], b);
        assert Wanted(threads[u]) <= Wanted(threads[t]);
      }
    }
  }

  /** The steps of one thread; an upgrade is a release followed by a fresh start in the other mode. */
  datatype Move = Start(buckets: seq<nat>, mode: Mode) | Lock | Locked | Unlock | Done | Again

  predicate CanMove(t: Thread, m: Move) {
    match m
    case Start(buckets, _) => t.phase.Idle? && Ascending(buckets)
    case Lock => Wanting(t)
    case Locked => t.phase == Acquire(|t.buckets|)
    case Unlock => t.phase.Hold? || (t.phase.Release? && t.phase.k < |t.buckets|)
    case Done => t.phase == Release(|t.buckets|)
    case Again => t.phase == Release(|t.buckets|) && t.mode == Rd
  }

  function Moved(t: Thread, m: Move): Thread
    requires CanMove(t, m)
  {
    match m
    case Start(buckets, mode) => Thread(buckets, mode, Acquire(0))
    case Lock => t.(phase := Acquire(t.phase.k + 1))
    case Locked => t.(phase := Hold)
    case Unlock => t.(phase := Release(if t.phase.Hold? then 0 else t.phase.k + 1))
    case Done => t.(phase := Idle)
    case Again => t.(phase := Acquire(0), mode := Wr)
  }

  /** What a move does to the buckets held: locking adds the one wanted, unlocking gives the next one back. */
  lemma MoveHolds(t: Thread, m: Move, b: nat)
    requires ThreadOK(t) && CanMove(t, m)
    ensures m.Lock? ==> (Holds(Moved(t, m), b) <==> Holds(t, b) || Wants(t, b)) && !(Holds(t, b) && Wants(t, b))
    ensures m.Unlock? && t.phase.Release? ==>
      Holds(t, t.buckets[t.phase.k]) && (Holds(Moved(t, m), b) <==> Holds(t, b) && b != t.buckets[t.phase.k])
    ensures !m.Lock? && !(m.Unlock? && t.phase.Release?) ==> (Holds(Moved(t, m), b) <==> Holds(t, b))
    ensures m.Locked? ==> (Holds(t, b) <==> b in t.buckets)
    ensures m.Done? || m.Again? ==> !Holds(t, b)
    ensures m.Start? ==> Moved(t, m).buckets == m.buckets && Moved(t, m).mode == m.mode
    ensures !m.Start? ==> Moved(t, m).buckets == t.buckets && Moved(t, m).mode == if m.Again? then Wr else t.mode
  {
    var t' := Moved(t, m);
    match m
    case Lock => assert t.buckets[t.phase.k] == t'.buckets[t'.phase.k - 1];
    case Unlock =>
      if t.phase.Release? {
        var k := t.phase.k;
        assert t.buckets[k] == t'.buckets[k];
        if Holds(t, b) { var i :| k <= i < |t.buckets| && t.buckets[i] == b; }
      }
    case _ =>
  }

  lemma MoveKeepsOrder(t: Thread, m: Move)
    requires ThreadOK(t) && CanMove(t, m)
    ensures ThreadOK(Moved(t, m))
    ensures forall b: nat :: Holds(Moved(t, m), b) && !Holds(t, b) ==> m.Lock? && Wants(t, b)
  {
  }
}
