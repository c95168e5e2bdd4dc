/** Freelists, one per execution context, and user partitions, all threaded through one pair of tables. */
module LineAllocation {
  import opened IndexLists
  import opened LineLists
  import opened Sums
  import opened Division
  import opened FreelistPopulate
  import opened SetFacts

  /** The lists are the freelists first, then the partitions. */
  datatype State = State(
    n: nat,              // number of cache lines; also stands for "none"
    count: nat,          // number of freelists
    parts: nat,          // number of user partitions
    noPart: nat,         // partition id of a line on a freelist
    family: Family,
    partId: seq<nat>,
    freeHead: seq<nat>,
    freeTail: seq<nat>,
    freeSize: seq<nat>,
    totalFree: int,
    partHead: seq<nat>,
    partSize: seq<nat>)

  predicate Sizes(s: State) {
    && s.count > 0 && s.parts <= s.noPart && |s.family.next| == s.n && |s.partId| == s.n
    && |s.family.lists| == s.count + s.parts
    && |s.freeHead| == |s.freeTail| == |s.freeSize| == s.count && |s.partHead| == |s.partSize| == s.parts
  }

  predicate FreeOK(s: State, j: nat)
    requires Sizes(s) && j < s.count
  {
    var list := s.family.lists[j];
    s.freeHead[j] == Head(list, s.n) && s.freeTail[j] == Tail(list, s.n) && s.freeSize[j] == |list|
  }

  predicate PartOK(s: State, p: nat)
    requires Sizes(s) && p < s.parts
  {
    var list := s.family.lists[s.count + p];
    s.partHead[p] == Head(list, s.n) && s.partSize[p] == |list|
  }

  /** The stored partition id says which partition a line is on, or that it is on a freelist. */
  predicate IdOK(s: State, l: nat)
    requires Sizes(s) && l < s.n && |s.family.home| == s.n
  {
    var h := s.family.home[l];
    (h < s.count ==> s.partId[l] == s.noPart) && (s.count <= h < s.count + s.parts ==> s.partId[l] == h - s.count)
  }

  ghost predicate AllocOK(s: State) {
    && Sizes(s) && FamilyOK(s.family)
    && (forall j: nat :: j < s.count ==> FreeOK(s, j))
    && (forall p: nat :: p < s.parts ==> PartOK(s, p))
    && (forall l: nat :: l < s.n ==> IdOK(s, l))
    && s.totalFree == Sum(s.freeSize)
  }

  /** Somebody holds line l, which is on no list. */
  predicate InHand(f: Family, l: nat) {
    l < |f.home| && f.home[l] == |f.lists|
  }

  /** Every line is on exactly one list. */
  predicate Conserved(f: Family) {
    forall l :: 0 <= l < |f.home| ==> f.home[l] < |f.lists|
  }

  // ----- freelists -----

  function FreeAdded(s: State, ctx: nat, x: nat): State
    requires Sizes(s) && ctx < s.count && x < s.n && |s.family.home| == |s.family.prev| == s.n
    requires var list := s.family.lists[ctx]; list != [] ==> list[|list| - 1] < s.n
  {
    var list := s.family.lists[ctx];
    s.(family := Appended(s.family, ctx, x), partId := s.partId[x := s.noPart],
       freeHead := if list == [] then s.freeHead[ctx := x] else s.freeHead, freeTail := s.freeTail[ctx := x],
       freeSize := s.freeSize[ctx := s.freeSize[ctx] + 1], totalFree := s.totalFree + 1)
  }

  lemma FreeAddedOK(s: State, ctx: nat, x: nat)
    requires AllocOK(s) && ctx < s.count && InHand(s.family, x)
    ensures FreeOK(s, ctx)
    ensures var list := s.family.lists[ctx]; list != [] ==> list[|list| - 1] < s.n
    ensures AllocOK(FreeAdded(s, ctx, x))
  {
    AppendedOK(s.family, ctx, x);
    SumUpdate(s.freeSize, ctx, s.freeSize[ctx] + 1);
    var s' := FreeAdded(s, ctx, x);
    assert FreeOK(s, ctx);
    forall j: nat | j < s.count ensures FreeOK(s', j) { assert FreeOK(s, j); }
    forall p: nat | p < s.parts ensures PartOK(s', p) { assert PartOK(s, p); }
    forall l: nat | l < s.n ensures IdOK(s', l) { assert IdOK(s, l); }
  }

  /** The i-th line left freelist ctx. */
  predicate FreeTaken(s: State, s': State, ctx: nat, i: nat)
    requires Sizes(s) && ctx < s.count && Entry(s.family, ctx, i)
  {
    && Sizes(s') && Taken(s.family, s'.family, ctx, i)
    && s' == s.(family := s'.family, partId := s'.partId,
                freeHead := s.freeHead[ctx := Head(s'.family.lists[ctx], s.n)],
                freeTail := s.freeTail[ctx := Tail(s'.family.lists[ctx], s.n)],
                freeSize := s.freeSize[ctx := |s'.family.lists[ctx]|], totalFree := s.totalFree - 1)
    && forall l :: 0 <= l < s.n && l != s.family.lists[ctx][i] ==> s'.partId[l] == s.partId[l]
  }

  lemma FreeTakenOK(s: State, s': State, ctx: nat, i: nat)
    requires AllocOK(s) && ctx < s.count && Entry(s.family, ctx, i) && FreeTaken(s, s', ctx, i)
    ensures AllocOK(s')
  {
    TakenOK(s.family, s'.family, ctx, i);
    assert FreeOK(s, ctx);
    SumUpdate(s.freeSize, ctx, |s'.family.lists[ctx]|);
    MemberOK(s.family, ctx, i);
    forall j: nat | j < s.count ensures FreeOK(s', j) { assert FreeOK(s, j); }
    forall p: nat | p < s.parts ensures PartOK(s', p) { assert PartOK(s, p); }
    forall l: nat | l < s.n ensures IdOK(s', l) { assert IdOK(s, l); }
  }

  // ----- partitions -----

  function PartAdded(s: State, p: nat, x: nat): State
    requires Sizes(s) && p < s.parts && x < s.n && |s.family.home| == |s.family.prev| == s.n
    requires var list := s.family.lists[s.count + p]; list != [] ==> list[0] < s.n
  {
    s.(family := Pushed(s.family, s.count + p, x), partId := s.partId[x := p],
       partHead := s.partHead[p := x], partSize := s.partSize[p := s.partSize[p] + 1])
  }

  lemma PartAddedOK(s: State, p: nat, x: nat)
    requires AllocOK(s) && p < s.parts && InHand(s.family, x)
    ensures PartOK(s, p)
    ensures var list := s.family.lists[s.count + p]; list != [] ==> list[0] < s.n
    ensures AllocOK(PartAdded(s, p, x))
  {
    PushedOK(s.family, s.count + p, x);
    var s' := PartAdded(s, p, x);
    assert PartOK(s, p);
    forall j: nat | j < s.count ensures FreeOK(s', j) { assert FreeOK(s, j); }
    forall q: nat | q < s.parts ensures PartOK(s', q) { assert PartOK(s, q); }
    forall l: nat | l < s.n ensures IdOK(s', l) { assert IdOK(s, l); }
  }

  predicate PartTaken(s: State, s': State, p: nat, i: nat)
    requires Sizes(s) && p < s.parts && Entry(s.family, s.count + p, i)
  {
    var j := s.count + p;
    && Sizes(s') && Taken(s.family, s'.family, j, i)
    && s' == s.(family := s'.family, partId := s'.partId, partHead := s.partHead[p := Head(s'.family.lists[j], s.n)],
                partSize := s.partSize[p := |s'.family.lists[j]|])
    && forall l :: 0 <= l < s.n && l != s.family.lists[j][i] ==> s'.partId[l] == s.partId[l]
  }

  lemma PartTakenOK(s: State, s': State, p: nat, i: nat)
    requires AllocOK(s) && p < s.parts && Entry(s.family, s.count + p, i) && PartTaken(s, s', p, i)
    ensures AllocOK(s')
  {
    TakenOK(s.family, s'.family, s.count + p, i);
    assert PartOK(s, p);
    MemberOK(s.family, s.count + p, i);
    forall j: nat | j < s.count ensures FreeOK(s', j) { assert FreeOK(s, j); }
    forall q: nat | q < s.parts ensures PartOK(s', q) { assert PartOK(s, q); }
    forall l: nat | l < s.n ensures IdOK(s', l) { assert IdOK(s, l); }
  }

  /** The count of free lines is zero exactly when every freelist is empty. */
  lemma NoneFree(s: State)
    requires AllocOK(s)
    ensures s.totalFree == 0 <==> forall j :: 0 <= j < s.count ==> s.family.lists[j] == []
  {
    SumZero(s.freeSize);
    forall j: nat | j < s.count ensures s.freeSize[j] == |s.family.lists[j]| { assert FreeOK(s, j); }
  }

  function Following(j: nat, count: nat): nat {
    if j + 1 == count then 0 else j + 1
  }

  /** How many steps a round that begins at start takes to freelist j. */
  function Distance(start: nat, j: nat, count: nat): int {
    if start <= j then j - start else j + count - start
  }

  /** The first freelist of the round with a line that needs no waiting; if there is none, the first one with a line. */
  predicate NearestList(lists: seq<seq<nat>>, count: nat, start: nat, busy: set<nat>, from: nat)
    requires count <= |lists| && from < count
  {
    && (forall j :: 0 <= j < count && Distance(start, j, count) < Distance(start, from, count) ==> lists[j] == [] || j in busy)
    && (from in busy ==> forall j :: 0 <= j < count ==> lists[j] == [] || j in busy)
    && (from in busy ==> forall j :: 0 <= j < count && Distance(start, j, count) < Distance(start, from, count) ==> lists[j] == [])
  }

  // ----- every line is counted once -----

  ghost function OnFirst(f: Family, j: nat): set<nat> {
    set l | 0 <= l < |f.home| && f.home[l] < j
  }

  function Lengths(lists: seq<seq<nat>>): seq<nat> {
    seq(|lists|, j requires 0 <= j < |lists| => |lists[j]|)
  }

  lemma {:induction false} DistinctCard(s: seq<nat>, m: set<nat>)
    requires Distinct(s) && forall l :: l in m <==> l in s
    ensures |m| == |s|
  {
    if s == [] {
      assert m == {};
    } else {
      var k := |s| - 1;
      assert Distinct(s[..k]);
      assert s == s[..k] + [s[k]];
      DistinctCard(s[..k], m - {s[k]});
    }
  }

  lemma AtHome(f: Family, j: nat, m: set<nat>)
    requires FamilyOK(f) && j < |f.lists| && m == set l | 0 <= l < |f.home| && f.home[l] == j
    ensures Distinct(f.lists[j]) && forall l :: l in m <==> l in f.lists[j]
  {
    assert ListOK(f, j);
  }

  lemma OneMoreList(f: Family, j: nat)
    requires FamilyOK(f) && j < |f.lists|
    ensures |OnFirst(f, j + 1)| == |OnFirst(f, j)| + |f.lists[j]|
  {
    var m := set l | 0 <= l < |f.home| && f.home[l] == j;
    AtHome(f, j, m);
    DistinctCard(f.lists[j], m);
    assert OnFirst(f, j + 1) == OnFirst(f, j) + m && OnFirst(f, j) !! m;
  }

  lemma {:induction false} LengthsCount(f: Family, j: nat)
    requires FamilyOK(f) && j <= |f.lists|
    ensures Sum(Lengths(f.lists[..j])) == |OnFirst(f, j)|
  {
    if j == 0 {
      assert OnFirst(f, 0) == {};
    } else {
      LengthsCount(f, j - 1);
      OneMoreList(f, j - 1);
      assert Lengths(f.lists[..j]) == Lengths(f.lists[..j - 1]) + [|f.lists[j - 1]|];
      SumAppend(Lengths(f.lists[..j - 1]), |f.lists[j - 1]|);
    }
  }

  /** The counters never lie: free lines are those at home on a freelist, and free and used lines add up. */
  lemma LinesAreConserved(s: State)
    requires AllocOK(s)
    ensures s.totalFree == |OnFirst(s.family, s.count)|
    ensures Conserved(s.family) ==> s.totalFree + Sum(s.partSize) == s.n
  {
    var f := s.family;
    LengthsCount(f, s.count);
    forall j: nat | j < s.count ensures s.freeSize[j] == |f.lists[j]| { assert FreeOK(s, j); }
    assert s.freeSize == Lengths(f.lists[..s.count]);
    if Conserved(f) {
      LengthsCount(f, |f.lists|);
      assert f.lists[..|f.lists|] == f.lists;
      forall p: nat | p < s.parts ensures s.partSize[p] == |f.lists[s.count + p]| { assert PartOK(s, p); }
      assert Lengths(f.lists) == s.freeSize + s.partSize;
      SumConcat(s.freeSize, s.partSize);
      AllLines(f);
    }
  }

  lemma AllLines(f: Family)
    requires Conserved(f)
    ensures |OnFirst(f, |f.lists|)| == |f.home|
  {
    assert OnFirst(f, |f.lists|) == Below(|f.home|);
    BelowCard(|f.home|);
  }

  // ----- filling -----

  /** Freelist k holds its share of the unused lines. */
  predicate ShareOK(s: State, v: Volume, num: nat, k: nat)
    requires Sizes(s) && VolumeOK(v) && k < s.count
  {
    && Offset(num, s.count, k) <= Offset(num, s.count, k + 1) <= |Unused(v, 0)|
    && s.family.lists[k] == Unused(v, 0)[Offset(num, s.count, k)..Offset(num, s.count, k + 1)]
  }

  /** Partitions and partition ids are right, whatever the freelists hold so far. */
  ghost predicate PartsOK(s: State)
    requires Sizes(s)
  {
    FamilyOK(s.family) && (forall p: nat :: p < s.parts ==> PartOK(s, p)) && (forall l: nat :: l < s.n ==> IdOK(s, l))
  }

  /** The first j freelists are filled with their shares, the others are empty. */
  ghost predicate Shared(s: State, v: Volume, num: nat, j: nat)
    requires Sizes(s) && VolumeOK(v)
  {
    && (forall k: nat :: k < j && k < s.count ==> FreeOK(s, k) && ShareOK(s, v, num, k))
    && (forall k: nat :: j <= k < s.count ==> s.family.lists[k] == [])
  }

  /** Exactly the unused lines from the off-th on are in hand. */
  ghost predicate RestInHand(s: State, v: Volume, off: nat)
    requires VolumeOK(v)
  {
    && off <= |Unused(v, 0)| && |s.family.home| == s.n
    && forall l: nat :: l < s.n ==> (InHand(s.family, l) <==> l in Unused(v, 0)[off..])
  }

  /** Filling has come to list j. */
  ghost predicate FillState(s: State, v: Volume, num: nat, j: nat) {
    && Sizes(s) && VolumeOK(v) && |v.logical| == s.n && j <= s.count && num == |Unused(v, 0)|
    && PartsOK(s) && Shared(s, v, num, j) && RestInHand(s, v, Offset(num, s.count, j))
    && Sum(s.freeSize[..j]) == Offset(num, s.count, j)
  }

  /** List j was filled with t. */
  ghost predicate FilledList(s: State, s': State, j: nat, t: seq<nat>)
    requires Sizes(s) && j < s.count
  {
    && Sizes(s') && s'.family == Filled(s.family, s'.family.next, s'.family.prev, j, t)
    && s' == s.(family := s'.family, partId := s'.partId, freeHead := s.freeHead[j := Head(t, s.n)],
                freeTail := s.freeTail[j := Tail(t, s.n)], freeSize := s.freeSize[j := |t|])
    && InfoOK(Info(s.family.next, s.family.prev, s.partId), s.n)
    && Filling(Info(s.family.next, s.family.prev, s.partId), Info(s'.family.next, s'.family.prev, s'.partId), t, |t|, s.noPart)
  }

  lemma FillParts(s: State, s': State, j: nat, t: seq<nat>)
    requires Sizes(s) && PartsOK(s) && j < s.count && FilledList(s, s', j, t) && Distinct(t) && s.family.lists[j] == []
    requires forall l :: l in t ==> InHand(s.family, l)
    ensures PartsOK(s')
  {
    FillingDone(Info(s.family.next, s.family.prev, s.partId), Info(s'.family.next, s'.family.prev, s'.partId), t, s.noPart);
    FilledOK(s.family, s'.family.next, s'.family.prev, j, t);
    forall p: nat | p < s.parts ensures PartOK(s', p) { assert PartOK(s, p); }
    forall l: nat | l < s.n ensures IdOK(s', l) { assert IdOK(s, l); }
  }

  lemma FillShared(s: State, s': State, v: Volume, num: nat, j: nat, t: seq<nat>)
    requires Sizes(s) && VolumeOK(v) && j < s.count && Shared(s, v, num, j) && FilledList(s, s', j, t)
    requires Offset(num, s.count, j) <= Offset(num, s.count, j + 1) <= |Unused(v, 0)|
    requires t == Unused(v, 0)[Offset(num, s.count, j)..Offset(num, s.count, j + 1)]
    ensures Shared(s', v, num, j + 1)
  {
    forall k: nat | k < j + 1 && k < s.count ensures FreeOK(s', k) && ShareOK(s', v, num, k) {
      if k < j { assert FreeOK(s, k) && ShareOK(s, v, num, k); }
    }
  }

  lemma FillRest(s: State, s': State, v: Volume, j: nat, lo: nat, hi: nat)
    requires Sizes(s) && VolumeOK(v) && |v.logical| == s.n && j < s.count && lo <= hi <= |Unused(v, 0)| && RestInHand(s, v, lo)
    requires FilledList(s, s', j, Unused(v, 0)[lo..hi])
    ensures RestInHand(s', v, hi)
  {
    var all := Unused(v, 0);
    UnusedLines(v, 0);
    forall l: nat | l < s.n ensures InHand(s'.family, l) <==> l in all[hi..] {
      assert InHand(s.family, l) <==> l in all[lo..];
      SplitMembers(all, lo, hi, l);
    }
  }

  lemma SplitMembers(all: seq<nat>, lo: nat, hi: nat, l: nat)
    requires Distinct(all) && lo <= hi <= |all|
    ensures l in all[lo..] <==> l in all[lo..hi] || l in all[hi..]
    ensures l in all[lo..hi] ==> l !in all[hi..]
  {
    assert all[lo..] == all[lo..hi] + all[hi..];
    if l in all[lo..hi] {
      var x := Place(all[lo..hi], l);
      forall y | 0 <= y < |all[hi..]| ensures all[hi..][y] != l { assert all[lo + x] != all[hi + y]; }
    }
  }

  /** The next share is in hand, and no line occurs in it twice. */
  lemma ShareInHand(s: State, v: Volume, lo: nat, hi: nat)
    requires VolumeOK(v) && |v.logical| == s.n && lo <= hi <= |Unused(v, 0)| && RestInHand(s, v, lo)
    ensures Distinct(Unused(v, 0)[lo..hi]) && forall l :: l in Unused(v, 0)[lo..hi] ==> InHand(s.family, l)
  {
    var all := Unused(v, 0);
    UnusedLines(v, 0);
    forall l | l in all[lo..hi] ensures InHand(s.family, l) {
      SplitMembers(all, lo, hi, l);
      assert l in all[lo..];
      var i := Place(all[lo..hi], l);
      assert all[lo + i] == l && l in all;
    }
  }

  lemma FillNext(s: State, s': State, v: Volume, num: nat, j: nat, t: seq<nat>)
    requires FillState(s, v, num, j) && j < s.count
    requires Offset(num, s.count, j) <= Offset(num, s.count, j + 1) <= num
    requires t == Unused(v, 0)[Offset(num, s.count, j)..Offset(num, s.count, j + 1)] && FilledList(s, s', j, t)
    ensures FillState(s', v, num, j + 1)
  {
    var lo, hi := Offset(num, s.count, j), Offset(num, s.count, j + 1);
    ShareInHand(s, v, lo, hi);
    FillParts(s, s', j, t);
    FillShared(s, s', v, num, j, t);
    FillRest(s, s', v, j, lo, hi);
    assert s'.freeSize[..j + 1] == s.freeSize[..j] + [|t|];
    SumAppend(s.freeSize[..j], |t|);
  }

  lemma FillEnd(s: State, s': State, v: Volume, num: nat)
    requires FillState(s, v, num, s.count) && s' == s.(totalFree := num) && Offset(num, s.count, s.count) == num
    ensures AllocOK(s') && Conserved(s'.family)
    ensures forall j: nat :: j < s'.count ==> ShareOK(s', v, num, j) && |s'.family.lists[j]| == Share(num, s'.count, j)
  {
    assert s.freeSize[..s.count] == s.freeSize;
    forall j: nat | j < s.count ensures FreeOK(s', j) && ShareOK(s', v, num, j) && |s'.family.lists[j]| == Share(num, s.count, j) {
      assert FreeOK(s, j) && ShareOK(s, v, num, j);
      OffsetNext(num, s.count, j);
    }
    forall p: nat | p < s.parts ensures PartOK(s', p) { assert PartOK(s, p); }
    forall l: nat | l < s.n ensures IdOK(s', l) { assert IdOK(s, l); }
    forall l: nat | l < s.n ensures s.family.home[l] < |s.family.lists| {
      assert InHand(s.family, l) <==> l in Unused(v, 0)[num..];
    }
  }

  lemma SliceHead(all: seq<nat>, k: nat, x: nat, rest: seq<nat>)
    requires k < |all| && all[k..] == [x] + rest
    ensures all[k] == x && rest == all[k + 1..]
  {
    assert all[k..] == [all[k]] + all[k + 1..];
  }

  /** Outcome of the attempt on one freelist. */
  datatype Got = Took(line: nat) | NoLock | ListEmpty

  lemma EmptyOK(s: State)
    requires Sizes(s) && |s.family.prev| == |s.family.home| == s.n && s.totalFree == 0
    requires (forall j :: 0 <= j < |s.family.lists| ==> s.family.lists[j] == []) && forall l :: 0 <= l < s.n ==> s.family.home[l] == |s.family.lists|
    requires forall j :: 0 <= j < s.count ==> s.freeHead[j] == s.freeTail[j] == s.n && s.freeSize[j] == 0
    requires forall p :: 0 <= p < s.parts ==> s.partHead[p] == s.n && s.partSize[p] == 0
    ensures AllocOK(s)
  {
    SumZero(s.freeSize);
  }

  /** On a volume without data, the empty lists are ready to be populated with all lines. */
  lemma EmptyFills(s: State, v: Volume)
    requires AllocOK(s) && VolumeOK(v) && |v.logical| == s.n && forall l :: 0 <= l < s.n ==> !v.used[l]
    requires (forall j :: 0 <= j < |s.family.lists| ==> s.family.lists[j] == []) && forall l :: 0 <= l < s.n ==> s.family.home[l] == |s.family.lists|
    ensures |Unused(v, 0)| == s.n && FillState(s, v, s.n, 0)
  {
    UnusedAll(v, 0);
    UnusedLines(v, 0);
    OffsetEnd(s.n, s.count, 0);
    assert Unused(v, 0)[0..] == v.logical;
    LogicalAll(v);
  }

  lemma {:induction false} UnusedAll(v: Volume, p: nat)
    requires VolumeOK(v) && p <= |v.logical| && forall l :: 0 <= l < |v.used| ==> !v.used[l]
    ensures Unused(v, p) == v.logical[p..]
    decreases |v.logical| - p
  {
    if p < |v.logical| { UnusedAll(v, p + 1); }
  }

  /** Positions on the volume and lines are matched one to one. */
  lemma LogicalAll(v: Volume)
    requires VolumeOK(v)
    ensures forall l: nat :: l < |v.logical| ==> l in v.logical
  {
    var lines := set l | l in v.logical;
    var n := |v.logical|;
    assert Distinct(v.logical);
    DistinctCard(v.logical, lines);
    assert lines <= Below(n);
    BelowCard(n);
    SubsetCard(lines, Below(n));
  }

  class Lines {
    const n: nat
    const count: nat
    const parts: nat
    const noPart: nat
    var next: seq<nat>
    var prev: seq<nat>
    var partId: seq<nat>
    var freeHead: seq<nat>
    var freeTail: seq<nat>
    var freeSize: seq<nat>
    var totalFree: int
    var partHead: seq<nat>
    var partSize: seq<nat>
    var victim: nat
    ghost var lists: seq<seq<nat>>
    ghost var home: seq<nat>

    ghost function Now(): State
      reads this
    {
      State(n, count, parts, noPart, Family(next, prev, lists, home), partId, freeHead, freeTail, freeSize, totalFree,
            partHead, partSize)
    }

    ghost predicate Valid()
      reads this
    {
      AllocOK(Now()) && victim < count
    }

    /** All lists are empty; lines are in nobody's list until the freelists get populated. */
    constructor (n: nat, count: nat, parts: nat, noPart: nat)
      requires count > 0 && parts <= noPart
      ensures this.n == n && this.count == count && this.parts == parts && this.noPart == noPart
      ensures Valid() && totalFree == 0 && lists == seq(count + parts, _ => []) && home == seq(n, _ => count + parts)
    {
      this.n, this.count, this.parts, this.noPart := n, count, parts, noPart;
      next, prev, partId := seq(n, _ => n), seq(n, _ => n), seq(n, _ => noPart);
      freeHead, freeTail, freeSize := seq(count, _ => n), seq(count, _ => n), seq(count, _ => 0);
      partHead, partSize := seq(parts, _ => n), seq(parts, _ => 0);
      totalFree, victim := 0, 0;
      lists, home := seq(count + parts, _ => []), seq(n, _ => count + parts);
      new;
      EmptyOK(Now());
    }

    /** Append the line to a freelist. */
    method FreelistAdd(ctx: nat, line: nat)
      requires Valid() && ctx < count && InHand(Now().family, line)
      modifies this
      ensures Valid() && victim == old(victim)
      ensures lists == old(lists)[ctx := old(lists)[ctx] + [line]] && home == old(home)[line := ctx]
    {
      FreeAddedOK(Now(), ctx, line);
      AppendLine(ctx, line);
    }

    method AppendLine(ctx: nat, line: nat)
      requires Sizes(Now()) && ctx < count && line < n && |home| == |prev| == n && FreeOK(Now(), ctx)
      requires lists[ctx] != [] ==> lists[ctx][|lists[ctx]| - 1] < n
      modifies this
      ensures Now() == FreeAdded(old(Now()), ctx, line) && victim == old(victim)
    {
      LinkLast(ctx, line);
      freeSize := freeSize[ctx := freeSize[ctx] + 1];
      totalFree := totalFree + 1;
      lists := lists[ctx := lists[ctx] + [line]];
      home := home[line := ctx];
    }

    method LinkLast(ctx: nat, line: nat)
      requires Sizes(Now()) && ctx < count && line < n && |home| == |prev| == n && FreeOK(Now(), ctx)
      requires lists[ctx] != [] ==> lists[ctx][|lists[ctx]| - 1] < n
      modifies this`next, this`prev, this`partId, this`freeHead, this`freeTail
      ensures next == AppendNext(old(next), lists[ctx], line) && prev == AppendPrev(old(prev), lists[ctx], line)
      ensures partId == old(partId)[line := noPart] && freeTail == old(freeTail)[ctx := line]
      ensures freeHead == if lists[ctx] == [] then old(freeHead)[ctx := line] else old(freeHead)
    {
      if freeSize[ctx] == 0 {
        freeHead := freeHead[ctx := line];
        freeTail := freeTail[ctx := line];
        next, prev, partId := next[line := n], prev[line := n], partId[line := noPart];
      } else {
        var tail := freeTail[ctx];
        assert tail < n;
        next, prev, partId := next[line := n], prev[line := tail], partId[line := noPart];
        next := next[tail := line];
        freeTail := freeTail[ctx := line];
      }
    }

    /** Unlink the line, the i-th of its freelist. */
    method FreelistRemove(ctx: nat, line: nat, ghost i: nat)
      requires Valid() && ctx < count && i < |lists[ctx]| && lists[ctx][i] == line < |home|
      modifies this
      ensures Valid() && lists == old(lists)[ctx := Without(old(lists)[ctx], i)] && home == old(home)[line := |lists|]
      ensures victim == old(victim)
    {
      ghost var s := Now();
      assert FreeOK(s, ctx);
      EntryOK(s.family, ctx, i);
      UnlinkLine(ctx, line, i);
      FreeTakenOK(s, Now(), ctx, i);
    }

    method UnlinkLine(ctx: nat, line: nat, ghost i: nat)
      requires Sizes(Now()) && ctx < count && FreeOK(Now(), ctx) && Entry(Now().family, ctx, i) && lists[ctx][i] == line
      modifies this
      ensures Entry(old(Now()).family, ctx, i) && FreeTaken(old(Now()), Now(), ctx, i) && victim == old(victim)
    {
      Unlink(ctx, line, i);
      freeSize := freeSize[ctx := freeSize[ctx] - 1];
      totalFree := totalFree - 1;
      lists := lists[ctx := Without(lists[ctx], i)];
      home := home[line := |lists|];
    }

    /** The four cases: the only line, the first of several, the last, one in the middle. */
    method Unlink(ctx: nat, line: nat, ghost i: nat)
      requires Sizes(Now()) && ctx < count && FreeOK(Now(), ctx) && Entry(Now().family, ctx, i) && lists[ctx][i] == line
      modifies this`next, this`prev, this`partId, this`freeHead, this`freeTail
      ensures Unlinked(old(next), old(prev), next, prev, lists[ctx], i)
      ensures |partId| == n && forall l :: 0 <= l < n && l != line ==> partId[l] == old(partId)[l]
      ensures freeHead == old(freeHead)[ctx := Head(Without(lists[ctx], i), n)]
      ensures freeTail == old(freeTail)[ctx := Tail(Without(lists[ctx], i), n)]
    {
      var nextLine, prevLine := next[line], prev[line];
      var isHead, isTail := prevLine == n, nextLine == n;
      if isHead && freeSize[ctx] == 1 {
        next, prev, partId := next[line := n], prev[line := n], partId[line := noPart];
        freeHead, freeTail := freeHead[ctx := n], freeTail[ctx := n];
      } else if isHead {
        assert nextLine < n;
        freeHead := freeHead[ctx := nextLine];
        prev := prev[nextLine := n];
        next := next[line := n];
      } else if isTail {
        assert prevLine < n;
        freeTail := freeTail[ctx := prevLine];
        prev := prev[line := n];
        next := next[prevLine := n];
      } else {
        assert nextLine < n && prevLine < n;
        prev := prev[nextLine := prevLine];
        next := next[prevLine := nextLine];
        next, prev, partId := next[line := n], prev[line := n], partId[line := noPart];
      }
    }

    // ----- partitions -----

    /** Put the line in front of a partition. */
    method AddToPartition(p: nat, line: nat)
      requires Valid() && p < parts && InHand(Now().family, line)
      modifies this
      ensures Valid() && lists == old(lists)[count + p := [line] + old(lists)[count + p]] && home == old(home)[line := count + p]
    {
      PartAddedOK(Now(), p, line);
      PushLine(p, line);
    }

    method PushLine(p: nat, line: nat)
      requires Sizes(Now()) && p < parts && line < n && |home| == |prev| == n && PartOK(Now(), p)
      requires lists[count + p] != [] ==> lists[count + p][0] < n
      modifies this
      ensures Now() == PartAdded(old(Now()), p, line) && victim == old(victim)
    {
      LinkFirst(p, line);
      partSize := partSize[p := partSize[p] + 1];
      lists := lists[count + p := [line] + lists[count + p]];
      home := home[line := count + p];
    }

    method LinkFirst(p: nat, line: nat)
      requires Sizes(Now()) && p < parts && line < n && |home| == |prev| == n && PartOK(Now(), p)
      requires lists[count + p] != [] ==> lists[count + p][0] < n
      modifies this`next, this`prev, this`partId, this`partHead
      ensures next == PushNext(old(next), lists[count + p], line) && prev == PushPrev(old(prev), lists[count + p], line)
      ensures partId == old(partId)[line := p] && partHead == old(partHead)[p := line]
    {
      if partSize[p] == 0 {
        partHead := partHead[p := line];
        next, prev, partId := next[line := n], prev[line := n], partId[line := p];
      } else {
        var lineHead := partHead[p];
        assert lineHead < n;
        next, prev, partId := next[line := lineHead], prev[line := n], partId[line := p];
        prev := prev[lineHead := line];
        partHead := partHead[p := line];
      }
    }

    /** Unlink the line, the i-th of its partition. */
    method RemoveFromPartition(p: nat, line: nat, ghost i: nat)
      requires Valid() && p < parts && i < |lists[count + p]| && lists[count + p][i] == line < |home|
      modifies this
      ensures Valid() && lists == old(lists)[count + p := Without(old(lists)[count + p], i)] && home == old(home)[line := |lists|]
    {
      ghost var s := Now();
      assert PartOK(s, p);
      EntryOK(s.family, count + p, i);
      PartUnlinkLine(p, line, i);
      PartTakenOK(s, Now(), p, i);
    }

    method PartUnlinkLine(p: nat, line: nat, ghost i: nat)
      requires Sizes(Now()) && p < parts && PartOK(Now(), p) && Entry(Now().family, count + p, i) && lists[count + p][i] == line
      modifies this
      ensures Entry(old(Now()).family, count + p, i) && PartTaken(old(Now()), Now(), p, i) && victim == old(victim)
    {
      PartUnlink(p, line, i);
      partSize := partSize[p := partSize[p] - 1];
      lists := lists[count + p := Without(lists[count + p], i)];
      home := home[line := |lists|];
    }

    /** The four cases: the only line, the first of several, the last, one in the middle. */
    method PartUnlink(p: nat, line: nat, ghost i: nat)
      requires Sizes(Now()) && p < parts && PartOK(Now(), p) && Entry(Now().family, count + p, i) && lists[count + p][i] == line
      modifies this`next, this`prev, this`partId, this`partHead
      ensures Unlinked(old(next), old(prev), next, prev, lists[count + p], i)
      ensures |partId| == n && forall l :: 0 <= l < n && l != line ==> partId[l] == old(partId)[l]
      ensures partHead == old(partHead)[p := Head(Without(lists[count + p], i), n)]
    {
      var nextLine, prevLine := next[line], prev[line];
      var isHead, isTail := prevLine == n, nextLine == n;
      if isHead && partSize[p] == 1 {
        next, prev, partId := next[line := n], prev[line := n], partId[line := p];
        partHead := partHead[p := n];
      } else if isHead {
        assert nextLine < n;
        partHead := partHead[p := nextLine];
        next := next[line := n];
        prev := prev[nextLine := n];
      } else if isTail {
        assert prevLine < n;
        prev := prev[line := n];
        next := next[prevLine := n];
      } else {
        assert nextLine < n && prevLine < n;
        next := next[prevLine := nextLine];
        prev := prev[nextLine := prevLine];
        next, prev, partId := next[line := n], prev[line := n], partId[line := p];
      }
    }

    // ----- taking and returning lines -----

    /** Freelist j gave its first line away. */
    twostate predicate GaveFirst(j: nat, line: nat)
      requires old(Sizes(Now())) && j < count
      reads this
    {
      && old(lists)[j] != [] && line == old(lists)[j][0] && line < |old(home)|
      && lists == old(lists)[j := old(lists)[j][1..]] && home == old(home)[line := |lists|]
    }

    /** Take the first line of one freelist unless it is empty or, for those who cannot wait, locked. */
    method GetCtx(ctx: nat, canWait: bool, busy: set<nat>) returns (got: Got)
      requires Valid() && ctx < count
      modifies this
      ensures Valid() && victim == old(victim)
      ensures got == if old(lists)[ctx] == [] then ListEmpty else if !canWait && ctx in busy then NoLock else Took(old(lists)[ctx][0])
      ensures if got.Took? then GaveFirst(ctx, got.line) else lists == old(lists) && home == old(home)
    {
      assert FreeOK(Now(), ctx);
      if freeSize[ctx] == 0 { return ListEmpty; }
      if !canWait && ctx in busy { return NoLock; }
      var line := freeHead[ctx];
      MemberOK(Now().family, ctx, 0);
      assert Without(lists[ctx], 0) == lists[ctx][1..];
      FreelistRemove(ctx, line, 0);
      got := Took(line);
    }

    method NextVictim() returns (ctx: nat)
      requires Valid()
      modifies this`victim
      ensures Valid() && ctx == old(victim) && victim == if ctx + 1 == count then 0 else ctx + 1
    {
      ctx := victim;
      victim := (ctx + 1) % count;
    }

    /** Try every freelist, first without waiting for locks, then, if a lock was in the way, with waiting. */
    method GetSlow(busy: set<nat>) returns (ok: bool, line: nat, ghost from: nat)
      requires Valid()
      modifies this
      ensures Valid() && (ok <==> exists j :: 0 <= j < count && old(lists)[j] != [])
      ensures if ok then from < count && GaveFirst(from, line) else lists == old(lists) && home == old(home)
      ensures ok ==> NearestList(old(lists), count, old(victim), busy, from)
    {
      var locked: bool;
      ok, line, from, locked := Sweep(false, busy);
      if !ok && locked {
        ok, line, from, locked := Sweep(true, busy);
      }
    }

    /** One round over all freelists, starting with the next victim. */
    method Sweep(canWait: bool, busy: set<nat>) returns (ok: bool, line: nat, ghost from: nat, locked: bool)
      requires Valid()
      modifies this
      ensures Valid()
      ensures ok ==> from < count && GaveFirst(from, line) && (canWait || from !in busy) && victim == Following(from, count)
      ensures ok ==> forall j :: 0 <= j < count && Distance(old(victim), j, count) < Distance(old(victim), from, count) ==>
        old(lists)[j] == [] || (!canWait && j in busy)
      ensures !ok ==> lists == old(lists) && home == old(home) && victim == old(victim)
      ensures !ok ==> forall j :: 0 <= j < count ==> old(lists)[j] == [] || (!canWait && j in busy)
      ensures !ok ==> (locked <==> exists j :: 0 <= j < count && lists[j] != [])
      ensures !ok && locked ==> !canWait
    {
      ok, line, from, locked := false, 0, 0, false;
      ghost var start := victim;
      ghost var stuck: nat := 0;
      for i := 0 to count
        invariant Valid() && lists == old(lists) && home == old(home)
        invariant victim == if start + i < count then start + i else start + i - count
        invariant forall j :: 0 <= j < count && Distance(start, j, count) < i && lists[j] != [] ==> locked && !canWait && j in busy
        invariant locked ==> !canWait && stuck < count && lists[stuck] != []
      {
        var ctx := NextVictim();
        var got := GetCtx(ctx, canWait, busy);
        match got {
          case Took(l) => return true, l, ctx, false;
          case NoLock => locked, stuck := true, ctx;
          case ListEmpty =>
        }
      }
      assert forall j :: 0 <= j < count ==> Distance(start, j, count) < count;
    }

    method GetCacheLine(ctx: nat, busy: set<nat>) returns (ok: bool, line: nat, ghost from: nat)
      requires Valid() && ctx < count
      modifies this
      ensures Valid() && (ok <==> exists j :: 0 <= j < count && old(lists)[j] != [])
      ensures if ok then from < count && GaveFirst(from, line) else lists == old(lists) && home == old(home)
      ensures old(lists)[ctx] != [] && ctx !in busy ==> from == ctx && victim == old(victim)
      ensures ok && (old(lists)[ctx] == [] || ctx in busy) ==> NearestList(old(lists), count, old(victim), busy, from)
    {
      NoneFree(Now());
      if totalFree == 0 { return false, 0, 0; }
      var got := GetCtx(ctx, false, busy);
      if got.Took? { return true, got.line, ctx; }
      ok, line, from := GetSlow(busy);
    }

    /** Mapping: a free line goes to the front of a partition. */
    method MapToPartition(p: nat, ctx: nat, busy: set<nat>) returns (ok: bool, line: nat)
      requires Valid() && Conserved(Now().family) && p < parts && ctx < count
      modifies this
      ensures Valid() && Conserved(Now().family)
      ensures ok <==> exists j :: 0 <= j < count && old(lists)[j] != []
      ensures if ok then line < |old(home)| && old(home)[line] < count && home == old(home)[line := count + p] else home == old(home)
      ensures ok ==> lists[count + p] == [line] + old(lists)[count + p]
    {
      ghost var from;
      ghost var s := Now();
      ok, line, from := GetCacheLine(ctx, busy);
      if ok {
        MemberOK(s.family, from, 0);
        AddToPartition(p, line);
      }
    }

    /** Invalidation: a line leaves its partition and goes behind the freelist of the running context. */
    method Sparse(line: nat, ctx: nat)
      requires Valid() && Conserved(Now().family) && ctx < count && line < n && count <= home[line]
      modifies this
      ensures Valid() && Conserved(Now().family) && home == old(home)[line := ctx]
      ensures lists[ctx] == old(lists)[ctx] + [line]
    {
      assert IdOK(Now(), line);
      var p := partId[line];
      ghost var i := Place(lists[count + p], line);
      RemoveFromPartition(p, line, i);
      FreelistAdd(ctx, line);
    }

    // ----- filling the freelists -----

    method NextPhysInvalid(v: Volume, phys: nat) returns (q: nat)
      requires VolumeOK(v) && |v.logical| == n && phys <= n
      ensures phys <= q <= n && Unused(v, q) == Unused(v, phys)
      ensures q < n ==> !v.used[v.logical[q]] && Unused(v, q) == [v.logical[q]] + Unused(v, q + 1)
    {
      q := phys;
      while q < n && v.used[v.logical[q]]
        invariant phys <= q <= n && Unused(v, q) == Unused(v, phys)
      {
        q := q + 1;
      }
    }

    /** The next unused line on the volume, which the caller knows to exist. */
    method NextUnused(v: Volume, phys0: nat) returns (line: nat, phys: nat)
      requires VolumeOK(v) && |v.logical| == n && phys0 <= n && Unused(v, phys0) != []
      ensures phys <= n && Unused(v, phys0) == [line] + Unused(v, phys) && line < n
    {
      phys := NextPhysInvalid(v, phys0);
      assert phys != n;
      line := v.logical[phys];
      phys := phys + 1;
    }

    ghost function PartitionInfo(): Info
      reads this
    {
      Info(next, prev, partId)
    }

    method LinkEntry(ghost before: Info, ghost t: seq<nat>, ghost k: nat, line: nat, following: nat, last: nat)
      requires InfoOK(before, n) && Distinct(t) && k < |t| && Filling(before, PartitionInfo(), t, k, noPart)
      requires line == t[k] < n && following == Succ(t, k, n) && last == Pred(t, k, n)
      modifies this`next, this`prev, this`partId
      ensures Filling(before, PartitionInfo(), t, k + 1, noPart)
    {
      FillingNext(before, PartitionInfo(), t, k, noPart);
      next, prev, partId := next[line := following], prev[line := last], partId[line := noPart];
    }

    /** Find the line after the k-th one and link the k-th one between its neighbours. */
    method LinkNext(ghost before: Info, v: Volume, ghost all: seq<nat>, ghost size: nat, ghost k: nat, line: nat, last: nat, phys0: nat)
      returns (following: nat, phys: nat)
      requires InfoOK(before, n) && Distinct(all) && k + 1 < size <= |all| && VolumeOK(v) && |v.logical| == n
      requires phys0 <= n && Unused(v, phys0) == all[k + 1..]
      requires line == all[..size][k] < n && last == Pred(all[..size], k, n) && Filling(before, PartitionInfo(), all[..size], k, noPart)
      modifies this`next, this`prev, this`partId
      ensures phys <= n && Unused(v, phys) == all[k + 2..] && following == all[..size][k + 1] < n
      ensures Filling(before, PartitionInfo(), all[..size], k + 1, noPart)
    {
      following, phys := NextUnused(v, phys0);
      SliceHead(all, k + 1, following, Unused(v, phys));
      LinkEntry(before, all[..size], k, line, following, last);
    }

    /** Link the next size unused lines and make them freelist j. */
    method FillList(v: Volume, j: nat, size: nat, phys0: nat) returns (phys: nat)
      requires InfoOK(PartitionInfo(), n) && j < |freeHead| == |freeTail|
      requires VolumeOK(v) && |v.logical| == n && phys0 <= n && 0 < size <= |Unused(v, phys0)|
      modifies this`next, this`prev, this`partId, this`freeHead, this`freeTail
      ensures phys <= n && Unused(v, phys) == Unused(v, phys0)[size..]
      ensures Filling(old(PartitionInfo()), PartitionInfo(), Unused(v, phys0)[..size], size, noPart)
      ensures freeHead == old(freeHead)[j := Unused(v, phys0)[0]] && freeTail == old(freeTail)[j := Unused(v, phys0)[size - 1]]
    {
      ghost var all := Unused(v, phys0);
      ghost var before := PartitionInfo();
      UnusedLines(v, phys0);
      var idx, last;
      idx, phys := NextUnused(v, phys0);
      freeHead := freeHead[j := idx];
      idx, last, phys := LinkRun(before, v, all, size, idx, phys);
      LinkEntry(before, all[..size], size - 1, idx, n, last);
      freeTail := freeTail[j := idx];
    }

    /** Link all lines of the run but the last one, which is returned with the one before it. */
    method LinkRun(ghost before: Info, v: Volume, ghost all: seq<nat>, size: nat, first: nat, phys0: nat)
      returns (idx: nat, last: nat, phys: nat)
      requires InfoOK(before, n) && Distinct(all) && 0 < size <= |all| && VolumeOK(v) && |v.logical| == n
      requires phys0 <= n && Unused(v, phys0) == all[1..] && first == all[0] < n && PartitionInfo() == before
      modifies this`next, this`prev, this`partId
      ensures phys <= n && Unused(v, phys) == all[size..] && idx == all[size - 1] < n && last == Pred(all[..size], size - 1, n)
      ensures Filling(before, PartitionInfo(), all[..size], size - 1, noPart)
    {
      idx, last, phys := first, n, phys0;
      var k := 0;
      while k + 1 < size
        invariant k < size && phys <= n && Unused(v, phys) == all[k + 1..] && idx == all[..size][k] < n && last == Pred(all[..size], k, n)
        invariant Filling(before, PartitionInfo(), all[..size], k, noPart)
      {
        var following;
        following, phys := LinkNext(before, v, all, size, k, idx, last, phys);
        last, idx := idx, following;
        k := k + 1;
      }
    }

    method PopulateList(v: Volume, num: nat, j: nat, phys0: nat) returns (phys: nat)
      requires FillState(Now(), v, num, j) && j < count && phys0 <= n && Unused(v, phys0) == Unused(v, 0)[Offset(num, count, j)..]
      modifies this`next, this`prev, this`partId, this`freeHead, this`freeTail, this`freeSize, this`lists, this`home
      ensures FillState(Now(), v, num, j + 1) && lists[count..] == old(lists)[count..]
      ensures phys <= n && Unused(v, phys) == Unused(v, 0)[Offset(num, count, j + 1)..]
    {
      ghost var s := Now();
      ghost var all := Unused(v, 0);
      OffsetEnd(num, count, j + 1);
      OffsetNext(num, count, j);
      IsQuotRem(num, count);
      var size := num / count;
      if j < num % count { size := size + 1; }
      assert size == Share(num, count, j);
      ghost var t := all[Offset(num, count, j)..Offset(num, count, j + 1)];
      phys := FillOrSkip(v, j, size, phys0, t);
      FillNext(s, Now(), v, num, j, t);
    }

    method FillOrSkip(v: Volume, j: nat, size: nat, phys0: nat, ghost t: seq<nat>) returns (phys: nat)
      requires Sizes(Now()) && |prev| == |home| == n && j < count && VolumeOK(v) && |v.logical| == n
      requires phys0 <= n && size <= |Unused(v, phys0)| && t == Unused(v, phys0)[..size]
      modifies this`next, this`prev, this`partId, this`freeHead, this`freeTail, this`freeSize, this`lists, this`home
      ensures FilledList(old(Now()), Now(), j, t)
      ensures phys <= n && Unused(v, phys) == Unused(v, phys0)[size..]
    {
      ghost var before := PartitionInfo();
      freeSize := freeSize[j := size];
      phys := phys0;
      if size == 0 {
        freeHead, freeTail := freeHead[j := n], freeTail[j := n];
      } else {
        phys := FillList(v, j, size, phys0);
      }
      home := Filled(Family(before.next, before.prev, lists, home), next, prev, j, t).home;
      lists := lists[j := t];
    }

    /**
     Distribute the unused lines: every freelist gets a run of consecutive unused lines, as even as
     possible.  The caller passes the exact number of unused lines.
     */
    method Populate(v: Volume, num: nat)
      requires FillState(Now(), v, num, 0) && victim < count
      modifies this
      ensures Valid() && Conserved(Now().family) && lists[count..] == old(lists)[count..]
      ensures forall j: nat :: j < count ==> ShareOK(Now(), v, num, j) && |lists[j]| == Share(num, count, j)
    {
      var phys: nat := 0;
      OffsetEnd(num, count, 0);
      assert Unused(v, 0)[0..] == Unused(v, 0);
      for j := 0 to count
        invariant FillState(Now(), v, num, j) && victim == old(victim) && lists[count..] == old(lists)[count..]
        invariant phys <= n && Unused(v, phys) == Unused(v, 0)[Offset(num, count, j)..]
      {
        phys := PopulateList(v, num, j, phys);
      }
      phys := NextPhysInvalid(v, phys);
      OffsetEnd(num, count, count);
      assert phys == n;
      ghost var s := Now();
      totalFree := num;
      FillEnd(s, Now(), v, num);
    }
  }
}
