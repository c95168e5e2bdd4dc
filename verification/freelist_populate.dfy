/** Filling the freelists with the unused lines, in the order in which they lie on the cache volume. */
module FreelistPopulate {
  import opened Division
  import opened IndexLists
  import opened LineLists

  /** The line positions on the volume and back; used tells which lines hold valid data. */
  datatype Volume = Volume(logical: seq<nat>, phys: seq<nat>, used: seq<bool>)

  predicate VolumeOK(v: Volume) {
    && |v.logical| == |v.phys| == |v.used|
    && forall p :: 0 <= p < |v.logical| ==> v.logical[p] < |v.phys| && v.phys[v.logical[p]] == p
  }

  /** The unused lines from position p on. */
  function Unused(v: Volume, p: nat): seq<nat>
    requires VolumeOK(v)
    decreases |v.logical| - p
  {
    if p >= |v.logical| then []
    else if v.used[v.logical[p]] then Unused(v, p + 1)
    else [v.logical[p]] + Unused(v, p + 1)
  }

  /** The unused lines are listed in the order of their positions on the volume, and none is left out. */
  lemma {:induction false} UnusedInOrder(v: Volume, p: nat)
    requires VolumeOK(v)
    ensures forall i :: 0 <= i < |Unused(v, p)| ==> Unused(v, p)[i] < |v.phys| && v.phys[Unused(v, p)[i]] >= p
    ensures forall i, j :: 0 <= i < j < |Unused(v, p)| ==> v.phys[Unused(v, p)[i]] < v.phys[Unused(v, p)[j]]
    ensures forall q :: p <= q < |v.logical| && !v.used[v.logical[q]] ==> v.logical[q] in Unused(v, p)
    decreases |v.logical| - p
  {
    if p < |v.logical| { UnusedInOrder(v, p + 1); }
  }

  lemma {:induction false} UnusedLines(v: Volume, p: nat)
    requires VolumeOK(v)
    ensures Distinct(Unused(v, p))
    ensures forall l :: l in Unused(v, p) ==> l < |v.used| && !v.used[l] && v.phys[l] >= p
    decreases |v.logical| - p
  {
    if p < |v.logical| {
      UnusedLines(v, p + 1);
      var rest := Unused(v, p + 1);
      if !v.used[v.logical[p]] {
        assert v.logical[p] !in rest;
        assert forall i :: 1 <= i < |Unused(v, p)| ==> Unused(v, p)[i] == rest[i - 1];
      }
    }
  }

  /** Share of the j-th freelist, and the lines the lists before it got. */
  function Share(num: nat, count: nat, j: nat): nat
    requires count > 0
  {
    Quot(num, count) + if j < Rem(num, count) then 1 else 0
  }

  /** The shares are as even as possible, larger ones first. */
  lemma SharesEven(num: nat, count: nat, j: nat, k: nat)
    requires count > 0 && j <= k
    ensures Share(num, count, k) <= Share(num, count, j) <= Share(num, count, k) + 1
  {
  }

  function Offset(num: nat, count: nat, j: nat): nat
    requires count > 0
  {
    Times(j, Quot(num, count)) + if j < Rem(num, count) then j else Rem(num, count)
  }

  lemma OffsetNext(num: nat, count: nat, j: nat)
    requires count > 0
    ensures Offset(num, count, j + 1) == Offset(num, count, j) + Share(num, count, j)
  {
  }

  lemma {:induction false} OffsetEnd(num: nat, count: nat, j: nat)
    requires count > 0 && j <= count
    ensures Offset(num, count, count) == num && Offset(num, count, j) <= num
    decreases count - j
  {
    if j == count {
      Split(num, count);
      IsProduct(count, Quot(num, count));
      IsProduct(Quot(num, count), count);
    } else {
      OffsetEnd(num, count, j + 1);
      OffsetNext(num, count, j);
    }
  }

  // ----- one list -----

  /** Tables outside the list t are as they were. */
  predicate Outside(a: seq<nat>, b: seq<nat>, t: seq<nat>) {
    |a| == |b| && forall l :: 0 <= l < |a| && l !in t ==> a[l] == b[l]
  }

  /** Partition info of all lines. */
  datatype Info = Info(next: seq<nat>, prev: seq<nat>, part: seq<nat>)

  predicate InfoOK(i: Info, n: nat) {
    |i.next| == |i.prev| == |i.part| == n
  }

  /** The first k lines of t are linked, with the partition id noPart; lines outside t are as they were. */
  ghost predicate Filling(before: Info, now: Info, t: seq<nat>, k: nat, noPart: nat)
    requires k <= |t|
  {
    && InfoOK(now, |before.next|) && Outside(before.next, now.next, t) && Outside(before.prev, now.prev, t) && Outside(before.part, now.part, t)
    && (forall i :: 0 <= i < k ==> Node(now.next, now.prev, t, i))
    && (forall i :: 0 <= i < k ==> t[i] < |now.part| && now.part[t[i]] == noPart)
  }

  /** Write the entry of the k-th line. */
  function Link(i: Info, t: seq<nat>, k: nat, noPart: nat): Info
    requires k < |t| && InfoOK(i, |i.next|) && t[k] < |i.next|
  {
    Info(i.next[t[k] := Succ(t, k, |i.next|)], i.prev[t[k] := Pred(t, k, |i.next|)], i.part[t[k] := noPart])
  }

  lemma FillingNext(before: Info, now: Info, t: seq<nat>, k: nat, noPart: nat)
    requires Distinct(t) && k < |t| && t[k] < |before.next| && Filling(before, now, t, k, noPart)
    ensures Filling(before, Link(now, t, k, noPart), t, k + 1, noPart)
  {
    var now' := Link(now, t, k, noPart);
    assert t[k] in t;
    forall i | 0 <= i < k + 1 ensures Node(now'.next, now'.prev, t, i) && t[i] < |now'.part| && now'.part[t[i]] == noPart {
      if i < k { assert Node(now.next, now.prev, t, i); }
    }
  }

  lemma FillingDone(before: Info, now: Info, t: seq<nat>, noPart: nat)
    requires Distinct(t) && Filling(before, now, t, |t|, noPart)
    ensures Linked(now.next, now.prev, t) && forall l :: l in t ==> l < |now.part| && now.part[l] == noPart
  {
  }

  /** The family after the empty list j was filled with t. */
  function Filled(f: Family, next: seq<nat>, prev: seq<nat>, j: nat, t: seq<nat>): Family
    requires j < |f.lists|
  {
    Family(next, prev, f.lists[j := t], seq(|f.home|, l requires 0 <= l < |f.home| => if l in t then j else f.home[l]))
  }

  lemma FilledOK(f: Family, next: seq<nat>, prev: seq<nat>, j: nat, t: seq<nat>)
    requires FamilyOK(f) && j < |f.lists| && f.lists[j] == [] && Linked(next, prev, t)
    requires Outside(f.next, next, t) && Outside(f.prev, prev, t)
    requires forall l :: l in t ==> l < |f.home| && f.home[l] == |f.lists|
    ensures FamilyOK(Filled(f, next, prev, j, t))
  {
    var f' := Filled(f, next, prev, j, t);
    forall k: nat | k < |f'.lists| ensures ListOK(f', k) {
      assert ListOK(f, k);
      if k != j { LinkedFrame(f.next, f.prev, next, prev, f.lists[k]); }
    }
  }
}
