/**
 Doubly linked lists threaded through tables: next[l] and prev[l] are line numbers, and the number
 of lines itself stands for "none".
 */
module IndexLists {

  predicate Distinct(s: seq<nat>) {
    forall i, j :: 0 <= i < j < |s| ==> s[i] != s[j]
  }

  /** The neighbours of the i-th line of the list, or none. */
  function Succ(s: seq<nat>, i: nat, none: nat): nat {
    if i + 1 < |s| then s[i + 1] else none
  }

  function Pred(s: seq<nat>, i: nat, none: nat): nat {
    if 0 < i <= |s| then s[i - 1] else none
  }

  predicate Node(next: seq<nat>, prev: seq<nat>, s: seq<nat>, i: nat)
    requires i < |s|
  {
    s[i] < |next| == |prev| && next[s[i]] == Succ(s, i, |next|) && prev[s[i]] == Pred(s, i, |next|)
  }

  /** The tables hold the list s, first line first. */
  ghost predicate Linked(next: seq<nat>, prev: seq<nat>, s: seq<nat>) {
    |prev| == |next| && Distinct(s) && forall i :: 0 <= i < |s| ==> Node(next, prev, s, i)
  }

  /** The line a list head or tail names. */
  function Head(s: seq<nat>, none: nat): nat {
    if s == [] then none else s[0]
  }

  function Tail(s: seq<nat>, none: nat): nat {
    if s == [] then none else s[|s| - 1]
  }

  function Without(s: seq<nat>, k: nat): seq<nat>
    requires k < |s|
  {
    s[..k] + s[k + 1..]
  }

  /** Tables that agree on the lines of a list hold it both. */
  lemma LinkedFrame(next: seq<nat>, prev: seq<nat>, next': seq<nat>, prev': seq<nat>, s: seq<nat>)
    requires Linked(next, prev, s) && |next'| == |prev'| == |next|
    requires forall l :: l in s && l < |next| ==> next'[l] == next[l] && prev'[l] == prev[l]
    ensures Linked(next', prev', s)
  {
    forall i: nat | i < |s| ensures Node(next', prev', s, i) {
      assert Node(next, prev, s, i) && s[i] in s;
    }
  }

  /** The tables after line x went in front of the list s. */
  function PushNext(next: seq<nat>, s: seq<nat>, x: nat): seq<nat>
    requires x < |next|
  {
    next[x := Head(s, |next|)]
  }

  function PushPrev(prev: seq<nat>, s: seq<nat>, x: nat): seq<nat>
    requires x < |prev| && (s != [] ==> s[0] < |prev|)
  {
    var prev1 := prev[x := |prev|];
    if s == [] then prev1 else prev1[s[0] := x]
  }

  lemma PushOK(next: seq<nat>, prev: seq<nat>, s: seq<nat>, x: nat)
    requires Linked(next, prev, s) && x < |next| && x !in s
    ensures s != [] ==> s[0] < |prev|
    ensures Linked(PushNext(next, s, x), PushPrev(prev, s, x), [x] + s)
  {
    var t := [x] + s;
    if s != [] { assert Node(next, prev, s, 0) && s[0] in s; }
    var next', prev' := PushNext(next, s, x), PushPrev(prev, s, x);
    forall i: nat | i < |t| ensures Node(next', prev', t, i) {
      if i > 0 { assert t[i] == s[i - 1] && Node(next, prev, s, i - 1) && s[i - 1] in s; }
    }
  }

  /** The tables after line x went behind the list s. */
  function AppendNext(next: seq<nat>, s: seq<nat>, x: nat): seq<nat>
    requires x < |next| && (s != [] ==> s[|s| - 1] < |next|)
  {
    var next1 := next[x := |next|];
    if s == [] then next1 else next1[s[|s| - 1] := x]
  }

  function AppendPrev(prev: seq<nat>, s: seq<nat>, x: nat): seq<nat>
    requires x < |prev|
  {
    prev[x := Tail(s, |prev|)]
  }

  lemma AppendOK(next: seq<nat>, prev: seq<nat>, s: seq<nat>, x: nat)
    requires Linked(next, prev, s) && x < |next| && x !in s
    ensures s != [] ==> s[|s| - 1] < |next|
    ensures Linked(AppendNext(next, s, x), AppendPrev(prev, s, x), s + [x])
  {
    var t := s + [x];
    if s != [] { assert Node(next, prev, s, |s| - 1) && s[|s| - 1] in s; }
    var next', prev' := AppendNext(next, s, x), AppendPrev(prev, s, x);
    forall i: nat | i < |t| ensures Node(next', prev', t, i) {
      if i < |s| { assert t[i] == s[i] && Node(next, prev, s, i) && s[i] in s; }
    }
  }

  /** The tables after the k-th line left the list s; its own entries may say anything. */
  predicate Unlinked(next: seq<nat>, prev: seq<nat>, next': seq<nat>, prev': seq<nat>, s: seq<nat>, k: nat)
    requires k < |s| && s[k] < |next| == |prev|
  {
    && |next'| == |next| && |prev'| == |prev|
    && (forall l: nat :: l < |next| && l != s[k] ==> next'[l] == if k > 0 && l == s[k - 1] then next[s[k]] else next[l])
    && (forall l: nat :: l < |next| && l != s[k] ==> prev'[l] == if k + 1 < |s| && l == s[k + 1] then prev[s[k]] else prev[l])
  }

  lemma UnlinkOK(next: seq<nat>, prev: seq<nat>, next': seq<nat>, prev': seq<nat>, s: seq<nat>, k: nat)
    requires Linked(next, prev, s) && k < |s| && s[k] < |next| && Unlinked(next, prev, next', prev', s, k)
    ensures Linked(next', prev', Without(s, k))
  {
    var t := Without(s, k);
    assert Node(next, prev, s, k);
    forall i: nat | i < |t| ensures Node(next', prev', t, i) {
      UnlinkNode(next, prev, next', prev', s, k, i);
    }
  }

  lemma UnlinkNode(next: seq<nat>, prev: seq<nat>, next': seq<nat>, prev': seq<nat>, s: seq<nat>, k: nat, i: nat)
    requires Linked(next, prev, s) && k < |s| && s[k] < |next| && Unlinked(next, prev, next', prev', s, k)
    requires i < |s| - 1
    ensures Node(next', prev', Without(s, k), i)
  {
    var j := if i < k then i else i + 1;
    assert Without(s, k)[i] == s[j];
    assert Node(next, prev, s, j) && Node(next, prev, s, k);
  }

  /** Where a line of a list is. */
  lemma Place(s: seq<nat>, x: nat) returns (k: nat)
    requires x in s
    ensures k < |s| && s[k] == x
  {
    k :| 0 <= k < |s| && s[k] == x;
  }

  lemma WithoutMembers(s: seq<nat>, k: nat, x: nat)
    requires k < |s| && Distinct(s)
    ensures x in Without(s, k) <==> x in s && x != s[k]
  {
    var t := Without(s, k);
    assert forall i :: 0 <= i < |t| ==> t[i] == if i < k then s[i] else s[i + 1];
    if x in s && x != s[k] {
      var i :| 0 <= i < |s| && s[i] == x;
      assert t[if i < k then i else i - 1] == x;
    }
  }

  /** The list after line x left it. */
  function Omit(s: seq<nat>, x: nat): seq<nat> {
    if s == [] then [] else (if s[0] == x then [] else [s[0]]) + Omit(s[1..], x)
  }

  lemma {:induction false} OmitNone(s: seq<nat>, x: nat)
    requires x !in s
    ensures Omit(s, x) == s
  {
    if s != [] { OmitNone(s[1..], x); }
  }

  lemma {:induction false} OmitIs(s: seq<nat>, k: nat)
    requires Distinct(s) && k < |s|
    ensures Omit(s, s[k]) == Without(s, k)
  {
    if k == 0 {
      OmitNone(s[1..], s[0]);
      assert Without(s, 0) == s[1..];
    } else {
      assert Distinct(s[1..]);
      OmitIs(s[1..], k - 1);
      assert Without(s, k) == [s[0]] + Without(s[1..], k - 1);
    }
  }

  lemma {:induction false} OmitMembers(s: seq<nat>, x: nat, y: nat)
    ensures y in Omit(s, x) <==> y in s && y != x
  {
    if s != [] {
      OmitMembers(s[1..], x, y);
      assert y in s <==> y == s[0] || y in s[1..];
    }
  }

  lemma {:induction false} OmitDistinct(s: seq<nat>, x: nat)
    requires Distinct(s)
    ensures Distinct(Omit(s, x))
  {
    if s != [] {
      assert Distinct(s[1..]);
      OmitDistinct(s[1..], x);
      OmitMembers(s[1..], x, s[0]);
    }
  }

  lemma DistinctPush(s: seq<nat>, x: nat)
    requires Distinct(s) && x !in s
    ensures Distinct([x] + s)
  {
  }
}
