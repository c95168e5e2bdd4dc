/** The clean and dirty LRU lists of a partition, and the eviction of least recently used clean lines. */
module Lru {
  import opened IndexLists
  import opened LineLists

  /** The clean list comes first. */
  function Which(dirty: bool): nat {
    if dirty then 1 else 0
  }

  datatype State = State(
    family: Family,        // two lists over the next and prev entries of all lines
    head: seq<nat>,
    tail: seq<nat>,
    has: seq<bool>,        // the list has nodes
    dirty: seq<bool>)      // which lines are dirty

  predicate ListsOK(s: State, d: nat)
    requires |s.family.lists| == |s.head| == |s.tail| == |s.has| == 2 && d < 2
  {
    var list := s.family.lists[d];
    var none := |s.family.next|;
    s.head[d] == Head(list, none) && s.tail[d] == Tail(list, none) && (s.has[d] <==> list != [])
  }

  predicate LineOK(s: State, l: nat)
    requires |s.family.home| == |s.family.next| == |s.family.prev| == |s.dirty| && l < |s.dirty|
  {
    && (s.family.home[l] < 2 ==> s.family.home[l] == Which(s.dirty[l]))
    && (s.family.home[l] == 2 ==> s.family.next[l] == |s.dirty| && s.family.prev[l] == |s.dirty|)
  }

  predicate Sizes(s: State) {
    && |s.family.lists| == |s.head| == |s.tail| == |s.has| == 2
    && |s.family.home| == |s.family.next| == |s.family.prev| == |s.dirty|
  }

  /** Both lists are well formed and disjoint, and every line is on the list of its state or on none. */
  ghost predicate LruOK(s: State) {
    && Sizes(s) && FamilyOK(s.family) && ListsOK(s, 0) && ListsOK(s, 1)
    && forall l: nat :: l < |s.dirty| ==> LineOK(s, l)
  }

  // ----- adding -----

  function Added(s: State, d: nat, x: nat): State
    requires Sizes(s) && d < 2 && x < |s.dirty| && (s.family.lists[d] != [] ==> s.family.lists[d][0] < |s.dirty|)
  {
    s.(family := Pushed(s.family, d, x), head := s.head[d := x],
       tail := if s.family.lists[d] == [] then s.tail[d := x] else s.tail, has := s.has[d := true])
  }

  lemma AddedOK(s: State, d: nat, x: nat)
    requires LruOK(s) && d < 2 && x < |s.dirty| && s.family.home[x] == 2 && d == Which(s.dirty[x])
    ensures s.family.lists[d] != [] ==> s.family.lists[d][0] < |s.dirty|
    ensures LruOK(Added(s, d, x))
  {
    PushedOK(s.family, d, x);
    var s' := Added(s, d, x);
    if s.family.lists[d] != [] { MemberOK(s.family, d, 0); }
    forall l: nat | l < |s.dirty| ensures LineOK(s', l) { assert LineOK(s, l); }
  }

  // ----- removing -----

  predicate Removed(s: State, s': State, d: nat, i: nat)
    requires Sizes(s) && d < 2 && Entry(s.family, d, i)
  {
    && Sizes(s') && Taken(s.family, s'.family, d, i)
    && s'.family.next[s.family.lists[d][i]] == |s.dirty| && s'.family.prev[s.family.lists[d][i]] == |s.dirty|
    && s' == s.(family := s'.family, head := s.head[d := Head(s'.family.lists[d], |s.dirty|)],
                tail := s.tail[d := Tail(s'.family.lists[d], |s.dirty|)], has := s.has[d := s'.family.lists[d] != []])
  }

  lemma RemovedOK(s: State, s': State, d: nat, i: nat)
    requires LruOK(s) && d < 2 && Entry(s.family, d, i) && Removed(s, s', d, i)
    ensures LruOK(s') && s'.family.lists[d] == Omit(s.family.lists[d], s.family.lists[d][i])
  {
    TakenOK(s.family, s'.family, d, i);
    MemberOK(s.family, d, i);
    assert ListOK(s.family, d);
    OmitIs(s.family.lists[d], i);
    forall l: nat | l < |s.dirty| ensures LineOK(s', l) { RemovedLine(s, s', d, i, l); }
  }

  /** Entries of lines that are on no list stay as they are. */
  lemma RemovedLine(s: State, s': State, d: nat, i: nat, l: nat)
    requires LruOK(s) && d < 2 && Entry(s.family, d, i) && Removed(s, s', d, i) && l < |s.dirty|
    ensures LineOK(s', l)
  {
    assert LineOK(s, l);
    var list := s.family.lists[d];
    if i > 0 { MemberOK(s.family, d, i - 1); }
    if i + 1 < |list| { MemberOK(s.family, d, i + 1); }
  }

  class LruLists {
    const n: nat                 // number of lines; also stands for "none"
    var next: seq<nat>
    var prev: seq<nat>
    var head: seq<nat>
    var tail: seq<nat>
    var has: seq<bool>
    var dirty: seq<bool>
    ghost var lists: seq<seq<nat>>
    ghost var home: seq<nat>

    ghost function Now(): State
      reads this
    {
      State(Family(next, prev, lists, home), head, tail, has, dirty)
    }

    ghost predicate Valid()
      reads this
    {
      LruOK(Now()) && |dirty| == n
    }

    constructor (n: nat)
      ensures Valid() && this.n == n && lists == [[], []]
    {
      this.n := n;
      next, prev := seq(n, l => n), seq(n, l => n);
      head, tail, has := [n, n], [n, n], [false, false];
      dirty := seq(n, l => false);
      lists, home := [[], []], seq(n, l => 2);
    }

    /** Put the line in front of the list of its state. */
    method AddHead(line: nat)
      requires Valid() && line < n && home[line] == 2
      modifies this
      ensures Valid() && dirty == old(dirty)
      ensures var d := Which(dirty[line]); lists == old(lists)[d := [line] + old(lists)[d]] && home == old(home)[line := d]
    {
      var d := Which(dirty[line]);
      AddedOK(Now(), d, line);
      LinkHead(d, line);
      lists := lists[d := [line] + lists[d]];
      home := home[line := d];
    }

    method LinkHead(d: nat, line: nat)
      requires Sizes(Now()) && |dirty| == n && line < n && d < 2 && ListsOK(Now(), d)
      requires lists[d] != [] ==> lists[d][0] < n
      modifies this`next, this`prev, this`head, this`tail, this`has
      ensures next == PushNext(old(next), lists[d], line) && prev == PushPrev(old(prev), lists[d], line)
      ensures head == old(head)[d := line] && has == old(has)[d := true]
      ensures tail == if lists[d] == [] then old(tail)[d := line] else old(tail)
    {
      if !has[d] {
        head, tail := head[d := line], tail[d := line];
        next, prev := next[line := n], prev[line := n];
        has := has[d := true];
      } else {
        var curr := head[d];
        assert curr < n;
        next, prev := next[line := curr], prev[line := n];
        prev := prev[curr := line];
        head := head[d := line];
      }
    }

    /** Unlink the line, the i-th of list d. */
    method RemoveLru(d: nat, line: nat, ghost i: nat)
      requires Valid() && d < 2 && i < |lists[d]| && lists[d][i] == line < |home|
      modifies this
      ensures Valid() && dirty == old(dirty)
      ensures lists == old(lists)[d := Omit(old(lists)[d], line)] && home == old(home)[line := 2]
    {
      ghost var s := Now();
      EntryOK(s.family, d, i);
      OtherEnds(s, d, i);
      Unlink(d, line, i);
      lists := lists[d := Without(lists[d], i)];
      home := home[line := 2];
      RemovedOK(s, Now(), d, i);
    }

    /** Head and tail of both lists decide between the four cases. */
    method Unlink(d: nat, line: nat, ghost i: nat)
      requires Sizes(Now()) && |dirty| == n && d < 2 && ListsOK(Now(), d) && Entry(Now().family, d, i) && lists[d][i] == line
      requires head[1 - d] != line && tail[1 - d] != line && (i > 0 ==> lists[d][0] != line) && (i + 1 < |lists[d]| ==> lists[d][|lists[d]| - 1] != line)
      modifies this`next, this`prev, this`head, this`tail, this`has
      ensures Unlinked(old(next), old(prev), next, prev, lists[d], i) && next[line] == n && prev[line] == n
      ensures var rest := Without(lists[d], i);
        head == old(head)[d := Head(rest, n)] && tail == old(tail)[d := Tail(rest, n)] && has == old(has)[d := rest != []]
    {
      var isHead := head[0] == line || head[1] == line;
      var isTail := tail[0] == line || tail[1] == line;
      assert (isHead <==> i == 0) && (isTail <==> i + 1 == |lists[d]|);
      var nextNode, prevNode := next[line], prev[line];
      if isHead && isTail {
        next, prev := next[line := n], prev[line := n];
        head, tail, has := head[d := n], tail[d := n], has[d := false];
      } else if isHead {
        assert nextNode < n;
        head := head[d := nextNode];
        next := next[line := n];
        prev := prev[nextNode := n];
      } else if isTail {
        assert prevNode < n;
        tail := tail[d := prevNode];
        prev := prev[line := n];
        next := next[prevNode := n];
      } else {
        assert nextNode < n && prevNode < n;
        next := next[prevNode := nextNode];
        prev := prev[nextNode := prevNode];
        next, prev := next[line := n], prev[line := n];
      }
    }

    /** A list of one has its only line at both ends; otherwise a line on a list has a neighbour. */
    method Hot(line: nat)
      requires Valid() && line < n
      modifies this
      ensures Valid() && dirty == old(dirty)
      ensures var d := Which(dirty[line]); lists == old(lists)[d := [line] + Omit(old(lists)[d], line)] && home == old(home)[line := d]
    {
      var d := Which(dirty[line]);
      OnListTest(Now(), line);
      assert LineOK(Now(), line);
      var listed := next[line] != n || prev[line] != n || (head[0] == line && tail[0] == line) || (head[1] == line && tail[1] == line);
      if listed {
        ghost var i := Place(lists[d], line);
        RemoveLru(d, line, i);
      } else {
        NotListed(Now(), line);
        OmitNone(lists[d], line);
      }
      AddHead(line);
    }

    /** A clean line turned dirty. */
    method DirtyCline(line: nat)
      requires Valid() && line < n && home[line] == 0
      modifies this
      ensures Valid() && dirty == old(dirty)[line := true] && home == old(home)[line := 1]
      ensures lists == [Omit(old(lists)[0], line), [line] + old(lists)[1]]
    {
      ghost var i := Place(lists[0], line);
      RemoveLru(0, line, i);
      SetState(line, true);
      AddHead(line);
    }

    /** A dirty line turned clean. */
    method CleanCline(line: nat)
      requires Valid() && line < n && home[line] == 1
      modifies this
      ensures Valid() && dirty == old(dirty)[line := false] && home == old(home)[line := 0]
      ensures lists == [[line] + old(lists)[0], Omit(old(lists)[1], line)]
    {
      ghost var i := Place(lists[1], line);
      RemoveLru(1, line, i);
      SetState(line, false);
      AddHead(line);
    }

    method SetState(line: nat, d: bool)
      requires Valid() && line < n && home[line] == 2
      modifies this`dirty
      ensures Valid() && dirty == old(dirty)[line := d]
    {
      ghost var s := Now();
      dirty := dirty[line := d];
      forall l: nat | l < n ensures LineOK(Now(), l) { assert LineOK(s, l); }
    }

    /**
     Evict up to count lines: the least recently used clean ones that are not locked, oldest first.
     */
    method ReqClines(count: nat, locked: set<nat>) returns (evicted: seq<nat>)
      requires Valid()
      modifies this
      ensures Valid() && dirty == old(dirty) && lists[1] == old(lists)[1]
      ensures var all := Victims(old(lists)[0], 0, locked);
        evicted == if |all| <= count then all else all[..count]
      ensures OldestFirst(old(lists)[0], locked, count, evicted)
      ensures forall x :: x in lists[0] <==> x in old(lists)[0] && x !in evicted
      ensures forall x :: x in evicted ==> x !in locked && x < n && !dirty[x]
    {
      ghost var list := lists[0];
      ghost var k: nat := |list|;
      InRange(Now());
      evicted := [];
      if count == 0 {
        VictimsGrow(list, 0, |list|, locked);
        VictimsOldest(list, |list|, locked, 0);
        return;
      }
      assert list[..k] == list;
      var curr := tail[0];
      while |evicted| < count && curr != n
        invariant Valid() && dirty == old(dirty) && |lists| == 2 && lists[1] == old(lists)[1] && k <= |list|
        invariant |evicted| <= count && evicted == Victims(list, k, locked) && lists[0] == list[..k] + Kept(list, k, locked)
        invariant curr == if k > 0 then list[k - 1] else n
        decreases k
      {
        curr, evicted := EvictNext(list, k, locked, curr, evicted);
        k := k - 1;
      }
      EvictEnd(old(Now()), list, k, locked, count);
      VictimsOldest(list, k, locked, count);
    }

    method EvictNext(ghost list: seq<nat>, ghost k: nat, locked: set<nat>, curr: nat, evicted: seq<nat>)
        returns (before: nat, evicted': seq<nat>)
      requires Valid() && 0 < k <= |list| && lists[0] == list[..k] + Kept(list, k, locked) && curr == list[k - 1]
      requires evicted == Victims(list, k, locked)
      modifies this
      ensures Valid() && dirty == old(dirty) && |lists| == 2 && lists[1] == old(lists)[1]
      ensures evicted' == Victims(list, k - 1, locked) && lists[0] == list[..k - 1] + Kept(list, k - 1, locked)
      ensures |evicted'| <= |evicted| + 1
      ensures before == if k > 1 then list[k - 2] else n
    {
      EvictSeq(list, k, locked);
      EntryOK(Now().family, 0, k - 1);
      before := prev[curr];
      evicted' := evicted;
      if curr !in locked {
        ListedClean(Now(), k - 1);
        RemoveLru(0, curr, k - 1);
        evicted' := evicted + [curr];
      }
    }
  }

  /** One more line considered, as the clean list sees it. */
  lemma EvictSeq(list: seq<nat>, k: nat, locked: set<nat>)
    requires 0 < k <= |list|
    ensures var now := list[..k] + Kept(list, k, locked); var rest := list[..k - 1] + Kept(list, k - 1, locked);
      && now[k - 1] == list[k - 1] && (k > 1 ==> now[k - 2] == list[k - 2])
      && (if list[k - 1] in locked then now == rest else Without(now, k - 1) == rest)
  {
    var a, x, r := list[..k - 1], list[k - 1], Kept(list, k, locked);
    var now := list[..k] + r;
    assert list[..k] == a + [x];
    if x in locked {
      assert Kept(list, k - 1, locked) == [x] + r;
      assert now == a + ([x] + r);
    } else {
      assert Kept(list, k - 1, locked) == [] + r == r;
      assert now[..k - 1] == a && now[k..] == r;
    }
  }

  lemma ListedClean(s: State, i: nat)
    requires LruOK(s) && i < |s.family.lists[0]|
    ensures var x := s.family.lists[0][i]; x < |s.dirty| && !s.dirty[x]
    ensures Omit(s.family.lists[0], s.family.lists[0][i]) == Without(s.family.lists[0], i)
  {
    MemberOK(s.family, 0, i);
    assert LineOK(s, s.family.lists[0][i]);
    assert ListOK(s.family, 0);
    OmitIs(s.family.lists[0], i);
  }

  lemma InRange(s: State)
    requires LruOK(s)
    ensures forall i :: 0 <= i < |s.family.lists[0]| ==> s.family.lists[0][i] < |s.dirty|
  {
    forall i: nat | i < |s.family.lists[0]| ensures s.family.lists[0][i] < |s.dirty| { MemberOK(s.family, 0, i); }
  }

  /** Lines of the list from index k on that may be evicted, least recently used first. */
  function Victims(list: seq<nat>, k: nat, locked: set<nat>): seq<nat>
    requires k <= |list|
    decreases |list| - k
  {
    if k == |list| then [] else Victims(list, k + 1, locked) + if list[k] in locked then [] else [list[k]]
  }

  /** Those that stay, in the order of the list. */
  function Kept(list: seq<nat>, k: nat, locked: set<nat>): seq<nat>
    requires k <= |list|
    decreases |list| - k
  {
    if k == |list| then [] else (if list[k] in locked then [list[k]] else []) + Kept(list, k + 1, locked)
  }

  lemma {:induction false} VictimsGrow(list: seq<nat>, j: nat, k: nat, locked: set<nat>)
    requires j <= k <= |list|
    ensures |Victims(list, k, locked)| <= |Victims(list, j, locked)|
    ensures Victims(list, j, locked)[..|Victims(list, k, locked)|] == Victims(list, k, locked)
    decreases k - j
  {
    if j < k { VictimsGrow(list, j + 1, k, locked); }
  }

  /** From the end of the list forwards, every line that is not locked, until the count is reached or the list ends. */
  ghost predicate OldestFirst(list: seq<nat>, locked: set<nat>, count: nat, evicted: seq<nat>) {
    exists k :: 0 <= k <= |list| && Picks(list, k, locked, evicted) && |evicted| <= count && (|evicted| == count || k == 0)
  }

  /** The picked lines are those from index k on that are not locked, the last ones first. */
  ghost predicate Picks(list: seq<nat>, k: nat, locked: set<nat>, evicted: seq<nat>)
    requires k <= |list|
  {
    && (forall x :: x in evicted <==> x in list[k..] && x !in locked)
    && exists places: seq<nat> :: Places(list, k, evicted, places)
  }

  /** Where the picked lines stand in the list: each one before the one picked before it. */
  predicate Places(list: seq<nat>, k: nat, evicted: seq<nat>, places: seq<nat>) {
    && |places| == |evicted|
    && (forall i :: 0 <= i < |places| ==> k <= places[i] < |list| && list[places[i]] == evicted[i])
    && forall i, j :: 0 <= i < j < |places| ==> places[j] < places[i]
  }

  lemma {:induction false} VictimsPlaces(list: seq<nat>, k: nat, locked: set<nat>) returns (places: seq<nat>)
    requires k <= |list|
    ensures Places(list, k, Victims(list, k, locked), places)
    decreases |list| - k
  {
    if k == |list| {
      places := [];
    } else {
      places := VictimsPlaces(list, k + 1, locked);
      if list[k] !in locked { places := places + [k]; }
    }
  }

  lemma VictimsOldest(list: seq<nat>, k: nat, locked: set<nat>, count: nat)
    requires k <= |list| && |Victims(list, k, locked)| <= count && (|Victims(list, k, locked)| == count || k == 0)
    ensures OldestFirst(list, locked, count, Victims(list, k, locked))
  {
    forall x ensures x in Victims(list, k, locked) <==> x in list[k..] && x !in locked { VictimsMembers(list, k, locked, x); }
    var places := VictimsPlaces(list, k, locked);
    assert Picks(list, k, locked, Victims(list, k, locked));
  }

  lemma {:induction false} VictimsMembers(list: seq<nat>, k: nat, locked: set<nat>, x: nat)
    requires k <= |list|
    ensures x in Victims(list, k, locked) <==> x in list[k..] && x !in locked
    ensures x in Kept(list, k, locked) <==> x in list[k..] && x in locked
    decreases |list| - k
  {
    if k < |list| {
      VictimsMembers(list, k + 1, locked, x);
      assert list[k..] == [list[k]] + list[k + 1..];
    }
  }

  lemma EvictEnd(s: State, list: seq<nat>, k: nat, locked: set<nat>, count: nat)
    requires LruOK(s) && list == s.family.lists[0] && k <= |list|
    requires |Victims(list, k, locked)| <= count && (|Victims(list, k, locked)| == count || k == 0)
    ensures var all := Victims(list, 0, locked);
      Victims(list, k, locked) == if |all| <= count then all else all[..count]
    ensures forall x :: x in list[..k] + Kept(list, k, locked) <==> x in list && x !in Victims(list, k, locked)
    ensures forall x :: x in Victims(list, k, locked) ==> x !in locked && x < |s.dirty| && !s.dirty[x]
  {
    VictimsGrow(list, 0, k, locked);
    assert list == list[..k] + list[k..];
    assert ListOK(s.family, 0);
    forall x: nat ensures x in Victims(list, k, locked) ==> x !in list[..k] && x !in locked && x in list {
      VictimsMembers(list, k, locked, x);
      if x in list[k..] { NotTwice(list, k, x); }
    }
    forall x: nat ensures x in list[..k] + Kept(list, k, locked) <==> x in list && x !in Victims(list, k, locked) {
      VictimsMembers(list, k, locked, x);
    }
    forall x | x in Victims(list, k, locked) ensures x < |s.dirty| && !s.dirty[x] {
      assert x in list;
      assert LineOK(s, x);
    }
  }

  lemma NotTwice(list: seq<nat>, k: nat, x: nat)
    requires Distinct(list) && k <= |list| && x in list[k..]
    ensures x !in list[..k]
  {
    var i := Place(list[k..], x);
    forall j | 0 <= j < |list[..k]| ensures list[..k][j] != x { assert list[j] != list[k + i]; }
  }

  /** The test of the links tells whether a line is on a list. */
  lemma OnListTest(s: State, x: nat)
    requires LruOK(s) && x < |s.dirty|
    ensures var n := |s.dirty|;
      (s.family.next[x] != n || s.family.prev[x] != n || (s.head[0] == x && s.tail[0] == x) || (s.head[1] == x && s.tail[1] == x))
      <==> s.family.home[x] < 2
  {
    assert LineOK(s, x);
    if s.family.home[x] < 2 {
      var d := s.family.home[x];
      var i := Place(s.family.lists[d], x);
      EntryOK(s.family, d, i);
      if i + 1 < |s.family.lists[d]| { MemberOK(s.family, d, i + 1); }
      if i > 0 { MemberOK(s.family, d, i - 1); }
    } else {
      if s.family.lists[0] != [] { MemberOK(s.family, 0, 0); }
      if s.family.lists[1] != [] { MemberOK(s.family, 1, 0); }
    }
  }

  lemma NotListed(s: State, x: nat)
    requires LruOK(s) && x < |s.dirty| && s.family.home[x] == 2
    ensures x !in s.family.lists[0] && x !in s.family.lists[1]
  {
    assert ListOK(s.family, 0) && ListOK(s.family, 1);
  }

  lemma OtherEnds(s: State, d: nat, i: nat)
    requires LruOK(s) && d < 2 && i < |s.family.lists[d]|
    ensures var list := s.family.lists[d]; var x := list[i];
      && s.head[1 - d] != x && s.tail[1 - d] != x && (i > 0 ==> list[0] != x) && (i + 1 < |list| ==> list[|list| - 1] != x)
      && x < |s.dirty|
  {
    var other := s.family.lists[1 - d];
    MemberOK(s.family, d, i);
    assert ListOK(s.family, d) && ListOK(s.family, 1 - d);
    if other != [] {
      MemberOK(s.family, 1 - d, 0);
      MemberOK(s.family, 1 - d, |other| - 1);
    }
  }
}
