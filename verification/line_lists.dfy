/** A family of linked lists over one pair of tables, of which every line is on at most one. */
module LineLists {
  import opened IndexLists

  /** home[l] is the list line l is on; the number of lists stands for "on none". */
  datatype Family = Family(next: seq<nat>, prev: seq<nat>, lists: seq<seq<nat>>, home: seq<nat>)

  ghost predicate ListOK(f: Family, j: nat)
    requires j < |f.lists| && |f.home| == |f.next|
  {
    Linked(f.next, f.prev, f.lists[j]) && forall l :: l in f.lists[j] ==> l < |f.next| && f.home[l] == j
  }

  ghost predicate FamilyOK(f: Family) {
    && |f.prev| == |f.next| == |f.home|
    && (forall j: nat :: j < |f.lists| ==> ListOK(f, j))
    && (forall l: nat :: l < |f.home| ==> f.home[l] <= |f.lists| && (f.home[l] < |f.lists| ==> l in f.lists[f.home[l]]))
  }

  lemma MemberOK(f: Family, j: nat, i: nat)
    requires FamilyOK(f) && j < |f.lists| && i < |f.lists[j]|
    ensures var l := f.lists[j][i]; l < |f.next| && f.home[l] == j && Node(f.next, f.prev, f.lists[j], i)
  {
    assert ListOK(f, j);
    assert f.lists[j][i] in f.lists[j];
    assert Node(f.next, f.prev, f.lists[j], i);
  }

  // ----- adding a line to list j -----

  function Pushed(f: Family, j: nat, x: nat): Family
    requires j < |f.lists| && x < |f.next| == |f.prev| == |f.home| && (f.lists[j] != [] ==> f.lists[j][0] < |f.prev|)
  {
    Family(PushNext(f.next, f.lists[j], x), PushPrev(f.prev, f.lists[j], x), f.lists[j := [x] + f.lists[j]], f.home[x := j])
  }

  function Appended(f: Family, j: nat, x: nat): Family
    requires j < |f.lists| && x < |f.next| == |f.prev| == |f.home|
    requires f.lists[j] != [] ==> f.lists[j][|f.lists[j]| - 1] < |f.prev|
  {
    Family(AppendNext(f.next, f.lists[j], x), AppendPrev(f.prev, f.lists[j], x), f.lists[j := f.lists[j] + [x]], f.home[x := j])
  }

  /** Tables that changed only at the lines of list j and at x keep the other lists. */
  lemma OtherList(f: Family, f': Family, j: nat, x: nat, k: nat)
    requires FamilyOK(f) && j < |f.lists| && k < |f.lists| && k != j && x < |f.home| && f.home[x] in {j, |f.lists|}
    requires |f'.next| == |f'.prev| == |f'.home| == |f.next| && |f'.lists| == |f.lists| && f'.lists[k] == f.lists[k]
    requires forall l :: 0 <= l < |f.next| && l != x && l !in f.lists[j] ==>
      f'.next[l] == f.next[l] && f'.prev[l] == f.prev[l] && f'.home[l] == f.home[l]
    ensures ListOK(f', k)
  {
    assert ListOK(f, k) && ListOK(f, j);
    LinkedFrame(f.next, f.prev, f'.next, f'.prev, f.lists[k]);
  }

  lemma PushedOK(f: Family, j: nat, x: nat)
    requires FamilyOK(f) && j < |f.lists| && x < |f.next| && f.home[x] == |f.lists|
    ensures f.lists[j] != [] ==> f.lists[j][0] < |f.prev|
    ensures FamilyOK(Pushed(f, j, x))
  {
    assert ListOK(f, j);
    PushOK(f.next, f.prev, f.lists[j], x);
    if f.lists[j] != [] { assert f.lists[j][0] in f.lists[j]; }
    var f' := Pushed(f, j, x);
    forall k: nat | k < |f.lists| ensures ListOK(f', k) {
      if k != j { OtherList(f, f', j, x, k); }
    }
  }

  lemma AppendedOK(f: Family, j: nat, x: nat)
    requires FamilyOK(f) && j < |f.lists| && x < |f.next| && f.home[x] == |f.lists|
    ensures f.lists[j] != [] ==> f.lists[j][|f.lists[j]| - 1] < |f.prev|
    ensures FamilyOK(Appended(f, j, x))
  {
    assert ListOK(f, j);
    AppendOK(f.next, f.prev, f.lists[j], x);
    if f.lists[j] != [] { assert f.lists[j][|f.lists[j]| - 1] in f.lists[j]; }
    var f' := Appended(f, j, x);
    forall k: nat | k < |f.lists| ensures ListOK(f', k) {
      if k != j { OtherList(f, f', j, x, k); }
    }
  }

  // ----- taking the i-th line off list j -----

  /** The i-th entry of list j, with its neighbours as the tables have them. */
  predicate Entry(f: Family, j: nat, i: nat) {
    && j < |f.lists| && i < |f.lists[j]| && |f.next| == |f.prev| == |f.home|
    && var s := f.lists[j]; var n := |f.next|;
       && s[i] < n && f.next[s[i]] == Succ(s, i, n) && f.prev[s[i]] == Pred(s, i, n)
       && (i + 1 < |s| ==> s[i + 1] < n && s[i + 1] != s[i]) && (i > 0 ==> s[i - 1] < n && s[i - 1] != s[i])
       && (0 < i && i + 1 < |s| ==> s[i - 1] != s[i + 1])
  }

  predicate Taken(f: Family, f': Family, j: nat, i: nat)
    requires Entry(f, j, i)
  {
    && Unlinked(f.next, f.prev, f'.next, f'.prev, f.lists[j], i)
    && f'.lists == f.lists[j := Without(f.lists[j], i)] && f'.home == f.home[f.lists[j][i] := |f.lists|]
  }

  lemma TakenOK(f: Family, f': Family, j: nat, i: nat)
    requires FamilyOK(f) && Entry(f, j, i) && Taken(f, f', j, i)
    ensures FamilyOK(f')
  {
    MemberOK(f, j, i);
    var s, x := f.lists[j], f.lists[j][i];
    assert ListOK(f, j);
    UnlinkOK(f.next, f.prev, f'.next, f'.prev, s, i);
    if i > 0 { assert s[i - 1] in s; }
    if i + 1 < |s| { assert s[i + 1] in s; }
    forall l: nat ensures l in f'.lists[j] <==> l in s && l != x { WithoutMembers(s, i, l); }
    forall k: nat | k < |f.lists| ensures ListOK(f', k) {
      if k != j { OtherList(f, f', j, x, k); }
    }
  }

  lemma EntryOK(f: Family, j: nat, i: nat)
    requires FamilyOK(f) && j < |f.lists| && i < |f.lists[j]|
    ensures Entry(f, j, i)
  {
    MemberOK(f, j, i);
    assert ListOK(f, j);
    if i > 0 { MemberOK(f, j, i - 1); }
    if i + 1 < |f.lists[j]| { MemberOK(f, j, i + 1); }
  }
}
