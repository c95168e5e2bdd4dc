/** Requests, their map of cache lines, and the status bits of the sectors they cover. */
module CacheBits {
  import opened Division
  import opened SectorMath
  import opened CacheStore

  /** Result of the lookup of one core line. */
  datatype Entry = Miss | Hit(line: nat) | Mapped(line: nat)

  /** Counters of a traversal. */
  datatype Info = Info(hits: nat, invalid: nat, dirtyAny: nat, dirtyAll: nat, seqReq: bool)

  /** A request for the n sectors from a on. */
  datatype Req = Req(a: nat, n: nat, entries: seq<Entry>, info: Info)

  predicate InRange(st: Store, a: nat, n: nat) {
    n > 0 && a + n <= |st.core|
  }

  predicate Sized(st: Store, r: Req)
    requires st.w > 0
  {
    InRange(st, r.a, r.n) && |r.entries| == Lines(r.a, r.n, st.w)
  }

  /** The map of the request agrees with the mapping. */
  predicate Placed(st: Store, r: Req)
    requires st.w > 0
  {
    Sized(st, r) && forall i :: 0 <= i < |r.entries| ==> EntryOK(st, Quot(r.a, st.w) + i, r.entries[i])
  }

  predicate EntryOK(st: Store, k: nat, e: Entry) {
    if e.Miss? then k !in st.mapping else k in st.mapping && st.mapping[k] == e.line
  }

  predicate AllMapped(r: Req) {
    forall i :: 0 <= i < |r.entries| ==> !r.entries[i].Miss?
  }

  /** The line's bits with those from s to e set to v. */
  function Mark(bits: seq<bool>, s: nat, e: nat, v: bool): (b: seq<bool>)
    ensures |b| == |bits|
    ensures forall o :: 0 <= o < |bits| ==> (b[o] <==> if s <= o <= e then v else bits[o])
  {
    seq(|bits|, o requires 0 <= o < |bits| => if s <= o <= e then v else bits[o])
  }

  function SetValidLine(st: Store, r: Req, i: nat): Store
    requires Sizes(st) && Sized(st, r) && i < |r.entries| && !r.entries[i].Miss? && r.entries[i].line < |st.phys|
  {
    var l := r.entries[i].line;
    st.(valid := st.valid[l := Mark(st.valid[l], Start(r.a, st.w, i), End(r.a, r.n, st.w, i), true)])
  }

  function SetDirtyLine(st: Store, r: Req, i: nat, v: bool): Store
    requires Sizes(st) && Sized(st, r) && i < |r.entries| && !r.entries[i].Miss? && r.entries[i].line < |st.phys|
  {
    var l := r.entries[i].line;
    st.(dirty := st.dirty[l := Mark(st.dirty[l], Start(r.a, st.w, i), End(r.a, r.n, st.w, i), v)])
  }

  /** Sector x belongs to one of the first i lines of the request. */
  predicate Upto(r: Req, w: nat, i: nat, x: nat)
    requires w > 0
  {
    In(x, r.a, r.n) && Quot(r.a, w) <= Quot(x, w) < Quot(r.a, w) + i
  }

  lemma UptoAll(st: Store, r: Req)
    requires st.w > 0 && Placed(st, r)
    ensures forall x: nat :: Upto(r, st.w, |r.entries|, x) <==> In(x, r.a, r.n)
  {
    forall x: nat ensures Upto(r, st.w, |r.entries|, x) <==> In(x, r.a, r.n) { Cover(r.a, r.n, st.w, x); }
  }

  // ----- the bit loops after i lines -----

  ghost predicate ValidUpto(st: Store, st': Store, r: Req, i: nat)
    requires Shape(st)
  {
    && st' == st.(valid := st'.valid) && Shape(st')
    && forall x: nat :: V(st', x) <==> V(st, x) || Upto(r, st.w, i, x)
  }

  ghost predicate DirtyUpto(st: Store, st': Store, r: Req, i: nat, v: bool)
    requires Shape(st)
  {
    && st' == st.(dirty := st'.dirty) && Shape(st')
    && forall x: nat :: D(st', x) <==> if Upto(r, st.w, i, x) then v else D(st, x)
  }

  lemma ValidLoop(st: Store, st': Store, r: Req, i: nat)
    requires Shape(st) && Placed(st, r) && AllMapped(r) && i < |r.entries| && ValidUpto(st, st', r, i)
    ensures EntryOK(st', Quot(r.a, st.w) + i, r.entries[i]) && ValidUpto(st, SetValidLine(st', r, i), r, i + 1)
  {
    assert EntryOK(st, Quot(r.a, st.w) + i, r.entries[i]);
    SetValidStep(st', r, i);
  }

  lemma DirtyLoop(st: Store, st': Store, r: Req, i: nat, v: bool)
    requires Shape(st) && Placed(st, r) && AllMapped(r) && i < |r.entries| && DirtyUpto(st, st', r, i, v)
    requires v ==> forall x: nat :: In(x, r.a, r.n) ==> V(st, x)
    ensures EntryOK(st', Quot(r.a, st.w) + i, r.entries[i]) && DirtyUpto(st, SetDirtyLine(st', r, i, v), r, i + 1, v)
  {
    assert EntryOK(st, Quot(r.a, st.w) + i, r.entries[i]);
    assert v ==> forall x: nat :: In(x, r.a, r.n) ==> V(st', x);
    SetDirtyStep(st', r, i, v);
  }

  /** Whether sector x lies on line i of the request and whether the request covers it. */
  lemma LineCover(st: Store, r: Req, i: nat, x: nat)
    requires Sizes(st) && Sized(st, r) && i < |r.entries|
    ensures In(x, r.a, r.n) ==> Quot(r.a, st.w) <= Quot(x, st.w) < Quot(r.a, st.w) + |r.entries|
    ensures Quot(x, st.w) == Quot(r.a, st.w) + i ==>
      (In(x, r.a, r.n) <==> Start(r.a, st.w, i) <= Rem(x, st.w) <= End(r.a, r.n, st.w, i))
  {
    Cover(r.a, r.n, st.w, x);
  }

  lemma SetValidShape(st: Store, r: Req, i: nat)
    requires Shape(st) && Sized(st, r) && i < |r.entries| && !r.entries[i].Miss? && EntryOK(st, Quot(r.a, st.w) + i, r.entries[i])
    ensures Shape(SetValidLine(st, r, i))
  {
    var st' := SetValidLine(st, r, i);
    var l := r.entries[i].line;
    forall k, o | k in st.mapping && 0 <= o < st.w && st'.valid[st.mapping[k]][o] ensures Times(k, st.w) + o < |st.core| {
      if st.mapping[k] == l && !st.valid[l][o] {
        assert k == Quot(r.a, st.w) + i;
        QuotRem(k, o, st.w);
        LineCover(st, r, i, Times(k, st.w) + o);
      }
    }
  }

  lemma SetValidStep(st: Store, r: Req, i: nat)
    requires Shape(st) && Sized(st, r) && i < |r.entries| && !r.entries[i].Miss? && EntryOK(st, Quot(r.a, st.w) + i, r.entries[i])
    ensures var st' := SetValidLine(st, r, i);
      Shape(st') && forall x: nat :: V(st', x) <==> V(st, x) || (In(x, r.a, r.n) && Quot(x, st.w) == Quot(r.a, st.w) + i)
  {
    SetValidShape(st, r, i);
    var st' := SetValidLine(st, r, i);
    forall x: nat ensures V(st', x) <==> V(st, x) || (In(x, r.a, r.n) && Quot(x, st.w) == Quot(r.a, st.w) + i) {
      LineCover(st, r, i, x);
    }
  }

  lemma SetDirtyShape(st: Store, r: Req, i: nat, v: bool)
    requires Shape(st) && Sized(st, r) && i < |r.entries| && !r.entries[i].Miss? && EntryOK(st, Quot(r.a, st.w) + i, r.entries[i])
    requires v ==> forall x: nat :: In(x, r.a, r.n) ==> V(st, x)
    ensures Shape(SetDirtyLine(st, r, i, v))
  {
    var st' := SetDirtyLine(st, r, i, v);
    var l := r.entries[i].line;
    forall m, o | 0 <= m < |st.phys| && 0 <= o < st.w && st'.dirty[m][o] ensures st'.valid[m][o] {
      if m == l && !st.dirty[l][o] {
        var k := Quot(r.a, st.w) + i;
        QuotRem(k, o, st.w);
        LineCover(st, r, i, Times(k, st.w) + o);
        assert V(st, Times(k, st.w) + o);
      }
    }
  }

  lemma SetDirtyStep(st: Store, r: Req, i: nat, v: bool)
    requires Shape(st) && Sized(st, r) && i < |r.entries| && !r.entries[i].Miss? && EntryOK(st, Quot(r.a, st.w) + i, r.entries[i])
    requires v ==> forall x: nat :: In(x, r.a, r.n) ==> V(st, x)
    ensures var st' := SetDirtyLine(st, r, i, v);
      Shape(st') &&
      forall x: nat :: D(st', x) <==> if In(x, r.a, r.n) && Quot(x, st.w) == Quot(r.a, st.w) + i then v else D(st, x)
  {
    SetDirtyShape(st, r, i, v);
    var st' := SetDirtyLine(st, r, i, v);
    forall x: nat ensures D(st', x) <==> if In(x, r.a, r.n) && Quot(x, st.w) == Quot(r.a, st.w) + i then v else D(st, x) {
      SetDirtySector(st, r, i, v, x);
    }
  }

  lemma SetDirtySector(st: Store, r: Req, i: nat, v: bool, x: nat)
    requires Shape(st) && Sized(st, r) && i < |r.entries| && !r.entries[i].Miss? && EntryOK(st, Quot(r.a, st.w) + i, r.entries[i])
    requires Shape(SetDirtyLine(st, r, i, v))
    ensures D(SetDirtyLine(st, r, i, v), x) <==> if In(x, r.a, r.n) && Quot(x, st.w) == Quot(r.a, st.w) + i then v else D(st, x)
  {
    LineCover(st, r, i, x);
  }
}
