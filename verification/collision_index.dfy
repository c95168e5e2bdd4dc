/** The hash index: core lines to cache lines through buckets of doubly linked chains. */
module CollisionIndex {
  import opened IndexLists
  import opened HashBucket

  datatype Found = Miss | Hit(line: nat)

  /** The tables, the chains they hold and the map the chains stand for. */
  datatype Tables = Tables(
    entries: nat,            // number of buckets
    hash: seq<nat>,          // bucket -> first line of its chain
    next: seq<nat>,
    prev: seq<nat>,
    info: seq<Key>,          // line -> core line it caches
    chains: seq<seq<nat>>,
    index: map<Key, nat>)

  predicate Sizes(t: Tables) {
    && t.entries > 0 && |t.hash| == |t.chains| == t.entries
    && |t.prev| == |t.next| == |t.info|
  }

  /** Line l caches a core line that the map sends to l. */
  predicate InUse(t: Tables, l: nat) {
    l < |t.info| && t.info[l] in t.index && t.index[t.info[l]] == l
  }

  /** Bucket b holds its chain, and every line of the chain caches a core line of that bucket. */
  ghost predicate ChainOK(t: Tables, b: nat)
    requires Sizes(t) && b < t.entries
  {
    && Linked(t.next, t.prev, t.chains[b]) && t.hash[b] == Head(t.chains[b], |t.info|)
    && forall l :: l in t.chains[b] ==> InUse(t, l) && Bucket(t.info[l], t.entries) == b
  }

  ghost predicate KeyOK(t: Tables, k: Key)
    requires Sizes(t) && k in t.index
  {
    t.index[k] < |t.info| && t.info[t.index[k]] == k && t.index[k] in t.chains[Bucket(k, t.entries)]
  }

  ghost predicate IndexOK(t: Tables) {
    && Sizes(t)
    && (forall b: nat :: b < t.entries ==> ChainOK(t, b))
    && (forall k :: k in t.index ==> KeyOK(t, k))
  }

  function Added(t: Tables, key: Key, l: nat): Tables
    requires Sizes(t) && l < |t.info|
    requires var c := t.chains[Bucket(key, t.entries)]; c != [] ==> c[0] < |t.info|
  {
    var b := Bucket(key, t.entries);
    t.(info := t.info[l := key], next := PushNext(t.next, t.chains[b], l), prev := PushPrev(t.prev, t.chains[b], l),
       hash := t.hash[b := l], chains := t.chains[b := [l] + t.chains[b]], index := t.index[key := l])
  }

  lemma AddedFits(t: Tables, b: nat)
    requires IndexOK(t) && b < t.entries
    ensures t.hash[b] == Head(t.chains[b], |t.info|) && (t.chains[b] != [] ==> t.chains[b][0] < |t.info|)
  {
    assert ChainOK(t, b);
    if t.chains[b] != [] { assert Node(t.next, t.prev, t.chains[b], 0); }
  }

  lemma AddedChain(t: Tables, key: Key, l: nat, b: nat)
    requires IndexOK(t) && l < |t.info| && !InUse(t, l) && key !in t.index && b < t.entries
    requires var c := t.chains[Bucket(key, t.entries)]; c != [] ==> c[0] < |t.info|
    ensures ChainOK(Added(t, key, l), b)
  {
    var t' := Added(t, key, l);
    var h := Bucket(key, t.entries);
    assert ChainOK(t, b) && ChainOK(t, h);
    if b == h {
      PushOK(t.next, t.prev, t.chains[h], l);
    } else {
      if t.chains[h] != [] { assert t.chains[h][0] in t.chains[h]; }
      LinkedFrame(t.next, t.prev, t'.next, t'.prev, t.chains[b]);
    }
  }

  lemma AddedOK(t: Tables, key: Key, l: nat)
    requires IndexOK(t) && l < |t.info| && !InUse(t, l) && key !in t.index
    requires var c := t.chains[Bucket(key, t.entries)]; c != [] ==> c[0] < |t.info|
    ensures IndexOK(Added(t, key, l))
  {
    var t' := Added(t, key, l);
    forall b: nat | b < t.entries ensures ChainOK(t', b) { AddedChain(t, key, l, b); }
    forall k | k in t'.index ensures KeyOK(t', k) {
      if k != key { assert KeyOK(t, k); }
    }
  }

  /** The tables after line l left its chain, where it was the i-th; its own entries are cleared. */
  ghost predicate Removed(t: Tables, t': Tables, l: nat, i: nat)
    requires Sizes(t) && InUse(t, l)
  {
    var key := t.info[l];
    var b := Bucket(key, t.entries);
    && i < |t.chains[b]| && t.chains[b][i] == l
    && Unlinked(t.next, t.prev, t'.next, t'.prev, t.chains[b], i)
    && t'.entries == t.entries && t'.chains == t.chains[b := Without(t.chains[b], i)]
    && t'.hash == t.hash[b := Head(t'.chains[b], |t.info|)]
    && |t'.info| == |t.info| && (forall m :: 0 <= m < |t.info| && m != l ==> t'.info[m] == t.info[m])
    && t'.index == t.index - {key}
  }

  lemma RemovedChain(t: Tables, t': Tables, l: nat, i: nat, b: nat)
    requires IndexOK(t) && InUse(t, l) && Removed(t, t', l, i) && b < t.entries
    ensures Sizes(t') && ChainOK(t', b)
  {
    var h := Bucket(t.info[l], t.entries);
    assert ChainOK(t, b) && ChainOK(t, h);
    if b == h {
      UnlinkOK(t.next, t.prev, t'.next, t'.prev, t.chains[h], i);
      forall m | m in t'.chains[h] ensures InUse(t', m) && Bucket(t'.info[m], t.entries) == h {
        WithoutMembers(t.chains[h], i, m);
      }
    } else {
      RemovedFrame(t, t', l, i, b);
    }
  }

  lemma RemovedFrame(t: Tables, t': Tables, l: nat, i: nat, b: nat)
    requires IndexOK(t) && InUse(t, l) && Removed(t, t', l, i) && b < t.entries && b != Bucket(t.info[l], t.entries)
    ensures Linked(t'.next, t'.prev, t.chains[b])
    ensures forall m :: m in t.chains[b] ==> InUse(t', m) && Bucket(t'.info[m], t.entries) == b
  {
    var h := Bucket(t.info[l], t.entries);
    assert ChainOK(t, b) && ChainOK(t, h);
    var s := t.chains[h];
    if i > 0 { assert s[i - 1] in s; }
    if i + 1 < |s| { assert s[i + 1] in s; }
    LinkedFrame(t.next, t.prev, t'.next, t'.prev, t.chains[b]);
  }

  lemma RemovedOK(t: Tables, t': Tables, l: nat, i: nat)
    requires IndexOK(t) && InUse(t, l) && Removed(t, t', l, i)
    ensures IndexOK(t')
  {
    forall b: nat | b < t.entries ensures ChainOK(t', b) { RemovedChain(t, t', l, i, b); }
    var h := Bucket(t.info[l], t.entries);
    assert ChainOK(t, h);
    forall k | k in t'.index ensures KeyOK(t', k) {
      assert KeyOK(t, k);
      WithoutMembers(t.chains[h], i, t.index[k]);
    }
  }

  /** The neighbours of the i-th line of a chain. */
  lemma Neighbours(t: Tables, l: nat, i: nat)
    requires IndexOK(t) && InUse(t, l)
    requires var s := t.chains[Bucket(t.info[l], t.entries)]; i < |s| && s[i] == l
    ensures var s := t.chains[Bucket(t.info[l], t.entries)];
      && t.next[l] == Succ(s, i, |t.info|) && t.prev[l] == Pred(s, i, |t.info|)
      && (i + 1 < |s| ==> s[i + 1] < |t.info| && s[i + 1] != l) && (i > 0 ==> s[i - 1] < |t.info| && s[i - 1] != l)
      && (t.hash[Bucket(t.info[l], t.entries)] == l <==> i == 0)
      && t.hash[Bucket(t.info[l], t.entries)] == Head(s, |t.info|)
  {
    var b := Bucket(t.info[l], t.entries);
    var s := t.chains[b];
    assert ChainOK(t, b) && Node(t.next, t.prev, s, i);
    if i > 0 { assert Node(t.next, t.prev, s, i - 1); }
    if i + 1 < |s| { assert Node(t.next, t.prev, s, i + 1); }
  }

  class Index {
    const entries: nat
    const lines: nat        // number of cache lines; also stands for "none"
    const noKey: Key        // what an unmapped line carries; no request ever asks for it
    var hash: seq<nat>
    var next: seq<nat>
    var prev: seq<nat>
    var info: seq<Key>
    ghost var chains: seq<seq<nat>>
    ghost var index: map<Key, nat>

    ghost function Now(): Tables
      reads this
    {
      Tables(entries, hash, next, prev, info, chains, index)
    }

    ghost predicate Valid()
      reads this
    {
      IndexOK(Now()) && |info| == lines && noKey !in index
    }

    constructor (entries: nat, lines: nat, noKey: Key)
      requires entries > 0
      ensures Valid() && index == map[] && this.entries == entries && this.lines == lines && this.noKey == noKey
    {
      this.entries, this.lines, this.noKey := entries, lines, noKey;
      hash := seq(entries, b => lines);
      next := seq(lines, l => lines);
      prev := seq(lines, l => lines);
      info := seq(lines, l => noKey);
      chains := seq(entries, b => []);
      index := map[];
    }

    /** Walk the chain of the key's bucket. */
    method Lookup(key: Key) returns (found: Found)
      requires Valid()
      ensures found == if key in index then Hit(index[key]) else Miss
    {
      var b := Bucket(key, entries);
      assert ChainOK(Now(), b) && (key in index ==> KeyOK(Now(), key));
      ghost var chain := chains[b];
      var line := hash[b];
      ghost var i := 0;
      while line != lines
        invariant i <= |chain| && line == (if i < |chain| then chain[i] else lines)
        invariant forall j :: 0 <= j < i ==> chain[j] < lines && info[chain[j]] != key
        decreases |chain| - i
      {
        assert Node(next, prev, chain, i) && line in chain;
        if info[line] == key { return Hit(line); }
        line := next[line];
        i := i + 1;
      }
      return Miss;
    }

    /** Put line l in front of its chain. */
    method Add(key: Key, l: nat)
      requires Valid() && l < lines && !InUse(Now(), l) && key !in index && key != noKey
      modifies this
      ensures Valid() && index == old(index)[key := l]
    {
      var b := Bucket(key, entries);
      AddedFits(Now(), b);
      AddedOK(Now(), key, l);
      var first := hash[b];
      info := info[l := key];
      next := next[l := first];
      prev := prev[l := lines];
      if first != lines { prev := prev[first := l]; }
      hash := hash[b := l];
      chains := chains[b := [l] + chains[b]];
      index := index[key := l];
      assert Now() == Added(old(Now()), key, l);
    }

    /** Take a line out of its chain. */
    method Remove(l: nat)
      requires Valid() && InUse(Now(), l)
      modifies this
      ensures Valid() && index == old(index) - {old(info[l])} && !InUse(Now(), l)
    {
      ghost var t := Now();
      ghost var b := Bucket(info[l], entries);
      assert KeyOK(t, info[l]) && ChainOK(t, b);
      ghost var i := Place(chains[b], l);
      Neighbours(t, l, i);
      Unlink(l, b, i);
      RemovedOK(t, Now(), l, i);
    }

    method Unlink(l: nat, ghost b: nat, ghost i: nat)
      requires Sizes(Now()) && |info| == lines && InUse(Now(), l) && b == Bucket(info[l], entries)
      requires i < |chains[b]| && chains[b][i] == l && hash[b] == Head(chains[b], lines)
      requires next[l] == Succ(chains[b], i, lines) && prev[l] == Pred(chains[b], i, lines)
      requires (i + 1 < |chains[b]| ==> chains[b][i + 1] < lines && chains[b][i + 1] != l)
      requires (i > 0 ==> chains[b][i - 1] < lines && chains[b][i - 1] != l) && (hash[b] == l <==> i == 0)
      modifies this
      ensures Removed(old(Now()), Now(), l, i) && info[l] == noKey
    {
      var nextLine, prevLine := next[l], prev[l];
      if prevLine != lines { next := next[prevLine := nextLine]; }
      if nextLine != lines { prev := prev[nextLine := prevLine]; }
      var father := Bucket(info[l], entries);
      if hash[father] == l { hash := hash[father := nextLine]; }
      next, prev := next[l := lines], prev[l := lines];
      index := index - {info[l]};
      info := info[l := noKey];
      chains := chains[b := Without(chains[b], i)];
    }
  }
}
