/**
 The metadata updater: I/O requests over page ranges are admitted to the device only while they
 overlap nothing that is under way.  Every method is one critical section or one atomic step, so that
 any order of calls is an interleaving of the threads involved.
 */
module MetadataUpdater {

  datatype IoReq = IoReq(page: nat, count: nat, finished: bool)

  /** The last page of a range, in 32-bit arithmetic: an empty range at page 0 ends on the largest page. */
  function LastPage(page: nat, count: nat): nat {
    if page + count == 0 then 0xffff_ffff else page + count - 1
  }

  predicate RangeOverlaps(start1: nat, end1: nat, start2: nat, end2: nat) {
    || (start2 <= start1 && end2 >= start1)
    || (start2 >= start1 && end1 >= start2)
  }

  predicate Overlaps(start1: nat, count1: nat, start2: nat, count2: nat) {
    RangeOverlaps(start1, LastPage(start1, count1), start2, LastPage(start2, count2))
  }

  /** Page p is in the range. */
  predicate Within(p: nat, page: nat, count: nat) {
    page <= p < page + count
  }

  /** The test finds exactly the ranges that share a page, unless one is empty. */
  lemma OverlapsIffShared(start1: nat, count1: nat, start2: nat, count2: nat)
    requires count1 > 0 && count2 > 0
    ensures Overlaps(start1, count1, start2, count2) <==>
      exists p: nat :: Within(p, start1, count1) && Within(p, start2, count2)
  {
    if Overlaps(start1, count1, start2, count2) {
      var p := if start2 <= start1 then start1 else start2;
      assert Within(p, start1, count1) && Within(p, start2, count2);
    }
  }

  // ----- lists of request numbers -----

  predicate AllBelow(s: seq<nat>, n: nat) {
    forall i :: 0 <= i < |s| ==> s[i] < n
  }

  /** The requests of the list that are finished, or those that are not, in order. */
  function Filter(s: seq<nat>, reqs: seq<IoReq>, finished: bool): seq<nat>
    requires AllBelow(s, |reqs|)
  {
    if s == [] then []
    else (if reqs[s[0]].finished == finished then [s[0]] else []) + Filter(s[1..], reqs, finished)
  }

  lemma {:induction false} FilterMember(s: seq<nat>, reqs: seq<IoReq>, finished: bool, r: nat)
    requires AllBelow(s, |reqs|)
    ensures r in Filter(s, reqs, finished) <==> r in s && reqs[r].finished == finished
  {
    if s != [] {
      FilterMember(s[1..], reqs, finished, r);
      assert r in s <==> r == s[0] || r in s[1..];
    }
  }

  lemma {:induction false} FilterAppend(s: seq<nat>, x: nat, reqs: seq<IoReq>, finished: bool)
    requires x < |reqs| && AllBelow(s, |reqs|) && AllBelow(s + [x], |reqs|)
    ensures Filter(s + [x], reqs, finished) == Filter(s, reqs, finished) + if reqs[x].finished == finished then [x] else []
  {
    if s == [] {
      assert [] + [x] == [x];
    } else {
      var head := if reqs[s[0]].finished == finished then [s[0]] else [];
      var last := if reqs[x].finished == finished then [x] else [];
      var rest := s[1..];
      assert (s + [x])[1..] == rest + [x] && (s + [x])[0] == s[0];
      FilterAppend(rest, x, reqs, finished);
      assert head + (Filter(rest, reqs, finished) + last) == (head + Filter(rest, reqs, finished)) + last;
    }
  }

  /** The lists a and b together hold what c holds, and as often. */
  predicate Together(a: seq<nat>, b: seq<nat>, c: seq<nat>) {
    multiset(a) + multiset(b) == multiset(c)
  }

  lemma TogetherFront(x: nat, a: seq<nat>, b: seq<nat>, c: seq<nat>)
    requires Together(a, b, c)
    ensures Together([x] + a, b, [x] + c) && Together(a, [x] + b, [x] + c)
  {
  }

  lemma TogetherMore(a: seq<nat>, b: seq<nat>, c: seq<nat>, d: seq<nat>)
    requires Together(a, b, c)
    ensures Together(a + d, b, c + d)
  {
  }

  /** Sorting a list into unfinished and finished requests loses none. */
  lemma {:induction false} FilterSplits(s: seq<nat>, reqs: seq<IoReq>)
    requires AllBelow(s, |reqs|)
    ensures Together(Filter(s, reqs, false), Filter(s, reqs, true), s)
  {
    if s != [] {
      FilterSplits(s[1..], reqs);
      assert s == [s[0]] + s[1..];
      TogetherFront(s[0], Filter(s[1..], reqs, false), Filter(s[1..], reqs, true), s[1..]);
    }
  }

  datatype State = State(
    reqs: seq<IoReq>,
    inProgress: seq<nat>,
    pending: seq<nat>,
    flight: map<nat, (nat, nat)>)   // requests on their way to the device or there, with their true range

  predicate Listed(s: State) {
    && AllBelow(s.inProgress, |s.reqs|) && AllBelow(s.pending, |s.reqs|)
    && (forall r :: r in s.inProgress ==> r !in s.pending)
    && (forall r :: r in s.pending ==> s.reqs[r].count > 0 && !s.reqs[r].finished)
    && (forall i, j :: 0 <= i < j < |s.pending| ==> s.pending[i] != s.pending[j])
  }

  /** A request in flight is on the list, not marked finished, and its fields are its true range. */
  predicate FlightOK(s: State, r: nat)
    requires r in s.flight
  {
    && r in s.inProgress && r < |s.reqs| && !s.reqs[r].finished
    && s.flight[r] == (s.reqs[r].page, s.reqs[r].count) && s.reqs[r].count > 0
  }

  predicate Apart(x: (nat, nat), y: (nat, nat)) {
    !Overlaps(x.0, x.1, y.0, y.1)
  }

  predicate UpdaterOK(s: State) {
    && Listed(s)
    && (forall r :: r in s.flight ==> FlightOK(s, r))
    && (forall r, t :: r in s.flight && t in s.flight && r != t ==> Apart(s.flight[r], s.flight[t]))
  }

  lemma ApartSymmetric(x: (nat, nat), y: (nat, nat))
    ensures Apart(x, y) <==> Apart(y, x)
  {
  }

  /** Request r, on no list or pending, may fly next to everything unfinished on the list. */
  predicate Clear(s: State, r: nat)
    requires r < |s.reqs| && Listed(s)
  {
    forall i :: 0 <= i < |s.inProgress| && !s.reqs[s.inProgress[i]].finished ==>
      !Overlaps(s.reqs[r].page, s.reqs[r].count, s.reqs[s.inProgress[i]].page, s.reqs[s.inProgress[i]].count)
  }

  lemma InList(s: seq<nat>, x: nat, n: nat)
    requires AllBelow(s, n)
    ensures x in s ==> x < n
  {
  }

  /** Admission keeps the ranges in flight apart. */
  lemma AdmitOK(s: State, s': State, r: nat)
    requires UpdaterOK(s) && r < |s.reqs| && r !in s.inProgress && s.reqs[r].count > 0 && !s.reqs[r].finished && Clear(s, r)
    requires s'.reqs == s.reqs && s'.inProgress == Filter(s.inProgress, s.reqs, false) + [r]
    requires forall t :: t in s'.pending <==> t in s.pending && t != r
    requires forall i, j :: 0 <= i < j < |s'.pending| ==> s'.pending[i] != s'.pending[j]
    requires s'.flight == s.flight[r := (s.reqs[r].page, s.reqs[r].count)]
    ensures UpdaterOK(s')
  {
    forall t: nat ensures t in s'.inProgress <==> t == r || (t in s.inProgress && !s.reqs[t].finished) {
      FilterMember(s.inProgress, s.reqs, false, t);
    }
    forall i | 0 <= i < |s'.inProgress| ensures s'.inProgress[i] < |s.reqs| {
      assert s'.inProgress[i] in s'.inProgress;
      InList(s.inProgress, s'.inProgress[i], |s.reqs|);
    }
    forall i | 0 <= i < |s'.pending| ensures s'.pending[i] < |s.reqs| {
      assert s'.pending[i] in s'.pending;
      InList(s.pending, s'.pending[i], |s.reqs|);
    }
    forall t | t in s.flight ensures t != r && Apart(s'.flight[r], s.flight[t]) {
      assert FlightOK(s, t);
      var i :| 0 <= i < |s.inProgress| && s.inProgress[i] == t;
    }
    forall t | t in s'.flight ensures FlightOK(s', t) { if t != r { assert FlightOK(s, t); } }
    forall x, y | x in s'.flight && y in s'.flight && x != y ensures Apart(s'.flight[x], s'.flight[y]) {
      ApartSymmetric(s'.flight[x], s'.flight[y]);
    }
  }

  class Updater {
    var reqs: seq<IoReq>
    var inProgress: seq<nat>
    var pending: seq<nat>
    ghost var flight: map<nat, (nat, nat)>

    ghost function Now(): State
      reads this
    {
      State(reqs, inProgress, pending, flight)
    }

    ghost predicate Valid()
      reads this
    {
      UpdaterOK(Now())
    }

    /** Nothing is under way. */
    constructor (reqs: seq<IoReq>)
      ensures Valid() && this.reqs == reqs && inProgress == [] && pending == [] && flight == map[]
    {
      this.reqs, inProgress, pending, flight := reqs, [], [], map[];
    }

    /** How far a scan for r gets: up to the first unfinished request that overlaps r. */
    method Scan(r: nat) returns (i: nat, kept: seq<nat>, done: seq<nat>)
      requires AllBelow(inProgress, |reqs|) && r < |reqs|
      ensures i <= |inProgress| && Scanned(Now(), r, i)
      ensures kept == Filter(inProgress[..i], reqs, false) && done == Filter(inProgress[..i], reqs, true)
      ensures i < |inProgress| ==> Blocks(Now(), r, i)
    {
      i, kept, done := 0, [], [];
      while i < |inProgress|
        invariant i <= |inProgress| && Scanned(Now(), r, i)
        invariant kept == Filter(inProgress[..i], reqs, false) && done == Filter(inProgress[..i], reqs, true)
      {
        var curr := inProgress[i];
        if !reqs[curr].finished && Overlaps(reqs[r].page, reqs[r].count, reqs[curr].page, reqs[curr].count) { return; }
        FilterNext(inProgress, reqs, i);
        if reqs[curr].finished {
          done := done + [curr];
        } else {
          kept := kept + [curr];
        }
        i := i + 1;
      }
    }

    /** Collect finished requests from the list up to the first unfinished one that overlaps r. */
    method IterateInProgress(r: nat) returns (done: seq<nat>, overlap: bool, ghost at: nat)
      requires Valid() && r < |reqs|
      modifies this`inProgress
      ensures Valid() && (overlap <==> !Clear(old(Now()), r))
      ensures !overlap ==> inProgress == Filter(old(inProgress), reqs, false) && done == Filter(old(inProgress), reqs, true)
      ensures Together(inProgress, done, old(inProgress))
      ensures forall t :: t in inProgress ==> t in old(inProgress)
      ensures forall t :: t in done ==> t in old(inProgress) && t < |reqs| && reqs[t].finished && t !in flight
      ensures overlap ==> at < |old(inProgress)| && Blocks(old(Now()), r, at) && Scanned(old(Now()), r, at)
      ensures overlap ==> done == Filter(old(inProgress)[..at], reqs, true)
    {
      ghost var s := Now();
      var i, kept;
      i, kept, done := Scan(r);
      at := i;
      overlap := i < |inProgress|;
      ScanEnds(s, r, i);
      KeepsFlights(s, i);
      ScanSplits(s, i);
      inProgress := kept + inProgress[i..];
    }

    /** A request that is handed in is not finished. */
    method Unmark(r: nat)
      requires Valid() && r < |reqs| && r !in inProgress
      modifies this`reqs
      ensures Valid() && reqs == old(reqs)[r := old(reqs)[r].(finished := false)]
      ensures Clear(Now(), r) <==> Clear(old(Now()), r)
      ensures Filter(inProgress, reqs, false) == Filter(inProgress, old(reqs), false)
    {
      ghost var s := Now();
      reqs := reqs[r := reqs[r].(finished := false)];
      Unmarked(s, Now(), r);
    }

    method Park(r: nat)
      requires Valid() && r < |reqs| && r !in inProgress && r !in pending && reqs[r].count > 0 && !reqs[r].finished
      modifies this`pending
      ensures Valid() && pending == old(pending) + [r]
    {
      ghost var s := Now();
      pending := pending + [r];
      forall t | t in flight ensures FlightOK(Now(), t) { assert FlightOK(s, t); }
    }

    /** The request joins the list, behind what was kept of it, and goes to the device. */
    method Admit(ghost s: State, r: nat, ghost done: seq<nat>)
      requires UpdaterOK(s) && r < |s.reqs| && r !in s.inProgress && s.reqs[r].count > 0 && !s.reqs[r].finished && Clear(s, r)
      requires reqs == s.reqs && flight == s.flight && inProgress == Filter(s.inProgress, s.reqs, false)
      requires forall t :: t in pending <==> t in s.pending && t != r
      requires forall i, j :: 0 <= i < j < |pending| ==> pending[i] != pending[j]
      requires Together(inProgress, done, s.inProgress)
      modifies this`inProgress, this`flight
      ensures Valid() && inProgress == old(inProgress) + [r] && flight == old(flight)[r := (reqs[r].page, reqs[r].count)]
      ensures Together(inProgress, done, s.inProgress + [r])
    {
      TogetherMore(inProgress, done, s.inProgress, [r]);
      inProgress := inProgress + [r];
      flight := flight[r := (reqs[r].page, reqs[r].count)];
      AdmitOK(s, Now(), r);
    }

    /**
     Hand a request in: it goes to the device at once if nothing unfinished overlaps it, else it waits.
     Returns the finished requests that were collected on the way.
     */
    method Submit(r: nat) returns (done: seq<nat>, started: bool)
      requires Valid() && r < |reqs| && r !in inProgress && r !in pending && reqs[r].count > 0
      modifies this
      ensures Valid() && reqs == old(reqs)[r := old(reqs)[r].(finished := false)]
      ensures started <==> Clear(old(Now()), r)
      ensures flight == if started then old(flight)[r := (reqs[r].page, reqs[r].count)] else old(flight)
      ensures started ==> inProgress == Filter(old(inProgress), reqs, false) + [r]
      ensures pending == if started then old(pending) else old(pending) + [r]
      ensures Together(inProgress, done, old(inProgress) + if started then [r] else [])
      ensures forall t :: t in done ==> t in old(inProgress) && t < |reqs| && old(reqs)[t].finished && t !in flight
    {
      Unmark(r);
      ghost var s1 := Now();
      var overlap;
      ghost var at;
      done, overlap, at := IterateInProgress(r);
      started := !overlap;
      assert old(inProgress) + [] == old(inProgress);
      if started {
        Admit(s1, r, done);
      } else {
        Park(r);
      }
    }

    /** One turn of the updater thread on the i-th pending request. */
    method Retry(i: nat) returns (done: seq<nat>, started: bool)
      requires Valid() && i < |pending|
      modifies this`inProgress, this`pending, this`flight
      ensures Valid() && (started <==> Clear(old(Now()), old(pending)[i]))
      ensures var r := old(pending)[i]; flight == if started then old(flight)[r := (reqs[r].page, reqs[r].count)] else old(flight)
      ensures pending == if started then old(pending)[..i] + old(pending)[i + 1..] else old(pending)
      ensures Together(inProgress, done, old(inProgress) + if started then [old(pending)[i]] else [])
      ensures started ==> inProgress == Filter(old(inProgress), reqs, false) + [old(pending)[i]]
      ensures forall t :: t in done ==> t < |reqs| && reqs[t].finished && t !in flight
    {
      ghost var s := Now();
      var r := pending[i];
      assert r in pending;
      var overlap;
      ghost var at;
      done, overlap, at := IterateInProgress(r);
      started := !overlap;
      assert old(inProgress) + [] == old(inProgress);
      if started {
        PendingLess(pending, i);
        pending := pending[..i] + pending[i + 1..];
        Admit(s, r, done);
      }
    }

    /** With nothing pending, one turn of the updater thread only collects finished requests. */
    method Collect() returns (done: seq<nat>)
      requires Valid() && pending == []
      modifies this`inProgress
      ensures Valid() && inProgress == Filter(old(inProgress), reqs, false)
      ensures Together(inProgress, done, old(inProgress)) && forall t :: t in done ==> t < |reqs| && reqs[t].finished && t !in flight
    {
      ghost var s := Now();
      var kept;
      kept, done := [], [];
      for i := 0 to |inProgress|
        invariant Now() == s && kept == Filter(inProgress[..i], reqs, false) && done == Filter(inProgress[..i], reqs, true)
      {
        FilterNext(inProgress, reqs, i);
        var curr := inProgress[i];
        if reqs[curr].finished { done := done + [curr]; } else { kept := kept + [curr]; }
      }
      KeepsFlights(s, |inProgress|);
      ScanSplits(s, |inProgress|);
      assert s.inProgress[..|s.inProgress|] == s.inProgress && kept + s.inProgress[|s.inProgress|..] == kept;
      inProgress := kept;
    }

    /** The device is done with the request; its fields still show the old range. */
    method IoDone(r: nat)
      requires Valid() && r in flight
      modifies this`flight
      ensures Valid() && flight == old(flight) - {r} && r in inProgress && r < |reqs|
    {
      assert FlightOK(Now(), r);
      ghost var s := Now();
      flight := flight - {r};
      forall t | t in flight ensures FlightOK(Now(), t) { assert FlightOK(s, t); }
    }

    /** The request takes its next range while it is still on the list and not marked finished. */
    method Advance(r: nat, page: nat, count: nat)
      requires Valid() && r < |reqs| && r !in flight && r !in pending
      modifies this`reqs
      ensures Valid() && reqs == old(reqs)[r := old(reqs)[r].(page := page, count := count)]
    {
      ghost var s := Now();
      reqs := reqs[r := reqs[r].(page := page, count := count)];
      forall t | t in flight ensures FlightOK(Now(), t) { assert FlightOK(s, t); }
    }

    /** Only now is the request marked finished. */
    method Flag(r: nat)
      requires Valid() && r < |reqs| && r !in flight && r !in pending
      modifies this`reqs
      ensures Valid() && reqs == old(reqs)[r := old(reqs)[r].(finished := true)]
    {
      ghost var s := Now();
      reqs := reqs[r := reqs[r].(finished := true)];
      forall t | t in flight ensures FlightOK(Now(), t) { assert FlightOK(s, t); }
    }
  }

  lemma PendingWithout(s: seq<nat>, i: nat, t: nat)
    requires i < |s| && forall j, k :: 0 <= j < k < |s| ==> s[j] != s[k]
    ensures t in s[..i] + s[i + 1..] <==> t in s && t != s[i]
  {
    assert s == s[..i] + [s[i]] + s[i + 1..];
    var front, rest := s[..i], s[i + 1..];
    forall j | 0 <= j < |front| ensures front[j] != s[i] {}
    forall j | 0 <= j < |rest| ensures rest[j] != s[i] {}
  }

  lemma PendingLess(s: seq<nat>, i: nat)
    requires i < |s| && forall j, k :: 0 <= j < k < |s| ==> s[j] != s[k]
    ensures var p := s[..i] + s[i + 1..];
      (forall t: nat :: t in p <==> t in s && t != s[i]) && forall j, k :: 0 <= j < k < |p| ==> p[j] != p[k]
  {
    var p := s[..i] + s[i + 1..];
    forall t: nat ensures t in p <==> t in s && t != s[i] { PendingWithout(s, i, t); }
    assert forall j :: 0 <= j < |p| ==> p[j] == s[if j < i then j else j + 1];
  }

  lemma Unmarked(s: State, s': State, r: nat)
    requires UpdaterOK(s) && r < |s.reqs| && r !in s.inProgress && s' == s.(reqs := s.reqs[r := s.reqs[r].(finished := false)])
    ensures UpdaterOK(s') && (Clear(s', r) <==> Clear(s, r))
    ensures forall t :: t in s.inProgress ==> t < |s.reqs| && s'.reqs[t] == s.reqs[t]
    ensures Filter(s.inProgress, s'.reqs, false) == Filter(s.inProgress, s.reqs, false)
  {
    forall t | t in s'.flight ensures FlightOK(s', t) { assert FlightOK(s, t); }
    forall i | 0 <= i < |s.inProgress| ensures s'.reqs[s.inProgress[i]] == s.reqs[s.inProgress[i]] {
      assert s.inProgress[i] in s.inProgress;
    }
    FilterSame(s.inProgress, s.reqs, s'.reqs);
  }

  lemma {:induction false} FilterSame(s: seq<nat>, reqs: seq<IoReq>, reqs': seq<IoReq>)
    requires AllBelow(s, |reqs|) && |reqs'| == |reqs| && forall i :: 0 <= i < |s| ==> reqs'[s[i]] == reqs[s[i]]
    ensures Filter(s, reqs', false) == Filter(s, reqs, false)
  {
    if s != [] { FilterSame(s[1..], reqs, reqs'); }
  }

  /**
   At any moment the ranges on their way to the device share no page, although finished requests
   change their range before they are marked and stale ranges may be compared.
   */
  lemma FlightsShareNoPage(s: State, r: nat, t: nat, p: nat)
    requires UpdaterOK(s) && r in s.flight && t in s.flight && r != t
    ensures !(Within(p, s.flight[r].0, s.flight[r].1) && Within(p, s.flight[t].0, s.flight[t].1))
  {
    assert FlightOK(s, r) && FlightOK(s, t) && Apart(s.flight[r], s.flight[t]);
    OverlapsIffShared(s.flight[r].0, s.flight[r].1, s.flight[t].0, s.flight[t].1);
  }

  predicate Blocks(s: State, r: nat, i: nat)
    requires AllBelow(s.inProgress, |s.reqs|) && r < |s.reqs| && i < |s.inProgress|
  {
    var t := s.reqs[s.inProgress[i]];
    !t.finished && Overlaps(s.reqs[r].page, s.reqs[r].count, t.page, t.count)
  }

  predicate Scanned(s: State, r: nat, i: nat)
    requires AllBelow(s.inProgress, |s.reqs|) && r < |s.reqs|
  {
    forall k :: 0 <= k < i && k < |s.inProgress| ==> !Blocks(s, r, k)
  }

  lemma ScanEnds(s: State, r: nat, i: nat)
    requires Listed(s) && r < |s.reqs| && i <= |s.inProgress| && Scanned(s, r, i) && (i < |s.inProgress| ==> Blocks(s, r, i))
    ensures Clear(s, r) <==> i == |s.inProgress|
    ensures s.inProgress[..|s.inProgress|] == s.inProgress
  {
    if i == |s.inProgress| {
      forall k | 0 <= k < |s.inProgress| && !s.reqs[s.inProgress[k]].finished
        ensures !Overlaps(s.reqs[r].page, s.reqs[r].count, s.reqs[s.inProgress[k]].page, s.reqs[s.inProgress[k]].count)
      {
        assert !Blocks(s, r, k);
      }
    }
  }

  lemma ScanSplits(s: State, i: nat)
    requires AllBelow(s.inProgress, |s.reqs|) && i <= |s.inProgress|
    ensures var kept, done := Filter(s.inProgress[..i], s.reqs, false), Filter(s.inProgress[..i], s.reqs, true);
      Together(kept + s.inProgress[i..], done, s.inProgress) && forall t :: t in done ==> t < |s.reqs| && s.reqs[t].finished
  {
    var list := s.inProgress[..i];
    FilterSplits(list, s.reqs);
    assert s.inProgress == list + s.inProgress[i..];
    TogetherMore(Filter(list, s.reqs, false), Filter(list, s.reqs, true), list, s.inProgress[i..]);
    forall t | t in Filter(list, s.reqs, true) ensures t < |s.reqs| && s.reqs[t].finished { FilterMember(list, s.reqs, true, t); }
  }

  lemma FilterNext(list: seq<nat>, reqs: seq<IoReq>, i: nat)
    requires i < |list| && AllBelow(list, |reqs|)
    ensures Filter(list[..i + 1], reqs, false) == Filter(list[..i], reqs, false) + if reqs[list[i]].finished then [] else [list[i]]
    ensures Filter(list[..i + 1], reqs, true) == Filter(list[..i], reqs, true) + if reqs[list[i]].finished then [list[i]] else []
  {
    assert list[..i + 1] == list[..i] + [list[i]];
    FilterAppend(list[..i], list[i], reqs, false);
    FilterAppend(list[..i], list[i], reqs, true);
  }

  /** Taking finished requests off the list touches nothing in flight. */
  lemma KeepsFlights(s: State, i: nat)
    requires UpdaterOK(s) && i <= |s.inProgress|
    ensures var list := Filter(s.inProgress[..i], s.reqs, false) + s.inProgress[i..];
      UpdaterOK(s.(inProgress := list)) && forall t :: t in list ==> t in s.inProgress
    ensures forall t :: t in Filter(s.inProgress[..i], s.reqs, true) ==> t in s.inProgress && t !in s.flight
  {
    var list := Filter(s.inProgress[..i], s.reqs, false) + s.inProgress[i..];
    var s' := s.(inProgress := list);
    assert s.inProgress == s.inProgress[..i] + s.inProgress[i..];
    forall t: nat ensures t in list <==> (t in s.inProgress[..i] && !s.reqs[t].finished) || t in s.inProgress[i..] {
      FilterMember(s.inProgress[..i], s.reqs, false, t);
    }
    forall k | 0 <= k < |list| ensures list[k] < |s.reqs| {
      assert list[k] in list;
      InList(s.inProgress, list[k], |s.reqs|);
    }
    forall r | r in s'.flight ensures FlightOK(s', r) { assert FlightOK(s, r); }
    forall t | t in Filter(s.inProgress[..i], s.reqs, true) ensures t in s.inProgress && t !in s.flight {
      FilterMember(s.inProgress[..i], s.reqs, true, t);
      assert t in s.flight ==> FlightOK(s, t);
    }
  }
}
