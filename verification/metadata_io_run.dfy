/** What chunked metadata I/O promises over whole runs without I/O errors. */
module MetadataIoRun {
  import opened Division
  import opened MetadataIo
  import opened Sums

  // ----- chunks and pages -----

  /** Pages of chunk k. */
  function ChunkSize(count: nat, maxCount: nat, k: nat): int {
    if count - Times(k, maxCount) <= maxCount then count - Times(k, maxCount) else maxCount
  }

  /** Page o of the range belongs to one chunk only, and chunks cover nothing outside the range. */
  lemma PageInOneChunk(count: nat, maxCount: nat, o: nat, k: nat)
    requires maxCount > 0 && count > 0
    ensures o < count ==> Quot(o, maxCount) < Chunks(count, maxCount)
    ensures k < Chunks(count, maxCount) ==> ChunkSize(count, maxCount, k) > 0
    ensures k < Chunks(count, maxCount) ==>
      (Times(k, maxCount) <= o < Times(k, maxCount) + ChunkSize(count, maxCount, k) <==> o < count && k == Quot(o, maxCount))
  {
    var last := count + maxCount - 1;
    Split(o, maxCount);
    Split(last, maxCount);
    if k < Quot(o, maxCount) { TimesMono(k, Quot(o, maxCount), maxCount); }
    if Quot(o, maxCount) < k { TimesMono(Quot(o, maxCount), k, maxCount); }
    if k < Quot(last, maxCount) { TimesMono(k, Quot(last, maxCount), maxCount); }
    assert Quot(last, maxCount) == Quot(count - 1, maxCount) + 1;
    Order(count - 1, o, maxCount);
  }

  /** The buffer of request i was allocated for chunk i; later chunks are not larger. */
  lemma FitsBuffer(s: State, i: nat, count: nat, maxCount: nat)
    requires Inv(s) && i < |s.phases| && (s.phases[i].Ranged? || s.phases[i].Flying? || s.phases[i].Flagged?)
    requires maxCount > 0 && count > 0 && |s.moved| == Chunks(count, maxCount)
    ensures 0 < ChunkSize(count, maxCount, s.phases[i].chunk) <= ChunkSize(count, maxCount, i)
  {
    assert ReqOK(s, i);
    var k := s.phases[i].chunk;
    PageInOneChunk(count, maxCount, 0, k);
    if i < k { TimesMono(i, k, maxCount); }
  }

  // ----- completion and release -----

  predicate AllMovedOnce(s: State) {
    forall k :: 0 <= k < |s.moved| ==> s.moved[k] == 1
  }

  /** Once nothing remains, every chunk has been transferred exactly once. */
  lemma NothingRemains(s: State)
    requires Inv(s) && s.remaining == 0
    ensures !s.issuer.Launch? && AllMovedOnce(s)
  {
    assert Remaining(s.phases) == {};
    forall i: nat | i < |s.phases| ensures OutOfWork(s.phases[i]) && s.current >= |s.moved| {
      assert ReqOK(s, i);
      assert i !in Remaining(s.phases);
    }
    assert OutOfWork(s.phases[0]);
    forall k: nat | k < |s.moved| ensures s.moved[k] == 1 {
      assert ChunkOK(s, k);
    }
  }

  /** on_complete is called once, after all chunks. */
  lemma CompletesOnceAfterAll(s: State)
    requires Inv(s) && s.completes > 0
    ensures s.completes == 1 && AllMovedOnce(s) && !s.issuer.Completing?
    ensures forall i :: 0 <= i < |s.phases| ==> !s.phases[i].Calling? && !s.phases[i].Flying?
  {
    NothingRemains(s);
    forall i: nat | i < |s.phases| ensures !s.phases[i].Calling? && !s.phases[i].Flying? {
      Counted1(s.phases, i);
    }
  }

  /** The context is released once, when nobody can use it any more. */
  lemma FreedOnceUnused(s: State)
    requires Inv(s) && s.frees > 0
    ensures s.frees == 1 && s.completes == 1 && AllMovedOnce(s) && forall a :: !Enabled(s, a)
  {
    assert Active(s.phases) == {};
    forall i: nat | i < |s.phases| ensures s.phases[i].Retired? {
      assert ReqOK(s, i);
      assert i !in Active(s.phases);
    }
    assert Remaining(s.phases) == {} && Callers(s.phases) == {};
    NothingRemains(s);
  }

  // ----- progress -----

  /** The next action of a request that req_active counts, or that is being started. */
  function NextOf(s: State, i: nat): Action
    requires i < |s.phases|
  {
    match s.phases[i]
    case Waiting => Begin(i)
    case Begun => CountIn(i)
    case Counted => Take(i)
    case Took(c, _) => if c < |s.moved| then SetRange(i) else RunOut(i)
    case Ranged(_, start) => if start then Submit(i) else Flag(i)
    case Ending(_) => DropRemaining(i)
    case Calling(_) => CallBack(i)
    case Ended(start) => if start then FinishStart(i) else Flag(i)
    case Flying(_) => Land(i)
    case Landed => Take(i)
    case Flagged(_) => Resubmit(i)
    case Spent => Finalize(i)
    case Retired => Finalize(i)
  }

  lemma NeverStuck(s: State) returns (a: Action)
    requires Inv(s) && s.frees == 0
    ensures Enabled(s, a)
  {
    match s.issuer
    case Launch(i) =>
      if i == |s.phases| { a := IssuerDrop; } else { assert ReqOK(s, i); a := NextOf(s, i); }
    case Completing => a := IssuerCall;
    case Leaving => a := IssuerLeave;
    case Gone =>
      var i :| i in Active(s.phases);
      assert ReqOK(s, i);
      a := NextOf(s, i);
  }

  /** How many more steps a request may take, new chunks aside. */
  function Rank(p: Phase, chunks: nat): nat {
    match p
    case Waiting => 13
    case Begun => 12
    case Counted => 11
    case Took(c, _) => if c < chunks then 10 else 5
    case Ranged(_, _) => 9
    case Flagged(_) => 8
    case Flying(_) => 7
    case Landed => 6
    case Ending(_) => 4
    case Calling(_) => 3
    case Ended(_) => 2
    case Spent => 1
    case Retired => 0
  }

  function Ranks(s: State): seq<nat> {
    seq(|s.phases|, i requires 0 <= i < |s.phases| => Rank(s.phases[i], |s.moved|))
  }

  function IssuerRank(s: State): nat {
    match s.issuer
    case Launch(_) => 3
    case Completing => 2
    case Leaving => 1
    case Gone => 0
  }

  function ChunksLeft(s: State): nat {
    if s.current + 1 < |s.moved| then |s.moved| - (s.current + 1) else 0
  }

  function Budget(s: State): nat {
    6 * ChunksLeft(s) + Sum(Ranks(s)) + IssuerRank(s)
  }

  lemma OwnRank(s: State, a: Action)
    requires Enabled(s, a) && !Issuing(a)
    ensures var s' := Apply(s, a);
      && s'.phases == s.phases[a.i := s'.phases[a.i]] && |s'.moved| == |s.moved| && IssuerRank(s') == IssuerRank(s)
      && 6 * ChunksLeft(s') + Rank(s'.phases[a.i], |s.moved|) < 6 * ChunksLeft(s) + Rank(s.phases[a.i], |s.moved|)
  {
  }

  lemma StepBudget(s: State, a: Action)
    requires Enabled(s, a)
    ensures Budget(Apply(s, a)) < Budget(s)
  {
    var s' := Apply(s, a);
    if Issuing(a) {
      assert Ranks(s') == Ranks(s);
    } else {
      OwnRank(s, a);
      assert Ranks(s') == Ranks(s)[a.i := Rank(s'.phases[a.i], |s.moved|)];
      SumUpdate(Ranks(s), a.i, Rank(s'.phases[a.i], |s.moved|));
    }
  }

  predicate IsRun(s: State, states: seq<State>, actions: seq<Action>) {
    && |states| == |actions| + 1 && states[0] == s
    && forall i :: 0 <= i < |actions| ==> Enabled(states[i], actions[i]) && states[i + 1] == Apply(states[i], actions[i])
  }

  /**
   Every interleaving keeps the invariant and has at most Budget(s) steps; when no step is left, all
   chunks were transferred exactly once, on_complete was called once and the context released once.
   */
  lemma {:induction false} EveryRunCompletes(s: State, states: seq<State>, actions: seq<Action>)
    requires Inv(s) && IsRun(s, states, actions)
    ensures var last := states[|actions|];
      && Inv(last) && |actions| + Budget(last) <= Budget(s) && |last.moved| == |s.moved|
      && ((forall a :: !Enabled(last, a)) ==> AllMovedOnce(last) && last.completes == 1 && last.frees == 1)
    decreases |actions|
  {
    if actions == [] {
      if forall a :: !Enabled(s, a) {
        if s.frees == 0 { var a := NeverStuck(s); }
        FreedOnceUnused(s);
      }
    } else {
      StepOK(s, actions[0]);
      StepBudget(s, actions[0]);
      StepReq(s, actions[0], 0);
      EveryRunCompletes(states[1], states[1..], actions[1..]);
    }
  }

  /** Chunk k, which starts k * maxCount pages into the range and has at most maxCount pages, contains page o. */
  predicate HasPage(count: nat, maxCount: nat, k: nat, o: nat) {
    k * maxCount <= o < k * maxCount + (if count - k * maxCount <= maxCount then count - k * maxCount else maxCount)
  }

  /** One transfer of one chunk contained page o. */
  predicate MovedOnce(moved: seq<nat>, count: nat, maxCount: nat, o: nat) {
    && (exists k :: 0 <= k < |moved| && moved[k] == 1 && HasPage(count, maxCount, k, o))
    && (forall k, m :: 0 <= k < |moved| && 0 <= m < |moved| && HasPage(count, maxCount, k, o) && HasPage(count, maxCount, m, o) ==> k == m)
  }

  lemma OneChunkHasPage(count: nat, maxCount: nat, o: nat, k: nat)
    requires maxCount > 0 && o < count && k < Chunks(count, maxCount)
    ensures HasPage(count, maxCount, k, o) <==> k == Quot(o, maxCount)
  {
    IsProduct(k, maxCount);
    PageInOneChunk(count, maxCount, o, k);
  }

  lemma PageMovedOnce(moved: seq<nat>, count: nat, maxCount: nat, o: nat)
    requires maxCount > 0 && o < count && |moved| == Chunks(count, maxCount) && forall k :: 0 <= k < |moved| ==> moved[k] == 1
    ensures MovedOnce(moved, count, maxCount, o)
  {
    PageInOneChunk(count, maxCount, o, 0);
    forall k: nat | k < |moved| ensures HasPage(count, maxCount, k, o) <==> k == Quot(o, maxCount) {
      OneChunkHasPage(count, maxCount, o, k);
    }
    assert moved[Quot(o, maxCount)] == 1 && HasPage(count, maxCount, Quot(o, maxCount), o);
  }

  /** The whole call: every page of the range is transferred exactly once. */
  lemma EveryPageOnce(s: State, states: seq<State>, actions: seq<Action>, count: nat, maxCount: nat)
    requires maxCount > 0 && count > 0 && Init(s, count, maxCount) && IsRun(s, states, actions)
    requires forall a :: !Enabled(states[|actions|], a)
    ensures var last := states[|actions|];
      && last.completes == 1 && last.frees == 1 && |last.moved| == Chunks(count, maxCount)
      && forall o: nat :: o < count ==> MovedOnce(last.moved, count, maxCount, o)
  {
    InitOK(s, count, maxCount);
    EveryRunCompletes(s, states, actions);
    forall o: nat | o < count ensures MovedOnce(states[|actions|].moved, count, maxCount, o) {
      PageMovedOnce(states[|actions|].moved, count, maxCount, o);
    }
  }
}
