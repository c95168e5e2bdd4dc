/**
 Chunked asynchronous metadata I/O, as a state machine.  One context transfers count pages in chunks
 of at most maxCount pages through up to 128 sub-requests.  The issuing thread starts them one after
 the other while those already started run concurrently; one action is one atomic operation.
 */
module MetadataIo {
  import opened Division

  datatype Phase =
    | Waiting                        // not started
    | Begun                          // req_remaining counts it
    | Counted                        // req_active counts it as well, before it looks for a chunk
    | Took(curr: nat, start: bool)   // req_current incremented to curr
    | Ranged(chunk: nat, start: bool)
    | Ending(start: bool)            // no chunk left, before req_remaining is decremented
    | Calling(start: bool)           // last of all, before on_complete is called
    | Ended(start: bool)             // buffer released
    | Flying(chunk: nat)             // handed to the updater or the device
    | Landed                         // transfer done, before it looks for the next chunk
    | Flagged(chunk: nat)            // marked finished, with a next chunk
    | Spent                          // marked finished, without a next chunk
    | Retired                        // no longer counted by req_active

  /** The issuing thread: starting request i, or, after the last, dropping its own two counts. */
  datatype Issuer = Launch(i: nat) | Completing | Leaving | Gone

  datatype State = State(
    current: int,          // req_current
    remaining: int,        // req_remaining
    active: int,           // req_active
    issuer: Issuer,
    phases: seq<Phase>,
    moved: seq<nat>,       // how often each chunk was transferred
    completes: nat,        // calls of on_complete
    frees: nat)            // releases of the context

  datatype Action =
    | Begin(i: nat)
    | CountIn(i: nat)
    | Take(i: nat)
    | SetRange(i: nat)
    | RunOut(i: nat)
    | DropRemaining(i: nat)
    | CallBack(i: nat)
    | Submit(i: nat)
    | Flag(i: nat)
    | FinishStart(i: nat)
    | Land(i: nat)
    | Resubmit(i: nat)
    | Finalize(i: nat)
    | IssuerDrop
    | IssuerCall
    | IssuerLeave

  function Put(s: State, i: nat, p: Phase): State
    requires i < |s.phases|
  {
    s.(phases := s.phases[i := p])
  }

  predicate Is(s: State, i: nat) {
    i < |s.phases|
  }

  predicate Enabled(s: State, a: Action) {
    match a
    case Begin(i) => Is(s, i) && s.issuer == Launch(i) && s.phases[i].Waiting?
    case CountIn(i) => Is(s, i) && s.phases[i].Begun?
    case Take(i) => Is(s, i) && (s.phases[i].Counted? || s.phases[i].Landed?) && s.current >= -1
    case SetRange(i) => Is(s, i) && s.phases[i].Took? && s.phases[i].curr < |s.moved|
    case RunOut(i) => Is(s, i) && s.phases[i].Took? && s.phases[i].curr >= |s.moved|
    case DropRemaining(i) => Is(s, i) && s.phases[i].Ending?
    case CallBack(i) => Is(s, i) && s.phases[i].Calling?
    case Submit(i) => Is(s, i) && s.phases[i].Ranged? && s.phases[i].start
    case Flag(i) => Is(s, i) && ((s.phases[i].Ranged? && !s.phases[i].start) || (s.phases[i].Ended? && !s.phases[i].start))
    case FinishStart(i) => Is(s, i) && s.phases[i].Ended? && s.phases[i].start
    case Land(i) => Is(s, i) && s.phases[i].Flying? && s.phases[i].chunk < |s.moved|
    case Resubmit(i) => Is(s, i) && s.phases[i].Flagged?
    case Finalize(i) => Is(s, i) && s.phases[i].Spent?
    case IssuerDrop => s.issuer == Launch(|s.phases|)
    case IssuerCall => s.issuer.Completing?
    case IssuerLeave => s.issuer.Leaving?
  }

  /** One decrement of req_active; the thread that reaches zero releases the context. */
  function DropActive(s: State): State {
    s.(active := s.active - 1, frees := if s.active - 1 == 0 then s.frees + 1 else s.frees)
  }

  function NextLaunch(s: State): State {
    if s.issuer.Launch? then s.(issuer := Launch(s.issuer.i + 1)) else s
  }

  function Apply(s: State, a: Action): State
    requires Enabled(s, a)
  {
    match a
    case Begin(i) => Put(s, i, Begun).(remaining := s.remaining + 1)
    case CountIn(i) => Put(s, i, Counted).(active := s.active + 1)
    case Take(i) => Put(s, i, Took(s.current + 1, s.phases[i].Counted?)).(current := s.current + 1)
    case SetRange(i) => Put(s, i, Ranged(s.phases[i].curr, s.phases[i].start))
    case RunOut(i) => Put(s, i, Ending(s.phases[i].start))
    case DropRemaining(i) =>
      Put(s, i, if s.remaining - 1 == 0 then Calling(s.phases[i].start) else Ended(s.phases[i].start)).(remaining := s.remaining - 1)
    case CallBack(i) => Put(s, i, Ended(s.phases[i].start)).(completes := s.completes + 1)
    case Submit(i) => NextLaunch(Put(s, i, Flying(s.phases[i].chunk)))
    case Flag(i) => Put(s, i, if s.phases[i].Ranged? then Flagged(s.phases[i].chunk) else Spent)
    case FinishStart(i) => NextLaunch(DropActive(Put(s, i, Retired)))
    case Land(i) => Put(s, i, Landed).(moved := s.moved[s.phases[i].chunk := s.moved[s.phases[i].chunk] + 1])
    case Resubmit(i) => Put(s, i, Flying(s.phases[i].chunk))
    case Finalize(i) => DropActive(Put(s, i, Retired))
    case IssuerDrop => s.(remaining := s.remaining - 1, issuer := if s.remaining - 1 == 0 then Completing else Leaving)
    case IssuerCall => s.(completes := s.completes + 1, issuer := Leaving)
    case IssuerLeave => DropActive(s).(issuer := Gone)
  }

  /** Chunks needed for count pages, and the sub-requests set up for them. */
  function Chunks(count: nat, maxCount: nat): nat
    requires maxCount > 0
  {
    Quot(count + maxCount - 1, maxCount)
  }

  const REQS_LIMIT: nat := 128

  predicate Init(s: State, count: nat, maxCount: nat)
    requires maxCount > 0
  {
    && s.current == -1 && s.remaining == 1 && s.active == 1 && s.issuer == Launch(0) && s.completes == 0 && s.frees == 0
    && |s.moved| == Chunks(count, maxCount) && (forall k :: 0 <= k < |s.moved| ==> s.moved[k] == 0)
    && |s.phases| == (if |s.moved| < REQS_LIMIT then |s.moved| else REQS_LIMIT)
    && forall i :: 0 <= i < |s.phases| ==> s.phases[i] == Waiting
  }

  // ----- the invariant -----

  /** Phases counted by req_remaining and by req_active. */
  predicate HoldsRemaining(p: Phase) {
    p.Begun? || p.Counted? || p.Took? || p.Ranged? || p.Ending? || p.Flying? || p.Landed? || p.Flagged?
  }

  predicate HoldsActive(p: Phase) {
    !p.Waiting? && !p.Begun? && !p.Retired?
  }

  predicate Starting(p: Phase) {
    p.Begun? || p.Counted? || ((p.Took? || p.Ranged? || p.Ending? || p.Calling? || p.Ended?) && p.start)
  }

  /** The request is responsible for the transfer of chunk k. */
  predicate Owns(p: Phase, k: int) {
    (p.Took? && p.curr == k) || ((p.Ranged? || p.Flying? || p.Flagged?) && p.chunk == k)
  }

  predicate OutOfWork(p: Phase) {
    p.Ending? || p.Calling? || p.Ended? || p.Spent? || p.Retired?
  }

  ghost function Remaining(phases: seq<Phase>): set<nat> {
    set i | 0 <= i < |phases| && HoldsRemaining(phases[i])
  }

  ghost function Active(phases: seq<Phase>): set<nat> {
    set i | 0 <= i < |phases| && HoldsActive(phases[i])
  }

  ghost function Callers(phases: seq<Phase>): set<nat> {
    set i | 0 <= i < |phases| && phases[i].Calling?
  }

  function Bit(b: bool): nat {
    if b then 1 else 0
  }

  /** One request as the issuer and the chunk counter see it. */
  predicate ReqOK(s: State, i: nat)
    requires i < |s.phases|
  {
    var p := s.phases[i];
    && (s.issuer.Launch? && i >= s.issuer.i ==> p.Waiting? || (i == s.issuer.i && Starting(p)))
    && (!(s.issuer.Launch? && i >= s.issuer.i) ==> !p.Waiting? && !Starting(p))
    && (p.Took? ==> i <= p.curr <= s.current)
    && (p.Ranged? || p.Flying? || p.Flagged? ==> i <= p.chunk <= s.current && p.chunk < |s.moved|)
    && (!p.Waiting? && !p.Begun? && !p.Counted? ==> i <= s.current)
    && (OutOfWork(p) ==> s.current >= |s.moved|)
  }

  /** One chunk: untouched, in somebody's hands, or transferred once. */
  predicate ChunkOK(s: State, k: nat)
    requires k < |s.moved|
  {
    && s.moved[k] <= 1
    && (k > s.current ==> s.moved[k] == 0)
    && (k <= s.current && s.moved[k] == 0 ==> exists i :: 0 <= i < |s.phases| && Owns(s.phases[i], k))
    && (s.moved[k] == 1 ==> forall i :: 0 <= i < |s.phases| ==> !Owns(s.phases[i], k))
  }

  ghost predicate OneOwner(s: State) {
    forall i, j, k :: 0 <= i < |s.phases| && 0 <= j < |s.phases| && Owns(s.phases[i], k) && Owns(s.phases[j], k) ==> i == j
  }

  ghost predicate CountsOK(s: State) {
    && s.remaining == Bit(s.issuer.Launch?) + |Remaining(s.phases)|
    && s.active == Bit(!s.issuer.Gone?) + |Active(s.phases)|
    && s.completes + |Callers(s.phases)| + Bit(s.issuer.Completing?) == Bit(s.remaining == 0)
    && s.frees == Bit(s.active == 0)
  }

  ghost predicate Inv(s: State) {
    && s.current >= -1
    && (s.issuer.Launch? ==> s.issuer.i <= |s.phases| && s.current >= s.issuer.i - 1)
    && |s.phases| > 0
    && (forall i: nat :: i < |s.phases| ==> ReqOK(s, i))
    && (forall k: nat :: k < |s.moved| ==> ChunkOK(s, k))
    && OneOwner(s)
    && CountsOK(s)
  }

  lemma InitOK(s: State, count: nat, maxCount: nat)
    requires maxCount > 0 && count > 0 && Init(s, count, maxCount)
    ensures Inv(s)
  {
    assert Remaining(s.phases) == {} && Active(s.phases) == {} && Callers(s.phases) == {};
    assert Chunks(count, maxCount) > 0;
  }

  lemma CardUpdate(w: set<nat>, i: nat, now: bool)
    ensures |if now then w + {i} else w - {i}| == |w| - Bit(i in w) + Bit(now)
  {
  }

  lemma RemainingUpdate(phases: seq<Phase>, i: nat, p: Phase)
    requires i < |phases|
    ensures |Remaining(phases[i := p])| == |Remaining(phases)| - Bit(HoldsRemaining(phases[i])) + Bit(HoldsRemaining(p))
  {
    assert Remaining(phases[i := p]) == if HoldsRemaining(p) then Remaining(phases) + {i} else Remaining(phases) - {i};
    CardUpdate(Remaining(phases), i, HoldsRemaining(p));
  }

  lemma ActiveUpdate(phases: seq<Phase>, i: nat, p: Phase)
    requires i < |phases|
    ensures |Active(phases[i := p])| == |Active(phases)| - Bit(HoldsActive(phases[i])) + Bit(HoldsActive(p))
  {
    var phases' := phases[i := p];
    forall j: nat ensures j in Active(phases') <==> if j == i then HoldsActive(p) else j in Active(phases) {}
    assert Active(phases') == if HoldsActive(p) then Active(phases) + {i} else Active(phases) - {i};
    CardUpdate(Active(phases), i, HoldsActive(p));
  }

  lemma CallersUpdate(phases: seq<Phase>, i: nat, p: Phase)
    requires i < |phases|
    ensures |Callers(phases[i := p])| == |Callers(phases)| - Bit(phases[i].Calling?) + Bit(p.Calling?)
  {
    assert Callers(phases[i := p]) == if p.Calling? then Callers(phases) + {i} else Callers(phases) - {i};
    CardUpdate(Callers(phases), i, p.Calling?);
  }

  /** While somebody is counted, the counter is positive. */
  lemma Counted1(phases: seq<Phase>, i: nat)
    requires i < |phases|
    ensures HoldsRemaining(phases[i]) ==> |Remaining(phases)| >= 1
    ensures HoldsActive(phases[i]) ==> |Active(phases)| >= 1
    ensures phases[i].Calling? ==> |Callers(phases)| >= 1
  {
    if HoldsRemaining(phases[i]) { assert i in Remaining(phases); }
    if HoldsActive(phases[i]) { assert i in Active(phases); }
    if phases[i].Calling? { assert i in Callers(phases); }
  }

  predicate Issuing(a: Action) {
    a.IssuerDrop? || a.IssuerCall? || a.IssuerLeave?
  }

  lemma StepCounts(s: State, a: Action)
    requires Inv(s) && Enabled(s, a)
    ensures CountsOK(Apply(s, a))
  {
    var s' := Apply(s, a);
    var i := if Issuing(a) then 0 else a.i;
    assert ReqOK(s, i);
    Counted1(s.phases, i);
    RemainingUpdate(s.phases, i, s'.phases[i]);
    ActiveUpdate(s.phases, i, s'.phases[i]);
    CallersUpdate(s.phases, i, s'.phases[i]);
    assert s'.phases == s.phases[i := s'.phases[i]];
  }

  lemma StepReq(s: State, a: Action, j: nat)
    requires Inv(s) && Enabled(s, a) && j < |s.phases|
    ensures |Apply(s, a).phases| == |s.phases| && |Apply(s, a).moved| == |s.moved|
    ensures ReqOK(Apply(s, a), j)
  {
    assert ReqOK(s, j);
    if Issuing(a) {
      IssuerReq(s, a, j);
    } else if j == a.i {
      OwnReq(s, a);
    } else {
      assert ReqOK(s, a.i);
      OtherReq(s, a, j);
    }
  }

  lemma IssuerReq(s: State, a: Action, j: nat)
    requires Enabled(s, a) && Issuing(a) && j < |s.phases| && ReqOK(s, j)
    ensures Apply(s, a).phases == s.phases && ReqOK(Apply(s, a), j)
  {
  }

  lemma OwnReq(s: State, a: Action)
    requires Enabled(s, a) && !Issuing(a) && ReqOK(s, a.i) && s.current >= -1
    requires s.issuer.Launch? ==> s.current >= s.issuer.i - 1
    ensures |Apply(s, a).phases| == |s.phases| && ReqOK(Apply(s, a), a.i)
  {
    match a
    case Begin(i) =>
    case CountIn(i) =>
    case Take(i) =>
    case SetRange(i) =>
    case RunOut(i) =>
    case DropRemaining(i) =>
    case CallBack(i) =>
    case Submit(i) =>
    case Flag(i) =>
    case FinishStart(i) =>
    case Land(i) =>
    case Resubmit(i) =>
    case Finalize(i) =>
  }

  lemma OtherReq(s: State, a: Action, j: nat)
    requires Enabled(s, a) && !Issuing(a) && j < |s.phases| && j != a.i && ReqOK(s, a.i) && ReqOK(s, j)
    ensures |Apply(s, a).phases| == |s.phases| && ReqOK(Apply(s, a), j)
  {
    assert a.Submit? || a.FinishStart? ==> Starting(s.phases[a.i]);
  }

  lemma StepIssuer(s: State, a: Action)
    requires Inv(s) && Enabled(s, a)
    ensures var s' := Apply(s, a);
      s'.current >= -1 && (s'.issuer.Launch? ==> s'.issuer.i <= |s'.phases| && s'.current >= s'.issuer.i - 1)
  {
    if !Issuing(a) { assert ReqOK(s, a.i); }
  }

  lemma StepOwner(s: State, a: Action)
    requires Inv(s) && Enabled(s, a)
    ensures OneOwner(Apply(s, a))
  {
    if !Issuing(a) { OwnsKept(s, a); }
  }

  /** Only the counter hands out chunks. */
  lemma OwnsKept(s: State, a: Action)
    requires Inv(s) && Enabled(s, a) && !Issuing(a)
    ensures var s' := Apply(s, a); s'.phases == s.phases[a.i := s'.phases[a.i]]
    ensures forall k: int :: Owns(Apply(s, a).phases[a.i], k) ==> Owns(s.phases[a.i], k) || (a.Take? && k == s.current + 1)
    ensures forall k: int :: Owns(s.phases[a.i], k) ==>
      Owns(Apply(s, a).phases[a.i], k) || (a.Land? && k == s.phases[a.i].chunk) || k >= |s.moved|
    ensures forall j, k: int :: 0 <= j < |s.phases| && Owns(s.phases[j], k) ==> k <= s.current
  {
    assert ReqOK(s, a.i);
    forall j: nat, k: int | j < |s.phases| && Owns(s.phases[j], k) ensures k <= s.current { assert ReqOK(s, j); }
  }

  /** A chunk in somebody's hands stays there until its transfer is done. */
  lemma HeldChunk(s: State, a: Action, k: nat)
    requires Inv(s) && Enabled(s, a) && !Issuing(a) && k < |s.moved|
    requires k <= Apply(s, a).current && Apply(s, a).moved[k] == 0
    ensures exists i :: 0 <= i < |s.phases| && Owns(Apply(s, a).phases[i], k)
  {
    OwnsKept(s, a);
    var s' := Apply(s, a);
    if k <= s.current {
      assert ChunkOK(s, k);
      var j :| 0 <= j < |s.phases| && Owns(s.phases[j], k);
      assert Owns(s'.phases[j], k);
    } else {
      assert Owns(s'.phases[a.i], k);
    }
  }

  lemma DoneChunk(s: State, a: Action, k: nat, j: nat)
    requires Inv(s) && Enabled(s, a) && !Issuing(a) && k < |s.moved| && j < |s.phases|
    ensures Apply(s, a).moved[k] <= 1 && (k > Apply(s, a).current ==> Apply(s, a).moved[k] == 0)
    ensures Apply(s, a).moved[k] == 1 ==> !Owns(Apply(s, a).phases[j], k)
  {
    OwnsKept(s, a);
    assert ChunkOK(s, k) && ReqOK(s, a.i);
    if a.Land? { assert Owns(s.phases[a.i], s.phases[a.i].chunk); }
  }

  lemma StepChunk(s: State, a: Action, k: nat)
    requires Inv(s) && Enabled(s, a) && k < |s.moved|
    ensures |Apply(s, a).moved| == |s.moved| && ChunkOK(Apply(s, a), k)
  {
    assert ChunkOK(s, k);
    if !Issuing(a) {
      var s' := Apply(s, a);
      StepReq(s, a, 0);
      if k <= s'.current && s'.moved[k] == 0 { HeldChunk(s, a, k); }
      forall j: nat | j < |s.phases|
        ensures s'.moved[k] <= 1 && (k > s'.current ==> s'.moved[k] == 0) && (s'.moved[k] == 1 ==> !Owns(s'.phases[j], k))
      {
        DoneChunk(s, a, k, j);
      }
      DoneChunk(s, a, k, 0);
    }
  }

  lemma StepOK(s: State, a: Action)
    requires Inv(s) && Enabled(s, a)
    ensures Inv(Apply(s, a))
  {
    StepIssuer(s, a);
    StepOwner(s, a);
    StepCounts(s, a);
    forall j: nat | j < |s.phases| ensures |Apply(s, a).phases| == |s.phases| && ReqOK(Apply(s, a), j) { StepReq(s, a, j); }
    StepReq(s, a, 0);
    forall k: nat | k < |s.moved| ensures ChunkOK(Apply(s, a), k) { StepChunk(s, a, k); }
  }
}
