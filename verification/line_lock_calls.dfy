/** What a locking call is told and given, in terms of what it asked for. */
module LineLockCalls {
  import opened LineLockProtocol
  import opened LineLockInvariant
  import opened LineLockSteps
  import opened LineLockProgress
  import opened LineLockPromises

  /** The request is about the lines and the mode that the call a named. */
  predicate Asked(q: Request, a: Action)
    requires IsBegin(a)
  {
    if a.Begin? then q.entries == a.entries && q.mode == a.mode
    else q.entries == [Line(a.line)] && q.mode == Rd
  }

  lemma CallRecorded(s: State, a: Action)
    requires WellFormed(s) && Enabled(s, a) && IsBegin(a)
    ensures Asked(Apply(s, a).reqs[a.r], a)
  {
  }

  /** An idle request can call at any time outside the exclusive section, for any distinct lines in either mode. */
  lemma CallPossible(s: State, r: nat, entries: seq<Entry>, mode: Mode)
    requires Reachable(s) && r < |s.reqs| && s.reqs[r].phase.Idle? && NoWriter(s) && EntriesOK(entries, |s.access|)
    ensures WellFormed(s) && Enabled(s, Begin(r, entries, mode))
    ensures forall l :: 0 <= l < |s.access| ==> Enabled(s, BeginOne(r, l))
  {
    ReachableOK(s);
  }

  /** Only a new call changes what a request is about. */
  lemma CallKept(s: State, a: Action, t: nat)
    requires WellFormed(s) && Enabled(s, a) && t < |s.reqs| && !(IsBegin(a) && a.r == t)
    ensures Apply(s, a).reqs[t].entries == s.reqs[t].entries && Apply(s, a).reqs[t].mode == s.reqs[t].mode
  {
    if !(a.ScanStep? && Grants(s, a.r)) {
      OwnRecord(s, a);
      OwnCallKept(s, a);
    }
  }

  lemma OwnCallKept(s: State, a: Action)
    requires WellFormed(s) && Enabled(s, a) && !(a.ScanStep? && Grants(s, a.r))
    ensures !IsBegin(a) ==>
      Apply(s, a).reqs[a.r].entries == s.reqs[a.r].entries && Apply(s, a).reqs[a.r].mode == s.reqs[a.r].mode
  {
    match a
    case TryStep(_) =>
    case TrySlowStep(_) =>
    case SubStep(_) =>
    case SubSlowStep(_) =>
    case OneSlowStep(_) =>
    case AbortStep(_) =>
    case _ =>
  }

  /** Request r has line l for itself, or shares it with other readers. */
  ghost predicate Owns(s: State, r: nat, l: nat)
    requires r < |s.reqs|
  {
    && l < |s.access| && l in s.reqs[r].locked
    && if s.reqs[r].mode == Wr then
         s.access[l] == ACCESS_WR && forall t :: 0 <= t < |s.reqs| && t != r ==> l !in s.reqs[t].locked
       else
         0 < s.access[l] < ACCESS_WR && forall t :: 0 <= t < |s.reqs| && l in s.reqs[t].locked ==> s.reqs[t].mode == Rd
  }

  ghost predicate OwnsAll(s: State, r: nat)
    requires r < |s.reqs|
  {
    forall k :: 0 <= k < |s.reqs[r].entries| && s.reqs[r].entries[k].Line? ==> Owns(s, r, s.reqs[r].entries[k].line)
  }

  lemma HolderOwnsLine(s: State, r: nat, l: nat)
    requires Inv(s) && r < |s.reqs| && l < |s.access| && l in s.reqs[r].locked
    ensures Owns(s, r, l)
  {
    assert AccessOK(s, l) && r in Holders(s.reqs, l);
    HolderOwns(s, r, l);
    forall t | 0 <= t < |s.reqs| && l in s.reqs[t].locked ensures t in Holders(s.reqs, l) {}
    if s.reqs[r].mode == Rd {
      forall t | 0 <= t < |s.reqs| && l in s.reqs[t].locked ensures s.reqs[t].mode == Rd {
        assert t in Holders(s.reqs, l);
      }
    }
  }

  lemma HeldOwnsAll(s: State, r: nat)
    requires Inv(s) && r < |s.reqs| && s.reqs[r].phase.Held?
    ensures OwnsAll(s, r)
  {
    assert ReqOK(s, r);
    var q := s.reqs[r];
    HeldLocked(q, Queued(s.queues, r));
    forall k: nat | k < |q.entries| && q.entries[k].Line? ensures Owns(s, r, q.entries[k].line) {
      EntryUpTo(q.entries, |q.entries|, k);
      HolderOwnsLine(s, r, q.entries[k].line);
    }
  }

  lemma {:induction false} EntryUpTo(entries: seq<Entry>, i: nat, k: nat)
    requires k < i <= |entries| && entries[k].Line?
    ensures entries[k].line in UpTo(entries, i)
  {
    if k < i - 1 { EntryUpTo(entries, i - 1, k); }
  }

  /** The call at step i is the last one of request r before state j. */
  predicate LastCall(actions: seq<Action>, r: nat, i: nat, j: nat) {
    && i < j <= |actions| && IsBegin(actions[i]) && actions[i].r == r
    && forall k :: i < k < j ==> !(IsBegin(actions[k]) && actions[k].r == r)
  }

  lemma AskedNext(s: State, a: Action, next: State, r: nat, call: Action)
    requires Leads(s, a, next) && IsBegin(call) && r < |s.reqs| && !(IsBegin(a) && a.r == r) && Asked(s.reqs[r], call)
    ensures r < |next.reqs| && Asked(next.reqs[r], call)
  {
    CallKept(s, a, r);
  }

  lemma AskedFirst(s: State, a: Action, next: State)
    requires Leads(s, a, next) && IsBegin(a)
    ensures a.r < |next.reqs| && Asked(next.reqs[a.r], a)
  {
    CallRecorded(s, a);
  }

  lemma {:induction false} AskedSince(states: seq<State>, actions: seq<Action>, r: nat, i: nat, j: nat)
    requires IsRun(states, actions) && LastCall(actions, r, i, j)
    ensures r < |states[j].reqs| && Asked(states[j].reqs[r], actions[i])
  {
    assert Leads(states[j - 1], actions[j - 1], states[j - 1 + 1]);
    if j == i + 1 {
      AskedFirst(states[i], actions[i], states[j]);
    } else {
      AskedSince(states, actions, r, i, j - 1);
      AskedNext(states[j - 1], actions[j - 1], states[j], r, actions[i]);
    }
  }

  /**
   In every run, from a call until the next call of the same request, the request is about the lines
   and the mode of that call, and whenever it is granted it owns all these lines in that mode.
   */
  lemma CallHonoured(states: seq<State>, actions: seq<Action>, r: nat, i: nat, j: nat)
    requires IsRun(states, actions) && LastCall(actions, r, i, j)
    ensures r < |states[j].reqs| && Asked(states[j].reqs[r], actions[i])
    ensures states[j].reqs[r].phase.Held? ==> OwnsAll(states[j], r)
  {
    AskedSince(states, actions, r, i, j);
    RunKeepsInv(states, actions, j);
    if states[j].reqs[r].phase.Held? { HeldOwnsAll(states[j], r); }
  }

  // ----- when an attempt succeeds -----

  ghost predicate Unheld(s: State, l: nat) {
    forall t :: 0 <= t < |s.reqs| ==> l !in s.reqs[t].locked
  }

  /** A writer needs a line that nobody holds, a reader one without writer and without waiters. */
  ghost predicate MayHave(s: State, mode: Mode, l: nat)
    requires l < |s.queues|
  {
    if mode == Wr then Unheld(s, l)
    else s.queues[l] == [] && forall t :: 0 <= t < |s.reqs| && l in s.reqs[t].locked ==> s.reqs[t].mode == Rd
  }

  lemma FreeIffUnheld(s: State, l: nat)
    requires Inv(s) && l < |s.access|
    ensures s.access[l] == 0 <==> Unheld(s, l)
    ensures s.access[l] == ACCESS_WR <==> exists t :: 0 <= t < |s.reqs| && l in s.reqs[t].locked && s.reqs[t].mode == Wr
  {
    assert AccessOK(s, l);
    HolderCount(s, l);
    if Unheld(s, l) { assert Holders(s.reqs, l) == {}; }
    if t :| 0 <= t < |s.reqs| && l in s.reqs[t].locked { assert t in Holders(s.reqs, l); }
    forall t | 0 <= t < |s.reqs| && l in s.reqs[t].locked && s.reqs[t].mode == Wr ensures s.access[l] == ACCESS_WR {
      assert t in Holders(s.reqs, l);
    }
  }

  lemma SlowIffMay(s: State, mode: Mode, l: nat)
    requires Inv(s) && l < |s.access|
    ensures SlowSucceeds(s, mode, l) <==> MayHave(s, mode, l)
  {
    FreeIffUnheld(s, l);
  }

  /** What an attempt is told: the line and the phase that follows. */
  predicate Told(q: Request, line: nat, got: bool, next: Phase, otherwise: Phase) {
    (line in q.locked <==> got) && q.phase == if got then next else otherwise
  }

  lemma TryTold(s: State, r: nat)
    requires WellFormed(s) && CanTry(s, r) && AtLine(s.reqs[r], s.reqs[r].phase.i, |s.access|)
    requires s.reqs[r].entries[s.reqs[r].phase.i].line !in s.reqs[r].locked
    ensures var q := s.reqs[r]; var l := q.entries[q.phase.i].line;
      Told(DoTry(s, r).reqs[r], l, s.access[l] == 0, Trying(q.phase.i + 1), TrySlow(q.phase.i))
  {
  }

  lemma SubTold(s: State, r: nat)
    requires WellFormed(s) && CanSub(s, r) && AtLine(s.reqs[r], s.reqs[r].phase.i, |s.access|) && s.reqs[r].remaining >= 2
    requires s.reqs[r].entries[s.reqs[r].phase.i].line !in s.reqs[r].locked
    ensures var q := s.reqs[r]; var l := q.entries[q.phase.i].line;
      Told(DoSub(s, r).reqs[r], l, s.access[l] == 0, Sub(q.phase.i + 1), SubSlow(q.phase.i))
  {
    SubTakeLocks(s, r, s.reqs[r].entries[s.reqs[r].phase.i].line);
  }

  lemma TrySlowTold(s: State, r: nat)
    requires WellFormed(s) && CanTrySlow(s, r) && s.reqs[r].entries[s.reqs[r].phase.i].line !in s.reqs[r].locked
    ensures var q := s.reqs[r]; var l := q.entries[q.phase.i].line;
      Told(DoTrySlow(s, r).reqs[r], l, SlowSucceeds(s, q.mode, l), Trying(q.phase.i + 1), Rollback(q.phase.i))
  {
  }

  lemma SubSlowTold(s: State, r: nat)
    requires WellFormed(s) && CanSubSlow(s, r) && s.reqs[r].remaining >= 2
    requires s.reqs[r].entries[s.reqs[r].phase.i].line !in s.reqs[r].locked
    ensures var q := s.reqs[r]; var l := q.entries[q.phase.i].line;
      Told(DoSubSlow(s, r).reqs[r], l, SlowSucceeds(s, q.mode, l), Sub(q.phase.i + 1), SubPark(q.phase.i))
  {
    SubTakeLocks(s, r, s.reqs[r].entries[s.reqs[r].phase.i].line);
  }

  /** Without the list lock: the request gets the line if and only if nobody holds it, else it tries with the lock. */
  lemma FastAttempt(s: State, r: nat)
    requires Inv(s) && CanTry(s, r) && AtLine(s.reqs[r], s.reqs[r].phase.i, |s.access|)
    ensures var q := s.reqs[r]; var l := q.entries[q.phase.i].line;
      Told(Apply(s, TryStep(r)).reqs[r], l, Unheld(s, l), Trying(q.phase.i + 1), TrySlow(q.phase.i))
  {
    var q := s.reqs[r];
    assert ReqOK(s, r);
    FreeIffUnheld(s, q.entries[q.phase.i].line);
    FreshLine(q.entries, q.phase.i);
    TryTold(s, r);
  }

  lemma FastSubmission(s: State, r: nat)
    requires Inv(s) && CanSub(s, r) && AtLine(s.reqs[r], s.reqs[r].phase.i, |s.access|)
    ensures var q := s.reqs[r]; var l := q.entries[q.phase.i].line;
      Told(Apply(s, SubStep(r)).reqs[r], l, Unheld(s, l), Sub(q.phase.i + 1), SubSlow(q.phase.i))
  {
    var q := s.reqs[r];
    assert ReqOK(s, r);
    FreeIffUnheld(s, q.entries[q.phase.i].line);
    FreshLine(q.entries, q.phase.i);
    SubTold(s, r);
  }

  /** Under the list lock, in the shared section: the request gets the line if and only if it may have it, else it rolls back. */
  lemma SlowAttempt(s: State, r: nat)
    requires Inv(s) && CanTrySlow(s, r)
    ensures var q := s.reqs[r]; var l := q.entries[q.phase.i].line;
      Told(Apply(s, TrySlowStep(r)).reqs[r], l, MayHave(s, q.mode, l), Trying(q.phase.i + 1), Rollback(q.phase.i))
  {
    var q := s.reqs[r];
    assert ReqOK(s, r);
    SlowIffMay(s, q.mode, q.entries[q.phase.i].line);
    FreshLine(q.entries, q.phase.i);
    TrySlowTold(s, r);
  }

  /** The same in the exclusive section, where a request that may not have the line joins its queue. */
  lemma SlowSubmission(s: State, r: nat)
    requires Inv(s) && CanSubSlow(s, r)
    ensures var q := s.reqs[r]; var l := q.entries[q.phase.i].line;
      Told(Apply(s, SubSlowStep(r)).reqs[r], l, MayHave(s, q.mode, l), Sub(q.phase.i + 1), SubPark(q.phase.i))
  {
    var q := s.reqs[r];
    assert ReqOK(s, r);
    SlowIffMay(s, q.mode, q.entries[q.phase.i].line);
    FreshLine(q.entries, q.phase.i);
    SubSlowTold(s, r);
  }

  /** A single-line read: acquired at once or under the list lock exactly when the line may be read. */
  lemma SingleAttempt(s: State, a: Action)
    requires Inv(s) && Enabled(s, a) && (a.BeginOne? || a.OneSlowStep?)
    ensures var l := if a.BeginOne? then a.line else s.reqs[a.r].entries[0].line; var q' := Apply(s, a).reqs[a.r];
      var may := if a.BeginOne? then Unheld(s, l) else MayHave(s, Rd, l);
      && (may ==> q'.phase == Held && q'.outcome == Acquired && q'.locked == {l})
      && (!may && a.BeginOne? ==> q'.phase == OneSlow && q'.locked == {})
      && (!may && a.OneSlowStep? ==> q'.phase == Idle && q'.outcome == Refused && q'.locked == {})
  {
    assert ReqOK(s, a.r);
    if a.BeginOne? {
      FreeIffUnheld(s, a.line);
      BeginOneTold(s, a.r, a.line);
    } else {
      SlowIffMay(s, Rd, s.reqs[a.r].entries[0].line);
      OneSlowTold(s, a.r);
    }
  }

  // ----- how a call ends -----

  /** Nothing but running out of memory makes the lock undo a submission. */
  lemma OnlyNoMemoryUndoes(s: State, a: Action, t: nat)
    requires WellFormed(s) && Enabled(s, a) && t < |s.reqs| && !Undone(s.reqs[t]) && Undone(Apply(s, a).reqs[t])
    ensures a == NoMem(t)
  {
    if a.ScanStep? && Grants(s, a.r) {
      GrantNotUndone(s, a.r, t);
    } else {
      OwnRecord(s, a);
      if !a.NoMem? { OwnNotUndone(s, a); }
    }
  }

  lemma GrantNotUndone(s: State, r: nat, t: nat)
    requires Grants(s, r) && t < |s.reqs|
    ensures Undone(DoGrant(s, r).reqs[t]) ==> Undone(s.reqs[t])
  {
  }

  lemma OwnNotUndone(s: State, a: Action)
    requires WellFormed(s) && Enabled(s, a) && !(a.ScanStep? && Grants(s, a.r)) && !a.NoMem?
    ensures Undone(Apply(s, a).reqs[a.r]) ==> Undone(s.reqs[a.r])
  {
    match a
    case TryStep(_) =>
    case TrySlowStep(_) =>
    case SubStep(_) =>
    case SubSlowStep(_) =>
    case BeginOne(_, _) =>
    case OneSlowStep(_) =>
    case AbortStep(_) =>
    case _ =>
  }

  /** What the answer of a call says about the moment it is given. */
  ghost predicate AnswerOK(s: State, a: Action, t: nat, q: Request)
    requires t < |s.reqs|
  {
    match q.outcome
    case Pending => true
    case Acquired => q.phase == Held && q.fired == 0 && q.locked == UpTo(q.entries, |q.entries|)
    case NotAcquired => q.phase == Suspended && q.fired == 0
    case NoMemory => q.phase == Idle && q.locked == {} && s.reqs[t].phase == Abort(0)
    case Refused => q.phase == Idle && q.locked == {} && a == OneSlowStep(t)
  }

  /** Each call is answered once, and the answer is true when it is given. */
  lemma AnsweredOnce(s: State, a: Action, t: nat)
    requires Inv(s) && Enabled(s, a) && t < |s.reqs|
    requires Apply(s, a).reqs[t].outcome != s.reqs[t].outcome || (IsBegin(a) && a.r == t)
    ensures a.r == t && AnswerOK(s, a, t, Apply(s, a).reqs[t])
    ensures !IsBegin(a) ==> s.reqs[t].outcome == Pending
  {
    if a.ScanStep? && Grants(s, a.r) {
    } else {
      OwnRecord(s, a);
      assert ReqOK(s, a.r);
      StepOK(s, a);
      assert ReqOK(Apply(s, a), a.r);
      OwnAnswer(s, a);
    }
  }

  lemma OwnAnswer(s: State, a: Action)
    requires WellFormed(s) && Enabled(s, a) && !(a.ScanStep? && Grants(s, a.r)) && ReqOK(s, a.r) && ReqOK(Apply(s, a), a.r)
    requires Apply(s, a).reqs[a.r].outcome != s.reqs[a.r].outcome || IsBegin(a)
    ensures AnswerOK(s, a, a.r, Apply(s, a).reqs[a.r])
    ensures !IsBegin(a) ==> s.reqs[a.r].outcome == Pending
  {
    if a.SubStep? {
      SubAnswer(s, a.r);
    } else if a.TryStep? {
      TryAnswer(s, a.r);
    } else if a.BeginOne? || a.OneSlowStep? {
      OneAnswer(s, a);
    } else {
      OtherAnswer(s, a);
    }
  }

  lemma TryAnswer(s: State, r: nat)
    requires WellFormed(s) && CanTry(s, r) && ReqOK(s, r) && ReqOK(DoTry(s, r), r)
    requires DoTry(s, r).reqs[r].outcome != s.reqs[r].outcome
    ensures AnswerOK(s, TryStep(r), r, DoTry(s, r).reqs[r]) && s.reqs[r].outcome == Pending
  {
    var q := DoTry(s, r).reqs[r];
    assert q.phase == Held;
    HeldLocked(q, Queued(DoTry(s, r).queues, r));
  }

  lemma SubAnswer(s: State, r: nat)
    requires WellFormed(s) && CanSub(s, r) && ReqOK(s, r) && ReqOK(DoSub(s, r), r)
    requires DoSub(s, r).reqs[r].outcome != s.reqs[r].outcome
    ensures AnswerOK(s, SubStep(r), r, DoSub(s, r).reqs[r]) && s.reqs[r].outcome == Pending
  {
    var q := DoSub(s, r).reqs[r];
    assert s.reqs[r].phase.i == |s.reqs[r].entries|;
    if q.phase == Held { HeldLocked(q, Queued(DoSub(s, r).queues, r)); }
  }

  lemma HeldLocked(q: Request, queued: set<nat>)
    requires q.phase == Held && PhaseOK(q, queued)
    ensures q.locked == UpTo(q.entries, |q.entries|)
  {
    var all := UpTo(q.entries, |q.entries|);
    forall l | l in all ensures l in q.locked { assert l !in all - q.locked; }
  }

  lemma OneAnswer(s: State, a: Action)
    requires WellFormed(s) && Enabled(s, a) && (a.BeginOne? || a.OneSlowStep?) && ReqOK(s, a.r)
    ensures AnswerOK(s, a, a.r, Apply(s, a).reqs[a.r])
    ensures a.OneSlowStep? ==> s.reqs[a.r].outcome == Pending
  {
    var line := if a.BeginOne? then a.line else s.reqs[a.r].entries[0].line;
    assert UpTo([Line(line)], 1) == {line} by { assert UpTo([Line(line)], 0) == {}; }
    if a.BeginOne? { BeginOneTold(s, a.r, line); } else { OneSlowTold(s, a.r); }
  }

  lemma BeginOneTold(s: State, r: nat, line: nat)
    requires CanBeginOne(s, r, line)
    ensures var q := DoBeginOne(s, r, line).reqs[r];
      && q.entries == [Line(line)] && q.fired == 0
      && if s.access[line] == 0 then q.phase == Held && q.outcome == Acquired && q.locked == {line}
         else q.phase == OneSlow && q.outcome == Pending && q.locked == {}
  {
  }

  lemma OneSlowTold(s: State, r: nat)
    requires WellFormed(s) && CanOneSlow(s, r) && ReqOK(s, r)
    ensures s.reqs[r].entries == [Line(s.reqs[r].entries[0].line)] && s.reqs[r].outcome == Pending
    ensures var q := DoOneSlow(s, r).reqs[r]; var line := s.reqs[r].entries[0].line;
      && q.entries == [Line(line)] && q.fired == 0
      && if SlowSucceeds(s, Rd, line) then q.phase == Held && q.outcome == Acquired && q.locked == {line}
         else q.phase == Idle && q.outcome == Refused && q.locked == {}
  {
    assert s.reqs[r].entries == [s.reqs[r].entries[0]];
  }

  lemma OtherAnswer(s: State, a: Action)
    requires WellFormed(s) && Enabled(s, a) && !(a.ScanStep? && Grants(s, a.r)) && ReqOK(s, a.r)
    requires !a.SubStep? && !a.TryStep? && !a.BeginOne? && !a.OneSlowStep?
    requires Apply(s, a).reqs[a.r].outcome != s.reqs[a.r].outcome || IsBegin(a)
    ensures AnswerOK(s, a, a.r, Apply(s, a).reqs[a.r])
    ensures !IsBegin(a) ==> s.reqs[a.r].outcome == Pending
  {
    match a
    case SubSlowStep(_) =>
    case AbortStep(_) =>
    case _ =>
  }
}
