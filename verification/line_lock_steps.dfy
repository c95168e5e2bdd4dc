/** Every step of the line lock keeps the invariant. */
module LineLockSteps {
  import opened LineLockProtocol
  import opened LineLockInvariant
  import opened SetFacts

  lemma UpToMember(entries: seq<Entry>, i: nat, l: nat)
    requires i <= |entries|
    ensures l in UpTo(entries, i) <==> exists j :: 0 <= j < i && entries[j] == Line(l)
  {
    if i > 0 {
      UpToMember(entries, i - 1, l);
      if exists j :: 0 <= j < i && entries[j] == Line(l) {
        var j :| 0 <= j < i && entries[j] == Line(l);
        assert j == i - 1 || j < i - 1;
      }
    }
  }

  lemma FreshLine(entries: seq<Entry>, i: nat)
    requires i < |entries| && entries[i].Line? && Distinct(entries)
    ensures entries[i].line !in UpTo(entries, i)
  {
    UpToMember(entries, i, entries[i].line);
  }

  /** What a step may use about its own request. */
  ghost predicate Local(s: State, r: nat) {
    && WellFormed(s) && r < |s.reqs| && ReqOK(s, r) && FoundOK(s, r)
    && forall l :: 0 <= l < |s.queues| && s.queues[l] != [] ==> s.access[l] != 0
  }

  lemma InvLocal(s: State, r: nat)
    requires Inv(s) && r < |s.reqs|
    ensures Local(s, r)
  {
    forall l | 0 <= l < |s.queues| && s.queues[l] != [] ensures s.access[l] != 0 {
      assert WaitersOK(s, l);
    }
  }

  /** A successful attempt: what is left to check once the record's own conditions are known. */
  lemma TakeFits(s: State, r: nat, q: Request, l: nat)
    requires |s.access| == |s.queues| && s.buckets > 0 && r < |s.reqs| && l < |s.access|
    requires PhaseOK(q, Queued(s.queues, r)) && Answered(q) && Keeps(s, r, q)
    requires l !in s.reqs[r].locked && q.locked == s.reqs[r].locked + {l} && q.mode == s.reqs[r].mode
    requires s.queues[l] == [] && (if q.mode == Wr then s.access[l] == 0 else s.access[l] != ACCESS_WR)
    ensures Fits(s, r, TakeLine(q, l))
  {
  }

  /** A step that only changes the phase. */
  lemma MoveFits(s: State, r: nat, q: Request)
    requires |s.access| == |s.queues| && s.buckets > 0 && r < |s.reqs|
    requires PhaseOK(q, Queued(s.queues, r)) && Answered(q) && Keeps(s, r, q)
    requires q.locked == s.reqs[r].locked && q.mode == s.reqs[r].mode
    ensures Fits(s, r, Move(q, s.waiting, s.clock))
  {
  }

  /** A request that moves on inside its section and lets go of any list lock. */
  lemma KeepsPlace(s: State, r: nat, q: Request)
    requires s.buckets > 0 && r < |s.reqs| && EntriesOK(q.entries, |s.access|) && q.entries == s.reqs[r].entries && q.ticket == s.reqs[r].ticket
    requires (InWrite(q) <==> InWrite(s.reqs[r])) && (InRead(q) <==> InRead(s.reqs[r])) && (Ticketed(q) <==> Ticketed(s.reqs[r]))
    requires q.phase.Sub? || q.phase.Trying? || q.phase.TrySlow? || q.phase.Rollback?
    requires Queued(s.queues, r) != {} ==> Ticketed(q)
    ensures Keeps(s, r, q)
  {
  }

  // ----- calls that take or refuse one line -----

  lemma BeginPlan(s: State, r: nat, entries: seq<Entry>, mode: Mode) returns (p: Plan)
    requires Local(s, r) && CanBegin(s, r, entries)
    ensures Fits(s, r, p) && Run(s, r, p) == DoBegin(s, r, entries, mode)
  {
    p := Move(Request(entries, mode, Trying(0), {}, 0, 0, Pending, 0), s.waiting, s.clock);
  }

  lemma BeginOnePlan(s: State, r: nat, line: nat) returns (p: Plan)
    requires Local(s, r) && CanBeginOne(s, r, line)
    ensures Fits(s, r, p) && Run(s, r, p) == SetReq(s, r, OneRequest(line))
  {
    p := Move(OneRequest(line), s.waiting, s.clock);
  }

  lemma OneTake(s: State, r: nat, l: nat)
    requires WellFormed(s) && r < |s.reqs| && ReqOK(s, r) && l < |s.access| && s.queues[l] == [] && s.access[l] != ACCESS_WR
    requires s.reqs[r].phase.OneSlow? && s.reqs[r].entries == [Line(l)]
    ensures Fits(s, r, TakeLine(s.reqs[r].(outcome := Acquired, locked := {l}, phase := Held), l))
  {
    assert UpTo([Line(l)], 1) == {l} by { assert UpTo([Line(l)], 0) == {}; }
  }

  /** A free line is taken at once; the record is set up and then takes the line. */
  lemma BeginOneOK(s: State, r: nat, line: nat)
    requires Inv(s) && CanBeginOne(s, r, line)
    ensures Inv(DoBeginOne(s, r, line))
  {
    InvLocal(s, r);
    var p := BeginOnePlan(s, r, line);
    PlanOK(s, r, p);
    if s.access[line] == 0 {
      var s1 := SetReq(s, r, OneRequest(line));
      var q := OneRequest(line).(outcome := Acquired, locked := {line}, phase := Held);
      assert ReqOK(s1, r);
      OneTake(s1, r, line);
      PlanOK(s1, r, TakeLine(q, line));
      assert s1.reqs[r := q] == DoBeginOne(s, r, line).reqs;
    }
  }

  lemma OneSlowPlan(s: State, r: nat) returns (p: Plan)
    requires Local(s, r) && CanOneSlow(s, r)
    ensures Fits(s, r, p) && Run(s, r, p) == DoOneSlow(s, r)
  {
    var q := s.reqs[r];
    var l := q.entries[0].line;
    if SlowSucceeds(s, Rd, l) {
      assert q.entries == [Line(l)];
      OneTake(s, r, l);
      p := TakeLine(q.(outcome := Acquired, locked := {l}, phase := Held), l);
      assert s.reqs[r := q.(outcome := Acquired, locked := {l}, phase := Held)] == DoOneSlow(s, r).reqs;
    } else {
      p := Move(q.(phase := Idle, outcome := Refused), s.waiting, s.clock);
    }
  }

  // ----- the shared section -----

  /** The request after a successful attempt on entry i. */
  lemma TryTaken(q: Request, queued: set<nat>)
    requires (q.phase.Trying? || q.phase.TrySlow?) && PhaseOK(q, queued) && Answered(q) && Distinct(q.entries)
    requires q.phase.i < |q.entries| && q.entries[q.phase.i].Line?
    ensures var q' := q.(locked := q.locked + {q.entries[q.phase.i].line}, phase := Trying(q.phase.i + 1));
      PhaseOK(q', queued) && Answered(q') && q.entries[q.phase.i].line !in q.locked
  {
    FreshLine(q.entries, q.phase.i);
    assert UpTo(q.entries, q.phase.i + 1) == UpTo(q.entries, q.phase.i) + {q.entries[q.phase.i].line};
  }

  /** Entry i is free for the request and gets taken in the shared section. */
  lemma TryTakePlan(s: State, r: nat) returns (p: Plan)
    requires |s.access| == |s.queues| && s.buckets > 0 && r < |s.reqs| && ReqOK(s, r) && EntriesOK(s.reqs[r].entries, |s.access|)
    requires (s.reqs[r].phase.Trying? || s.reqs[r].phase.TrySlow?) && AtLine(s.reqs[r], s.reqs[r].phase.i, |s.access|)
    requires var l := s.reqs[r].entries[s.reqs[r].phase.i].line;
      s.queues[l] == [] && (if s.reqs[r].mode == Wr then s.access[l] == 0 else s.access[l] != ACCESS_WR)
    ensures Fits(s, r, p) && Run(s, r, p) == Take(s, r, s.reqs[r].entries[s.reqs[r].phase.i].line, Trying(s.reqs[r].phase.i + 1))
  {
    var q := s.reqs[r];
    var l := q.entries[q.phase.i].line;
    var q' := q.(locked := q.locked + {l}, phase := Trying(q.phase.i + 1));
    TryTaken(q, Queued(s.queues, r));
    TryQueued(q, Queued(s.queues, r));
    TryTakeFits(s, r, q', l);
    p := TakeLine(q', l);
  }

  lemma TryQueued(q: Request, queued: set<nat>)
    requires (q.phase.Trying? || q.phase.TrySlow?) && PhaseOK(q, queued)
    ensures queued == {}
  {
  }

  lemma TryTakeFits(s: State, r: nat, q: Request, l: nat)
    requires |s.access| == |s.queues| && s.buckets > 0 && r < |s.reqs| && EntriesOK(s.reqs[r].entries, |s.access|)
    requires (s.reqs[r].phase.Trying? || s.reqs[r].phase.TrySlow?) && Queued(s.queues, r) == {}
    requires PhaseOK(q, Queued(s.queues, r)) && Answered(q) && q.phase.Trying? && l < |s.access| && l !in s.reqs[r].locked
    requires q == s.reqs[r].(locked := s.reqs[r].locked + {l}, phase := q.phase)
    requires s.queues[l] == [] && (if q.mode == Wr then s.access[l] == 0 else s.access[l] != ACCESS_WR)
    ensures Fits(s, r, TakeLine(q, l))
  {
    KeepsPlace(s, r, q);
    TakeFits(s, r, q, l);
  }

  lemma TryMoved(q: Request, queued: set<nat>)
    requires q.phase.Trying? && PhaseOK(q, queued) && Answered(q) && q.phase.i < |q.entries|
    ensures var q' := q.(phase := if q.entries[q.phase.i].Miss? then Trying(q.phase.i + 1) else TrySlow(q.phase.i));
      PhaseOK(q', queued) && Answered(q')
  {
  }

  lemma TryPlan(s: State, r: nat) returns (p: Plan)
    requires Local(s, r) && CanTry(s, r)
    ensures Fits(s, r, p) && Run(s, r, p) == DoTry(s, r)
  {
    var q := s.reqs[r];
    var i := q.phase.i;
    if i == |q.entries| {
      p := Move(q.(phase := Held, outcome := Acquired), s.waiting, s.clock);
    } else if q.entries[i].Line? && s.access[q.entries[i].line] == 0 {
      p := TryTakePlan(s, r);
    } else {
      var q' := q.(phase := if q.entries[i].Miss? then Trying(i + 1) else TrySlow(i));
      TryMoved(q, Queued(s.queues, r));
      KeepsPlace(s, r, q');
      MoveFits(s, r, q');
      p := Move(q', s.waiting, s.clock);
    }
  }

  lemma TrySlowPlan(s: State, r: nat) returns (p: Plan)
    requires Local(s, r) && CanTrySlow(s, r)
    ensures Fits(s, r, p) && Run(s, r, p) == DoTrySlow(s, r)
  {
    var q := s.reqs[r];
    var i := q.phase.i;
    if SlowSucceeds(s, q.mode, q.entries[i].line) {
      p := TryTakePlan(s, r);
    } else {
      p := Move(q.(phase := Rollback(i)), s.waiting, s.clock);
    }
  }

  lemma RolledBack(q: Request, queued: set<nat>)
    requires q.phase.Rollback? && PhaseOK(q, queued) && Answered(q) && Distinct(q.entries)
    requires q.phase.i > 0 && q.entries[q.phase.i - 1].Line?
    ensures var l := q.entries[q.phase.i - 1].line; var q' := q.(locked := q.locked - {l}, phase := Rollback(q.phase.i - 1));
      PhaseOK(q', queued) && Answered(q') && l in q.locked
  {
    FreshLine(q.entries, q.phase.i - 1);
    assert UpTo(q.entries, q.phase.i) == UpTo(q.entries, q.phase.i - 1) + {q.entries[q.phase.i - 1].line};
  }

  lemma RollbackGivePlan(s: State, r: nat) returns (p: Plan)
    requires Local(s, r) && CanRollback(s, r) && s.reqs[r].phase.i > 0 && s.reqs[r].entries[s.reqs[r].phase.i - 1].Line?
    ensures Fits(s, r, p) && Run(s, r, p) == DoRollback(s, r)
  {
    var q := s.reqs[r];
    RolledBack(q, Queued(s.queues, r));
    var l := q.entries[q.phase.i - 1].line;
    KeepsPlace(s, r, q.(locked := q.locked - {l}, phase := Rollback(q.phase.i - 1)));
    p := GiveLine(q.(locked := q.locked - {l}, phase := Rollback(q.phase.i - 1)), l);
  }

  lemma RollbackPlan(s: State, r: nat) returns (p: Plan)
    requires Local(s, r) && CanRollback(s, r)
    ensures Fits(s, r, p) && Run(s, r, p) == DoRollback(s, r)
  {
    var q := s.reqs[r];
    var i := q.phase.i;
    if i == 0 {
      p := Move(q.(phase := Failed), s.waiting, s.clock);
    } else if q.entries[i - 1].Miss? {
      p := Move(q.(phase := Rollback(i - 1)), s.waiting, s.clock);
    } else {
      p := RollbackGivePlan(s, r);
    }
  }

  // ----- the exclusive section -----

  lemma StartSubPlan(s: State, r: nat) returns (p: Plan)
    requires Local(s, r) && CanStartSub(s, r)
    ensures Fits(s, r, p) && Run(s, r, p) == DoStartSub(s, r)
  {
    var q := s.reqs[r];
    p := Move(q.(phase := Sub(0), remaining := |q.entries| + 1, ticket := s.clock), s.waiting + 1, s.clock + 1);
  }

  /** The final countdown of a submission: everything was free, or the request sleeps. */
  function Ended(q: Request): Request {
    if q.remaining - 1 == 0 then q.(phase := Held, remaining := 0, outcome := Acquired)
    else q.(phase := Suspended, remaining := q.remaining - 1, outcome := NotAcquired)
  }

  lemma EndedOK(q: Request, queued: set<nat>)
    requires q.phase.Sub? && q.phase.i == |q.entries| && PhaseOK(q, queued) && Answered(q)
    ensures PhaseOK(Ended(q), queued) && Answered(Ended(q))
    ensures queued != {} ==> Ticketed(Ended(q))
  {
  }

  /** During submission the guard keeps the countdown from reaching zero. */
  lemma SubFlagged(q: Request, queued: set<nat>)
    requires (q.phase.Sub? || q.phase.SubSlow?) && PhaseOK(q, queued) && Answered(q)
    requires q.phase.i < |q.entries| && q.entries[q.phase.i].Line? && Distinct(q.entries)
    requires q.entries[q.phase.i].line !in queued
    ensures var l := q.entries[q.phase.i].line; var q' := Flagged(q.(phase := Sub(q.phase.i + 1)), l);
      PhaseOK(q', queued) && Answered(q') && q'.phase == Sub(q.phase.i + 1) && l !in q.locked && q.remaining >= 2
  {
    var i := q.phase.i;
    FreshLine(q.entries, i);
    assert UpTo(q.entries, i + 1) == UpTo(q.entries, i) + {q.entries[i].line};
    assert queued == UpTo(q.entries, i + 1) - (q.locked + {q.entries[i].line});
  }

  lemma SubTakeRuns(s: State, r: nat)
    requires r < |s.reqs| && (s.reqs[r].phase.Sub? || s.reqs[r].phase.SubSlow?)
    requires AtLine(s.reqs[r], s.reqs[r].phase.i, |s.access|) && s.reqs[r].remaining >= 2
    ensures var q := s.reqs[r]; var l := q.entries[q.phase.i].line;
      Run(s, r, TakeLine(Flagged(q.(phase := Sub(q.phase.i + 1)), l), l)) == SubTake(s, r)
  {
    var q := s.reqs[r];
    var q1 := q.(phase := Sub(q.phase.i + 1));
    var q' := Flagged(q1, q.entries[q.phase.i].line);
    assert s.reqs[r := q1][r := q'] == s.reqs[r := q'];
  }

  lemma SubTakePlan(s: State, r: nat) returns (p: Plan)
    requires |s.access| == |s.queues| && s.buckets > 0 && r < |s.reqs| && ReqOK(s, r) && EntriesOK(s.reqs[r].entries, |s.access|)
    requires (s.reqs[r].phase.Sub? || s.reqs[r].phase.SubSlow?) && AtLine(s.reqs[r], s.reqs[r].phase.i, |s.access|)
    requires var l := s.reqs[r].entries[s.reqs[r].phase.i].line;
      s.queues[l] == [] && (if s.reqs[r].mode == Wr then s.access[l] == 0 else s.access[l] != ACCESS_WR)
    ensures Fits(s, r, p) && Run(s, r, p) == SubTake(s, r)
  {
    var q := s.reqs[r];
    var i := q.phase.i;
    var l := q.entries[i].line;
    assert l !in Queued(s.queues, r);
    SubFlagged(q, Queued(s.queues, r));
    var q' := Flagged(q.(phase := Sub(i + 1)), l);
    KeepsPlace(s, r, q');
    TakeFits(s, r, q', l);
    SubTakeRuns(s, r);
    p := TakeLine(q', l);
  }

  lemma SubSkipped(q: Request, queued: set<nat>)
    requires q.phase.Sub? && PhaseOK(q, queued) && Answered(q) && q.phase.i < |q.entries| && q.entries[q.phase.i].Miss?
    ensures var q' := q.(phase := Sub(q.phase.i + 1), remaining := q.remaining - 1); PhaseOK(q', queued) && Answered(q')
  {
  }

  lemma SubPlan(s: State, r: nat) returns (p: Plan)
    requires Local(s, r) && CanSub(s, r)
    ensures Fits(s, r, p) && Run(s, r, p) == DoSub(s, r)
  {
    var q := s.reqs[r];
    var i := q.phase.i;
    if i == |q.entries| {
      p := SubEndPlan(s, r);
    } else if q.entries[i].Miss? {
      var q' := q.(phase := Sub(i + 1), remaining := q.remaining - 1);
      SubSkipped(q, Queued(s.queues, r));
      KeepsPlace(s, r, q');
      MoveFits(s, r, q');
      p := Move(q', s.waiting, s.clock);
    } else if s.access[q.entries[i].line] == 0 {
      p := SubTakePlan(s, r);
    } else {
      p := Move(q.(phase := SubSlow(i)), s.waiting, s.clock);
    }
  }

  lemma SubEndPlan(s: State, r: nat) returns (p: Plan)
    requires Local(s, r) && CanSub(s, r) && s.reqs[r].phase.i == |s.reqs[r].entries|
    ensures Fits(s, r, p) && Run(s, r, p) == DoSub(s, r)
  {
    var q := s.reqs[r];
    EndedOK(q, Queued(s.queues, r));
    p := Move(Ended(q), s.waiting + Count(Ended(q)) - Count(q), s.clock);
  }

  lemma SubSlowPlan(s: State, r: nat) returns (p: Plan)
    requires Local(s, r) && CanSubSlow(s, r)
    ensures Fits(s, r, p) && Run(s, r, p) == DoSubSlow(s, r)
  {
    var q := s.reqs[r];
    var l := q.entries[q.phase.i].line;
    if SlowSucceeds(s, q.mode, l) {
      p := SubTakePlan(s, r);
    } else {
      var q' := q.(phase := SubPark(q.phase.i));
      assert s.access[l] != 0;
      p := Move(q', s.waiting, s.clock);
    }
  }

  lemma UndoStart(q: Request, queued: set<nat>, i: nat)
    requires i < |q.entries| && Tracks(q, queued, i) && q.remaining >= 2 + |queued|
    ensures Undoing(q, queued, i + 1)
  {
  }

  /** No memory for a waiter. */
  lemma NoMemPlan(s: State, r: nat) returns (p: Plan)
    requires Local(s, r) && CanNoMem(s, r)
    ensures Fits(s, r, p) && Run(s, r, p) == DoNoMem(s, r)
  {
    var q := s.reqs[r];
    UndoStart(q, Queued(s.queues, r), q.phase.i);
    p := Move(q.(phase := Abort(q.phase.i + 1)), s.waiting, s.clock);
  }

  lemma PushQueued(queues: seq<seq<nat>>, l: nat, r: nat, t: nat)
    requires l < |queues|
    ensures Queued(queues[l := queues[l] + [r]], t) == if t == r then Queued(queues, t) + {l} else Queued(queues, t)
  {
  }

  lemma NewestTicket(s: State, r: nat)
    requires TicketsOK(s) && SectionsOK(s) && r < |s.reqs| && InWrite(s.reqs[r])
    ensures forall t :: 0 <= t < |s.reqs| && t != r && Ticketed(s.reqs[t]) ==> s.reqs[t].ticket < s.reqs[r].ticket
    ensures forall t :: 0 <= t < |s.reqs| && t != r ==> !InRead(s.reqs[t])
  {
  }

  lemma ParkedOK(q: Request, queued: set<nat>)
    requires q.phase.SubPark? && PhaseOK(q, queued) && Answered(q) && Distinct(q.entries)
    ensures var q' := q.(phase := Sub(q.phase.i + 1)); var l := q.entries[q.phase.i].line;
      PhaseOK(q', queued + {l}) && Answered(q') && l !in q.locked && l !in queued
  {
    FreshLine(q.entries, q.phase.i);
    assert UpTo(q.entries, q.phase.i + 1) == UpTo(q.entries, q.phase.i) + {q.entries[q.phase.i].line};
  }

  /** Request r is about to queue on line l. */
  ghost predicate Parking(s: State, r: nat, l: nat) {
    && |s.access| == |s.queues| && l < |s.access| && r < |s.reqs| && s.reqs[r].phase.SubPark?
    && AtLine(s.reqs[r], s.reqs[r].phase.i, |s.access|) && l == s.reqs[r].entries[s.reqs[r].phase.i].line
    && l !in s.reqs[r].locked && r !in s.queues[l] && s.access[l] != 0
    && (forall t :: 0 <= t < |s.reqs| && t != r && Ticketed(s.reqs[t]) ==> s.reqs[t].ticket < s.reqs[r].ticket)
    && (forall t :: 0 <= t < |s.reqs| && t != r ==> !InRead(s.reqs[t]))
  }

  lemma InvParking(s: State, r: nat) returns (l: nat)
    requires WellFormed(s) && CanSubPark(s, r) && ReqOK(s, r) && FoundOK(s, r) && TicketsOK(s) && SectionsOK(s)
    ensures Parking(s, r, l)
  {
    l := s.reqs[r].entries[s.reqs[r].phase.i].line;
    ParkedOK(s.reqs[r], Queued(s.queues, r));
    assert r in s.queues[l] ==> l in Queued(s.queues, r);
    NewestTicket(s, r);
  }

  /** The newest ticket goes to the end of a queue. */
  lemma ParkLine(s: State, s': State, r: nat, l: nat)
    requires Parking(s, r, l) && AccessOK(s, l) && QueueOK(s, l) && WaitersOK(s, l)
    requires s'.access == s.access && |s'.queues| == |s.queues| && s'.queues[l] == s.queues[l] + [r]
    requires s'.reqs == s.reqs
    ensures AccessOK(s', l) && QueueOK(s', l) && WaitersOK(s', l)
  {
    var n := |s.queues[l]|;
    forall k | 0 <= k < n ensures s.queues[l][k] != r && s'.queues[l][k] == s.queues[l][k] {
      assert s.queues[l][k] in s.queues[l];
    }
    assert s'.queues[l][n] == r;
  }

  lemma ParkReq(s: State, r: nat, t: nat)
    requires WellFormed(s) && CanSubPark(s, r) && t < |s.reqs| && ReqOK(s, t) && FoundOK(s, t) && ReqOK(s, r) && ListsOK(s)
    ensures ReqOK(DoSubPark(s, r), t) && FoundOK(DoSubPark(s, r), t)
  {
    var q := s.reqs[r];
    var l := q.entries[q.phase.i].line;
    PushQueued(s.queues, l, r, t);
    ParkedOK(q, Queued(s.queues, r));
    OtherList(s, r, t, l);
  }

  /** The enqueue and the loop increment, one after the other. */
  lemma ParkedLine(s: State, r: nat, l: nat)
    requires Parking(s, r, l) && AccessOK(s, l) && QueueOK(s, l) && WaitersOK(s, l)
    ensures var s' := DoSubPark(s, r);
      |s'.queues| == |s'.access| == |s.access| && AccessOK(s', l) && QueueOK(s', l) && WaitersOK(s', l)
  {
    var s1 := s.(queues := s.queues[l := s.queues[l] + [r]]);
    ParkLine(s, s1, r, l);
    Reparked(s1, r, l);
  }

  lemma Reparked(s: State, r: nat, l: nat)
    requires |s.access| == |s.queues| && r < |s.reqs| && s.reqs[r].phase.SubPark? && l < |s.access| && l !in s.reqs[r].locked
    requires AccessOK(s, l) && QueueOK(s, l) && WaitersOK(s, l)
    ensures var s' := Goto(s, r, Sub(s.reqs[r].phase.i + 1)); AccessOK(s', l) && QueueOK(s', l) && WaitersOK(s', l)
  {
    var p := Sub(s.reqs[r].phase.i + 1);
    LineKept(s, Goto(s, r, p), r, s.reqs[r].(phase := p), l);
  }

  lemma OtherLines(s: State, r: nat, k: nat)
    requires WellFormed(s) && CanSubPark(s, r) && k != s.reqs[r].entries[s.reqs[r].phase.i].line
    requires k < |s.access| && AccessOK(s, k) && QueueOK(s, k) && WaitersOK(s, k)
    ensures var s' := DoSubPark(s, r);
      |s'.queues| == |s'.access| == |s.access| && AccessOK(s', k) && QueueOK(s', k) && WaitersOK(s', k)
  {
    LineKept(s, DoSubPark(s, r), r, s.reqs[r].(phase := Sub(s.reqs[r].phase.i + 1)), k);
  }

  lemma ParkOK(s: State, r: nat)
    requires Inv(s) && CanSubPark(s, r)
    ensures Inv(DoSubPark(s, r))
  {
    var s' := DoSubPark(s, r);
    assert ReqOK(s, r) && FoundOK(s, r);
    var l := InvParking(s, r);
    MayBecomeGlobals(s, s', r, s.reqs[r].(phase := Sub(s.reqs[r].phase.i + 1)));
    forall k: nat | k < |s.access| ensures AccessOK(s', k) && QueueOK(s', k) && WaitersOK(s', k) {
      assert AccessOK(s, k) && QueueOK(s, k) && WaitersOK(s, k);
      if k == l { ParkedLine(s, r, l); } else { OtherLines(s, r, k); }
    }
    forall t: nat | t < |s.reqs| ensures ReqOK(s', t) && FoundOK(s', t) {
      assert ReqOK(s, t) && FoundOK(s, t);
      ParkReq(s, r, t);
    }
  }

  // ----- undoing a submission -----

  lemma {:induction false} RemoveMember(q: seq<nat>, r: nat, x: nat)
    ensures x in Remove(q, r) <==> x in q && x != r
  {
    if q != [] {
      RemoveMember(q[1..], r, x);
      assert q == [q[0]] + q[1..];
    }
  }

  predicate Ascending(q: seq<nat>, reqs: seq<Request>) {
    && (forall k :: 0 <= k < |q| ==> q[k] < |reqs|)
    && (forall j, k :: 0 <= j < k < |q| ==> reqs[q[j]].ticket < reqs[q[k]].ticket)
  }

  lemma {:induction false} RemoveAscending(q: seq<nat>, r: nat, reqs: seq<Request>)
    requires Ascending(q, reqs)
    ensures Ascending(Remove(q, r), reqs)
  {
    if q != [] {
      assert forall k :: 0 <= k < |q[1..]| ==> q[1..][k] == q[k + 1];
      RemoveAscending(q[1..], r, reqs);
      var rest := Remove(q[1..], r);
      forall k | 0 <= k < |rest| ensures reqs[q[0]].ticket < reqs[rest[k]].ticket {
        RemoveMember(q[1..], r, rest[k]);
        var j :| 0 <= j < |q[1..]| && q[1..][j] == rest[k];
        assert q[j + 1] == rest[k];
      }
    }
  }

  /** A line from whose queue some waiters disappeared. */
  lemma ForgetLine(s: State, s': State, r: nat, l: nat)
    requires WellFormed(s) && l < |s.access| && AccessOK(s, l) && QueueOK(s, l) && WaitersOK(s, l)
    requires s'.access == s.access && |s'.queues| == |s.queues| && s'.reqs == s.reqs
    requires s'.queues[l] == s.queues[l] || s'.queues[l] == Remove(s.queues[l], r)
    ensures AccessOK(s', l) && QueueOK(s', l) && WaitersOK(s', l)
  {
    forall x: nat ensures x in s'.queues[l] ==> x in s.queues[l] { RemoveMember(s.queues[l], r, x); }
    assert Ascending(s.queues[l], s.reqs);
    RemoveAscending(s.queues[l], r, s.reqs);
    forall k | 0 <= k < |s'.queues[l]| ensures s'.queues[l][k] in s.queues[l] {}
  }

  lemma ForgetQueued(s: State, r: nat, x: nat, t: nat)
    requires s.buckets > 0
    ensures var s' := Forget(s, r, x);
      if t != r then Queued(s'.queues, t) == Queued(s.queues, t)
      else Queued(s'.queues, t) <= Queued(s.queues, t) - {x}
  {
    var s' := Forget(s, r, x);
    forall l: nat | l < |s.queues| ensures t in s'.queues[l] <==> t in s.queues[l] && !(t == r && SameList(l, x, s.buckets)) {
      RemoveMember(s.queues[l], r, t);
    }
  }

  /** Once entry n - 1 is neither locked nor queued for, only n - 1 entries are left to undo. */
  lemma UndoOne(q: Request, queued: set<nat>, less: set<nat>, n: nat)
    requires 0 < n <= |q.entries| && Undoing(q, queued, n) && less <= queued
    requires q.entries[n - 1].Line? ==> q.entries[n - 1].line !in q.locked && q.entries[n - 1].line !in less
    ensures Undoing(q, less, n) && Undoing(q, less, n - 1)
  {
    SubsetCard(less, queued);
  }

  lemma ForgetOK(s: State, r: nat)
    requires Inv(s) && CanAbort(s, r) && s.reqs[r].phase.n > 0 && !AbortsLocked(s.reqs[r])
    ensures var n := s.reqs[r].phase.n; var s' := Forget(s, r, EntryIndex(s, s.reqs[r].entries[n - 1]));
      Inv(s') && Undoing(s.reqs[r], Queued(s'.queues, r), n - 1) && Answered(s.reqs[r])
  {
    var q := s.reqs[r];
    var n := q.phase.n;
    var x := EntryIndex(s, q.entries[n - 1]);
    var s' := Forget(s, r, x);
    assert ReqOK(s, r);
    ForgetQueued(s, r, x, r);
    UndoOne(q, Queued(s.queues, r), Queued(s'.queues, r), n);
    forall l: nat | l < |s.access| ensures AccessOK(s', l) && QueueOK(s', l) && WaitersOK(s', l) {
      assert AccessOK(s, l) && QueueOK(s, l) && WaitersOK(s, l);
      ForgetLine(s, s', r, l);
    }
    forall t: nat | t < |s.reqs| ensures ReqOK(s', t) && FoundOK(s', t) {
      assert ReqOK(s, t) && FoundOK(s, t);
      ForgetQueued(s, r, x, t);
      ForgetFound(s, r, x, t);
    }
  }

  lemma ForgetFound(s: State, r: nat, x: nat, t: nat)
    requires s.buckets > 0 && |s.access| == |s.queues| && t < |s.reqs| && FoundOK(s, t)
    ensures FoundOK(Forget(s, r, x), t)
  {
  }

  lemma ForgetStepOK(s: State, r: nat)
    requires Inv(s) && CanAbort(s, r) && s.reqs[r].phase.n > 0 && !AbortsLocked(s.reqs[r])
    ensures Inv(DoAbort(s, r))
  {
    ForgetOK(s, r);
    var q := s.reqs[r];
    var s1 := Forget(s, r, EntryIndex(s, q.entries[q.phase.n - 1]));
    var p := AbortNext(s1, r);
    PlanOK(s1, r, p);
  }

  lemma AbortNext(s: State, r: nat) returns (p: Plan)
    requires WellFormed(s) && r < |s.reqs| && s.reqs[r].phase.Abort? && 0 < s.reqs[r].phase.n <= |s.reqs[r].entries|
    requires Undoing(s.reqs[r], Queued(s.queues, r), s.reqs[r].phase.n - 1) && Answered(s.reqs[r])
    ensures Fits(s, r, p) && Run(s, r, p) == Goto(s, r, Abort(s.reqs[r].phase.n - 1))
  {
    p := Move(s.reqs[r].(phase := Abort(s.reqs[r].phase.n - 1)), s.waiting, s.clock);
  }

  lemma AbortPlan(s: State, r: nat) returns (p: Plan)
    requires Local(s, r) && CanAbort(s, r) && (s.reqs[r].phase.n == 0 || AbortsLocked(s.reqs[r]))
    ensures Fits(s, r, p) && Run(s, r, p) == DoAbort(s, r)
  {
    var q := s.reqs[r];
    var n := q.phase.n;
    if n == 0 {
      p := Move(q.(phase := Idle, remaining := 0, outcome := NoMemory), s.waiting - 1, s.clock);
    } else {
      p := Move(q.(phase := Scan(q.entries[n - 1].line, true, ToAbort(n - 1))), s.waiting, s.clock);
    }
  }

  // ----- unlocking -----

  lemma StartScanPlan(s: State, r: nat, line: nat) returns (p: Plan)
    requires Local(s, r) && CanStartScan(s, r, line)
    ensures Fits(s, r, p) && Run(s, r, p) == DoStartScan(s, r, line)
  {
    p := Move(s.reqs[r].(phase := Scan(line, true, ToRelease)), s.waiting, s.clock);
  }

  lemma FinishPlan(s: State, r: nat) returns (p: Plan)
    requires Local(s, r) && CanFinish(s, r)
    ensures Fits(s, r, p) && Run(s, r, p) == Goto(s, r, Idle)
  {
    p := Move(s.reqs[r].(phase := Idle), s.waiting, s.clock);
  }

  /** A scan that handed nothing over: nobody waits, or a writer waits behind several readers. */
  lemma NoTaker(s: State, r: nat)
    requires WellFormed(s) && CanScan(s, r) && s.reqs[r].phase.exchanged && !Grants(s, r)
    requires s.reqs[r].phase.line in s.reqs[r].locked && AccessOK(s, s.reqs[r].phase.line)
    ensures s.queues[s.reqs[r].phase.line] != [] ==> 2 <= s.access[s.reqs[r].phase.line] < ACCESS_WR
  {
    HolderCount(s, s.reqs[r].phase.line);
    assert r in Holders(s.reqs, s.reqs[r].phase.line);
  }

  lemma DropRequest(q: Request, queued: set<nat>)
    requires q.phase.Scan? && q.phase.exchanged && PhaseOK(q, queued) && Answered(q)
    ensures var q' := q.(phase := Drop(q.phase.line, q.phase.ret)); PhaseOK(q', queued) && Answered(q')
  {
  }

  /** Once line l is neither held nor queued for, the interrupted phase goes on. */
  lemma AfterRelease(q: Request, queued: set<nat>, l: nat)
    requires (q.phase.Scan? && !q.phase.exchanged && q.phase.line == l) || (q.phase.Drop? && q.phase.line == l)
    requires PhaseOK(q, queued) && Answered(q) && l !in queued
    ensures var q' := q.(phase := Resume(q.phase.ret), locked := q.locked - {l}); PhaseOK(q', queued) && Answered(q')
    ensures q.phase.Scan? ==> q.locked - {l} == q.locked
  {
  }

  /** The scan stops: the list is exhausted, or its head cannot have the line. */
  lemma ScanEndPlan(s: State, r: nat) returns (p: Plan)
    requires Local(s, r) && CanScan(s, r) && !Grants(s, r) && AccessOK(s, s.reqs[r].phase.line)
    ensures Fits(s, r, p) && Run(s, r, p) == DoScanEnd(s, r)
  {
    var q := s.reqs[r];
    var l := q.phase.line;
    if q.phase.exchanged {
      NoTaker(s, r);
      DropRequest(q, Queued(s.queues, r));
      p := Move(q.(phase := Drop(l, q.phase.ret)), s.waiting, s.clock);
    } else {
      AfterRelease(q, Queued(s.queues, r), l);
      p := Move(q.(phase := Resume(q.phase.ret)), s.waiting, s.clock);
    }
  }

  lemma DropPlan(s: State, r: nat) returns (p: Plan)
    requires Local(s, r) && CanDrop(s, r)
    ensures Fits(s, r, p) && Run(s, r, p) == DoDrop(s, r)
  {
    var q := s.reqs[r];
    var l := q.phase.line;
    assert PhaseOK(q, Queued(s.queues, r));
    AfterRelease(q, Queued(s.queues, r), l);
    p := GiveLine(q.(phase := Resume(q.phase.ret), locked := q.locked - {l}), l);
  }

  // ----- all steps -----

  /** Steps other than an enqueue, a withdrawal or a hand-over are one of the three plain effects. */
  predicate Plain(s: State, a: Action)
    requires WellFormed(s) && Enabled(s, a)
  {
    && !a.SubParkStep? && !a.BeginOne?
    && (a.AbortStep? ==> s.reqs[a.r].phase.n == 0 || AbortsLocked(s.reqs[a.r]))
    && (a.ScanStep? ==> !Grants(s, a.r))
  }

  lemma PlainStep(s: State, a: Action) returns (p: Plan)
    requires Local(s, a.r) && Enabled(s, a) && Plain(s, a)
    requires a.ScanStep? ==> AccessOK(s, s.reqs[a.r].phase.line)
    ensures Fits(s, a.r, p) && Run(s, a.r, p) == Apply(s, a)
  {
    match a
    case Begin(r, entries, mode) => p := BeginPlan(s, r, entries, mode);
    case TryStep(r) => p := TryPlan(s, r);
    case TrySlowStep(r) => p := TrySlowPlan(s, r);
    case RollbackStep(r) => p := RollbackPlan(s, r);
    case OneSlowStep(r) => p := OneSlowPlan(s, r);
    case StartSub(r) => p := StartSubPlan(s, r);
    case SubStep(r) => p := SubPlan(s, r);
    case SubSlowStep(r) => p := SubSlowPlan(s, r);
    case NoMem(r) => p := NoMemPlan(s, r);
    case AbortStep(r) => p := AbortPlan(s, r);
    case StartScan(r, line) => p := StartScanPlan(s, r, line);
    case ScanStep(r) => p := ScanEndPlan(s, r);
    case DropStep(r) => p := DropPlan(s, r);
    case Finish(r) => p := FinishPlan(s, r);
  }

  /** Every step of every thread keeps the invariant. */
  lemma StepOK(s: State, a: Action)
    requires Inv(s) && Enabled(s, a)
    ensures Inv(Apply(s, a))
  {
    match a
    case SubParkStep(r) => ParkOK(s, r);
    case BeginOne(r, line) => BeginOneOK(s, r, line);
    case AbortStep(r) =>
      if s.reqs[r].phase.n == 0 || AbortsLocked(s.reqs[r]) { PlainStepOK(s, a); } else { ForgetStepOK(s, r); }
    case ScanStep(r) =>
      if Grants(s, r) { GrantOK(s, r); } else { PlainStepOK(s, a); }
    case Begin(_, _, _) => PlainStepOK(s, a);
    case TryStep(_) => PlainStepOK(s, a);
    case TrySlowStep(_) => PlainStepOK(s, a);
    case RollbackStep(_) => PlainStepOK(s, a);
    case OneSlowStep(_) => PlainStepOK(s, a);
    case StartSub(_) => PlainStepOK(s, a);
    case SubStep(_) => PlainStepOK(s, a);
    case SubSlowStep(_) => PlainStepOK(s, a);
    case NoMem(_) => PlainStepOK(s, a);
    case StartScan(_, _) => PlainStepOK(s, a);
    case DropStep(_) => PlainStepOK(s, a);
    case Finish(_) => PlainStepOK(s, a);
  }

  lemma PlainStepOK(s: State, a: Action)
    requires Inv(s) && Enabled(s, a) && Plain(s, a)
    ensures Inv(Apply(s, a))
  {
    InvLocal(s, a.r);
    var p := PlainStep(s, a);
    PlanOK(s, a.r, p);
  }
}
