/** No waiter sleeps on a line it could have: what the scan of an unlock leaves behind. */
module LineLockHeads {
  import opened LineLockProtocol
  import opened LineLockInvariant
  import opened LineLockSteps
  import opened LineLockProgress
  import opened LineLockPromises
  import opened LineLockCalls
  import opened SetFacts

  predicate ScansLine(q: Request, l: nat) {
    q.phase.Scan? && q.phase.line == l
  }

  ghost predicate Unscanned(s: State, l: nat) {
    forall r :: 0 <= r < |s.reqs| ==> !ScansLine(s.reqs[r], l)
  }

  /** The first waiter of line l is a writer, if there is one. */
  predicate WriterFirst(s: State, l: nat)
    requires l < |s.queues|
  {
    s.queues[l] == [] || (s.queues[l][0] < |s.reqs| && s.reqs[s.queues[l][0]].mode == Wr)
  }

  /** Unless the line is being scanned, a reader is the first waiter only while a writer holds the line. */
  ghost predicate HeadOK(s: State, l: nat)
    requires l < |s.queues| == |s.access|
  {
    Unscanned(s, l) && !WriterFirst(s, l) ==> s.access[l] == ACCESS_WR
  }

  /** A thread about to drop a line found no reader waiting; a reader about to queue found a writer or waiters. */
  predicate SeenOK(s: State, r: nat)
    requires r < |s.reqs| && |s.queues| == |s.access|
  {
    var q := s.reqs[r];
    match q.phase
    case Drop(l, _) => l < |s.queues| && WriterFirst(s, l)
    case SubPark(i) => q.mode == Rd && AtLine(q, i, |s.access|) ==>
      s.queues[q.entries[i].line] != [] || s.access[q.entries[i].line] == ACCESS_WR
    case _ => true
  }

  ghost predicate Heads(s: State)
    requires |s.queues| == |s.access|
  {
    && (forall l: nat :: l < |s.access| ==> HeadOK(s, l))
    && (forall r: nat :: r < |s.reqs| ==> SeenOK(s, r))
  }

  lemma InitHeads(s: State)
    requires Init(s)
    ensures Heads(s)
  {
  }

  // ----- what a step does to one line -----

  /** Requests in a queue keep their mode. */
  lemma WaiterMode(s: State, a: Action, l: nat)
    requires Inv(s) && Enabled(s, a) && l < |s.queues| && s.queues[l] != []
    ensures var w := s.queues[l][0]; w < |s.reqs| && Apply(s, a).reqs[w].mode == s.reqs[w].mode
  {
    assert QueueOK(s, l);
    CallKept(s, a, s.queues[l][0]);
  }

  /** Outside the hand-over and the drop, a step changes the access words of lines without waiters only. */
  lemma AccessKept(s: State, a: Action, l: nat)
    requires Inv(s) && Enabled(s, a) && l < |s.access| && s.queues[l] != []
    requires !(a.ScanStep? && Grants(s, a.r)) && !a.DropStep?
    ensures Apply(s, a).access[l] == s.access[l]
  {
    assert WaitersOK(s, l);
    if a.RollbackStep? {
      assert ReqOK(s, a.r);
      RollbackAccess(s, a.r, l);
    } else {
      OpenAccess(s, a, l);
    }
  }

  lemma RollbackAccess(s: State, r: nat, l: nat)
    requires WellFormed(s) && CanRollback(s, r) && ReqOK(s, r) && l < |s.access| && l !in s.reqs[r].locked
    ensures DoRollback(s, r).access[l] == s.access[l]
  {
    var q := s.reqs[r];
    if q.phase.i > 0 && q.entries[q.phase.i - 1].Line? { RolledBack(q, Queued(s.queues, r)); }
  }

  lemma OpenAccess(s: State, a: Action, l: nat)
    requires WellFormed(s) && Enabled(s, a) && l < |s.access| && s.queues[l] != [] && s.access[l] != 0
    requires !a.ScanStep? || !Grants(s, a.r)
    requires !a.DropStep? && !a.RollbackStep?
    ensures Apply(s, a).access[l] == s.access[l]
  {
    match a
    case TryStep(_) =>
    case TrySlowStep(_) =>
    case SubStep(_) =>
    case SubSlowStep(_) =>
    case BeginOne(_, _) =>
    case OneSlowStep(_) =>
    case AbortStep(_) =>
    case _ =>
  }

  /** Nobody but the threads that a step concerns changes its phase; a sleeper may be resumed. */
  lemma SameThread(s: State, a: Action, t: nat)
    requires Inv(s) && Enabled(s, a) && t < |s.reqs| && t != a.r
    ensures Apply(s, a).reqs[t].phase == s.reqs[t].phase || (s.reqs[t].phase.Suspended? && Apply(s, a).reqs[t].phase.Held?)
    ensures Apply(s, a).reqs[t].mode == s.reqs[t].mode && Apply(s, a).reqs[t].entries == s.reqs[t].entries
  {
    CallKept(s, a, t);
    if a.ScanStep? && Grants(s, a.r) {
      var w, l := InvHanding(s, a.r);
      if t == w { HandedQueued(s, a.r, w, l, w); }
    } else {
      OwnRecord(s, a);
    }
  }

  /** A scan of a line ends by a step of the scanning thread only. */
  lemma ScanStays(s: State, a: Action, l: nat)
    requires Inv(s) && Enabled(s, a) && !(a.ScanStep? && s.reqs[a.r].phase.line == l) && Unscanned(Apply(s, a), l)
    ensures Unscanned(s, l)
  {
    var s' := Apply(s, a);
    forall r: nat | r < |s.reqs| ensures !ScansLine(s.reqs[r], l) {
      assert !ScansLine(s'.reqs[r], l);
      if r != a.r { SameThread(s, a, r); }
    }
  }

  // ----- queues that stay -----

  /** A line whose queue does not change and which no thread stops scanning. */
  lemma QuietLine(s: State, a: Action, l: nat)
    requires Inv(s) && Enabled(s, a) && l < |s.access| && HeadOK(s, l) && Apply(s, a).queues[l] == s.queues[l]
    requires !(a.ScanStep? && s.reqs[a.r].phase.line == l) && !(a.DropStep? && s.reqs[a.r].phase.line == l)
    ensures HeadOK(Apply(s, a), l)
    ensures WriterFirst(Apply(s, a), l) <==> WriterFirst(s, l)
    ensures s.queues[l] != [] ==> Apply(s, a).access[l] == s.access[l]
  {
    var s' := Apply(s, a);
    if s.queues[l] != [] {
      WaiterMode(s, a, l);
      OtherAccess(s, a, l);
      if Unscanned(s', l) { ScanStays(s, a, l); }
    }
  }

  lemma OtherAccess(s: State, a: Action, l: nat)
    requires Inv(s) && Enabled(s, a) && l < |s.access| && s.queues[l] != []
    requires !(a.ScanStep? && s.reqs[a.r].phase.line == l) && !(a.DropStep? && s.reqs[a.r].phase.line == l)
    ensures Apply(s, a).access[l] == s.access[l]
  {
    if a.DropStep? || (a.ScanStep? && Grants(s, a.r)) {
    } else {
      AccessKept(s, a, l);
    }
  }

  // ----- lines that change -----

  /** The scan goes on, or it found no reader it could let in. */
  lemma ScannedLine(s: State, r: nat)
    requires Inv(s) && CanScan(s, r)
    ensures HeadOK(DoScan(s, r), s.reqs[r].phase.line)
    ensures !Grants(s, r) && s.reqs[r].phase.exchanged ==> WriterFirst(s, s.reqs[r].phase.line)
  {
    var l := s.reqs[r].phase.line;
    if Grants(s, r) {
      GrantScans(s, r);
    } else {
      if s.queues[l] != [] { assert QueueOK(s, l); }
      ScanEndHead(s, r);
    }
  }

  lemma GrantScans(s: State, r: nat)
    requires Inv(s) && Grants(s, r)
    ensures ScansLine(DoGrant(s, r).reqs[r], s.reqs[r].phase.line)
  {
    var w, l := InvHanding(s, r);
    HandedQueued(s, r, w, l, w);
  }

  lemma ScanEndHead(s: State, r: nat)
    requires WellFormed(s) && CanScan(s, r) && !Grants(s, r)
    ensures var l := s.reqs[r].phase.line; WriterFirst(s, l) || (!s.reqs[r].phase.exchanged && s.access[l] == ACCESS_WR)
    ensures HeadOK(DoScanEnd(s, r), s.reqs[r].phase.line)
  {
  }

  /** Dropping a line: no reader waits for it. */
  lemma DroppedLine(s: State, r: nat)
    requires Inv(s) && CanDrop(s, r) && SeenOK(s, r)
    ensures HeadOK(DoDrop(s, r), s.reqs[r].phase.line)
  {
  }

  /** A waiter joins: it is the first only if a writer holds the line or it is one. */
  lemma ParkedLine(s: State, r: nat, l: nat)
    requires Inv(s) && CanSubPark(s, r) && SeenOK(s, r) && l == s.reqs[r].entries[s.reqs[r].phase.i].line && HeadOK(s, l)
    ensures HeadOK(DoSubPark(s, r), l)
  {
    var s' := DoSubPark(s, r);
    if Unscanned(s', l) {
      forall t: nat | t < |s.reqs| ensures !ScansLine(s.reqs[t], l) { assert !ScansLine(s'.reqs[t], l); }
      if s.queues[l] != [] { assert QueueOK(s, l) && s'.queues[l][0] == s.queues[l][0]; }
    }
  }

  /** Withdrawing the newest waiter leaves the first one, or nobody. */
  lemma {:induction false} RemoveNewest(q: seq<nat>, r: nat)
    requires forall k :: 0 <= k < |q| - 1 ==> q[k] != r
    ensures Remove(q, r) == [] || (q != [] && Remove(q, r)[0] == q[0])
  {
    if |q| == 1 { assert Remove(q[1..], r) == []; }
  }

  lemma NewestIsLast(s: State, r: nat, l: nat)
    requires Inv(s) && r < |s.reqs| && InWrite(s.reqs[r]) && l < |s.queues|
    ensures forall k :: 0 <= k < |s.queues[l]| - 1 ==> s.queues[l][k] != r
  {
    assert QueueOK(s, l);
    var q := s.queues[l];
    forall k | 0 <= k < |q| - 1 ensures q[k] != r {
      assert s.reqs[q[k]].ticket < s.reqs[q[|q| - 1]].ticket;
    }
  }

  lemma ForgottenHead(s: State, r: nat, l: nat)
    requires Inv(s) && CanAbort(s, r) && l < |s.queues|
    ensures DoAbort(s, r).queues[l] == [] || (s.queues[l] != [] && DoAbort(s, r).queues[l][0] == s.queues[l][0])
  {
    NewestIsLast(s, r, l);
    RemoveNewest(s.queues[l], r);
  }

  lemma AbortedLine(s: State, r: nat, l: nat)
    requires Inv(s) && CanAbort(s, r) && l < |s.access| && HeadOK(s, l)
    ensures HeadOK(DoAbort(s, r), l)
  {
    var s' := DoAbort(s, r);
    ForgottenHead(s, r, l);
    if s'.queues[l] != [] && Unscanned(s', l) {
      WaiterMode(s, AbortStep(r), l);
      AccessKept(s, AbortStep(r), l);
      ScanStays(s, AbortStep(r), l);
    }
  }

  // ----- all lines, all requests -----

  lemma StepHead(s: State, a: Action, l: nat)
    requires Inv(s) && Heads(s) && Enabled(s, a) && l < |s.access|
    ensures HeadOK(Apply(s, a), l)
  {
    assert HeadOK(s, l) && SeenOK(s, a.r);
    if a.AbortStep? {
      AbortedLine(s, a.r, l);
    } else if a.SubParkStep? && l == s.reqs[a.r].entries[s.reqs[a.r].phase.i].line {
      ParkedLine(s, a.r, l);
    } else if a.ScanStep? && s.reqs[a.r].phase.line == l {
      ScannedLine(s, a.r);
    } else if a.DropStep? && s.reqs[a.r].phase.line == l {
      DroppedLine(s, a.r);
    } else {
      QueueOfOther(s, a, l);
      QuietLine(s, a, l);
    }
  }

  lemma QueueOfOther(s: State, a: Action, l: nat)
    requires WellFormed(s) && Enabled(s, a) && l < |s.access| && !a.AbortStep?
    requires !(a.SubParkStep? && l == s.reqs[a.r].entries[s.reqs[a.r].phase.i].line)
    requires !(a.ScanStep? && s.reqs[a.r].phase.line == l)
    ensures Apply(s, a).queues[l] == s.queues[l]
  {
    if !a.SubParkStep? && !(a.ScanStep? && Grants(s, a.r)) { SameQueues(s, a); }
  }

  /** While thread t has the list of line l, no other thread touches the queue of l. */
  lemma ListHolderAlone(s: State, a: Action, t: nat, l: nat)
    requires Inv(s) && Enabled(s, a) && t < |s.reqs| && t != a.r && ListLine(s.reqs[t]) == l && l < |s.access|
    ensures Apply(s, a).queues[l] == s.queues[l]
    ensures !(a.ScanStep? && s.reqs[a.r].phase.line == l) && !(a.DropStep? && s.reqs[a.r].phase.line == l)
  {
    if a.AbortStep? {
      AbortElsewhere(s, a.r, t, l);
    } else {
      if a.ScanStep? || a.DropStep? || a.SubParkStep? { assert ListLine(s.reqs[a.r]) >= 0; }
      QueueOfOther(s, a, l);
    }
  }

  lemma AbortElsewhere(s: State, r: nat, t: nat, l: nat)
    requires WellFormed(s) && CanAbort(s, r) && t < |s.reqs| && ListLine(s.reqs[t]) == l && l < |s.access|
    ensures DoAbort(s, r).queues[l] == s.queues[l]
  {
  }

  lemma OtherSeen(s: State, a: Action, t: nat)
    requires Inv(s) && Heads(s) && Enabled(s, a) && t < |s.reqs| && t != a.r
    ensures SeenOK(Apply(s, a), t)
  {
    var q := s.reqs[t];
    assert SeenOK(s, t) && ReqOK(s, t) && FoundOK(s, t);
    SameThread(s, a, t);
    if q.phase.Drop? || (q.phase.SubPark? && q.mode == Rd) {
      var l := if q.phase.Drop? then q.phase.line else q.entries[q.phase.i].line;
      assert HeadOK(s, l);
      ListHolderAlone(s, a, t, l);
      QuietLine(s, a, l);
      if q.phase.SubPark? && s.queues[l] == [] { WriterStays(s, a, t, l); }
    }
  }

  /** A line held for writing stays so while the list is taken and the exclusive section is occupied by others. */
  lemma WriterStays(s: State, a: Action, t: nat, l: nat)
    requires Inv(s) && Enabled(s, a) && t < |s.reqs| && t != a.r && s.reqs[t].phase.SubPark? && ListLine(s.reqs[t]) == l
    requires l < |s.access| && s.access[l] == ACCESS_WR
    ensures Apply(s, a).access[l] == ACCESS_WR
  {
    ListHolderAlone(s, a, t, l);
    assert InWrite(s.reqs[t]);
    assert !a.RollbackStep? by { if a.RollbackStep? { assert InRead(s.reqs[a.r]); } }
    WriterAccess(s, a, l);
  }

  lemma WriterAccess(s: State, a: Action, l: nat)
    requires WellFormed(s) && Enabled(s, a) && l < |s.access| && s.access[l] == ACCESS_WR && !a.RollbackStep?
    requires !(a.ScanStep? && s.reqs[a.r].phase.line == l) && !(a.DropStep? && s.reqs[a.r].phase.line == l)
    ensures Apply(s, a).access[l] == ACCESS_WR
  {
    match a
    case TryStep(_) =>
    case TrySlowStep(_) =>
    case SubStep(_) =>
    case SubSlowStep(_) =>
    case BeginOne(_, _) =>
    case OneSlowStep(_) =>
    case AbortStep(_) =>
    case _ =>
  }

  lemma OwnSeen(s: State, a: Action)
    requires Inv(s) && Enabled(s, a)
    ensures SeenOK(Apply(s, a), a.r)
  {
    assert ReqOK(s, a.r) && FoundOK(s, a.r);
    if a.ScanStep? {
      ScannedLine(s, a.r);
      if Grants(s, a.r) { GrantScans(s, a.r); } else { ScanEndSeen(s, a.r); }
    } else {
      OwnSeenOther(s, a);
    }
  }

  lemma ScanEndSeen(s: State, r: nat)
    requires WellFormed(s) && CanScan(s, r) && !Grants(s, r) && (s.reqs[r].phase.exchanged ==> WriterFirst(s, s.reqs[r].phase.line))
    ensures SeenOK(DoScanEnd(s, r), r)
  {
  }

  lemma OwnSeenOther(s: State, a: Action)
    requires WellFormed(s) && Enabled(s, a) && !a.ScanStep?
    ensures SeenOK(Apply(s, a), a.r)
  {
    if a.SubSlowStep? {
      SubSlowSeen(s, a.r);
    } else {
      NotListed(s, a);
    }
  }

  lemma SubSlowSeen(s: State, r: nat)
    requires WellFormed(s) && CanSubSlow(s, r)
    ensures SeenOK(DoSubSlow(s, r), r)
  {
  }

  lemma NotListed(s: State, a: Action)
    requires WellFormed(s) && Enabled(s, a) && !a.ScanStep? && !a.SubSlowStep?
    ensures !Apply(s, a).reqs[a.r].phase.Drop? && !Apply(s, a).reqs[a.r].phase.SubPark?
  {
    match a
    case TryStep(_) =>
    case TrySlowStep(_) =>
    case SubStep(_) =>
    case BeginOne(_, _) =>
    case OneSlowStep(_) =>
    case AbortStep(_) =>
    case _ =>
  }

  lemma StepHeads(s: State, a: Action)
    requires Inv(s) && Heads(s) && Enabled(s, a)
    ensures Heads(Apply(s, a))
  {
    forall l: nat | l < |s.access| ensures HeadOK(Apply(s, a), l) { StepHead(s, a, l); }
    forall t: nat | t < |s.reqs| ensures SeenOK(Apply(s, a), t) {
      if t == a.r { OwnSeen(s, a); } else { OtherSeen(s, a, t); }
    }
  }

  lemma {:induction false} RunKeepsHeads(states: seq<State>, actions: seq<Action>, n: nat)
    requires IsRun(states, actions) && n < |states|
    ensures Inv(states[n]) && Heads(states[n])
  {
    RunKeepsInv(states, actions, n);
    if n == 0 {
      InitHeads(states[0]);
    } else {
      RunKeepsHeads(states, actions, n - 1);
      assert Leads(states[n - 1], actions[n - 1], states[n - 1 + 1]);
      StepHeads(states[n - 1], actions[n - 1]);
    }
  }

  /**
   In every reachable state the first waiter of a line that is not being scanned could not have the
   line: somebody holds it, and if the waiter is a reader, a writer does.
   */
  lemma FirstWaiterMustWait(s: State, l: nat)
    requires Reachable(s) && l < |s.queues| && l < |s.access| && s.queues[l] != [] && Unscanned(s, l)
    ensures s.queues[l][0] < |s.reqs| && !Unheld(s, l)
    ensures s.reqs[s.queues[l][0]].mode == Rd ==> exists t :: 0 <= t < |s.reqs| && l in s.reqs[t].locked && s.reqs[t].mode == Wr
  {
    var states, actions :| IsRun(states, actions) && states[|actions|] == s;
    RunKeepsHeads(states, actions, |actions|);
    assert HeadOK(s, l) && QueueOK(s, l) && WaitersOK(s, l);
    FreeIffUnheld(s, l);
  }
}
