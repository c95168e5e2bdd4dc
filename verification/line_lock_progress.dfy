/** What the line lock promises over whole runs. */
module LineLockProgress {
  import opened LineLockProtocol
  import opened LineLockInvariant
  import opened LineLockSteps
  import opened SetFacts
  import opened Sums

  // ----- safety -----

  /** Action a leads from s to next. */
  predicate Leads(s: State, a: Action, next: State) {
    WellFormed(s) && Enabled(s, a) && next == Apply(s, a)
  }

  predicate IsRun(states: seq<State>, actions: seq<Action>) {
    && |states| == |actions| + 1
    && Init(states[0])
    && forall i :: 0 <= i < |actions| ==> Leads(states[i], actions[i], states[i + 1])
  }

  lemma {:induction false} RunKeepsInv(states: seq<State>, actions: seq<Action>, n: nat)
    requires IsRun(states, actions) && n < |states|
    ensures Inv(states[n])
  {
    if n == 0 {
      InitOK(states[0]);
    } else {
      RunKeepsInv(states, actions, n - 1);
      assert Leads(states[n - 1], actions[n - 1], states[n - 1 + 1]);
      StepOK(states[n - 1], actions[n - 1]);
    }
  }

  /** The assertions the source makes about access words, flags and countdowns at each step. */
  predicate BugFree(s: State, a: Action)
    requires WellFormed(s) && Enabled(s, a)
  {
    var q := s.reqs[a.r];
    match a
    case TryStep(_) => q.remaining == 0 && (q.phase.i < |q.entries| && q.entries[q.phase.i].Line? ==> q.entries[q.phase.i].line !in q.locked)
    case SubStep(_) => q.phase.i < |q.entries| && q.entries[q.phase.i].Line? ==> q.entries[q.phase.i].line !in q.locked
    case StartSub(_) => q.remaining == 0
    case RollbackStep(_) =>
      q.phase.i > 0 && q.entries[q.phase.i - 1].Line? ==> Owned(s.access[q.entries[q.phase.i - 1].line], q.mode)
    case ScanStep(_) => q.phase.exchanged ==> Owned(s.access[q.phase.line], q.mode)
    case DropStep(_) => Owned(s.access[q.phase.line], q.mode)
    case _ => true
  }

  predicate Owned(a: int, mode: Mode) {
    if mode == Wr then a == ACCESS_WR else 0 < a < ACCESS_WR
  }

  lemma HolderOwns(s: State, r: nat, l: nat)
    requires WellFormed(s) && r < |s.reqs| && l < |s.access| && AccessOK(s, l) && l in s.reqs[r].locked
    ensures Owned(s.access[l], s.reqs[r].mode)
  {
    HolderCount(s, l);
    assert r in Holders(s.reqs, l);
  }

  lemma LockedInRange(q: Request, i: nat, lines: nat, l: nat)
    requires EntriesOK(q.entries, lines) && i <= |q.entries| && l in UpTo(q.entries, i)
    ensures l < lines
  {
    UpToMember(q.entries, i, l);
  }

  lemma NoBug(s: State, a: Action)
    requires Inv(s) && Enabled(s, a)
    ensures BugFree(s, a)
  {
    assert ReqOK(s, a.r) && FoundOK(s, a.r);
    if a.TryStep? || a.SubStep? {
      NoBugTaking(s, a);
    } else if a.RollbackStep? || a.ScanStep? || a.DropStep? {
      NoBugGiving(s, a);
    }
  }

  lemma NoBugTaking(s: State, a: Action)
    requires WellFormed(s) && Enabled(s, a) && (a.TryStep? || a.SubStep?) && ReqOK(s, a.r)
    ensures BugFree(s, a)
  {
    var q := s.reqs[a.r];
    if q.phase.i < |q.entries| && q.entries[q.phase.i].Line? { FreshLine(q.entries, q.phase.i); }
  }

  lemma NoBugGiving(s: State, a: Action)
    requires WellFormed(s) && Enabled(s, a) && (a.RollbackStep? || a.ScanStep? || a.DropStep?) && ReqOK(s, a.r) && FoundOK(s, a.r)
    requires forall l :: 0 <= l < |s.access| ==> AccessOK(s, l)
    ensures BugFree(s, a)
  {
    var q := s.reqs[a.r];
    if a.RollbackStep? {
      if q.phase.i > 0 && q.entries[q.phase.i - 1].Line? { HolderOwns(s, a.r, q.entries[q.phase.i - 1].line); }
    } else if a.DropStep? || q.phase.exchanged {
      HolderOwns(s, a.r, q.phase.line);
    }
  }

  /** Two requests share a line only for reading, and the access word is the exact count. */
  lemma MutualExclusion(s: State, l: nat)
    requires Inv(s) && l < |s.access|
    ensures forall r, t :: r in Holders(s.reqs, l) && t in Holders(s.reqs, l) && s.reqs[r].mode == Wr ==> r == t
    ensures if exists r :: r in Holders(s.reqs, l) && s.reqs[r].mode == Wr then s.access[l] == ACCESS_WR
            else s.access[l] == |Holders(s.reqs, l)| < ACCESS_WR
  {
    assert AccessOK(s, l);
    HolderCount(s, l);
  }

  /** Except for a hand-over, a step changes the record of its own request only. */
  lemma OwnRecord(s: State, a: Action)
    requires WellFormed(s) && Enabled(s, a) && !(a.ScanStep? && Grants(s, a.r))
    ensures Apply(s, a).reqs == s.reqs[a.r := Apply(s, a).reqs[a.r]]
  {
    match a
    case SubStep(_) =>
    case SubSlowStep(_) =>
    case BeginOne(_, _) =>
    case OneSlowStep(_) =>
    case TryStep(_) =>
    case TrySlowStep(_) =>
    case AbortStep(_) =>
    case _ =>
  }

  /** A line that an attempt, with or without the list lock, may take. */
  predicate Open(s: State, l: nat)
    requires l < |s.access| == |s.queues|
  {
    s.access[l] == 0 || (s.queues[l] == [] && s.access[l] != ACCESS_WR)
  }

  lemma TryLocks(s: State, r: nat, l: nat)
    requires WellFormed(s) && CanTry(s, r) && l < |s.access|
    ensures s.reqs[r].locked <= DoTry(s, r).reqs[r].locked
    ensures l in DoTry(s, r).reqs[r].locked && l !in s.reqs[r].locked ==> Open(s, l)
  {
  }

  lemma TrySlowLocks(s: State, r: nat, l: nat)
    requires WellFormed(s) && CanTrySlow(s, r) && l < |s.access|
    ensures s.reqs[r].locked <= DoTrySlow(s, r).reqs[r].locked
    ensures l in DoTrySlow(s, r).reqs[r].locked && l !in s.reqs[r].locked ==> Open(s, l)
  {
  }

  lemma SubTakeLocks(s: State, r: nat, l: nat)
    requires r < |s.reqs| && (s.reqs[r].phase.Sub? || s.reqs[r].phase.SubSlow?) && AtLine(s.reqs[r], s.reqs[r].phase.i, |s.access|)
    ensures SubTake(s, r).reqs[r].locked == s.reqs[r].locked + {s.reqs[r].entries[s.reqs[r].phase.i].line}
    ensures SubTake(s, r).reqs[r].fired != s.reqs[r].fired ==> s.reqs[r].remaining == 1
  {
  }

  lemma SubLocks(s: State, r: nat, l: nat)
    requires WellFormed(s) && CanSub(s, r) && l < |s.access|
    ensures s.reqs[r].locked <= DoSub(s, r).reqs[r].locked
    ensures l in DoSub(s, r).reqs[r].locked && l !in s.reqs[r].locked ==> Open(s, l)
    ensures DoSub(s, r).reqs[r].fired != s.reqs[r].fired ==> s.reqs[r].remaining == 1 && AtLine(s.reqs[r], s.reqs[r].phase.i, |s.access|)
  {
    var q := s.reqs[r];
    if AtLine(q, q.phase.i, |s.access|) { SubTakeLocks(s, r, l); }
  }

  lemma SubSlowLocks(s: State, r: nat, l: nat)
    requires WellFormed(s) && CanSubSlow(s, r) && l < |s.access|
    ensures s.reqs[r].locked <= DoSubSlow(s, r).reqs[r].locked
    ensures l in DoSubSlow(s, r).reqs[r].locked && l !in s.reqs[r].locked ==> Open(s, l)
    ensures DoSubSlow(s, r).reqs[r].fired != s.reqs[r].fired ==> s.reqs[r].remaining == 1
  {
    SubTakeLocks(s, r, l);
  }

  lemma OneLocks(s: State, a: Action, l: nat)
    requires WellFormed(s) && Enabled(s, a) && (a.BeginOne? || a.OneSlowStep?) && l < |s.access|
    ensures a.OneSlowStep? ==> s.reqs[a.r].locked <= Apply(s, a).reqs[a.r].locked
    ensures l in Apply(s, a).reqs[a.r].locked && l !in s.reqs[a.r].locked ==> Open(s, l)
  {
  }

  lemma AbortLocks(s: State, r: nat)
    requires WellFormed(s) && CanAbort(s, r)
    ensures DoAbort(s, r).reqs[r].locked == s.reqs[r].locked && DoAbort(s, r).reqs[r].fired == s.reqs[r].fired
  {
  }

  /** How one step changes the locks of its own request; only submission could fire its callback. */
  lemma OwnLocks(s: State, a: Action, l: nat)
    requires WellFormed(s) && Enabled(s, a) && !(a.ScanStep? && Grants(s, a.r)) && l < |s.access|
    ensures a.Begin? || a.BeginOne? || a.RollbackStep? || a.DropStep? || s.reqs[a.r].locked <= Apply(s, a).reqs[a.r].locked
    ensures l in Apply(s, a).reqs[a.r].locked && l !in s.reqs[a.r].locked ==> Open(s, l)
    ensures Apply(s, a).reqs[a.r].fired != s.reqs[a.r].fired && !IsBegin(a) ==>
      (a.SubStep? || a.SubSlowStep?) && s.reqs[a.r].remaining == 1 && AtLine(s.reqs[a.r], s.reqs[a.r].phase.i, |s.access|)
  {
    match a
    case TryStep(r) => TryLocks(s, r, l);
    case TrySlowStep(r) => TrySlowLocks(s, r, l);
    case SubStep(r) => SubLocks(s, r, l);
    case SubSlowStep(r) => SubSlowLocks(s, r, l);
    case BeginOne(_, _) => OneLocks(s, a, l);
    case OneSlowStep(_) => OneLocks(s, a, l);
    case AbortStep(r) => AbortLocks(s, r);
    case _ =>
  }

  /** The steps that can take a line away from a request. */
  lemma LockedShrinks(s: State, a: Action, r: nat, l: nat)
    requires WellFormed(s) && Enabled(s, a) && r < |s.reqs| && l < |s.access|
    requires l in s.reqs[r].locked && l !in Apply(s, a).reqs[r].locked
    ensures a.r == r && (a.Begin? || a.BeginOne? || a.RollbackStep? || a.ScanStep? || a.DropStep?)
  {
    if !(a.ScanStep? && Grants(s, a.r)) {
      OwnRecord(s, a);
      OwnLocks(s, a, l);
    }
  }

  /** No lost wake-up: a queue has a holder in front of it, and every holder scans the queue before it leaves. */
  lemma NoLostWakeup(s: State, l: nat)
    requires Inv(s) && l < |s.access| && s.queues[l] != []
    ensures exists r :: r in Holders(s.reqs, l)
    ensures forall r :: r in Holders(s.reqs, l) && s.reqs[r].phase.Drop? && s.reqs[r].phase.line == l ==> s.access[l] >= 2
  {
    assert AccessOK(s, l) && WaitersOK(s, l);
    HolderCount(s, l);
    var h :| h in Holders(s.reqs, l);
    forall r | r in Holders(s.reqs, l) && s.reqs[r].phase.Drop? && s.reqs[r].phase.line == l ensures s.access[l] >= 2 {
      assert FoundOK(s, r);
    }
  }

  lemma OnlyScanReleases(s: State, r: nat, a: Action, l: nat)
    requires Inv(s) && r < |s.reqs| && l < |s.access| && s.queues[l] != [] && l in s.reqs[r].locked
    requires Enabled(s, a) && l !in Apply(s, a).reqs[r].locked
    ensures a == ScanStep(r) || a == DropStep(r)
  {
    LockedShrinks(s, a, r, l);
    assert WaitersOK(s, l) && ReqOK(s, r);
  }

  /** The steps that can give a request a line. */
  lemma LockedGrows(s: State, a: Action, r: nat, l: nat)
    requires WellFormed(s) && Enabled(s, a) && r < |s.reqs| && l < |s.access|
    requires l !in s.reqs[r].locked && l in Apply(s, a).reqs[r].locked
    ensures Open(s, l) || (a.ScanStep? && Grants(s, a.r) && s.reqs[a.r].phase.line == l && r == s.queues[l][0])
  {
    if !(a.ScanStep? && Grants(s, a.r)) {
      OwnRecord(s, a);
      OwnLocks(s, a, l);
    }
  }

  /** Nobody overtakes: while a line has waiters, only its first waiter can get it. */
  lemma NoBarging(s: State, a: Action, r: nat, l: nat)
    requires Inv(s) && Enabled(s, a) && r < |s.reqs| && l < |s.access| && s.queues[l] != []
    requires l !in s.reqs[r].locked && l in Apply(s, a).reqs[r].locked
    ensures r == s.queues[l][0] && a.ScanStep? && s.reqs[a.r].phase.line == l
    ensures Apply(s, a).queues[l] == s.queues[l][1..]
  {
    LockedGrows(s, a, r, l);
    assert WaitersOK(s, l);
  }

  /** A callback takes a sleeper that misses one line to the owner of all its lines. */
  predicate Fires(q: Request, q': Request) {
    && q.phase.Suspended? && q.outcome == NotAcquired && q.fired == 0
    && q'.phase == Held && q'.fired == 1 && q'.outcome == NotAcquired && q'.locked == UpTo(q'.entries, |q'.entries|)
  }

  lemma FlaggedFires(q: Request, l: nat, queued: set<nat>)
    requires PhaseOK(q, queued) && Answered(q) && Ticketed(q) && l in queued && Flagged(q, l).fired != q.fired
    ensures Fires(q, Flagged(q, l))
  {
    FlaggedOK(q, l, queued);
  }

  lemma GrantFires(s: State, r: nat, t: nat)
    requires Inv(s) && Grants(s, r) && t < |s.reqs| && DoGrant(s, r).reqs[t].fired != s.reqs[t].fired
    ensures Fires(s.reqs[t], DoGrant(s, r).reqs[t])
  {
    var w, l := InvHanding(s, r);
    HandedQueued(s, r, w, l, t);
    FlaggedFires(s.reqs[w], l, Queued(s.queues, w));
  }

  /** The callback of a request fires in one kind of step only: its last missing line is granted while it sleeps. */
  lemma FiredOnce(s: State, a: Action, t: nat)
    requires Inv(s) && Enabled(s, a) && t < |s.reqs|
    requires Apply(s, a).reqs[t].fired != s.reqs[t].fired && !(IsBegin(a) && a.r == t)
    ensures Fires(s.reqs[t], Apply(s, a).reqs[t])
  {
    if a.ScanStep? && Grants(s, a.r) {
      GrantFires(s, a.r, t);
    } else {
      OwnRecord(s, a);
      assert ReqOK(s, a.r);
      OwnFired(s, a);
    }
  }

  lemma OwnFired(s: State, a: Action)
    requires WellFormed(s) && Enabled(s, a) && !(a.ScanStep? && Grants(s, a.r)) && !IsBegin(a) && ReqOK(s, a.r)
    ensures Apply(s, a).reqs[a.r].fired == s.reqs[a.r].fired
  {
    if |s.access| > 0 { OwnLocks(s, a, 0); }
  }

  // ----- progress -----

  predicate IsBegin(a: Action) {
    a.Begin? || a.BeginOne?
  }

  predicate Quiescent(s: State) {
    forall r :: 0 <= r < |s.reqs| ==> s.reqs[r].phase == Idle
  }

  /** A sleeping request waits only for requests that entered the exclusive section before it. */
  lemma WaitsForOlder(s: State, r: nat, l: nat, h: nat)
    requires Inv(s) && r < |s.reqs| && h < |s.reqs| && l < |s.access| && r in s.queues[l]
    requires l in s.reqs[h].locked && Ticketed(s.reqs[h])
    ensures s.reqs[h].ticket < s.reqs[r].ticket
  {
    assert WaitersOK(s, l);
    var k :| 0 <= k < |s.queues[l]| && s.queues[l][k] == r;
  }

  lemma {:induction false} SleepersAreNotAlone(s: State, r: nat)
    requires Inv(s) && r < |s.reqs| && s.reqs[r].phase.Suspended?
    ensures exists t :: 0 <= t < |s.reqs| && s.reqs[t].phase != Idle && s.reqs[t].phase != Failed && s.reqs[t].phase != Suspended
    decreases s.reqs[r].ticket
  {
    assert ReqOK(s, r);
    var l :| l in Queued(s.queues, r);
    NoLostWakeup(s, l);
    var h :| h in Holders(s.reqs, l);
    assert ReqOK(s, h);
    if s.reqs[h].phase.Suspended? {
      WaitsForOlder(s, r, l, h);
      SleepersAreNotAlone(s, h);
    }
  }

  predicate InList(q: Request) {
    q.phase.Scan? || q.phase.Drop? || q.phase.SubPark?
  }

  /** The next step of a request that is not asleep, in a state where it is not locked out. */
  lemma NextStep(s: State, t: nat) returns (a: Action)
    requires Inv(s) && t < |s.reqs| && s.reqs[t].phase != Idle && s.reqs[t].phase != Suspended
    requires InList(s.reqs[t]) || forall r :: 0 <= r < |s.reqs| ==> !InList(s.reqs[r])
    requires s.reqs[t].phase == Failed ==> NoWriter(s) && NoReader(s)
    ensures Enabled(s, a) && !IsBegin(a)
  {
    assert ReqOK(s, t);
    if InList(s.reqs[t]) {
      assert FoundOK(s, t);
      if s.reqs[t].phase.Scan? { assert QueueOK(s, s.reqs[t].phase.line); }
      a := ListStep(s, t);
    } else if s.reqs[t].phase.Held? || s.reqs[t].phase.Releasing? {
      a := LeaveStep(s, t);
    } else {
      a := CallStep(s, t);
    }
  }

  lemma ListStep(s: State, t: nat) returns (a: Action)
    requires WellFormed(s) && t < |s.reqs| && InList(s.reqs[t]) && FoundOK(s, t)
    requires s.reqs[t].phase.Scan? ==> QueueOK(s, s.reqs[t].phase.line)
    ensures Enabled(s, a) && !IsBegin(a)
  {
    match s.reqs[t].phase
    case SubPark(_) => a := SubParkStep(t);
    case Drop(_, _) => a := DropStep(t);
    case Scan(_, _, _) => a := ScanStep(t);
  }

  lemma CallStep(s: State, t: nat) returns (a: Action)
    requires WellFormed(s) && t < |s.reqs| && ReqOK(s, t)
    requires var p := s.reqs[t].phase; !p.Idle? && !p.Suspended? && !p.Held? && !p.Releasing? && !InList(s.reqs[t])
    requires forall r :: 0 <= r < |s.reqs| ==> !InList(s.reqs[r])
    requires s.reqs[t].phase == Failed ==> NoWriter(s) && NoReader(s)
    ensures Enabled(s, a) && !IsBegin(a)
  {
    if InWrite(s.reqs[t]) {
      a := ExclusiveStep(s, t);
    } else {
      match s.reqs[t].phase
      case Trying(_) => a := TryStep(t);
      case TrySlow(_) => a := TrySlowStep(t);
      case Rollback(_) => a := RollbackStep(t);
      case Failed => a := StartSub(t);
      case OneSlow => a := OneSlowStep(t);
    }
  }

  lemma ExclusiveStep(s: State, t: nat) returns (a: Action)
    requires WellFormed(s) && t < |s.reqs| && ReqOK(s, t) && InWrite(s.reqs[t]) && !InList(s.reqs[t])
    requires forall r :: 0 <= r < |s.reqs| ==> !InList(s.reqs[r])
    ensures Enabled(s, a) && !IsBegin(a)
  {
    match s.reqs[t].phase
    case Sub(_) => a := SubStep(t);
    case SubSlow(_) => a := SubSlowStep(t);
    case Abort(_) => a := AbortStep(t);
  }

  lemma LeaveStep(s: State, t: nat) returns (a: Action)
    requires WellFormed(s) && t < |s.reqs| && s.reqs[t].locked <= UpTo(s.reqs[t].entries, |s.reqs[t].entries|)
    requires s.reqs[t].phase.Held? || s.reqs[t].phase.Releasing?
    requires forall r :: 0 <= r < |s.reqs| ==> !InList(s.reqs[r])
    ensures Enabled(s, a) && !IsBegin(a)
  {
    var q := s.reqs[t];
    if q.locked == {} {
      a := Finish(t);
    } else {
      var l :| l in q.locked;
      LockedInRange(q, |q.entries|, |s.access|, l);
      a := StartScan(t, l);
    }
  }

  /** Deadlock freedom: unless every request is idle, some thread can take a step. */
  lemma DeadlockFree(s: State) returns (a: Action)
    requires Inv(s) && !Quiescent(s)
    ensures Enabled(s, a) && !IsBegin(a)
  {
    if t: nat :| t < |s.reqs| && InList(s.reqs[t]) {
      a := NextStep(s, t);
    } else if t: nat :| t < |s.reqs| && s.reqs[t].phase != Idle && s.reqs[t].phase != Failed && s.reqs[t].phase != Suspended {
      a := NextStep(s, t);
    } else if t: nat :| t < |s.reqs| && s.reqs[t].phase == Failed {
      a := NextStep(s, t);
    } else {
      var t: nat :| t < |s.reqs| && s.reqs[t].phase != Idle;
      SleepersAreNotAlone(s, t);
    }
  }

  // ----- every step but a new call uses up budget -----

  function SubRank(m: nat): nat { 8 * m + 4 }
  function FailedRank(m: nat): nat { SubRank(m) + 5 * m + 1 }

  /** How many more steps of its own a request may need. */
  function Rank(q: Request): nat {
    var m, k := |q.entries|, |q.locked|;
    match q.phase
    case Idle => 0
    case Trying(i) => FailedRank(m) + 2 + m + if i <= m then 2 * (m - i) else 0
    case TrySlow(i) => FailedRank(m) + 1 + m + if i <= m then 2 * (m - i) else 0
    case Rollback(i) => FailedRank(m) + 1 + i
    case Failed => FailedRank(m)
    case OneSlow => 10
    case Sub(i) => SubRank(m) + if i <= m then 5 * (m - i) else 0
    case SubSlow(i) => SubRank(m) + if i < m then 5 * (m - i) - 1 else 0
    case SubPark(i) => SubRank(m) + if i < m then 5 * (m - i) - 2 else 0
    case Abort(n) => 8 * n + 1
    case Suspended => 4 * m + 3
    case Held => 4 * k + 2
    case Releasing => 4 * k + 1
    case Scan(_, ex, ToRelease) => if ex then 4 * k else 4 * k + 2
    case Drop(_, ToRelease) => if k > 0 then 4 * k - 1 else 0
    case Scan(_, ex, ToAbort(n)) => if ex then 8 * n + 7 else 8 * n + 5
    case Drop(_, ToAbort(n)) => 8 * n + 6
  }

  function Ranks(reqs: seq<Request>): seq<nat> {
    seq(|reqs|, i requires 0 <= i < |reqs| => Rank(reqs[i]))
  }

  function Lengths(queues: seq<seq<nat>>): seq<nat> {
    seq(|queues|, i requires 0 <= i < |queues| => |queues[i]|)
  }

  function Budget(s: State): nat {
    Sum(Ranks(s.reqs)) + Sum(Lengths(s.queues))
  }

  lemma RanksUpdate(reqs: seq<Request>, r: nat, q: Request)
    requires r < |reqs|
    ensures Sum(Ranks(reqs[r := q])) == Sum(Ranks(reqs)) - Rank(reqs[r]) + Rank(q)
  {
    assert Ranks(reqs[r := q]) == Ranks(reqs)[r := Rank(q)];
    SumUpdate(Ranks(reqs), r, Rank(q));
  }

  lemma LengthsUpdate(queues: seq<seq<nat>>, l: nat, q: seq<nat>)
    requires l < |queues|
    ensures Sum(Lengths(queues[l := q])) == Sum(Lengths(queues)) - |queues[l]| + |q|
  {
    assert Lengths(queues[l := q]) == Lengths(queues)[l := |q|];
    SumUpdate(Lengths(queues), l, |q|);
  }

  lemma {:induction false} UpToCard(entries: seq<Entry>, i: nat)
    requires i <= |entries|
    ensures |UpTo(entries, i)| <= i
  {
    if i > 0 { UpToCard(entries, i - 1); }
  }

  lemma LockedCard(q: Request)
    requires q.locked <= UpTo(q.entries, |q.entries|)
    ensures |q.locked| <= |q.entries|
  {
    UpToCard(q.entries, |q.entries|);
    SubsetCard(q.locked, UpTo(q.entries, |q.entries|));
  }

  lemma LockedBound(q: Request, queued: set<nat>)
    requires PhaseOK(q, queued)
    ensures |q.locked| <= |q.entries|
  {
    var i := |q.entries|;
    match q.phase
    case Trying(k) => UpToCard(q.entries, k); SubsetCard(q.locked, UpTo(q.entries, k));
    case TrySlow(k) => UpToCard(q.entries, k); SubsetCard(q.locked, UpTo(q.entries, k));
    case Rollback(k) => UpToCard(q.entries, k); SubsetCard(q.locked, UpTo(q.entries, k));
    case Sub(k) => UpToCard(q.entries, k); SubsetCard(q.locked, UpTo(q.entries, k));
    case SubSlow(k) => UpToCard(q.entries, k); SubsetCard(q.locked, UpTo(q.entries, k));
    case SubPark(k) => UpToCard(q.entries, k); SubsetCard(q.locked, UpTo(q.entries, k));
    case Abort(k) => UpToCard(q.entries, k); SubsetCard(q.locked, UpTo(q.entries, k));
    case Scan(_, _, ToAbort(k)) => UpToCard(q.entries, k + 1); SubsetCard(q.locked, UpTo(q.entries, k + 1));
    case Drop(_, ToAbort(k)) => UpToCard(q.entries, k + 1); SubsetCard(q.locked, UpTo(q.entries, k + 1));
    case Idle =>
    case Failed =>
    case OneSlow =>
    case Suspended => LockedCard(q);
    case Held => LockedCard(q);
    case Releasing => LockedCard(q);
    case Scan(_, _, ToRelease) => LockedCard(q);
    case Drop(_, ToRelease) => LockedCard(q);
  }

  lemma RankTry(s: State, r: nat)
    requires WellFormed(s) && CanTry(s, r) && |s.reqs[r].locked| <= |s.reqs[r].entries|
    ensures Rank(DoTry(s, r).reqs[r]) < Rank(s.reqs[r])
  {
  }

  lemma RankTrySlow(s: State, r: nat)
    requires WellFormed(s) && CanTrySlow(s, r)
    ensures Rank(DoTrySlow(s, r).reqs[r]) < Rank(s.reqs[r])
  {
  }

  lemma RankRollback(s: State, a: Action)
    requires WellFormed(s) && Enabled(s, a) && (a.RollbackStep? || a.StartSub?)
    ensures Rank(Apply(s, a).reqs[a.r]) < Rank(s.reqs[a.r])
  {
  }

  lemma RankOneSlow(s: State, a: Action)
    requires WellFormed(s) && Enabled(s, a) && a.OneSlowStep? && s.reqs[a.r].locked == {}
    ensures Rank(Apply(s, a).reqs[a.r]) < Rank(s.reqs[a.r])
  {
    var q := Apply(s, a).reqs[a.r];
    assert q.phase == Idle || (q.phase == Held && q.locked == {s.reqs[a.r].entries[0].line});
  }

  lemma RankSub(s: State, a: Action)
    requires WellFormed(s) && Enabled(s, a) && a.SubStep? && |s.reqs[a.r].locked| <= |s.reqs[a.r].entries|
    requires s.reqs[a.r].phase.i < |s.reqs[a.r].entries| ==> s.reqs[a.r].remaining >= 2
    ensures Rank(Apply(s, a).reqs[a.r]) < Rank(s.reqs[a.r])
  {
    var q := s.reqs[a.r];
    var q' := Apply(s, a).reqs[a.r];
    var m, i := |q.entries|, q.phase.i;
    assert |q'.entries| == m;
    if i == m {
      assert q'.phase == Suspended || (q'.phase == Held && q'.locked == q.locked);
    } else {
      assert q'.phase == Sub(i + 1) || q'.phase == SubSlow(i);
    }
  }

  lemma RankSubSlow(s: State, a: Action)
    requires WellFormed(s) && Enabled(s, a) && (a.SubSlowStep? || a.NoMem? || a.SubParkStep?)
    requires a.SubSlowStep? ==> s.reqs[a.r].remaining >= 2
    ensures Rank(Apply(s, a).reqs[a.r]) + (if a.SubParkStep? then 1 else 0) < Rank(s.reqs[a.r])
  {
  }

  lemma RankAbort(s: State, a: Action)
    requires WellFormed(s) && Enabled(s, a) && a.AbortStep?
    ensures Rank(Apply(s, a).reqs[a.r]) < Rank(s.reqs[a.r])
  {
  }

  lemma RankStartScan(s: State, a: Action)
    requires WellFormed(s) && Enabled(s, a) && (a.StartScan? || a.Finish?)
    ensures Rank(Apply(s, a).reqs[a.r]) < Rank(s.reqs[a.r])
  {
  }

  /** The end of a scan, or the release that follows it. */
  lemma RankScanEnd(s: State, a: Action)
    requires WellFormed(s) && Enabled(s, a) && (a.DropStep? || (a.ScanStep? && !Grants(s, a.r)))
    requires a.ScanStep? ==> (s.reqs[a.r].phase.exchanged <==> s.reqs[a.r].phase.line in s.reqs[a.r].locked)
    requires a.DropStep? ==> s.reqs[a.r].phase.line in s.reqs[a.r].locked
    ensures Rank(Apply(s, a).reqs[a.r]) < Rank(s.reqs[a.r])
  {
    var q := s.reqs[a.r];
    if q.phase.line in q.locked {
      assert |q.locked - {q.phase.line}| == |q.locked| - 1;
    }
  }

  lemma OwnRankDrops(s: State, a: Action)
    requires Local(s, a.r) && Enabled(s, a) && !IsBegin(a) && !(a.ScanStep? && Grants(s, a.r))
    ensures Rank(Apply(s, a).reqs[a.r]) + (if a.SubParkStep? then 1 else 0) < Rank(s.reqs[a.r])
  {
    LockedBound(s.reqs[a.r], Queued(s.queues, a.r));
    match a
    case TryStep(r) => RankTry(s, r);
    case TrySlowStep(r) => RankTrySlow(s, r);
    case RollbackStep(_) => RankRollback(s, a);
    case OneSlowStep(_) => RankOneSlow(s, a);
    case StartSub(_) => RankRollback(s, a);
    case SubStep(_) => RankSub(s, a);
    case SubSlowStep(_) => RankSubSlow(s, a);
    case NoMem(_) => RankSubSlow(s, a);
    case SubParkStep(_) => RankSubSlow(s, a);
    case AbortStep(_) => RankAbort(s, a);
    case StartScan(_, _) => RankStartScan(s, a);
    case Finish(_) => RankStartScan(s, a);
    case DropStep(_) => RankScanEnd(s, a);
    case ScanStep(_) => RankScanEnd(s, a);
  }

  lemma ScannedRank(q: Request)
    requires q.phase.Scan? && (q.phase.exchanged <==> q.phase.line in q.locked)
    ensures Rank(Scanned(q)) <= Rank(q)
  {
    if q.phase.exchanged {
      assert |q.locked - {q.phase.line}| == |q.locked| - 1;
    } else {
      assert q.locked - {q.phase.line} == q.locked;
    }
  }

  lemma FlaggedRank(q: Request, l: nat, queued: set<nat>)
    requires PhaseOK(q, queued) && Answered(q) && Ticketed(q) && l in queued
    ensures Rank(Flagged(q, l)) <= Rank(q)
  {
    FlaggedOK(q, l, queued);
    LockedBound(Flagged(q, l), queued - {l});
  }

  /** A hand-over shortens a queue and costs neither party anything. */
  lemma GrantBudget(s: State, r: nat)
    requires Inv(s) && Grants(s, r)
    ensures Budget(DoGrant(s, r)) < Budget(s)
  {
    var w, l := InvHanding(s, r);
    HandedQueued(s, r, w, l, w);
    ScannedRank(s.reqs[r]);
    FlaggedRank(s.reqs[w], l, Queued(s.queues, w));
    RanksUpdate(s.reqs, r, Scanned(s.reqs[r]));
    RanksUpdate(s.reqs[r := Scanned(s.reqs[r])], w, Flagged(s.reqs[w], l));
    LengthsUpdate(s.queues, l, s.queues[l][1..]);
  }

  /** Queues grow by one enqueue at a time. */
  lemma QueueBudget(s: State, a: Action)
    requires WellFormed(s) && Enabled(s, a) && !(a.ScanStep? && Grants(s, a.r))
    ensures Sum(Lengths(Apply(s, a).queues)) <= Sum(Lengths(s.queues)) + (if a.SubParkStep? then 1 else 0)
  {
    if a.SubParkStep? {
      var l := s.reqs[a.r].entries[s.reqs[a.r].phase.i].line;
      LengthsUpdate(s.queues, l, s.queues[l] + [a.r]);
    } else if a.AbortStep? {
      var s' := Apply(s, a);
      forall l | 0 <= l < |s.queues| ensures |s'.queues[l]| <= |s.queues[l]| {
        RemoveLength(s.queues[l], a.r);
      }
      SumMonotone(Lengths(s'.queues), Lengths(s.queues));
    } else {
      SameQueues(s, a);
    }
  }

  lemma SameQueues(s: State, a: Action)
    requires WellFormed(s) && Enabled(s, a) && !(a.ScanStep? && Grants(s, a.r)) && !a.SubParkStep? && !a.AbortStep?
    ensures Apply(s, a).queues == s.queues
  {
  }

  lemma OwnBudget(s: State, a: Action)
    requires Local(s, a.r) && Enabled(s, a) && !IsBegin(a) && !(a.ScanStep? && Grants(s, a.r))
    ensures Budget(Apply(s, a)) < Budget(s)
  {
    OwnRankDrops(s, a);
    OwnRecord(s, a);
    QueueBudget(s, a);
    RanksUpdate(s.reqs, a.r, Apply(s, a).reqs[a.r]);
  }

  lemma {:induction false} RemoveLength(q: seq<nat>, r: nat)
    ensures |Remove(q, r)| <= |q|
  {
    if q != [] { RemoveLength(q[1..], r); }
  }

  lemma BudgetDrops(s: State, a: Action)
    requires Inv(s) && Enabled(s, a) && !IsBegin(a)
    ensures Budget(Apply(s, a)) < Budget(s)
  {
    if a.ScanStep? && Grants(s, a.r) {
      GrantBudget(s, a.r);
    } else {
      InvLocal(s, a.r);
      OwnBudget(s, a);
    }
  }

  /** A continuation of s in which nobody calls the lock anew. */
  predicate Drains(s: State, states: seq<State>, actions: seq<Action>) {
    && |states| == |actions| + 1
    && states[0] == s
    && forall i :: 0 <= i < |actions| ==> Leads(states[i], actions[i], states[i + 1]) && !IsBegin(actions[i])
  }

  lemma DrainStep(s: State, states: seq<State>, actions: seq<Action>)
    requires Inv(s) && Drains(s, states, actions) && actions != []
    ensures Inv(states[1]) && Budget(states[1]) < Budget(s) && Drains(states[1], states[1..], actions[1..])
  {
    assert Leads(states[0], actions[0], states[1]);
    StepOK(s, actions[0]);
    BudgetDrops(s, actions[0]);
    DrainTail(s, states, actions);
  }

  lemma DrainTail(s: State, states: seq<State>, actions: seq<Action>)
    requires Drains(s, states, actions) && actions != []
    ensures Drains(states[1], states[1..], actions[1..])
  {
  }

  /**
   Starvation freedom.  However the threads are scheduled, once no new call is made at most
   Budget(s) steps follow, and when no step is left every request has been granted, has released
   its lines and is idle, every line is free and no waiter is left behind.
   */
  lemma {:induction false} EveryDrainEnds(s: State, states: seq<State>, actions: seq<Action>)
    requires Inv(s) && Drains(s, states, actions)
    ensures var last := states[|actions|];
      && Inv(last) && |actions| + Budget(last) <= Budget(s)
      && ((forall a :: Enabled(last, a) ==> IsBegin(a)) ==>
            Quiescent(last) && last.waiting == 0
            && forall l :: 0 <= l < |last.access| ==> last.access[l] == 0 && last.queues[l] == [])
    decreases |actions|
  {
    if actions == [] {
      if forall a :: Enabled(s, a) ==> IsBegin(a) {
        StuckIsClean(s);
      }
    } else {
      DrainStep(s, states, actions);
      EveryDrainEnds(states[1], states[1..], actions[1..]);
    }
  }

  lemma NobodyQueued(s: State, l: nat)
    requires l < |s.queues| && QueueOK(s, l)
    ensures s.queues[l] == [] || exists r :: 0 <= r < |s.reqs| && Ticketed(s.reqs[r])
  {
    if s.queues[l] != [] {
      assert Ticketed(s.reqs[s.queues[l][0]]);
    }
  }

  lemma StuckIsClean(s: State)
    requires Inv(s) && forall a :: Enabled(s, a) ==> IsBegin(a)
    ensures Quiescent(s) && s.waiting == 0
    ensures forall l :: 0 <= l < |s.access| ==> s.access[l] == 0 && s.queues[l] == []
  {
    if !Quiescent(s) {
      var a := DeadlockFree(s);
    }
    assert Waiting(s.reqs) == {};
    forall l | 0 <= l < |s.access| ensures s.access[l] == 0 && s.queues[l] == [] {
      forall r | 0 <= r < |s.reqs| ensures l !in s.reqs[r].locked {
        assert ReqOK(s, r);
      }
      assert Holders(s.reqs, l) == {};
      assert AccessOK(s, l) && QueueOK(s, l);
      NobodyQueued(s, l);
    }
  }
}
