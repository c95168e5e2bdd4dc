/** What holds in every state the lock can get into. */
module LineLockPromises {
  import opened LineLockProtocol
  import opened LineLockInvariant
  import opened LineLockSteps
  import opened LineLockProgress
  import opened SetFacts

  /** Some interleaving of the threads leads from an initial state to s. */
  ghost predicate Reachable(s: State) {
    exists states, actions :: IsRun(states, actions) && states[|actions|] == s
  }

  lemma ReachableOK(s: State)
    requires Reachable(s)
    ensures Inv(s)
  {
    var states, actions :| IsRun(states, actions) && states[|actions|] == s;
    RunKeepsInv(states, actions, |actions|);
  }

  lemma InitReachable(s: State)
    requires Init(s)
    ensures Reachable(s)
  {
    var states: seq<State>, actions: seq<Action> := [s], [];
    assert IsRun(states, actions) && states[|actions|] == s;
  }

  lemma StepReachable(s: State, a: Action)
    requires Reachable(s) && WellFormed(s) && Enabled(s, a)
    ensures Reachable(Apply(s, a))
  {
    var states, actions :| IsRun(states, actions) && states[|actions|] == s;
    RunGrows(states, actions, s, a, Apply(s, a));
  }

  lemma RunGrows(states: seq<State>, actions: seq<Action>, s: State, a: Action, next: State)
    requires IsRun(states, actions) && states[|actions|] == s && Leads(s, a, next)
    ensures Reachable(next)
  {
    var states', actions' := states + [next], actions + [a];
    forall i | 0 <= i < |actions'| ensures Leads(states'[i], actions'[i], states'[i + 1]) {
      if i < |actions| { assert Leads(states[i], actions[i], states[i + 1]); }
    }
    assert IsRun(states', actions') && states'[|actions'|] == next;
  }

  // ----- the lock word -----

  /** The word counts the readers or marks the only writer, and nobody waits for an idle line. */
  lemma LockWord(s: State, l: nat)
    requires Reachable(s) && l < |s.access| && l < |s.queues|
    ensures var h := Holders(s.reqs, l);
      if exists r :: r in h && s.reqs[r].mode == Wr then s.access[l] == ACCESS_WR && |h| == 1
      else s.access[l] == |h| < ACCESS_WR
    ensures s.queues[l] != [] ==> s.access[l] != 0 && Holders(s.reqs, l) != {}
  {
    ReachableOK(s);
    MutualExclusion(s, l);
    if r :| r in Holders(s.reqs, l) && s.reqs[r].mode == Wr {
      assert Holders(s.reqs, l) == {r};
    }
    if s.queues[l] != [] {
      NoLostWakeup(s, l);
      assert WaitersOK(s, l);
    }
  }

  /** The assertions of all unlock and hand-over functions hold. */
  lemma AssertionsHold(s: State, a: Action)
    requires Reachable(s) && WellFormed(s) && Enabled(s, a)
    ensures BugFree(s, a)
  {
    ReachableOK(s);
    NoBug(s, a);
  }

  // ----- the queues -----

  /** How many entries a submission has dealt with; all of them once the request sleeps. */
  function Processed(q: Request): int {
    match q.phase
    case Sub(i) => i
    case SubSlow(i) => i
    case SubPark(i) => i
    case Suspended => |q.entries|
    case _ => -1
  }

  /** A submission is being undone. */
  predicate Undone(q: Request) {
    q.phase.Abort? || ((q.phase.Scan? || q.phase.Drop?) && q.phase.ret.ToAbort?)
  }

  /** A queue holds, once each and by ticket, the requests that dealt with the line without getting it. */
  lemma QueueOfParked(s: State, l: nat, r: nat)
    requires Reachable(s) && l < |s.queues| && r < |s.reqs|
    ensures forall k :: 0 <= k < |s.queues[l]| ==> s.queues[l][k] < |s.reqs|
    ensures forall j, k :: 0 <= j < k < |s.queues[l]| ==>
      s.queues[l][j] != s.queues[l][k] && s.reqs[s.queues[l][j]].ticket < s.reqs[s.queues[l][k]].ticket
    ensures var q := s.reqs[r];
      if 0 <= Processed(q) <= |q.entries| then r in s.queues[l] <==> l in UpTo(q.entries, Processed(q)) && l !in q.locked
      else r in s.queues[l] ==> Undone(q)
  {
    ReachableOK(s);
    assert QueueOK(s, l) && ReqOK(s, r);
    assert r in s.queues[l] <==> l in Queued(s.queues, r);
  }

  /** Two requests stand in the same order in every queue they share. */
  lemma SameOrder(s: State, l: nat, k: nat, a: nat, b: nat, c: nat, d: nat)
    requires Reachable(s) && l < |s.queues| && k < |s.queues|
    requires a < |s.queues[l]| && b < |s.queues[l]| && c < |s.queues[k]| && d < |s.queues[k]|
    requires s.queues[l][a] == s.queues[k][c] && s.queues[l][b] == s.queues[k][d]
    ensures a < b <==> c < d
  {
    ReachableOK(s);
    assert QueueOK(s, l) && QueueOK(s, k);
    assert a < b ==> s.reqs[s.queues[l][a]].ticket < s.reqs[s.queues[l][b]].ticket;
    assert b < a ==> s.reqs[s.queues[l][b]].ticket < s.reqs[s.queues[l][a]].ticket;
    assert c < d ==> s.reqs[s.queues[k][c]].ticket < s.reqs[s.queues[k][d]].ticket;
    assert d < c ==> s.reqs[s.queues[k][d]].ticket < s.reqs[s.queues[k][c]].ticket;
  }

  /** A failed try gives lines back without looking at waiters: there are none. */
  lemma RollbackLeavesNobody(s: State, r: nat)
    requires Reachable(s) && WellFormed(s) && CanRollback(s, r)
    ensures DoRollback(s, r).queues == s.queues
    ensures forall l :: l in s.reqs[r].locked ==> l < |s.queues| && s.queues[l] == []
  {
    ReachableOK(s);
    assert ReqOK(s, r);
    var q := s.reqs[r];
    forall l | l in q.locked ensures l < |s.queues| && s.queues[l] == [] {
      LockedInRange(q, q.phase.i, |s.access|, l);
      assert WaitersOK(s, l) && InRead(q);
    }
  }

  // ----- exactly one callback -----

  /** The countdown is what the request still misses, plus what it has not looked at and the guard. */
  lemma Countdown(s: State, r: nat)
    requires Reachable(s) && r < |s.reqs|
    ensures var q := s.reqs[r]; var p := Processed(q);
      && (q.phase.Sub? || q.phase.SubSlow? || q.phase.SubPark? ==>
            0 <= p <= |q.entries| && q.remaining == |UpTo(q.entries, p) - q.locked| + (|q.entries| - p) + 1)
      && (q.phase.Suspended? ==> q.remaining == |UpTo(q.entries, |q.entries|) - q.locked| > 0)
      && (q.phase.Held? ==> q.remaining == 0 && q.locked == UpTo(q.entries, |q.entries|))
  {
    ReachableOK(s);
    assert ReqOK(s, r);
    var q := s.reqs[r];
    if q.phase.Held? { assert UpTo(q.entries, |q.entries|) == q.locked; }
  }

  /** The waiting counter is the number of requests that are submitting or asleep. */
  lemma WaitingCount(s: State)
    requires Reachable(s)
    ensures s.waiting == |Waiting(s.reqs)|
  {
    ReachableOK(s);
  }

  /** Acquired means no callback; otherwise the callback runs once, after the last line came. */
  lemma OneCallback(s: State, r: nat)
    requires Reachable(s) && r < |s.reqs|
    ensures var q := s.reqs[r];
      && q.fired <= 1
      && (q.outcome != NotAcquired ==> q.fired == 0)
      && (q.outcome == NotAcquired && q.fired == 0 ==> q.phase.Suspended?)
      && (q.phase.Suspended? ==> q.outcome == NotAcquired && q.fired == 0)
      && (q.phase.Held? && q.outcome == NotAcquired ==> q.fired == 1)
  {
    ReachableOK(s);
    assert ReqOK(s, r);
  }

  // ----- no deadlock -----

  /** The request owns every line it asked for, or is on its way to give them all back. */
  predicate Granted(q: Request) {
    q.phase.Held? || q.phase.Releasing? || ((q.phase.Scan? || q.phase.Drop?) && q.phase.ret.ToRelease?)
  }

  lemma HolderIsOlder(s: State, r: nat, l: nat, h: nat)
    requires Inv(s) && r < |s.reqs| && h < |s.reqs| && l < |s.access| && r in s.queues[l] && l in s.reqs[h].locked
    ensures Ticketed(s.reqs[h]) ==> s.reqs[h].ticket < s.reqs[r].ticket
  {
    if Ticketed(s.reqs[h]) { WaitsForOlder(s, r, l, h); }
  }

  lemma WriterIsNewest(s: State, t: nat, h: nat)
    requires Inv(s) && t < |s.reqs| && h < |s.reqs| && Ticketed(s.reqs[t])
    ensures InWrite(s.reqs[h]) ==> s.reqs[t].ticket <= s.reqs[h].ticket
  {
  }

  lemma HolderDoesNotRead(s: State, l: nat, h: nat)
    requires Inv(s) && h < |s.reqs| && l < |s.access| && s.queues[l] != [] && l in s.reqs[h].locked
    ensures !InRead(s.reqs[h])
  {
    assert WaitersOK(s, l);
  }

  /** The oldest sleeper waits only for requests that were granted everything. */
  lemma OldestWaitsForGranted(s: State, r: nat, l: nat, h: nat)
    requires Reachable(s) && r < |s.reqs| && h < |s.reqs| && s.reqs[r].phase.Suspended?
    requires forall t :: 0 <= t < |s.reqs| && s.reqs[t].phase.Suspended? ==> s.reqs[r].ticket <= s.reqs[t].ticket
    requires l < |s.queues| && r in s.queues[l] && l in s.reqs[h].locked
    ensures Granted(s.reqs[h])
  {
    ReachableOK(s);
    HolderIsOlder(s, r, l, h);
    WriterIsNewest(s, r, h);
    HolderDoesNotRead(s, l, h);
    assert ReqOK(s, h);
  }

  /** Unless all requests are idle, something other than a new call can happen. */
  lemma SomebodyMoves(s: State, r: nat)
    requires Reachable(s) && WellFormed(s) && r < |s.reqs| && s.reqs[r].phase != Idle
    ensures exists a :: Enabled(s, a) && !IsBegin(a)
  {
    ReachableOK(s);
    var a := DeadlockFree(s);
  }
}
