/** What every step of the line lock keeps. */
module LineLockInvariant {
  import opened LineLockProtocol
  import opened SetFacts

  ghost function Holders(reqs: seq<Request>, l: nat): set<nat> {
    set r | 0 <= r < |reqs| && l in reqs[r].locked
  }

  ghost function Queued(queues: seq<seq<nat>>, r: nat): set<nat> {
    set l | 0 <= l < |queues| && r in queues[l]
  }

  ghost function Waiting(reqs: seq<Request>): set<nat> {
    set r | 0 <= r < |reqs| && Ticketed(reqs[r])
  }

  ghost predicate Tracks(q: Request, queued: set<nat>, i: nat)
    requires i <= |q.entries|
  {
    q.locked <= UpTo(q.entries, i) && queued == UpTo(q.entries, i) - q.locked
  }

  /** The call's outcome and the number of callbacks agree with the phase. */
  predicate Answered(q: Request) {
    match q.phase
    case Held | Releasing => (q.outcome == Acquired && q.fired == 0) || (q.outcome == NotAcquired && q.fired == 1)
    case Scan(_, _, ToRelease) => (q.outcome == Acquired && q.fired == 0) || (q.outcome == NotAcquired && q.fired == 1)
    case Drop(_, ToRelease) => (q.outcome == Acquired && q.fired == 0) || (q.outcome == NotAcquired && q.fired == 1)
    case Suspended => q.outcome == NotAcquired && q.fired == 0
    case Idle => if q.outcome == NotAcquired then q.fired == 1 else q.fired == 0
    case _ => q.outcome == Pending && q.fired == 0
  }

  /** Locked lines, queued lines and the countdown of one request, phase by phase. */
  ghost predicate PhaseOK(q: Request, queued: set<nat>) {
    var m := |q.entries|;
    match q.phase
    case Idle | Failed => q.locked == {} && queued == {} && q.remaining == 0
    case OneSlow => q.mode == Rd && m == 1 && q.entries[0].Line? && q.locked == {} && queued == {} && q.remaining == 0
    case Trying(i) => i <= m && Tracks(q, queued, i) && queued == {} && q.remaining == 0
    case TrySlow(i) => i < m && q.entries[i].Line? && Tracks(q, queued, i) && queued == {} && q.remaining == 0
    case Rollback(i) => i <= m && Tracks(q, queued, i) && queued == {} && q.remaining == 0
    case Sub(i) => i <= m && Tracks(q, queued, i) && q.remaining == 1 + m - i + |queued|
    case SubSlow(i) => i < m && q.entries[i].Line? && Tracks(q, queued, i) && q.remaining == 1 + m - i + |queued|
    case SubPark(i) => i < m && q.entries[i].Line? && Tracks(q, queued, i) && q.remaining == 1 + m - i + |queued|
    case Abort(n) => n <= m && Undoing(q, queued, n)
    case Suspended => Tracks(q, queued, m) && q.remaining == |queued| > 0
    case Held => Tracks(q, queued, m) && queued == {} && q.remaining == 0
    case Releasing => q.locked <= UpTo(q.entries, m) && queued == {} && q.remaining == 0
    case Scan(l, ex, ret) =>
      && (ex <==> l in q.locked)
      && l !in queued
      && match ret {
         case ToRelease => q.locked <= UpTo(q.entries, m) && queued == {} && q.remaining == 0
         case ToAbort(n) => n < m && q.entries[n] == Line(l) && Undoing(q, queued, n + 1)
         }
    case Drop(l, ret) =>
      && l in q.locked
      && match ret {
         case ToRelease => q.locked <= UpTo(q.entries, m) && queued == {} && q.remaining == 0
         case ToAbort(n) => n < m && q.entries[n] == Line(l) && Undoing(q, queued, n + 1)
         }
  }

  ghost predicate Undoing(q: Request, queued: set<nat>, n: nat)
    requires n <= |q.entries|
  {
    && q.locked <= UpTo(q.entries, n)
    && queued <= UpTo(q.entries, n)
    && q.locked !! queued
    && q.remaining >= 2 + |queued|
  }

  ghost predicate ReqOK(s: State, r: nat)
    requires r < |s.reqs|
  {
    PhaseOK(s.reqs[r], Queued(s.queues, r)) && Answered(s.reqs[r])
  }

  /** The access word counts the readers, or is the writer mark of the only holder. */
  ghost predicate AccessOK(s: State, l: nat)
    requires l < |s.access|
  {
    && (forall r :: r in Holders(s.reqs, l) && s.reqs[r].mode == Wr ==> s.access[l] == ACCESS_WR && Holders(s.reqs, l) == {r})
    && ((forall r :: r in Holders(s.reqs, l) ==> s.reqs[r].mode == Rd) ==> s.access[l] == |Holders(s.reqs, l)|)
  }

  ghost predicate QueueOK(s: State, l: nat)
    requires l < |s.queues|
  {
    && (forall k :: 0 <= k < |s.queues[l]| ==> s.queues[l][k] < |s.reqs| && Ticketed(s.reqs[s.queues[l][k]]))
    && (forall j, k :: 0 <= j < k < |s.queues[l]| ==> s.reqs[s.queues[l][j]].ticket < s.reqs[s.queues[l][k]].ticket)
  }

  /** Nobody barges: what a non-empty queue says about the holders of the line. */
  ghost predicate WaitersOK(s: State, l: nat)
    requires l < |s.queues| == |s.access|
    requires QueueOK(s, l)
  {
    s.queues[l] != [] ==>
      && s.access[l] != 0
      && (forall r :: 0 <= r < |s.reqs| && l in s.reqs[r].locked ==> !InRead(s.reqs[r]))
      && (forall r, k :: 0 <= r < |s.reqs| && l in s.reqs[r].locked && Ticketed(s.reqs[r]) && 0 <= k < |s.queues[l]| ==>
           s.reqs[r].ticket < s.reqs[s.queues[l][k]].ticket)
  }

  /** What the holder of the list lock found out about the access word still holds. */
  ghost predicate FoundOK(s: State, r: nat)
    requires r < |s.reqs| && |s.access| == |s.queues|
  {
    var q := s.reqs[r];
    match q.phase
    case Drop(l, _) => l < |s.access| && (s.queues[l] != [] ==> 2 <= s.access[l] < ACCESS_WR)
    case SubPark(i) => AtLine(q, i, |s.access|) && s.access[q.entries[i].line] != 0
    case Scan(l, _, _) => l < |s.access|
    case _ => true
  }

  ghost predicate SectionsOK(s: State) {
    forall r, t :: 0 <= r < |s.reqs| && 0 <= t < |s.reqs| && r != t && InWrite(s.reqs[r]) ==>
      !InWrite(s.reqs[t]) && !InRead(s.reqs[t])
  }

  ghost predicate ListsOK(s: State)
    requires s.buckets > 0
  {
    forall r, t | 0 <= r < |s.reqs| && 0 <= t < |s.reqs| && r != t && ListLine(s.reqs[r]) >= 0 && ListLine(s.reqs[t]) >= 0 ::
      !SameList(ListLine(s.reqs[r]), ListLine(s.reqs[t]), s.buckets)
  }

  ghost predicate TicketsOK(s: State) {
    && (forall r :: 0 <= r < |s.reqs| && Ticketed(s.reqs[r]) ==> s.reqs[r].ticket < s.clock)
    && (forall r :: 0 <= r < |s.reqs| && InWrite(s.reqs[r]) ==> s.reqs[r].ticket + 1 == s.clock)
    && (forall r, t | 0 <= r < |s.reqs| && 0 <= t < |s.reqs| && r != t && Ticketed(s.reqs[r]) && Ticketed(s.reqs[t]) ::
          s.reqs[r].ticket != s.reqs[t].ticket)
  }

  ghost predicate Inv(s: State) {
    && WellFormed(s)
    && (forall r :: 0 <= r < |s.reqs| ==> ReqOK(s, r))
    && (forall r :: 0 <= r < |s.reqs| ==> FoundOK(s, r))
    && (forall l :: 0 <= l < |s.access| ==> AccessOK(s, l))
    && (forall l :: 0 <= l < |s.access| ==> QueueOK(s, l))
    && (forall l :: 0 <= l < |s.access| ==> WaitersOK(s, l))
    && SectionsOK(s)
    && ListsOK(s)
    && TicketsOK(s)
    && s.waiting == |Waiting(s.reqs)|
  }
  
  lemma InitOK(s: State)
    requires Init(s)
    ensures Inv(s)
  {
    forall l: nat ensures Holders(s.reqs, l) == {} {}
    forall r: nat ensures Queued(s.queues, r) == {} {}
    assert Waiting(s.reqs) == {};
  }

  // ----- the three set-valued views under an update of one request -----

  lemma HoldersSet(reqs: seq<Request>, r: nat, q: Request, l: nat)
    requires r < |reqs|
    ensures Holders(reqs[r := q], l) == if l in q.locked then Holders(reqs, l) + {r} else Holders(reqs, l) - {r}
  {
  }

  lemma WaitingSet(reqs: seq<Request>, r: nat, q: Request)
    requires r < |reqs|
    ensures |Waiting(reqs[r := q])| == |Waiting(reqs)| + Count(q) - Count(reqs[r])
  {
    var w := Waiting(reqs);
    assert r in w <==> Ticketed(reqs[r]);
    if Ticketed(q) {
      assert Waiting(reqs[r := q]) == w + {r};
    } else {
      assert Waiting(reqs[r := q]) == w - {r};
    }
  }

  function Count(q: Request): int {
    if Ticketed(q) then 1 else 0
  }

  /** Request r may become q as far as the two sections, the list locks and the tickets go. */
  ghost predicate MayBecome(s: State, r: nat, q: Request, clock: nat)
    requires r < |s.reqs| && s.buckets > 0
  {
    var p := s.reqs[r];
    && EntriesOK(q.entries, |s.access|)
    && (InRead(q) ==> InRead(p) || NoWriter(s))
    && (InWrite(q) ==> InWrite(p) || (NoWriter(s) && NoReader(s)))
    && (if Ticketed(q) && !Ticketed(p) then q.ticket == s.clock && clock == s.clock + 1 && NoWriter(s)
        else clock == s.clock && (Ticketed(q) ==> q.ticket == p.ticket))
    && (InWrite(q) && !InWrite(p) ==> !Ticketed(p))
    && (ListLine(q) == -1 || ListLine(q) == ListLine(p) || (ListLine(q) >= 0 && ListFree(s, ListLine(q))))
  }

  lemma MayBecomeSections(s: State, r: nat, q: Request, clock: nat)
    requires SectionsOK(s) && r < |s.reqs| && s.buckets > 0 && MayBecome(s, r, q, clock)
    ensures SectionsOK(s.(reqs := s.reqs[r := q]))
  {
  }

  lemma MayBecomeTickets(s: State, s': State, r: nat, q: Request)
    requires SectionsOK(s) && TicketsOK(s) && r < |s.reqs| && s.buckets > 0 && MayBecome(s, r, q, s'.clock)
    requires s'.reqs == s.reqs[r := q]
    ensures TicketsOK(s')
  {
    assert forall t :: 0 <= t < |s.reqs| && t != r ==> s'.reqs[t] == s.reqs[t];
  }

  lemma MayBecomeLists(s: State, r: nat, q: Request, clock: nat)
    requires s.buckets > 0 && ListsOK(s) && r < |s.reqs| && MayBecome(s, r, q, clock)
    ensures ListsOK(s.(reqs := s.reqs[r := q]))
  {
  }

  lemma MayBecomeGlobals(s: State, s': State, r: nat, q: Request)
    requires WellFormed(s) && SectionsOK(s) && ListsOK(s) && TicketsOK(s) && s.waiting == |Waiting(s.reqs)|
    requires r < |s.reqs| && MayBecome(s, r, q, s'.clock)
    requires s'.reqs == s.reqs[r := q] && |s'.access| == |s.access| == |s'.queues| && s'.buckets == s.buckets
    requires s'.waiting == s.waiting + Count(q) - Count(s.reqs[r])
    ensures WellFormed(s') && SectionsOK(s') && ListsOK(s') && TicketsOK(s') && s'.waiting == |Waiting(s'.reqs)|
  {
    WaitingSet(s.reqs, r, q);
    MayBecomeSections(s, r, q, s'.clock);
    MayBecomeLists(s, r, q, s'.clock);
    MayBecomeTickets(s, s', r, q);
  }

  /** A line whose access word and queue stay, while r becomes q without touching this line. */
  lemma LineKept(s: State, s': State, r: nat, q: Request, l: nat)
    requires |s.access| == |s.queues| && l < |s.access| && AccessOK(s, l) && QueueOK(s, l) && WaitersOK(s, l)
    requires r < |s.reqs| && s'.reqs == s.reqs[r := q]
    requires |s'.access| == |s'.queues| == |s.access| && s'.access[l] == s.access[l] && s'.queues[l] == s.queues[l]
    requires l in q.locked <==> l in s.reqs[r].locked
    requires l in q.locked ==> q.mode == s.reqs[r].mode && (InRead(q) ==> InRead(s.reqs[r]))
    requires l in q.locked && Ticketed(q) ==> Ticketed(s.reqs[r]) && q.ticket == s.reqs[r].ticket
    requires r in s.queues[l] ==> Ticketed(q) && q.ticket == s.reqs[r].ticket
    ensures AccessOK(s', l) && QueueOK(s', l) && WaitersOK(s', l)
  {
    QueueKept(s, s', r, q, l);
    HoldersSet(s.reqs, r, q, l);
    assert Holders(s.reqs[r := q], l) == Holders(s.reqs, l);
  }

  lemma QueueKept(s: State, s': State, r: nat, q: Request, l: nat)
    requires l < |s.queues| == |s'.queues| && QueueOK(s, l) && r < |s.reqs| && s'.reqs == s.reqs[r := q] && s'.queues[l] == s.queues[l]
    requires r in s.queues[l] ==> Ticketed(q) && q.ticket == s.reqs[r].ticket
    ensures QueueOK(s', l)
    ensures forall k :: 0 <= k < |s.queues[l]| ==> s'.reqs[s.queues[l][k]].ticket == s.reqs[s.queues[l][k]].ticket
  {
    forall k | 0 <= k < |s.queues[l]| ensures s'.reqs[s.queues[l][k]].ticket == s.reqs[s.queues[l][k]].ticket && Ticketed(s'.reqs[s.queues[l][k]]) {
      assert s.queues[l][k] in s.queues[l];
    }
  }

  /** The three effects a step has on its own request, waiter queues aside. */
  datatype Plan =
    | Move(q: Request, waiting: int, clock: nat)  // same locks
    | TakeLine(q: Request, line: nat)             // one lock more
    | GiveLine(q: Request, line: nat)             // one lock less, nobody takes over

  function Run(s: State, r: nat, p: Plan): State
    requires r < |s.reqs| && (!p.Move? ==> p.line < |s.access|)
  {
    match p
    case Move(q, waiting, clock) => s.(reqs := s.reqs[r := q], waiting := waiting, clock := clock)
    case TakeLine(q, l) => s.(reqs := s.reqs[r := q], access := s.access[l := Taken(s.access[l], q.mode)])
    case GiveLine(q, l) => s.(reqs := s.reqs[r := q], access := s.access[l := Given(s.access[l], q.mode)])
  }

  ghost predicate Fits(s: State, r: nat, p: Plan)
    requires r < |s.reqs| && |s.access| == |s.queues| && s.buckets > 0
  {
    && PhaseOK(p.q, Queued(s.queues, r)) && Answered(p.q)
    && (!p.Move? ==> p.line < |s.access|)
    && match p
       case Move(q, waiting, clock) => FitsMove(s, r, q, waiting, clock)
       case TakeLine(q, l) => FitsTake(s, r, q, l)
       case GiveLine(q, l) => FitsGive(s, r, q, l)
  }

  ghost predicate FitsMove(s: State, r: nat, q: Request, waiting: int, clock: nat)
    requires r < |s.reqs| && |s.access| == |s.queues| && s.buckets > 0
  {
    && q.locked == s.reqs[r].locked && (q.locked == {} || q.mode == s.reqs[r].mode)
    && MayBecome(s, r, q, clock) && FoundOK(s.(reqs := s.reqs[r := q]), r)
    && (Queued(s.queues, r) != {} ==> Ticketed(q) && Ticketed(s.reqs[r]))
    && (InRead(q) && !InRead(s.reqs[r]) ==> q.locked == {})
    && (Ticketed(q) && !Ticketed(s.reqs[r]) ==> q.locked == {})
    && waiting == s.waiting + Count(q) - Count(s.reqs[r])
  }

  ghost predicate FitsTake(s: State, r: nat, q: Request, l: nat)
    requires r < |s.reqs| && |s.access| == |s.queues| && s.buckets > 0 && l < |s.access|
  {
    && l !in s.reqs[r].locked && q.locked == s.reqs[r].locked + {l} && q.mode == s.reqs[r].mode
    && s.queues[l] == [] && (if q.mode == Wr then s.access[l] == 0 else s.access[l] != ACCESS_WR)
    && Keeps(s, r, q)
  }

  ghost predicate FitsGive(s: State, r: nat, q: Request, l: nat)
    requires r < |s.reqs| && |s.access| == |s.queues| && s.buckets > 0 && l < |s.access|
  {
    && l in s.reqs[r].locked && q.locked == s.reqs[r].locked - {l} && q.mode == s.reqs[r].mode
    && (InRead(s.reqs[r]) || (s.reqs[r].phase.Drop? && s.reqs[r].phase.line == l))
    && Keeps(s, r, q)
  }

  ghost predicate Keeps(s: State, r: nat, q: Request)
    requires r < |s.reqs| && s.buckets > 0
  {
    && MayBecome(s, r, q, s.clock)
    && !q.phase.Drop? && !q.phase.SubPark? && !q.phase.Scan?
    && (InRead(q) ==> InRead(s.reqs[r]))
    && (Ticketed(q) <==> Ticketed(s.reqs[r]))
    && (Queued(s.queues, r) != {} ==> Ticketed(q))
  }

  lemma MoveOK(s: State, r: nat, p: Plan)
    requires Inv(s) && r < |s.reqs| && p.Move? && Fits(s, r, p)
    ensures Inv(Run(s, r, p))
  {
    var q := p.q;
    var s' := Run(s, r, p);
    MayBecomeGlobals(s, s', r, q);
    forall l: nat | l < |s.access| ensures AccessOK(s', l) && QueueOK(s', l) && WaitersOK(s', l) {
      assert r in s.queues[l] ==> l in Queued(s.queues, r);
      LineKept(s, s', r, q, l);
    }
    forall t: nat | t < |s.reqs| ensures ReqOK(s', t) && FoundOK(s', t) {
      assert ReqOK(s, t) && FoundOK(s, t);
    }
  }

  lemma HolderCount(s: State, l: nat)
    requires WellFormed(s) && l < |s.access| && AccessOK(s, l)
    ensures |Holders(s.reqs, l)| <= |s.reqs|
    ensures s.access[l] != ACCESS_WR ==> s.access[l] == |Holders(s.reqs, l)|
    ensures 0 <= s.access[l] <= ACCESS_WR
    ensures s.access[l] == 0 ==> Holders(s.reqs, l) == {}
    ensures s.access[l] == ACCESS_WR <==> exists r :: r in Holders(s.reqs, l) && s.reqs[r].mode == Wr
  {
    BoundedCard(Holders(s.reqs, l), |s.reqs|);
  }

  lemma TookLine(s: State, s': State, r: nat, q: Request, l: nat)
    requires WellFormed(s) && l < |s.access| && AccessOK(s, l) && QueueOK(s, l)
    requires r < |s.reqs| && s'.reqs == s.reqs[r := q]
    requires l !in s.reqs[r].locked && l in q.locked && q.mode == s.reqs[r].mode
    requires s.queues[l] == [] && (if q.mode == Wr then s.access[l] == 0 else s.access[l] != ACCESS_WR)
    requires |s'.access| == |s'.queues| == |s.access|
    requires s'.access[l] == Taken(s.access[l], q.mode) && s'.queues[l] == []
    ensures AccessOK(s', l) && QueueOK(s', l) && WaitersOK(s', l)
  {
    HolderCount(s, l);
    HoldersSet(s.reqs, r, q, l);
  }

  /** Findings of other list-lock holders survive when a line is taken. */
  lemma FoundKept(s: State, s': State, r: nat, l: nat, t: nat)
    requires |s.access| == |s.queues| && r < |s.reqs| && t < |s.reqs| && t != r && FoundOK(s, t)
    requires l < |s.access| && |s'.reqs| == |s.reqs| && s'.reqs[t] == s.reqs[t] && s'.queues == s.queues
    requires |s'.access| == |s.access| && forall k :: 0 <= k < |s.access| && k != l ==> s'.access[k] == s.access[k]
    requires ListLine(s.reqs[t]) != l || (s.queues[l] == [] && (s'.access[l] != 0 || !s.reqs[t].phase.SubPark?))
    ensures FoundOK(s', t)
  {
  }

  lemma TakeOK(s: State, r: nat, p: Plan)
    requires Inv(s) && r < |s.reqs| && p.TakeLine? && Fits(s, r, p)
    ensures Inv(Run(s, r, p))
  {
    var q, l := p.q, p.line;
    var s' := Run(s, r, p);
    MayBecomeGlobals(s, s', r, q);
    assert s'.access[l] != 0 by { assert AccessOK(s, l); HolderCount(s, l); }
    forall k: nat | k < |s.access| ensures AccessOK(s', k) && QueueOK(s', k) && WaitersOK(s', k) {
      assert AccessOK(s, k) && QueueOK(s, k) && WaitersOK(s, k);
      assert r in s.queues[k] ==> k in Queued(s.queues, r);
      if k == l { TookLine(s, s', r, q, l); } else { LineKept(s, s', r, q, k); }
    }
    forall t: nat | t < |s.reqs| ensures ReqOK(s', t) && FoundOK(s', t) {
      assert ReqOK(s, t) && FoundOK(s, t);
      if t != r { FoundKept(s, s', r, l, t); }
    }
  }

  lemma GaveLine(s: State, s': State, r: nat, q: Request, l: nat)
    requires WellFormed(s) && l < |s.access| && AccessOK(s, l) && QueueOK(s, l) && WaitersOK(s, l)
    requires r < |s.reqs| && s'.reqs == s.reqs[r := q]
    requires l in s.reqs[r].locked && l !in q.locked
    requires s.queues[l] == [] || 2 <= s.access[l] < ACCESS_WR
    requires r in s.queues[l] ==> Ticketed(q) && q.ticket == s.reqs[r].ticket
    requires |s'.access| == |s'.queues| == |s.access|
    requires s'.access[l] == Given(s.access[l], s.reqs[r].mode) && s'.queues[l] == s.queues[l]
    ensures AccessOK(s', l) && QueueOK(s', l) && WaitersOK(s', l)
  {
    HolderCount(s, l);
    HoldersSet(s.reqs, r, q, l);
    assert r in Holders(s.reqs, l);
    if s.reqs[r].mode == Wr {
      assert Holders(s'.reqs, l) == {};
    }
  }

  /** Whoever else holds a list lock holds the list of another line. */
  lemma OtherList(s: State, r: nat, t: nat, l: nat)
    requires s.buckets > 0 && ListsOK(s) && r < |s.reqs| && t < |s.reqs|
    ensures r != t && ListLine(s.reqs[r]) == l ==> ListLine(s.reqs[t]) != l
  {
  }

  lemma GaveReq(s: State, r: nat, p: Plan, t: nat)
    requires WellFormed(s) && r < |s.reqs| && p.GiveLine? && Fits(s, r, p)
    requires ListsOK(s) && SectionsOK(s) && FoundOK(s, r)
    requires !InRead(s.reqs[r]) || s.queues[p.line] == []
    requires t < |s.reqs| && ReqOK(s, t) && FoundOK(s, t)
    ensures ReqOK(Run(s, r, p), t) && FoundOK(Run(s, r, p), t)
  {
    if t != r {
      OtherList(s, r, t, p.line);
      FoundKept(s, Run(s, r, p), r, p.line, t);
    }
  }

  lemma GaveLines(s: State, r: nat, p: Plan, k: nat)
    requires WellFormed(s) && r < |s.reqs| && p.GiveLine? && Fits(s, r, p)
    requires FoundOK(s, r) && (!InRead(s.reqs[r]) || s.queues[p.line] == [])
    requires k < |s.access| && AccessOK(s, k) && QueueOK(s, k) && WaitersOK(s, k)
    ensures var s' := Run(s, r, p); |s'.access| == |s'.queues| == |s.access| && AccessOK(s', k) && QueueOK(s', k) && WaitersOK(s', k)
  {
    assert r in s.queues[k] ==> k in Queued(s.queues, r);
    if k == p.line { GaveLine(s, Run(s, r, p), r, p.q, k); } else { LineKept(s, Run(s, r, p), r, p.q, k); }
  }

  lemma GiveOK(s: State, r: nat, p: Plan)
    requires Inv(s) && r < |s.reqs| && p.GiveLine? && Fits(s, r, p)
    ensures Inv(Run(s, r, p))
  {
    var q, l := p.q, p.line;
    var s' := Run(s, r, p);
    MayBecomeGlobals(s, s', r, q);
    assert FoundOK(s, r) && WaitersOK(s, l);
    forall k: nat | k < |s.access| ensures AccessOK(s', k) && QueueOK(s', k) && WaitersOK(s', k) {
      assert AccessOK(s, k) && QueueOK(s, k) && WaitersOK(s, k);
      GaveLines(s, r, p, k);
    }
    forall t: nat | t < |s.reqs| ensures ReqOK(s', t) && FoundOK(s', t) {
      assert ReqOK(s, t) && FoundOK(s, t);
      GaveReq(s, r, p, t);
    }
  }

  lemma PlanOK(s: State, r: nat, p: Plan)
    requires Inv(s) && r < |s.reqs| && Fits(s, r, p)
    ensures Inv(Run(s, r, p))
  {
    match p
    case Move(_, _, _) => MoveOK(s, r, p);
    case TakeLine(_, _) => TakeOK(s, r, p);
    case GiveLine(_, _) => GiveOK(s, r, p);
  }

  lemma PopQueued(queues: seq<seq<nat>>, l: nat, t: nat)
    requires l < |queues| && queues[l] != []
    requires queues[l][0] !in queues[l][1..]
    ensures Queued(queues[l := queues[l][1..]], t) ==
            if t == queues[l][0] then Queued(queues, t) - {l} else Queued(queues, t)
  {
    assert queues[l] == [queues[l][0]] + queues[l][1..];
  }

  lemma QueueHeadFresh(s: State, l: nat)
    requires l < |s.queues| && QueueOK(s, l) && s.queues[l] != []
    ensures s.queues[l][0] !in s.queues[l][1..]
  {
  }

  /** A grant to a queued request, seen from that request alone. */
  lemma FlaggedOK(q: Request, l: nat, queued: set<nat>)
    requires PhaseOK(q, queued) && Answered(q) && Ticketed(q) && l in queued
    ensures var q' := Flagged(q, l);
      && PhaseOK(q', queued - {l}) && Answered(q') && !InRead(q')
      && (InWrite(q') <==> InWrite(q)) && (Ticketed(q) && !Ticketed(q') <==> q.remaining == 1)
      && (q.remaining == 1 ==> queued == {l}) && l !in q.locked
      && (q'.phase == q.phase || q'.phase == Held) && (q.phase.Scan? ==> q.phase.line != l)
  {
    assert |queued - {l}| == |queued| - 1;
  }

  /** A hand-over from r to the first waiter w of line l, with what the invariant says about the two. */
  ghost predicate Handing(s: State, r: nat, w: nat, l: nat) {
    && WellFormed(s) && Grants(s, r) && l == s.reqs[r].phase.line && w == s.queues[l][0]
    && r != w && r !in s.queues[l] && w !in s.queues[l][1..]
    && l !in s.reqs[w].locked && (s.reqs[r].phase.exchanged <==> l in s.reqs[r].locked)
    && Ticketed(s.reqs[w]) && l in Queued(s.queues, w)
    && PhaseOK(s.reqs[r], Queued(s.queues, r)) && Answered(s.reqs[r])
    && PhaseOK(s.reqs[w], Queued(s.queues, w)) && Answered(s.reqs[w])
  }

  lemma InvHanding(s: State, r: nat) returns (w: nat, l: nat)
    requires Inv(s) && Grants(s, r)
    ensures Handing(s, r, w, l)
  {
    l := s.reqs[r].phase.line;
    w := s.queues[l][0];
    assert ReqOK(s, r) && ReqOK(s, w) && QueueOK(s, l) && l in Queued(s.queues, w);
    QueueHeadFresh(s, l);
    FlaggedOK(s.reqs[w], l, Queued(s.queues, w));
    assert r in s.queues[l] ==> l in Queued(s.queues, r);
  }

  lemma HandedQueued(s: State, r: nat, w: nat, l: nat, t: nat)
    requires Handing(s, r, w, l)
    ensures Queued(DoGrant(s, r).queues, t) == if t == w then Queued(s.queues, t) - {l} else Queued(s.queues, t)
    ensures DoGrant(s, r).reqs == s.reqs[r := Scanned(s.reqs[r])][w := Flagged(s.reqs[w], l)]
  {
    PopQueued(s.queues, l, t);
  }

  /** Requests only leave the counted set by waking up. */
  lemma FlaggedMoves(s: State, w: nat, l: nat, queued: set<nat>)
    requires WellFormed(s) && w < |s.reqs| && PhaseOK(s.reqs[w], queued) && Answered(s.reqs[w]) && Ticketed(s.reqs[w]) && l in queued
    ensures MayBecome(s, w, Flagged(s.reqs[w], l), s.clock)
    ensures OnLock(s, w, l).waiting == s.waiting + Count(Flagged(s.reqs[w], l)) - Count(s.reqs[w])
  {
    FlaggedOK(s.reqs[w], l, queued);
  }

  /** The scanning request changes neither section, list nor ticket. */
  lemma ScannedMoves(s: State, r: nat)
    requires WellFormed(s) && r < |s.reqs| && s.reqs[r].phase.Scan?
    ensures MayBecome(s, r, Scanned(s.reqs[r]), s.clock) && Count(Scanned(s.reqs[r])) == Count(s.reqs[r])
  {
  }

  lemma GrantGlobals(s: State, r: nat, w: nat, l: nat)
    requires Handing(s, r, w, l)
    requires SectionsOK(s) && ListsOK(s) && TicketsOK(s) && s.waiting == |Waiting(s.reqs)|
    ensures var s' := DoGrant(s, r);
      WellFormed(s') && SectionsOK(s') && ListsOK(s') && TicketsOK(s') && s'.waiting == |Waiting(s'.reqs)|
  {
    var q' := Scanned(s.reqs[r]);
    var s1 := s.(reqs := s.reqs[r := q']);
    ScannedMoves(s, r);
    MayBecomeGlobals(s, s1, r, q');
    FlaggedMoves(s1, w, l, Queued(s.queues, w));
    MayBecomeGlobals(s1, DoGrant(s, r), w, Flagged(s.reqs[w], l));
  }

  /** A hand-over as the lines see it. */
  ghost predicate Handed(s: State, s': State, r: nat, w: nat, l: nat) {
    && r < |s.reqs| && w < |s.reqs| && r != w && |s'.reqs| == |s.reqs|
    && l < |s.access| == |s.queues| && s.queues[l] != [] && w == s.queues[l][0]
    && w !in s.queues[l][1..] && r !in s.queues[l] && l !in s.reqs[w].locked
    && |s'.access| == |s.access| && (forall k :: 0 <= k < |s.access| && k != l ==> s'.access[k] == s.access[k])
    && s'.queues == s.queues[l := s.queues[l][1..]]
    && (forall t :: 0 <= t < |s.reqs| && t != r && t != w ==> s'.reqs[t] == s.reqs[t])
    && s'.reqs[r].mode == s.reqs[r].mode && s'.reqs[r].ticket == s.reqs[r].ticket
    && s'.reqs[w].mode == s.reqs[w].mode && s'.reqs[w].ticket == s.reqs[w].ticket
    && s'.reqs[r].locked == s.reqs[r].locked - {l} && s'.reqs[w].locked == s.reqs[w].locked + {l}
    && (Ticketed(s'.reqs[r]) <==> Ticketed(s.reqs[r])) && !InRead(s'.reqs[r])
    && Ticketed(s.reqs[w]) && !InRead(s'.reqs[w])
    && (Ticketed(s'.reqs[w]) || Queued(s'.queues, w) == {})
  }

  lemma HandingHanded(s: State, r: nat, w: nat, l: nat)
    requires Handing(s, r, w, l)
    ensures Handed(s, DoGrant(s, r), r, w, l)
  {
    HandedQueued(s, r, w, l, w);
    FlaggedOK(s.reqs[w], l, Queued(s.queues, w));
  }

  lemma HandedHolders(s: State, s': State, r: nat, w: nat, l: nat, k: nat)
    requires Handed(s, s', r, w, l)
    ensures Holders(s'.reqs, k) == if k == l then Holders(s.reqs, l) - {r} + {w} else Holders(s.reqs, k)
  {
  }

  lemma HandedAccess(s: State, s': State, r: nat, w: nat, l: nat, ex: bool)
    requires WellFormed(s) && Handed(s, s', r, w, l) && AccessOK(s, l) && s.access[l] != 0
    requires ex <==> l in s.reqs[r].locked
    requires HandOver(s.access[l], ex, s.reqs[r].mode, s.reqs[w].mode) == (true, s'.access[l])
    ensures AccessOK(s', l) && s'.access[l] != 0
  {
    HolderCount(s, l);
    HandedHolders(s, s', r, w, l, l);
    var h := Holders(s.reqs, l);
    assert ex <==> r in h;
    if ex && s.reqs[r].mode == Rd && s.reqs[w].mode == Wr {
      assert |h - {r}| == 0;
    }
  }

  lemma HandedTickets(s: State, s': State, r: nat, w: nat, l: nat, k: nat)
    requires Handed(s, s', r, w, l) && k < |s.queues| && QueueOK(s, k)
    ensures QueueOK(s', k)
  {
    forall i | 0 <= i < |s'.queues[k]| ensures s'.queues[k][i] < |s.reqs| && Ticketed(s'.reqs[s'.queues[k][i]]) {
      var x := s'.queues[k][i];
      assert x in s'.queues[k] && x in s.queues[k];
      assert x == w ==> k in Queued(s'.queues, w);
    }
    assert k == l ==> s'.queues[k] == s.queues[k][1..];
    assert forall t :: 0 <= t < |s.reqs| ==> s'.reqs[t].ticket == s.reqs[t].ticket;
  }

  /** Who holds a line with waiters afterwards held it before, or is the granted request itself. */
  lemma HandedWaiters(s: State, s': State, r: nat, w: nat, l: nat, k: nat)
    requires Handed(s, s', r, w, l) && k < |s.queues| && QueueOK(s, k) && WaitersOK(s, k) && QueueOK(s', k)
    requires k == l ==> s'.access[k] != 0
    ensures WaitersOK(s', k)
  {
    var d := if k == l then 1 else 0;
    assert forall i :: 0 <= i < |s'.queues[k]| ==> s'.queues[k][i] == s.queues[k][i + d];
    assert forall t :: 0 <= t < |s.reqs| ==> s'.reqs[t].ticket == s.reqs[t].ticket;
  }

  lemma GrantLines(s: State, r: nat, w: nat, l: nat, k: nat)
    requires Handing(s, r, w, l) && k < |s.access| && AccessOK(s, k) && QueueOK(s, k) && WaitersOK(s, k)
    ensures var s' := DoGrant(s, r);
      |s'.access| == |s'.queues| == |s.access| && AccessOK(s', k) && QueueOK(s', k) && WaitersOK(s', k)
  {
    var s' := DoGrant(s, r);
    HandingHanded(s, r, w, l);
    if k == l {
      HandedAccess(s, s', r, w, l, s.reqs[r].phase.exchanged);
    } else {
      HandedHolders(s, s', r, w, l, k);
    }
    HandedTickets(s, s', r, w, l, k);
    HandedWaiters(s, s', r, w, l, k);
  }

  /** The scanning request keeps its place with one lock less. */
  lemma ScannedOK(q: Request, queued: set<nat>)
    requires q.phase.Scan? && PhaseOK(q, queued) && Answered(q)
    ensures PhaseOK(Scanned(q), queued) && Answered(Scanned(q))
  {
  }

  lemma GrantReqs(s: State, r: nat, w: nat, l: nat, t: nat)
    requires Handing(s, r, w, l) && ListsOK(s) && t < |s.reqs| && ReqOK(s, t) && FoundOK(s, t)
    ensures ReqOK(DoGrant(s, r), t) && FoundOK(DoGrant(s, r), t)
  {
    HandedQueued(s, r, w, l, t);
    OtherList(s, r, t, l);
    if t == r {
      ScannedOK(s.reqs[r], Queued(s.queues, r));
    } else if t == w {
      FlaggedOK(s.reqs[w], l, Queued(s.queues, w));
    }
  }

  /** One successful iteration of the waiter scan. */
  lemma GrantOK(s: State, r: nat)
    requires Inv(s) && Grants(s, r)
    ensures Inv(DoGrant(s, r))
  {
    var w, l := InvHanding(s, r);
    GrantGlobals(s, r, w, l);
    forall k: nat | k < |s.access| ensures AccessOK(DoGrant(s, r), k) && QueueOK(DoGrant(s, r), k) && WaitersOK(DoGrant(s, r), k) {
      assert AccessOK(s, k) && QueueOK(s, k) && WaitersOK(s, k);
      GrantLines(s, r, w, l, k);
    }
    forall t: nat | t < |s.reqs| ensures ReqOK(DoGrant(s, r), t) && FoundOK(DoGrant(s, r), t) {
      assert ReqOK(s, t) && FoundOK(s, t);
      GrantReqs(s, r, w, l, t);
    }
  }
}
