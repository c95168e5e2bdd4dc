/**
 The asynchronous reader/writer lock over cache lines, as a state machine.

 Access words, waiter queues, entries, lock flags, countdowns and the waiting counter are kept by the
 lock manager.  A phase is the program counter of the thread that works for a request; `outcome` and
 `fired` record what the call returned and how often its callback ran; `ticket` and `clock` record in
 which order requests entered the exclusive section of the outer semaphore.

 One action is one access to shared state: a compare-and-swap on an access word, one iteration of the
 waiter scan under a list spinlock, an enqueue, and so on.  Where a line is granted, the action also
 sets the lock flag and counts down and, at zero, takes the request off the waiting counter and
 resumes it: until then only the granting thread touches these (SubTake and DoGrant).  The outer
 semaphore and the list spinlocks appear as guards: a section is occupied exactly while some request's
 phase lies inside it.
 */
module LineLockProtocol {

  /** The access word of a line locked for writing. */
  const ACCESS_WR: int := 0x7fff_ffff

  datatype Mode = Rd | Wr

  /** A map entry of a request: unmapped core lines have nothing to lock. */
  datatype Entry = Miss | Line(line: nat)

  /** Where the release of one line returns to. */
  datatype Return = ToRelease | ToAbort(n: nat)

  datatype Phase =
    | Idle
    | Trying(i: nat)       // shared section, before the first attempt on entry i
    | TrySlow(i: nat)      // shared section, before the attempt on entry i under the list lock
    | Rollback(i: nat)     // shared section, entries [0, i) are still to be given back
    | Failed               // outside both sections, the try phase gave up
    | OneSlow              // single-line read attempt, before the list lock
    | Sub(i: nat)          // exclusive section, before the first attempt on entry i
    | SubSlow(i: nat)      // exclusive section, before the attempt on entry i under the list lock
    | SubPark(i: nat)      // exclusive section, list lock held, attempt failed, before the enqueue
    | Abort(n: nat)        // exclusive section, no memory for a waiter, entries [0, n) to be undone
    | Suspended            // queued, outside both sections
    | Held                 // owns all its lines
    | Releasing            // owns some of its lines, gives them back
    | Scan(line: nat, exchanged: bool, ret: Return)  // list lock held, scanning waiters of line
    | Drop(line: nat, ret: Return)                   // list lock held, no hand-over possible

  /** What the locking call returned; Refused is the failure of a single-line attempt. */
  datatype Outcome = Pending | Acquired | NotAcquired | NoMemory | Refused

  datatype Request = Request(
    entries: seq<Entry>,
    mode: Mode,
    phase: Phase,
    locked: set<nat>,
    remaining: int,
    fired: nat,
    outcome: Outcome,
    ticket: nat)

  datatype State = State(
    access: seq<int>,
    queues: seq<seq<nat>>,
    reqs: seq<Request>,
    waiting: int,
    buckets: nat,
    clock: nat)

  datatype Action =
    | Begin(r: nat, entries: seq<Entry>, mode: Mode)
    | BeginOne(r: nat, line: nat)
    | TryStep(r: nat)
    | TrySlowStep(r: nat)
    | RollbackStep(r: nat)
    | OneSlowStep(r: nat)
    | StartSub(r: nat)
    | SubStep(r: nat)
    | SubSlowStep(r: nat)
    | NoMem(r: nat)
    | SubParkStep(r: nat)
    | AbortStep(r: nat)
    | StartScan(r: nat, line: nat)
    | ScanStep(r: nat)
    | DropStep(r: nat)
    | Finish(r: nat)

  /** The lines named by the first i entries. */
  function UpTo(entries: seq<Entry>, i: nat): set<nat>
    requires i <= |entries|
  {
    if i == 0 then {}
    else if entries[i - 1].Miss? then UpTo(entries, i - 1)
    else UpTo(entries, i - 1) + {entries[i - 1].line}
  }

  predicate Distinct(entries: seq<Entry>) {
    forall i, j :: 0 <= i < j < |entries| && entries[i].Line? && entries[j].Line? ==>
      entries[i].line != entries[j].line
  }

  predicate InRead(q: Request) {
    q.phase.Trying? || q.phase.TrySlow? || q.phase.Rollback?
  }

  predicate InWrite(q: Request) {
    || q.phase.Sub? || q.phase.SubSlow? || q.phase.SubPark? || q.phase.Abort?
    || (q.phase.Scan? && q.phase.ret.ToAbort?)
    || (q.phase.Drop? && q.phase.ret.ToAbort?)
  }

  /** Requests counted by the waiting counter. */
  predicate Ticketed(q: Request) {
    InWrite(q) || q.phase.Suspended?
  }

  /** The line whose waiter list the request has locked, or -1. */
  function ListLine(q: Request): int {
    match q.phase
    case Scan(l, _, _) => l
    case Drop(l, _) => l
    case SubPark(i) => if i < |q.entries| && q.entries[i].Line? then q.entries[i].line else -1
    case _ => -1
  }

  /** Lines hash to a fixed number of waiter lists, one spinlock each. */
  predicate SameList(l: int, k: int, buckets: nat)
    requires buckets > 0
  {
    l % buckets == k % buckets
  }

  predicate ListFree(s: State, line: nat)
    requires s.buckets > 0
  {
    forall r :: 0 <= r < |s.reqs| && ListLine(s.reqs[r]) >= 0 ==> !SameList(ListLine(s.reqs[r]), line, s.buckets)
  }

  predicate NoWriter(s: State) {
    forall r :: 0 <= r < |s.reqs| ==> !InWrite(s.reqs[r])
  }

  predicate NoReader(s: State) {
    forall r :: 0 <= r < |s.reqs| ==> !InRead(s.reqs[r])
  }

  // ----- effects -----

  function SetReq(s: State, r: nat, q: Request): State
    requires r < |s.reqs|
  {
    s.(reqs := s.reqs[r := q])
  }

  function Goto(s: State, r: nat, p: Phase): State
    requires r < |s.reqs|
  {
    SetReq(s, r, s.reqs[r].(phase := p))
  }

  /** The access word after one more holder of the given mode. */
  function Taken(a: int, mode: Mode): int {
    if mode == Wr then ACCESS_WR else a + 1
  }

  /** The access word after a holder of the given mode left. */
  function Given(a: int, mode: Mode): int {
    if mode == Wr then 0 else a - 1
  }

  function Take(s: State, r: nat, line: nat, p: Phase): State
    requires r < |s.reqs| && line < |s.access|
  {
    SetReq(s, r, s.reqs[r].(locked := s.reqs[r].locked + {line}, phase := p))
    .(access := s.access[line := Taken(s.access[line], s.reqs[r].mode)])
  }

  function Give(s: State, r: nat, line: nat, p: Phase): State
    requires r < |s.reqs| && line < |s.access|
  {
    SetReq(s, r, s.reqs[r].(locked := s.reqs[r].locked - {line}, phase := p))
    .(access := s.access[line := Given(s.access[line], s.reqs[r].mode)])
  }

  /** _req_on_lock on the request: flag the line, count down, resume on zero. */
  function Flagged(q: Request, line: nat): Request {
    var q' := q.(locked := q.locked + {line}, remaining := q.remaining - 1);
    if q'.remaining == 0 then q'.(phase := Held, fired := q.fired + 1) else q'
  }

  /** _req_on_lock: a resumed request no longer waits. */
  function OnLock(s: State, r: nat, line: nat): State
    requires r < |s.reqs|
  {
    SetReq(s, r, Flagged(s.reqs[r], line)).(
    waiting := if s.reqs[r].remaining - 1 == 0 then s.waiting - 1 else s.waiting)
  }

  /** The attempt of one request on one line under the list lock. */
  predicate SlowSucceeds(s: State, mode: Mode, line: nat)
    requires line < |s.access| && line < |s.queues|
  {
    if mode == Wr then s.access[line] == 0
    else s.queues[line] == [] && s.access[line] != ACCESS_WR
  }

  /** The hand-over attempt of the waiter scan, and the access word it leaves. */
  function HandOver(a: int, exchanged: bool, from: Mode, to: Mode): (res: (bool, int)) {
    if exchanged then
      match (from, to)
      case (Rd, Wr) => if a == 1 then (true, ACCESS_WR) else (false, a)
      case (Rd, Rd) => (true, a)
      case (Wr, Wr) => (true, a)
      case (Wr, Rd) => (true, 1)
    else if to == Wr then
      if a == 0 then (true, ACCESS_WR) else (false, a)
    else
      if a != ACCESS_WR then (true, a + 1) else (false, a)
  }

  function Remove(q: seq<nat>, r: nat): seq<nat> {
    if q == [] then []
    else if q[0] == r then Remove(q[1..], r)
    else [q[0]] + Remove(q[1..], r)
  }

  /** Drop every waiter of request r from the list that the given index hashes to. */
  function Forget(s: State, r: nat, line: nat): State
    requires s.buckets > 0
  {
    s.(queues := seq(|s.queues|, l requires 0 <= l < |s.queues| =>
                       if SameList(l, line, s.buckets) then Remove(s.queues[l], r) else s.queues[l]))
  }

  function Resume(ret: Return): Phase {
    match ret
    case ToRelease => Releasing
    case ToAbort(n) => Abort(n)
  }

  // ----- guards and transitions -----

  predicate EntriesOK(entries: seq<Entry>, lines: nat) {
    && Distinct(entries)
    && forall i :: 0 <= i < |entries| && entries[i].Line? ==> entries[i].line < lines
  }

  predicate WellFormed(s: State) {
    && |s.queues| == |s.access|
    && s.buckets > 0
    && |s.reqs| < ACCESS_WR
    && forall r :: 0 <= r < |s.reqs| ==> EntriesOK(s.reqs[r].entries, |s.access|)
  }

  predicate AtLine(q: Request, i: nat, lines: nat) {
    i < |q.entries| && q.entries[i].Line? && q.entries[i].line < lines
  }

  /** An unmapped entry carries the null index, one past the last line. */
  function EntryIndex(s: State, e: Entry): nat {
    if e.Line? then e.line else |s.access|
  }

  /** Start a locking call: enter the shared section. */
  predicate CanBegin(s: State, r: nat, entries: seq<Entry>) {
    r < |s.reqs| && s.reqs[r].phase == Idle && NoWriter(s) && EntriesOK(entries, |s.access|)
  }

  function DoBegin(s: State, r: nat, entries: seq<Entry>, mode: Mode): State
    requires CanBegin(s, r, entries)
  {
    SetReq(s, r, Request(entries, mode, Trying(0), {}, 0, 0, Pending, 0))
  }

  /** A single-line read attempt, outside both sections. */
  predicate CanBeginOne(s: State, r: nat, line: nat) {
    r < |s.reqs| && s.reqs[r].phase == Idle && line < |s.access|
  }

  function OneRequest(line: nat): Request {
    Request([Line(line)], Rd, OneSlow, {}, 0, 0, Pending, 0)
  }

  function DoBeginOne(s: State, r: nat, line: nat): State
    requires CanBeginOne(s, r, line)
  {
    if s.access[line] == 0 then
      Take(SetReq(s, r, OneRequest(line).(outcome := Acquired)), r, line, Held)
    else SetReq(s, r, OneRequest(line))
  }

  predicate CanTry(s: State, r: nat) {
    r < |s.reqs| && s.reqs[r].phase.Trying? && s.reqs[r].phase.i <= |s.reqs[r].entries|
  }

  /** Entry i in the shared section, without the list lock. */
  function DoTry(s: State, r: nat): State
    requires WellFormed(s) && CanTry(s, r)
  {
    var q := s.reqs[r];
    var i := q.phase.i;
    if i == |q.entries| then SetReq(s, r, q.(phase := Held, outcome := Acquired))
    else if q.entries[i].Miss? then Goto(s, r, Trying(i + 1))
    else if s.access[q.entries[i].line] == 0 then Take(s, r, q.entries[i].line, Trying(i + 1))
    else Goto(s, r, TrySlow(i))
  }

  predicate CanTrySlow(s: State, r: nat)
    requires s.buckets > 0
  {
    r < |s.reqs| && s.reqs[r].phase.TrySlow? && AtLine(s.reqs[r], s.reqs[r].phase.i, |s.access|) &&
    ListFree(s, s.reqs[r].entries[s.reqs[r].phase.i].line)
  }

  /** Entry i in the shared section, under the list lock. */
  function DoTrySlow(s: State, r: nat): State
    requires WellFormed(s) && CanTrySlow(s, r)
  {
    var q := s.reqs[r];
    var i := q.phase.i;
    if SlowSucceeds(s, q.mode, q.entries[i].line) then Take(s, r, q.entries[i].line, Trying(i + 1))
    else Goto(s, r, Rollback(i))
  }

  predicate CanRollback(s: State, r: nat) {
    r < |s.reqs| && s.reqs[r].phase.Rollback? && s.reqs[r].phase.i <= |s.reqs[r].entries|
  }

  /** Give entry i - 1 back without looking at its waiters. */
  function DoRollback(s: State, r: nat): State
    requires WellFormed(s) && CanRollback(s, r)
  {
    var q := s.reqs[r];
    var i := q.phase.i;
    if i == 0 then Goto(s, r, Failed)
    else if q.entries[i - 1].Miss? then Goto(s, r, Rollback(i - 1))
    else Give(s, r, q.entries[i - 1].line, Rollback(i - 1))
  }

  predicate CanOneSlow(s: State, r: nat)
    requires s.buckets > 0
  {
    r < |s.reqs| && s.reqs[r].phase.OneSlow? && AtLine(s.reqs[r], 0, |s.access|) && ListFree(s, s.reqs[r].entries[0].line)
  }

  function DoOneSlow(s: State, r: nat): State
    requires WellFormed(s) && CanOneSlow(s, r)
  {
    var q := s.reqs[r];
    if SlowSucceeds(s, Rd, q.entries[0].line) then
      Take(SetReq(s, r, q.(outcome := Acquired)), r, q.entries[0].line, Held)
    else SetReq(s, r, q.(phase := Idle, outcome := Refused))
  }

  /** Enter the exclusive section; the countdown starts with one guard on top of all entries. */
  predicate CanStartSub(s: State, r: nat) {
    r < |s.reqs| && s.reqs[r].phase == Failed && NoWriter(s) && NoReader(s)
  }

  function DoStartSub(s: State, r: nat): State
    requires CanStartSub(s, r)
  {
    var q := s.reqs[r];
    SetReq(s, r, q.(phase := Sub(0), remaining := |q.entries| + 1, ticket := s.clock))
    .(waiting := s.waiting + 1, clock := s.clock + 1)
  }

  /** Acquire entry i during submission and go on; the resume test of _req_on_lock is included. */
  function SubTake(s: State, r: nat): State
    requires r < |s.reqs| && (s.reqs[r].phase.Sub? || s.reqs[r].phase.SubSlow?)
    requires AtLine(s.reqs[r], s.reqs[r].phase.i, |s.access|)
  {
    var q := s.reqs[r];
    var l := q.entries[q.phase.i].line;
    OnLock(Goto(s, r, Sub(q.phase.i + 1)).(access := s.access[l := Taken(s.access[l], q.mode)]), r, l)
  }

  predicate CanSub(s: State, r: nat) {
    r < |s.reqs| && s.reqs[r].phase.Sub? && s.reqs[r].phase.i <= |s.reqs[r].entries|
  }

  /** Entry i in the exclusive section, without the list lock; after the last one the guard goes. */
  function DoSub(s: State, r: nat): State
    requires WellFormed(s) && CanSub(s, r)
  {
    var q := s.reqs[r];
    var i := q.phase.i;
    if i == |q.entries| then
      if q.remaining - 1 == 0 then
        SetReq(s, r, q.(phase := Held, remaining := 0, outcome := Acquired)).(waiting := s.waiting - 1)
      else SetReq(s, r, q.(phase := Suspended, remaining := q.remaining - 1, outcome := NotAcquired))
    else if q.entries[i].Miss? then SetReq(s, r, q.(phase := Sub(i + 1), remaining := q.remaining - 1))
    else if s.access[q.entries[i].line] == 0 then SubTake(s, r)
    else Goto(s, r, SubSlow(i))
  }

  predicate CanSubSlow(s: State, r: nat)
    requires s.buckets > 0
  {
    r < |s.reqs| && s.reqs[r].phase.SubSlow? && AtLine(s.reqs[r], s.reqs[r].phase.i, |s.access|) &&
    ListFree(s, s.reqs[r].entries[s.reqs[r].phase.i].line)
  }

  /** Entry i in the exclusive section, under the list lock, which a failed attempt keeps. */
  function DoSubSlow(s: State, r: nat): State
    requires WellFormed(s) && CanSubSlow(s, r)
  {
    var q := s.reqs[r];
    if SlowSucceeds(s, q.mode, q.entries[q.phase.i].line) then SubTake(s, r)
    else Goto(s, r, SubPark(q.phase.i))
  }

  /**
   The waiter for entry i cannot be allocated.  A writer allocates before it takes the list lock; a
   reader only after a first attempt under the list lock has failed, which this guard does not demand.
   */
  predicate CanNoMem(s: State, r: nat) {
    r < |s.reqs| && s.reqs[r].phase.SubSlow? && AtLine(s.reqs[r], s.reqs[r].phase.i, |s.access|)
  }

  function DoNoMem(s: State, r: nat): State
    requires CanNoMem(s, r)
  {
    Goto(s, r, Abort(s.reqs[r].phase.i + 1))
  }

  predicate CanSubPark(s: State, r: nat) {
    r < |s.reqs| && s.reqs[r].phase.SubPark? && AtLine(s.reqs[r], s.reqs[r].phase.i, |s.access|)
  }

  /** Append the waiter and release the list lock. */
  function DoSubPark(s: State, r: nat): State
    requires |s.access| == |s.queues| && CanSubPark(s, r)
  {
    var q := s.reqs[r];
    var l := q.entries[q.phase.i].line;
    Goto(s, r, Sub(q.phase.i + 1)).(queues := s.queues[l := s.queues[l] + [r]])
  }

  predicate CanAbort(s: State, r: nat)
    requires s.buckets > 0
  {
    r < |s.reqs| && s.reqs[r].phase.Abort? && s.reqs[r].phase.n <= |s.reqs[r].entries| &&
    (s.reqs[r].phase.n > 0 ==> ListFree(s, EntryIndex(s, s.reqs[r].entries[s.reqs[r].phase.n - 1])))
  }

  /** The last entry not undone yet is locked by the request. */
  predicate AbortsLocked(q: Request)
    requires q.phase.Abort? && 0 < q.phase.n <= |q.entries|
  {
    q.entries[q.phase.n - 1].Line? && q.entries[q.phase.n - 1].line in q.locked
  }

  /** Undo one entry: unlock it if it was granted, else withdraw the waiters of the request. */
  function DoAbort(s: State, r: nat): State
    requires WellFormed(s) && CanAbort(s, r)
  {
    var q := s.reqs[r];
    var n := q.phase.n;
    if n == 0 then
      SetReq(s, r, q.(phase := Idle, remaining := 0, outcome := NoMemory)).(waiting := s.waiting - 1)
    else if AbortsLocked(q) then
      Goto(s, r, Scan(q.entries[n - 1].line, true, ToAbort(n - 1)))
    else Goto(Forget(s, r, EntryIndex(s, q.entries[n - 1])), r, Abort(n - 1))
  }

  /** Unlock one line: take the list lock and start scanning. */
  predicate CanStartScan(s: State, r: nat, line: nat)
    requires s.buckets > 0
  {
    r < |s.reqs| && (s.reqs[r].phase == Held || s.reqs[r].phase == Releasing) &&
    line in s.reqs[r].locked && line < |s.access| && ListFree(s, line)
  }

  function DoStartScan(s: State, r: nat, line: nat): State
    requires r < |s.reqs|
  {
    Goto(s, r, Scan(line, true, ToRelease))
  }

  predicate CanScan(s: State, r: nat) {
    r < |s.reqs| && s.reqs[r].phase.Scan? && s.reqs[r].phase.line < |s.access| == |s.queues| &&
    (s.queues[s.reqs[r].phase.line] != [] ==> s.queues[s.reqs[r].phase.line][0] < |s.reqs|)
  }

  /** The scan finds a first waiter, and it can have the line. */
  predicate Grants(s: State, r: nat) {
    CanScan(s, r) &&
    var l := s.reqs[r].phase.line;
    s.queues[l] != [] && HandOver(s.access[l], s.reqs[r].phase.exchanged, s.reqs[r].mode, s.reqs[s.queues[l][0]].mode).0
  }

  /** The scanning request after a hand-over. */
  function Scanned(q: Request): Request
    requires q.phase.Scan?
  {
    q.(phase := Scan(q.phase.line, false, q.phase.ret), locked := q.locked - {q.phase.line})
  }

  /** One iteration of the waiter scan of an unlock. */
  function DoScan(s: State, r: nat): State
    requires CanScan(s, r)
  {
    if Grants(s, r) then DoGrant(s, r) else DoScanEnd(s, r)
  }

  function DoGrant(s: State, r: nat): State
    requires Grants(s, r)
  {
    var q := s.reqs[r];
    var l := q.phase.line;
    var w := s.queues[l][0];
    var s' := SetReq(s, r, Scanned(q)).(
      access := s.access[l := HandOver(s.access[l], q.phase.exchanged, q.mode, s.reqs[w].mode).1],
      queues := s.queues[l := s.queues[l][1..]]);
    OnLock(s', w, l)
  }

  function DoScanEnd(s: State, r: nat): State
    requires CanScan(s, r)
  {
    var ph := s.reqs[r].phase;
    Goto(s, r, if ph.exchanged then Drop(ph.line, ph.ret) else Resume(ph.ret))
  }

  predicate CanDrop(s: State, r: nat) {
    r < |s.reqs| && s.reqs[r].phase.Drop? && s.reqs[r].phase.line < |s.access|
  }

  /** Nobody took the line over: release the access word and the list lock. */
  function DoDrop(s: State, r: nat): State
    requires CanDrop(s, r)
  {
    Give(s, r, s.reqs[r].phase.line, Resume(s.reqs[r].phase.ret))
  }

  predicate CanFinish(s: State, r: nat) {
    r < |s.reqs| && (s.reqs[r].phase == Held || s.reqs[r].phase == Releasing) && s.reqs[r].locked == {}
  }

  predicate Enabled(s: State, a: Action)
    requires WellFormed(s)
  {
    match a
    case Begin(r, entries, _) => CanBegin(s, r, entries)
    case BeginOne(r, line) => CanBeginOne(s, r, line)
    case TryStep(r) => CanTry(s, r)
    case TrySlowStep(r) => CanTrySlow(s, r)
    case RollbackStep(r) => CanRollback(s, r)
    case OneSlowStep(r) => CanOneSlow(s, r)
    case StartSub(r) => CanStartSub(s, r)
    case SubStep(r) => CanSub(s, r)
    case SubSlowStep(r) => CanSubSlow(s, r)
    case NoMem(r) => CanNoMem(s, r)
    case SubParkStep(r) => CanSubPark(s, r)
    case AbortStep(r) => CanAbort(s, r)
    case StartScan(r, line) => CanStartScan(s, r, line)
    case ScanStep(r) => CanScan(s, r)
    case DropStep(r) => CanDrop(s, r)
    case Finish(r) => CanFinish(s, r)
  }

  function Apply(s: State, a: Action): (next: State)
    requires WellFormed(s) && Enabled(s, a)
    ensures |next.reqs| == |s.reqs| && |next.access| == |s.access| && |next.queues| == |s.queues|
  {
    match a
    case Begin(r, entries, mode) => DoBegin(s, r, entries, mode)
    case BeginOne(r, line) => DoBeginOne(s, r, line)
    case TryStep(r) => DoTry(s, r)
    case TrySlowStep(r) => DoTrySlow(s, r)
    case RollbackStep(r) => DoRollback(s, r)
    case OneSlowStep(r) => DoOneSlow(s, r)
    case StartSub(r) => DoStartSub(s, r)
    case SubStep(r) => DoSub(s, r)
    case SubSlowStep(r) => DoSubSlow(s, r)
    case NoMem(r) => DoNoMem(s, r)
    case SubParkStep(r) => DoSubPark(s, r)
    case AbortStep(r) => DoAbort(s, r)
    case StartScan(r, line) => DoStartScan(s, r, line)
    case ScanStep(r) => DoScan(s, r)
    case DropStep(r) => DoDrop(s, r)
    case Finish(r) => Goto(s, r, Idle)
  }

  predicate Init(s: State) {
    && |s.queues| == |s.access|
    && s.buckets > 0
    && |s.reqs| < ACCESS_WR
    && s.waiting == 0
    && (forall l :: 0 <= l < |s.access| ==> s.access[l] == 0)
    && (forall l :: 0 <= l < |s.queues| ==> s.queues[l] == [])
    && forall r :: 0 <= r < |s.reqs| ==> s.reqs[r] == Request([], Rd, Idle, {}, 0, 0, Pending, 0)
  }
}
