/** Requests as a user makes them, and the disk that would answer them without a cache. */
module PlainDisk {
  import opened CacheStore

  datatype Mode = WT | WB | WA | WI | PT | WO

  /** What the surroundings decide while a request is served. */
  datatype Env = Env(
    seqCutoff: bool,
    blocked: nat,          // how many more times the read misses are found blocked
    promote: bool,         // the promotion policy lets the request in
    victims: seq<nat>,     // core lines an eviction may take
    waiters: set<nat>)     // cache lines other requests wait for

  datatype Op =
    | Read(mode: Mode, a: nat, n: nat, env: Env)
    | Write(mode: Mode, a: nat, buf: seq<Data>, env: Env)
    | Evict(victims: seq<nat>)
    | CleanUp(line: nat)

  predicate Fits(op: Op, size: nat) {
    match op
    case Read(_, a, n, _) => n > 0 && a + n <= size
    case Write(_, a, buf, _) => |buf| > 0 && a + |buf| <= size
    case Evict(_) => true
    case CleanUp(_) => true
  }

  function DiskStep(disk: seq<Data>, op: Op): (d: seq<Data>)
    requires Fits(op, |disk|)
    ensures |d| == |disk|
  {
    if op.Write? then Overwrite(disk, op.a, op.buf) else disk
  }

  /** What the user gets back from one operation. */
  function DiskReply(disk: seq<Data>, op: Op): seq<seq<Data>>
    requires Fits(op, |disk|)
  {
    if op.Read? then [disk[op.a..op.a + op.n]] else []
  }

  predicate AllFit(ops: seq<Op>, size: nat) {
    forall i :: 0 <= i < |ops| ==> Fits(ops[i], size)
  }

  /** The content of the disk after the operations. */
  function DiskAfter(disk: seq<Data>, ops: seq<Op>): seq<Data>
    requires AllFit(ops, |disk|)
    decreases |ops|
  {
    if ops == [] then disk else DiskAfter(DiskStep(disk, ops[0]), ops[1..])
  }

  /** What the user gets back from all of them, in order. */
  function Replies(disk: seq<Data>, ops: seq<Op>): seq<seq<Data>>
    requires AllFit(ops, |disk|)
    decreases |ops|
  {
    if ops == [] then [] else DiskReply(disk, ops[0]) + Replies(DiskStep(disk, ops[0]), ops[1..])
  }
}
