/** The invariant of the shared world, kept by every action of every interleaving. */
module WorkflowInvariant {
  import opened Wrappers
  import opened Rules
  import opened RCodes
  import opened TraceNumbers
  import opened Store
  import opened Redis
  import opened Workflow

  // ---- The audit trail of a workflow -----------------------------------------

  /** The states a payment enters, over and over, until it stops. */
  function CycleAt(i: nat): PaymentState {
    if i % 3 == 0 then Pending else if i % 3 == 1 then Submitted else Returned
  }

  function Cycle(n: nat): (trail: seq<PaymentState>)
    ensures |trail| == n
  {
    seq(n, i requires 0 <= i < n => CycleAt(i))
  }

  lemma CycleStep(n: nat)
    ensures Cycle(n) + [CycleAt(n)] == Cycle(n + 1)
  {
  }

  /** Rows already written when the workflow arrives at this point of attempt `count`. */
  function RowsBefore(p: Proc): nat {
    match p.point
    case Queueing => 0
    case OpeningWindow => if p.hit then 3 * p.count + 1 else 3 * p.count + 2
    case Waiting(_) => if p.hit then 3 * p.count + 1 else 3 * p.count + 2
    case Settling => if p.hit then 3 * p.count + 1 else 3 * p.count + 2
    case Returning => if p.hit then 3 * p.count + 1 else 3 * p.count + 2
    case Sending => 3 * p.count + 2
    case Failing(_) => 3 * p.count + 3
    case Requeueing => 3 * p.count + 3
    case Sleeping(_) => 3 * p.count + 4
    case _ => 3 * p.count + 1
  }

  /** A finite number of turns of the cycle, possibly closed by a terminal state in place of
      a RETURNED or PENDING, within the limit on representments. */
  predicate BoundedTrail(limit: nat, trail: seq<PaymentState>) {
    || (|trail| <= 3 * limit + 3 && trail == Cycle(|trail|))
    || (0 < |trail| <= 3 * limit + 4 && IsTerminalState(trail[|trail| - 1]) && CycleAt(|trail| - 1) != Submitted
        && trail == Cycle(|trail| - 1) + [trail[|trail| - 1]])
  }

  predicate TrailOk(cfg: Config, p: Proc, trail: seq<PaymentState>) {
    var n := RowsBefore(p);
    match p.point
    case Completed =>
      && trail != [] && IsTerminalState(Replay(trail))
      && Verdict(cfg.maxRepresentments, p.windows) == Some(Replay(trail))
      && BoundedTrail(cfg.maxRepresentments, trail)
      && (trail == Cycle(3 * p.count + 2) + [Settled] || trail == Cycle(3 * p.count + 3) + [Replay(trail)])
    case Errored =>
      && BoundedTrail(cfg.maxRepresentments, trail)
      && (p.hit ==> trail == Cycle(3 * p.count + 1))
    case _ =>
      || trail == Cycle(n)
      || (p.attempt > 0 && !p.hit && Transition(p.point).Some? && trail == Cycle(n) + [Transition(p.point).value.1])
  }

  // ---- Windows ---------------------------------------------------------------

  /** The window of the current attempt has closed. */
  predicate Decided(point: Point) {
    point.Settling? || point.Returning? || point.Failing? || point.Requeueing? || point.Sleeping?
  }

  predicate WindowsOk(cfg: Config, p: Proc) {
    && p.count <= cfg.maxRepresentments
    && p.count <= |p.windows| <= p.count + 1
    && (forall i :: 0 <= i < p.count ==> RetryableReturn(p.windows[i]))
    && (p.point.Completed? || p.point.Errored? || (Decided(p.point) <==> |p.windows| == p.count + 1))
    && (p.point.Completed? ==> |p.windows| == p.count + 1)
    && (p.point.Settling? ==> p.windows[p.count].Quiet?)
    && (p.point.Returning? || p.point.Failing? || p.point.Requeueing? || p.point.Sleeping? ==> p.windows[p.count] == Got(p.sig))
    && (p.point.Failing? ==> IsFailureState(p.point.to) && Verdict(cfg.maxRepresentments - p.count, [Got(p.sig)]) == Some(p.point.to))
    && (p.point.Requeueing? || p.point.Sleeping? ==> p.count < cfg.maxRepresentments && RetryableReturn(p.windows[p.count]))
    && (p.hit ==> p.point in {OpeningWindow, Settling, Returning, Errored} || p.point.Waiting?)
    && (p.point.Queueing? ==> p.count == 0)
  }

  /** Retryable windows use up representments one by one. */
  lemma {:induction false} VerdictAfterRetries(left: nat, windows: seq<Window>, k: nat)
    requires k <= left && k <= |windows|
    requires forall i :: 0 <= i < k ==> RetryableReturn(windows[i])
    ensures Verdict(left, windows) == Verdict(left - k, windows[k..])
  {
    if k == 0 {
      assert windows[0..] == windows;
    } else {
      VerdictAfterRetries(left - 1, windows[1..], k - 1);
      assert windows[1..][k - 1..] == windows[k..];
    }
  }

  // ---- Time ------------------------------------------------------------------

  function WindowDelay(w: Window): nat {
    if w.Got? then RetryDelayFor(w.sig.rCode) * SECONDS_PER_HOUR else 0
  }

  const WINDOW_SECONDS: nat := SETTLEMENT_HOURS * SECONDS_PER_HOUR

  predicate StampsOk(p: Proc, clock: nat) {
    && p.count <= |p.stamps| <= p.count + 1 <= |p.windows| + 1
    && (p.point.Queueing? || p.point.LoopTop? ==> |p.stamps| == p.count)
    && (|p.stamps| == p.count ==> p.point.Queueing? || p.point.LoopTop? || p.point.Errored?)
    && (forall j :: 0 <= j < |p.stamps| ==> p.stamps[j] <= clock)
    && (forall j :: 0 < j < |p.stamps| ==> p.stamps[j] >= p.stamps[j - 1] + WindowDelay(p.windows[j - 1]))
  }

  predicate TimeOk(cfg: Config, p: Proc, clock: nat, settledAt: Option<int>)
    requires WindowsOk(cfg, p) && StampsOk(p, clock)
  {
    && (p.point.LoopTop? && p.count > 0 ==> clock >= p.stamps[p.count - 1] + WindowDelay(p.windows[p.count - 1]))
    && (p.point.Sleeping? ==> p.point.until >= p.stamps[p.count] + WindowDelay(p.windows[p.count]))
    && (p.point.Waiting? ==> p.point.deadline >= p.stamps[p.count] + WINDOW_SECONDS)
    && (p.point.Settling? ==> clock >= p.stamps[p.count] + WINDOW_SECONDS)
    && (settledAt.Some? ==> |p.stamps| == p.count + 1 && settledAt.value >= p.stamps[p.count] + WINDOW_SECONDS)
  }

  predicate TimersOk(cfg: Config, p: Proc) {
    var windowsOpened := if Decided(p.point) || p.point.Waiting? || p.point.Completed? then p.count + 1 else p.count;
    var slept := if p.point.Sleeping? then p.count + 1 else p.count;
    && (!p.point.Errored? ==> p.timerHours <= 72 * windowsOpened + 48 * slept)
    && p.timerHours <= 72 * (cfg.maxRepresentments + 1) + 48 * cfg.maxRepresentments
  }

  // ---- Signals ---------------------------------------------------------------

  /** The signals the closed windows consumed, oldest first. */
  function Consumed(windows: seq<Window>): seq<ReturnSignal> {
    if windows == [] then []
    else
      var last := windows[|windows| - 1];
      Consumed(windows[..|windows| - 1]) + if last.Got? then [last.sig] else []
  }

  predicate QueueOk(p: Proc, queue: seq<ReturnSignal>, delivered: seq<ReturnSignal>) {
    && delivered == Consumed(p.windows) + queue
    && (p.point.Waiting? ==> p.seenAtOpen == p.count)
    && (p.windows != [] && p.windows[|p.windows| - 1].Quiet? ==> p.seenAtOpen == p.count && |p.windows| == p.count + 1)
  }

  lemma ConsumedAppend(windows: seq<Window>, w: Window)
    ensures Consumed(windows + [w]) == Consumed(windows) + if w.Got? then [w.sig] else []
  {
    assert (windows + [w])[..|windows|] == windows;
  }

  lemma {:induction false} ConsumedAllGot(windows: seq<Window>)
    requires forall i :: 0 <= i < |windows| ==> windows[i].Got?
    ensures |Consumed(windows)| == |windows|
    ensures forall i :: 0 <= i < |windows| ==> Consumed(windows)[i] == windows[i].sig
  {
    if windows != [] {
      ConsumedAllGot(windows[..|windows| - 1]);
    }
  }

  // ---- Traces ----------------------------------------------------------------

  /** Attempts below this number may have stored their trace number. */
  function Stores(p: Proc): nat {
    if p.hit || p.point in {Queueing, LoopTop, Checking} then p.count else p.count + 1
  }

  /** Attempts below this number may have reached the gateway. */
  function Sends(p: Proc): nat {
    if p.hit || p.point in {Queueing, LoopTop, Checking, Storing, Submitting} then p.count else p.count + 1
  }

  predicate TraceOk(p: Proc, id: PaymentID, redis: Keys) {
    && (|p.stamps| == p.count + 1 && !p.point.Queueing? ==> p.trace == GenerateTraceNumber(p.count, id, p.stamps[p.count]))
    && (p.point.Submitting? || p.point.Sending? ==> TraceKey(p.trace) in redis)
  }

  /** Attempt j of payment `id` may be the one that put this key. */
  predicate StoredBy(procs: map<PaymentID, Proc>, key: string, id: PaymentID, j: nat) {
    && id in procs
    && j < |procs[id].stamps| && j < Stores(procs[id])
    && key == TraceKey(GenerateTraceNumber(j, id, procs[id].stamps[j]))
  }

  ghost predicate KeyOk(procs: map<PaymentID, Proc>, key: string) {
    exists id, j :: StoredBy(procs, key, id, j)
  }

  /** Another payment whose trace number for attempt k is the same text as that of `id`. */
  predicate Collides(procs: map<PaymentID, Proc>, id: PaymentID, k: nat, other: PaymentID) {
    && id in procs && other in procs && other != id
    && Prefix(other) == Prefix(id)
    && k < |procs[id].stamps| && k < |procs[other].stamps|
    && procs[other].stamps[k] == procs[id].stamps[k]
  }

  predicate SubmissionOk(procs: map<PaymentID, Proc>, redis: Keys, audit: seq<AuditEntry>, s: Submission) {
    && s.id in procs
    && s.attempt < |procs[s.id].stamps| && s.attempt < Sends(procs[s.id])
    && s.trace == GenerateTraceNumber(s.attempt, s.id, procs[s.id].stamps[s.attempt])
    && TraceKey(s.trace) in redis
    && |Trail(audit, s.id)| >= 3 * s.attempt + 2
  }

  // ---- The invariant ---------------------------------------------------------

  /** The part of the world one workflow's invariant speaks about. */
  datatype View = View(
    clock: nat,
    trail: seq<PaymentState>,
    settledAt: Option<int>,
    queue: seq<ReturnSignal>,
    delivered: seq<ReturnSignal>,
    redis: Keys)

  predicate Known(w: World, id: PaymentID) {
    id in w.procs && id in w.queues && id in w.delivered && id in w.db.payments
  }

  function ViewOf(w: World, id: PaymentID): View
    requires Known(w, id)
  {
    View(w.clock, Trail(w.db.audit, id), w.db.payments[id].settledAt, w.queues[id], w.delivered[id], w.redis)
  }

  /** Windows, time stamps and timers. */
  predicate ScheduleOk(cfg: Config, p: Proc, v: View) {
    && WindowsOk(cfg, p)
    && StampsOk(p, v.clock)
    && TimeOk(cfg, p, v.clock, v.settledAt)
    && TimersOk(cfg, p)
  }

  /** Audit trail, signals and the trace number in hand. */
  predicate RecordsOk(cfg: Config, id: PaymentID, p: Proc, v: View) {
    && TrailOk(cfg, p, v.trail)
    && QueueOk(p, v.queue, v.delivered)
    && TraceOk(p, id, v.redis)
  }

  /** What holds of one workflow, its row, its log and its signals. */
  predicate LocalOk(cfg: Config, id: PaymentID, p: Proc, v: View) {
    ScheduleOk(cfg, p, v) && RecordsOk(cfg, id, p, v)
  }

  ghost predicate HitExplained(procs: map<PaymentID, Proc>, id: PaymentID)
    requires id in procs
  {
    procs[id].hit ==> exists other :: Collides(procs, id, procs[id].count, other)
  }

  ghost predicate ProcOk(cfg: Config, w: World, id: PaymentID)
    requires Known(w, id)
  {
    LocalOk(cfg, id, w.procs[id], ViewOf(w, id)) && HitExplained(w.procs, id)
  }

  predicate Domains(w: World) {
    && w.queues.Keys == w.procs.Keys
    && w.delivered.Keys == w.procs.Keys
    && w.procs.Keys <= w.db.payments.Keys
  }

  ghost predicate Inv(cfg: Config, w: World) {
    && Consistent(w.db)
    && Domains(w)
    && (forall id :: id in w.procs ==> ProcOk(cfg, w, id))
    && (forall id :: id in w.db.payments && id !in w.procs ==> Trail(w.db.audit, id) == [])
    && (forall key :: key in w.redis ==> KeyOk(w.procs, key))
    && (forall s :: s in w.ach ==> SubmissionOk(w.procs, w.redis, w.db.audit, s))
  }
}
