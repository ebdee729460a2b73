/** PaymentWorkflow as a step machine over a world shared by any number of workflows
    (internal/workflow/payment_workflow.go). Each step is one activity attempt or one
    scheduling decision; the environment picks the steps, their faults and the time. */
module Workflow {
  import opened Wrappers
  import opened Rules
  import opened RCodes
  import opened TraceNumbers
  import opened Store
  import opened Redis

  /** The representment limit and the attempts per activity call; the code uses 2 and 3. */
  datatype Config = Config(maxRepresentments: nat, maxAttempts: nat)

  datatype ReturnSignal = ReturnSignal(rCode: string, traceNumber: string)

  /** How a settlement window ended. */
  datatype Window = Quiet | Got(sig: ReturnSignal)

  const SETTLEMENT_HOURS: nat := 72

  /** Where a workflow stands. A point with an activity call stands for all its attempts. */
  datatype Point =
    | Queueing                      // INITIATED to PENDING
    | LoopTop                       // about to generate a trace number
    | Checking                      // CheckIdempotency
    | Storing                       // StoreTraceNumber
    | Submitting                    // PENDING to SUBMITTED
    | Sending                       // SubmitToACH
    | OpeningWindow                 // start the timer and select
    | Waiting(deadline: nat)        // select blocked
    | Settling                      // SUBMITTED to SETTLED
    | Returning                     // SUBMITTED to RETURNED
    | Failing(to: PaymentState)     // RETURNED to a failure state
    | Requeueing                    // RETURNED to PENDING
    | Sleeping(until: nat)
    | Completed                     // returned nil
    | Errored                       // returned an error

  /** A workflow's control state. The fields after `sig` are history: no step reads them
      to decide anything. */
  datatype Proc = Proc(
    point: Point,
    attempt: nat,                   // failed attempts of the current activity call
    count: nat,                     // representmentCount
    trace: string,
    hit: bool,                      // AlreadySubmitted of the last check
    sig: ReturnSignal,
    windows: seq<Window>,           // how each closed window ended
    stamps: seq<nat>,               // the time each trace number was generated
    seenAtOpen: nat,                // signals delivered when the last window opened
    timerHours: nat)                // sum of all timers started

  /** One line at the ACH gateway. */
  datatype Submission = Submission(id: PaymentID, attempt: nat, trace: string)

  datatype World = World(
    clock: nat,
    db: Database,
    redis: Keys,
    ach: seq<Submission>,
    procs: map<PaymentID, Proc>,
    queues: map<PaymentID, seq<ReturnSignal>>,
    delivered: map<PaymentID, seq<ReturnSignal>>)

  /** What the environment decides for one step: the fate of an activity attempt, whether
      a ready timer wins over a ready signal, and whether the workflow is cancelled while
      it is blocked. */
  datatype Choice = Choice(attempt: Attempt, timerFirst: bool, cancel: bool)

  datatype Action =
    | Tick(seconds: nat)
    | Create(id: PaymentID, attempt: Attempt)
    | Start(id: PaymentID)
    | Deliver(id: PaymentID, sig: ReturnSignal)
    | Run(id: PaymentID, choice: Choice)

  function InitialProc(): Proc {
    Proc(Queueing, 0, 0, "", false, ReturnSignal("", ""), [], [], 0, 0)
  }

  function InitialWorld(): World {
    World(0, Database(map[], []), map[], [], map[], map[], map[])
  }

  // ---- Steps -----------------------------------------------------------------

  /** A failed attempt: try again while the retry policy allows, then fail the workflow. */
  function Retry(cfg: Config, p: Proc): Proc {
    if p.attempt + 1 < cfg.maxAttempts then p.(attempt := p.attempt + 1) else p.(point := Errored)
  }

  function Goto(p: Proc, point: Point): Proc {
    p.(point := point, attempt := 0)
  }

  function Transition(point: Point): Option<(PaymentState, PaymentState)> {
    match point
    case Queueing => Some((Initiated, Pending))
    case Submitting => Some((Pending, Submitted))
    case Settling => Some((Submitted, Settled))
    case Returning => Some((Submitted, Returned))
    case Failing(to) => Some((Returned, to))
    case Requeueing => Some((Returned, Pending))
    case _ => None
  }

  /** Where a return leads, by the category of its code. */
  function Route(cfg: Config, p: Proc): Point {
    match Category(p.sig.rCode)
    case NonRetryable => Failing(FailedNonRetryable)
    case ComplianceReview => Failing(ComplianceEscalation)
    case Retryable =>
      if p.count >= cfg.maxRepresentments then Failing(FailedRetryableExhausted) else Requeueing
  }

  function AfterTransition(cfg: Config, p: Proc, clock: nat): Proc {
    match p.point
    case Queueing => Goto(p, LoopTop)
    case Submitting => Goto(p, Sending)
    case Returning => Goto(p, Route(cfg, p))
    case Requeueing =>
      var hours := RetryDelayFor(p.sig.rCode);
      Goto(p, Sleeping(clock + hours * SECONDS_PER_HOUR)).(timerHours := p.timerHours + hours)
    case _ => Goto(p, Completed)
  }

  function SetProc(w: World, id: PaymentID, p: Proc): World {
    w.(procs := w.procs[id := p])
  }

  /** Only the workflow of `id` and its row have moved, and at the gateway only it may have spoken. */
  predicate OnlyOwn(w: World, w': World, id: PaymentID) {
    && w'.clock == w.clock && w'.delivered == w.delivered
    && id in w.procs && id in w'.procs && w'.procs == w.procs[id := w'.procs[id]]
    && (w'.queues == w.queues || (id in w.queues && id in w'.queues && w'.queues == w.queues[id := w'.queues[id]]))
    && (w'.ach == w.ach || w'.ach == w.ach + [Submission(id, w.procs[id].count, w.procs[id].trace)])
    && (w'.db == w.db || (id in w.db.payments && id in w'.db.payments && w'.db.payments == w.db.payments[id := w'.db.payments[id]]))
  }

  function StepTransition(cfg: Config, w: World, id: PaymentID, e: Choice): (w': World)
    requires id in w.procs && Transition(w.procs[id].point).Some?
    ensures OnlyOwn(w, w', id)
  {
    var p := w.procs[id];
    var (db', ok) := PersistAttempt(w.db, id, Transition(p.point).value.1, "", w.clock, e.attempt);
    SetProc(w.(db := db'), id, if ok then AfterTransition(cfg, p, w.clock) else Retry(cfg, p))
  }

  function StepLoopTop(w: World, id: PaymentID): (w': World)
    requires id in w.procs
    ensures OnlyOwn(w, w', id)
  {
    var p := w.procs[id];
    SetProc(w, id, Goto(p, Checking).(trace := GenerateTraceNumber(p.count, id, w.clock), stamps := p.stamps + [w.clock]))
  }

  function StepCheck(cfg: Config, w: World, id: PaymentID, e: Choice): (w': World)
    requires id in w.procs
    ensures OnlyOwn(w, w', id)
  {
    var p := w.procs[id];
    var exists_ := Exists(w.redis, TraceKey(p.trace), w.clock);
    SetProc(w, id,
            if e.attempt != Report then Retry(cfg, p)
            else Goto(p, if exists_ then OpeningWindow else Storing).(hit := exists_))
  }

  function StepStore(cfg: Config, w: World, id: PaymentID, e: Choice): (w': World)
    requires id in w.procs
    ensures OnlyOwn(w, w', id)
  {
    var p := w.procs[id];
    var w' := if e.attempt == FailBefore then w else w.(redis := StoreTraceNumber(w.redis, p.trace, w.clock));
    SetProc(w', id, if e.attempt == Report then Goto(p, Submitting) else Retry(cfg, p))
  }

  function StepSend(cfg: Config, w: World, id: PaymentID, e: Choice): (w': World)
    requires id in w.procs
    ensures OnlyOwn(w, w', id)
  {
    var p := w.procs[id];
    var w' := if e.attempt == FailBefore then w else w.(ach := w.ach + [Submission(id, p.count, p.trace)]);
    SetProc(w', id, if e.attempt == Report then Goto(p, OpeningWindow) else Retry(cfg, p))
  }

  /** Select takes a ready case. With none it blocks; with both the environment picks. */
  function Select(w: World, id: PaymentID, p: Proc, deadline: nat, e: Choice): World
    requires id in w.queues
  {
    var timerReady := w.clock >= deadline;
    var signalReady := w.queues[id] != [];
    if signalReady && !(timerReady && e.timerFirst) then
      var sig := w.queues[id][0];
      SetProc(w.(queues := w.queues[id := w.queues[id][1..]]), id,
              Goto(p, Returning).(sig := sig, windows := p.windows + [Got(sig)]))
    else if timerReady then
      SetProc(w, id, Goto(p, Settling).(windows := p.windows + [Quiet]))
    else
      SetProc(w, id, p.(point := Waiting(deadline)))
  }

  function StepOpenWindow(w: World, id: PaymentID, e: Choice): (w': World)
    requires id in w.procs && id in w.queues && id in w.delivered
    ensures OnlyOwn(w, w', id)
  {
    var p := w.procs[id];
    var deadline := w.clock + SETTLEMENT_HOURS * SECONDS_PER_HOUR;
    Select(w, id, p.(timerHours := p.timerHours + SETTLEMENT_HOURS, seenAtOpen := |w.delivered[id]|), deadline, e)
  }

  function StepWait(w: World, id: PaymentID, e: Choice): (w': World)
    requires id in w.procs && id in w.queues && w.procs[id].point.Waiting?
    ensures OnlyOwn(w, w', id)
  {
    var p := w.procs[id];
    if e.cancel then SetProc(w, id, p.(point := Errored))
    else Select(w, id, p, p.point.deadline, e)
  }

  function StepSleep(w: World, id: PaymentID, e: Choice): (w': World)
    requires id in w.procs && w.procs[id].point.Sleeping?
    ensures OnlyOwn(w, w', id)
  {
    var p := w.procs[id];
    if e.cancel then SetProc(w, id, p.(point := Errored))
    else if w.clock < p.point.until then w
    else SetProc(w, id, Goto(p, LoopTop).(count := p.count + 1))
  }

  function StepProc(cfg: Config, w: World, id: PaymentID, e: Choice): (w': World)
    requires id in w.procs && id in w.queues && id in w.delivered
    ensures OnlyOwn(w, w', id)
  {
    match w.procs[id].point
    case LoopTop => StepLoopTop(w, id)
    case Checking => StepCheck(cfg, w, id, e)
    case Storing => StepStore(cfg, w, id, e)
    case Sending => StepSend(cfg, w, id, e)
    case OpeningWindow => StepOpenWindow(w, id, e)
    case Waiting(_) => StepWait(w, id, e)
    case Sleeping(_) => StepSleep(w, id, e)
    case Completed => w
    case Errored => w
    case _ => StepTransition(cfg, w, id, e)
  }

  predicate Running(w: World, id: PaymentID) {
    id in w.procs && w.procs[id].point != Completed && w.procs[id].point != Errored
  }

  /** One action. An action that is not possible leaves the world as it is. */
  function Do(cfg: Config, w: World, a: Action): World {
    match a
    case Tick(seconds) => w.(clock := w.clock + seconds)
    case Create(id, attempt) => w.(db := CreatePayment(w.db, id, NewRow(w.clock), attempt).0)
    case Start(id) =>
      if id in w.db.payments && id !in w.procs then
        w.(procs := w.procs[id := InitialProc()], queues := w.queues[id := []], delivered := w.delivered[id := []])
      else w
    case Deliver(id, sig) =>
      if Running(w, id) && id in w.queues && id in w.delivered then
        w.(queues := w.queues[id := w.queues[id] + [sig]], delivered := w.delivered[id := w.delivered[id] + [sig]])
      else w
    case Run(id, choice) =>
      if id in w.procs && id in w.queues && id in w.delivered then StepProc(cfg, w, id, choice) else w
  }

  /** The world after a run: any interleaving is a list of actions. */
  function Exec(cfg: Config, w: World, actions: seq<Action>): World {
    if actions == [] then w
    else Do(cfg, Exec(cfg, w, actions[..|actions| - 1]), actions[|actions| - 1])
  }

  lemma {:induction false} ExecConcat(cfg: Config, w: World, before: seq<Action>, after: seq<Action>)
    ensures Exec(cfg, w, before + after) == Exec(cfg, Exec(cfg, w, before), after)
  {
    if after == [] {
      assert before + after == before;
    } else {
      var n := |after| - 1;
      assert (before + after)[..|before| + n] == before + after[..n];
      ExecConcat(cfg, w, before, after[..n]);
    }
  }

  // ---- What the final state should be ----------------------------------------

  /** The fate of a payment as a function of its settlement windows alone. `left` is how
      many representments remain. None: not decided yet. */
  function Verdict(left: nat, windows: seq<Window>): Option<PaymentState> {
    if windows == [] then None
    else match windows[0]
      case Quiet => Some(Settled)
      case Got(sig) =>
        match Category(sig.rCode)
        case NonRetryable => Some(FailedNonRetryable)
        case ComplianceReview => Some(ComplianceEscalation)
        case Retryable =>
          if left == 0 then Some(FailedRetryableExhausted) else Verdict(left - 1, windows[1..])
  }

  predicate RetryableReturn(w: Window) {
    w.Got? && Category(w.sig.rCode) == Retryable
  }
}
