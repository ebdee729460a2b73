/** What each step of a workflow does, in numbers and names: no step function and no constant
    of the machine appears in these statements. */
module WorkflowSteps {
  import opened Wrappers
  import opened Rules
  import opened RCodes
  import opened TraceNumbers
  import opened Store
  import opened Redis
  import opened Workflow

  predicate Present(w: World, id: PaymentID) {
    id in w.procs && id in w.queues && id in w.delivered
  }

  /** Which step a workflow's own action is. */
  lemma RunIs(cfg: Config, w: World, id: PaymentID, e: Choice)
    requires id in w.procs && id in w.queues && id in w.delivered
    ensures var point, w' := w.procs[id].point, Do(cfg, w, Run(id, e));
            && (Transition(point).Some? ==> w' == StepTransition(cfg, w, id, e))
            && (point.LoopTop? ==> w' == StepLoopTop(w, id))
            && (point.Checking? ==> w' == StepCheck(cfg, w, id, e))
            && (point.Storing? ==> w' == StepStore(cfg, w, id, e))
            && (point.Sending? ==> w' == StepSend(cfg, w, id, e))
            && (point.OpeningWindow? ==> w' == StepOpenWindow(w, id, e))
            && (point.Waiting? ==> w' == StepWait(w, id, e))
            && (point.Sleeping? ==> w' == StepSleep(w, id, e))
  {
    hide StepLoopTop, StepCheck, StepStore, StepSend, StepOpenWindow, StepWait, StepSleep, StepTransition;
  }

  /** The retry sleep: two days for R09, one day for every other code. */
  lemma SleepsExactly(cfg: Config, w: World, id: PaymentID, e: Choice)
    requires id in w.procs && w.procs[id].point.Requeueing?
    ensures var p' := Do(cfg, w, Run(id, e)).procs[id];
            p'.point.Sleeping? ==> p'.point.until == w.clock + (if w.procs[id].sig.rCode == "R09" then 172_800 else 86_400)
  {
    hide PersistAttempt;
  }

  /** The settlement window: three days. It opens with a signal in hand or waits for one. */
  lemma WaitsExactly(cfg: Config, w: World, id: PaymentID, e: Choice)
    requires Present(w, id) && w.procs[id].point.OpeningWindow?
    ensures var w' := Do(cfg, w, Run(id, e));
            if w.queues[id] == [] then
              w'.procs[id].point == Waiting(w.clock + 259_200) && w'.queues == w.queues
            else
              w'.procs[id].point == Returning && w'.procs[id].sig == w.queues[id][0] && w'.queues == w.queues[id := w.queues[id][1..]]
  {
  }

  /** How a blocked window closes. With signal and timer both ready either may win. */
  lemma WindowCloses(cfg: Config, w: World, id: PaymentID, e: Choice)
    requires Present(w, id) && w.procs[id].point.Waiting?
    ensures var w', p, p' := Do(cfg, w, Run(id, e)), w.procs[id], Do(cfg, w, Run(id, e)).procs[id];
            var signal, timer := w.queues[id] != [], w.clock >= p.point.deadline;
            if e.cancel then p'.point == Errored && w'.queues == w.queues
            else if !signal && !timer then w' == w
            else if signal && (!timer || !e.timerFirst) then
              && p'.point == Returning && p'.sig == w.queues[id][0] && w'.queues == w.queues[id := w.queues[id][1..]]
              && p'.windows == p.windows + [Got(w.queues[id][0])]
            else
              p'.point == Settling && p'.windows == p.windows + [Quiet] && w'.queues == w.queues
  {
    assert w.(procs := w.procs[id := w.procs[id]]) == w;
  }

  lemma SleepEnds(cfg: Config, w: World, id: PaymentID, e: Choice)
    requires Present(w, id) && w.procs[id].point.Sleeping?
    ensures var p, p' := w.procs[id], Do(cfg, w, Run(id, e)).procs[id];
            if e.cancel then p'.point == Errored
            else if w.clock < p.point.until then p' == p
            else p'.point == LoopTop && p'.count == p.count + 1
  {
  }

  /** Each attempt takes its number from the count and the clock of the moment. */
  lemma AttemptIsStamped(cfg: Config, w: World, id: PaymentID, e: Choice)
    requires Present(w, id) && w.procs[id].point.LoopTop?
    ensures var p, p' := w.procs[id], Do(cfg, w, Run(id, e)).procs[id];
            && p'.point == Checking && p'.count == p.count && p'.stamps == p.stamps + [w.clock]
            && |p'.trace| > 14 && p'.trace[..4] == "ACH-" && p'.trace[4..12] == id[..8] && p'.trace[12..14] == "-r"
            && exists k :: 14 < k < |p'.trace| && p'.trace[k] == '-' && IsDecimalOf(p'.trace[14..k], p.count) && IsDecimalOf(p'.trace[k + 1..], w.clock)
  {
    hide GenerateTraceNumber, IsDecimalOf;
    TraceByPosition(w.procs[id].count, id, w.clock);
  }

  /** The check looks for a live key; only its answer decides where the workflow goes. */
  lemma CheckAnswers(cfg: Config, w: World, id: PaymentID, e: Choice)
    requires Present(w, id) && w.procs[id].point.Checking? && e.attempt == Report
    ensures var w', p' := Do(cfg, w, Run(id, e)), Do(cfg, w, Run(id, e)).procs[id];
            var key := "ach:trace:" + w.procs[id].trace;
            && w'.redis == w.redis
            && p'.hit == (key in w.redis && w.clock < w.redis[key]) && p'.point == if p'.hit then OpeningWindow else Storing
  {
  }

  /** The store and the submission, whether or not their reply arrives. */
  lemma EffectsOnce(cfg: Config, w: World, id: PaymentID, e: Choice)
    requires Present(w, id) && e.attempt != FailBefore
    ensures var w', p := Do(cfg, w, Run(id, e)), w.procs[id];
            var key := "ach:trace:" + p.trace;
            && (p.point.Storing? ==>
                  w'.redis == (if key in w.redis && w.clock < w.redis[key] then w.redis else w.redis[key := w.clock + 604_800]))
            && (!p.point.Storing? ==> w'.redis == w.redis)
            && w'.ach == (if p.point.Sending? then w.ach + [Submission(id, p.count, p.trace)] else w.ach)
  {
    hide PersistAttempt, AfterTransition, Retry;
  }

  /** An attempt that fails before its effect changes nothing but the number of attempts, and
      the last one allowed fails the workflow. */
  lemma FailedAttempt(cfg: Config, w: World, id: PaymentID, e: Choice)
    requires Present(w, id) && e.attempt == FailBefore
    requires var point := w.procs[id].point; point.Checking? || point.Storing? || point.Sending? || Transition(point).Some?
    ensures var w', p := Do(cfg, w, Run(id, e)), w.procs[id];
            && w'.db == w.db && w'.redis == w.redis && w'.ach == w.ach
            && (p.attempt + 1 < cfg.maxAttempts ==> w'.procs[id] == p.(attempt := p.attempt + 1))
            && (p.attempt + 1 >= cfg.maxAttempts ==> w'.procs[id].point == Errored)
  {
    hide StepLoopTop, StepOpenWindow, StepWait, StepSleep, StepTransition, Do, GenerateTraceNumber, Exists, Redis.StoreTraceNumber;
    RunIs(cfg, w, id, e);
    if Transition(w.procs[id].point).Some? {
      FailedTransition(cfg, w, id, e);
    }
  }

  lemma FailedTransition(cfg: Config, w: World, id: PaymentID, e: Choice)
    requires id in w.procs && Transition(w.procs[id].point).Some? && e.attempt == FailBefore
    ensures StepTransition(cfg, w, id, e) == SetProc(w, id, Retry(cfg, w.procs[id]))
  {
    hide Retry, AfterTransition, UpdatePaymentState;
  }

  /** The row each transition writes, if it writes one: from the stored state, now, and only
      along the edge its point stands for. */
  predicate Target(point: Point, to: PaymentState) {
    match point
    case Queueing => to == Pending
    case Submitting => to == Submitted
    case Settling => to == Settled
    case Returning => to == Returned
    case Failing(state) => to == state
    case Requeueing => to == Pending
    case _ => false
  }

  lemma WritesOneRow(cfg: Config, w: World, id: PaymentID, e: Choice, to: PaymentState)
    requires Present(w, id) && id in w.db.payments && Target(w.procs[id].point, to)
    ensures var w', row := Do(cfg, w, Run(id, e)), w.db.payments[id];
            if e.attempt != FailBefore && row.state != to && IsTransitionAllowed(row.state, to) then
              && w'.db.audit == w.db.audit + [AuditEntry(id, row.state, to, "", w.clock)]
              && id in w'.db.payments && w'.db.payments == w.db.payments[id := w'.db.payments[id]]
              && w'.db.payments[id].state == to && w'.db.payments[id].updatedAt == w.clock
              && w'.db.payments[id].createdAt == row.createdAt
            else
              w'.db == w.db
  {
    hide IsTransitionAllowed, AfterTransition, Retry;
  }

  /** The codes that lead on from a return, and where. */
  lemma ReturnLeadsTo(cfg: Config, w: World, id: PaymentID, e: Choice)
    requires Present(w, id) && id in w.db.payments && w.procs[id].point.Returning?
    requires w.db.payments[id].state == Submitted && e.attempt == Report
    ensures var p, point := w.procs[id], Do(cfg, w, Run(id, e)).procs[id].point;
            if p.sig.rCode in {"R01", "R08", "R09"} then
              point == if p.count < cfg.maxRepresentments then Requeueing else Failing(FailedRetryableExhausted)
            else if p.sig.rCode in {"R05", "R14", "R15", "R16"} then point == Failing(ComplianceEscalation)
            else point == Failing(FailedNonRetryable)
  {
    hide Category, Commit;
    RoutedByName(w.procs[id].sig.rCode);
    EdgesByName(Submitted, Returned);
    var code := w.procs[id].sig.rCode;
    assert Category(code) == Retryable || Category(code) == NonRetryable || Category(code) == ComplianceReview;
  }

  // ---- Timers started --------------------------------------------------------

  /** Seconds of the timer that the workflow of `id` starts between two worlds, read off the
      end it waits for. A window that finds a signal at once has started its timer too. */
  function TimerStarted(w: World, w': World, id: PaymentID): int {
    if id !in w.procs || id !in w'.procs then 0
    else
      match (w.procs[id].point, w'.procs[id].point)
      case (OpeningWindow, Waiting(deadline)) => deadline - w.clock
      case (OpeningWindow, Returning) => 259_200
      case (Requeueing, Sleeping(until)) => until - w.clock
      case _ => 0
  }

  /** The sum of all timers a workflow starts in a run. */
  function TimersStarted(cfg: Config, w: World, actions: seq<Action>, id: PaymentID): int {
    if actions == [] then 0
    else
      var init, last := actions[..|actions| - 1], actions[|actions| - 1];
      var w1 := Exec(cfg, w, init);
      TimersStarted(cfg, w, init, id) + TimerStarted(w1, Do(cfg, w1, last), id)
  }

  function Hours(w: World, id: PaymentID): nat {
    if id in w.procs then w.procs[id].timerHours else 0
  }

  lemma TransitionCountsTimer(cfg: Config, w: World, id: PaymentID, e: Choice)
    requires id in w.procs && Transition(w.procs[id].point).Some?
    ensures Hours(StepTransition(cfg, w, id, e), id) * 3600 == Hours(w, id) * 3600 + TimerStarted(w, StepTransition(cfg, w, id, e), id)
  {
    hide PersistAttempt, Category;
  }

  lemma SelectCountsTimer(w: World, id: PaymentID, p: Proc, deadline: nat, e: Choice)
    requires id in w.queues
    ensures var w' := Select(w, id, p, deadline, e);
            && id in w'.procs && w'.procs[id].timerHours == p.timerHours
            && (w'.procs[id].point == Waiting(deadline) || w'.procs[id].point == Returning || w'.procs[id].point == Settling)
            && (w.clock < deadline ==> w'.procs[id].point != Settling)
  {
  }

  lemma OpeningCountsTimer(w: World, id: PaymentID, e: Choice)
    requires Present(w, id) && w.procs[id].point.OpeningWindow?
    ensures Hours(StepOpenWindow(w, id, e), id) * 3600 == Hours(w, id) * 3600 + TimerStarted(w, StepOpenWindow(w, id, e), id)
  {
    hide Select;
    var p := w.procs[id];
    SelectCountsTimer(w, id, p.(timerHours := p.timerHours + SETTLEMENT_HOURS, seenAtOpen := |w.delivered[id]|),
                      w.clock + SETTLEMENT_HOURS * SECONDS_PER_HOUR, e);
  }

  lemma OtherStepsCountTimer(cfg: Config, w: World, id: PaymentID, e: Choice)
    requires Present(w, id) && Transition(w.procs[id].point).None? && !w.procs[id].point.OpeningWindow?
    ensures Hours(StepProc(cfg, w, id, e), id) * 3600 == Hours(w, id) * 3600 + TimerStarted(w, StepProc(cfg, w, id, e), id)
  {
    hide Select, GenerateTraceNumber, Exists, Redis.StoreTraceNumber;
    if w.procs[id].point.Waiting? {
      SelectCountsTimer(w, id, w.procs[id], w.procs[id].point.deadline, e);
    }
  }

  lemma StepCountsTimer(cfg: Config, w: World, id: PaymentID, e: Choice)
    requires Present(w, id)
    ensures Hours(StepProc(cfg, w, id, e), id) * 3600 == Hours(w, id) * 3600 + TimerStarted(w, StepProc(cfg, w, id, e), id)
  {
    hide Hours, TimerStarted, StepLoopTop, StepCheck, StepStore, StepSend, StepOpenWindow, StepWait, StepSleep, StepTransition;
    if Transition(w.procs[id].point).Some? {
      TransitionCountsTimer(cfg, w, id, e);
    } else if w.procs[id].point.OpeningWindow? {
      OpeningCountsTimer(w, id, e);
    } else {
      OtherStepsCountTimer(cfg, w, id, e);
    }
  }

  lemma ActionCountsTimer(cfg: Config, w: World, a: Action, id: PaymentID)
    ensures Hours(Do(cfg, w, a), id) * 3600 == Hours(w, id) * 3600 + TimerStarted(w, Do(cfg, w, a), id)
  {
    hide StepProc, CreatePayment;
    if a.Run? && Present(w, a.id) {
      assert OnlyOwn(w, StepProc(cfg, w, a.id, a.choice), a.id);
      if a.id == id {
        StepCountsTimer(cfg, w, id, a.choice);
      }
    }
  }

  /** The history counter is the sum of the timers started, in hours. */
  lemma {:induction false} CounterIsTimers(cfg: Config, w: World, actions: seq<Action>, id: PaymentID)
    ensures Hours(Exec(cfg, w, actions), id) * 3600 == Hours(w, id) * 3600 + TimersStarted(cfg, w, actions, id)
  {
    hide Do, TimerStarted, Hours;
    if actions != [] {
      var init := actions[..|actions| - 1];
      CounterIsTimers(cfg, w, init, id);
      ActionCountsTimer(cfg, Exec(cfg, w, init), actions[|actions| - 1], id);
    }
  }
}
