/** PaymentWorkflow as the imperative program it is, run in an environment that may do
    anything between two of its steps. It is proved to stay within the reachable worlds of
    the step machine, so everything proved of those holds of it. */
module PaymentWorkflow {
  import opened Wrappers
  import opened Rules
  import opened RCodes
  import opened TraceNumbers
  import opened Store
  import R = Redis
  import Activities
  import opened Workflow
  import opened WorkflowRuns
  import opened WorkflowSteps
  import opened WorkflowTheorems

  /** No step of the workflow `id`: everybody else, the clock, and signals. */
  predicate NotMine(a: Action, id: PaymentID) {
    a.Run? ==> a.id != id
  }

  function Others(actions: seq<Action>, id: PaymentID): (r: seq<Action>)
    ensures forall a :: a in r ==> NotMine(a, id)
  {
    if actions == [] then []
    else
      var last := actions[|actions| - 1];
      Others(actions[..|actions| - 1], id) + if NotMine(last, id) then [last] else []
  }

  lemma OthersAction(cfg: Config, w: World, a: Action, id: PaymentID)
    requires id in w.procs && id in w.queues && id in w.delivered && NotMine(a, id)
    ensures var w' := Do(cfg, w, a);
            id in w'.procs && id in w'.queues && id in w'.delivered && w'.procs[id] == w.procs[id]
  {
    hide StepProc, CreatePayment;
    if a.Run? && a.id in w.procs && a.id in w.queues && a.id in w.delivered {
      assert OnlyOwn(w, StepProc(cfg, w, a.id, a.choice), a.id);
    }
  }

  lemma {:induction false} OthersLeaveProc(cfg: Config, w: World, actions: seq<Action>, id: PaymentID)
    requires id in w.procs && id in w.queues && id in w.delivered
    requires forall a :: a in actions ==> NotMine(a, id)
    ensures var w' := Exec(cfg, w, actions);
            id in w'.procs && id in w'.queues && id in w'.delivered && w'.procs[id] == w.procs[id]
  {
    hide Do;
    if actions != [] {
      OthersLeaveProc(cfg, w, actions[..|actions| - 1], id);
      OthersAction(cfg, Exec(cfg, w, actions[..|actions| - 1]), actions[|actions| - 1], id);
    }
  }

  /** The check has answered. */
  function Checked(p: Proc, hit: bool): Proc {
    Goto(p, if hit then OpeningWindow else Storing).(hit := hit)
  }

  /** The settlement window has closed, on a signal or on the timer. */
  function Closed(p: Proc, received: Option<ReturnSignal>): Proc {
    match received
    case Some(sig) => Goto(p, Returning).(sig := sig, windows := p.windows + [Got(sig)])
    case None => Goto(p, Settling).(windows := p.windows + [Quiet])
  }

  lemma ReachThen(cfg: Config, history: seq<Action>, a: Action)
    ensures Reach(cfg, history + [a]) == Do(cfg, Reach(cfg, history), a)
  {
    hide Do;
    assert (history + [a])[..|history|] == history;
  }

  lemma SameButAttempt(cfg: Config, p: Proc, k: nat, clock: nat)
    ensures Transition(p.(attempt := k).point) == Transition(p.point)
    ensures Transition(p.point).Some? ==> AfterTransition(cfg, p.(attempt := k), clock) == AfterTransition(cfg, p, clock)
    ensures k + 1 < cfg.maxAttempts ==> Retry(cfg, p.(attempt := k)) == p.(attempt := k + 1)
    ensures k + 1 >= cfg.maxAttempts ==> Retry(cfg, p.(attempt := k)).point == Errored
    ensures p.attempt == 0 ==> p.(attempt := 0) == p
  {
    hide RetryDelayFor, Category;
  }

  lemma SleepAfter(cfg: Config, p: Proc, clock: nat)
    ensures p.point.Requeueing? ==>
              AfterTransition(cfg, p, clock).point == Sleeping(clock + (if p.sig.rCode == "R09" then 172_800 else 86_400))
  {
  }

  /** The Temporal side of the world: clock, control states and signal queues, with the
      activities and through them the database, Redis and the gateway. */
  class Host {
    const cfg: Config
    const acts: Activities.Activities
    var clock: nat
    var procs: map<PaymentID, Proc>
    var queues: map<PaymentID, seq<ReturnSignal>>
    var delivered: map<PaymentID, seq<ReturnSignal>>
    /** Everything that has happened since the empty world. */
    ghost var history: seq<Action>

    constructor (cfg: Config, acts: Activities.Activities)
      requires acts.repo.Contents() == Database(map[], []) && acts.redisClient.keys == map[] && acts.gateway == []
      ensures this.cfg == cfg && this.acts == acts && Valid() && history == []
    {
      this.cfg, this.acts := cfg, acts;
      clock, procs, queues, delivered, history := 0, map[], map[], map[], [];
    }

    function Snapshot(): World
      reads this, acts, acts.repo, acts.redisClient
    {
      World(clock, acts.repo.Contents(), acts.redisClient.keys, acts.gateway, procs, queues, delivered)
    }

    /** The objects hold exactly the world that the history leads to. */
    ghost predicate Valid()
      reads this, acts, acts.repo, acts.redisClient
    {
      Snapshot() == Reach(cfg, history)
    }

    ghost predicate Active(id: PaymentID)
      reads this
    {
      id in procs && id in queues && id in delivered
    }

    /** Any number of steps of others, of any kind. */
    method Environment(id: PaymentID)
      requires Valid() && Active(id)
      modifies this, acts, acts.repo, acts.redisClient
      ensures Valid() && old(history) <= history
      ensures Active(id) && procs[id] == old(procs[id])
    {
      var actions: seq<Action> := *;
      actions := Others(actions, id);
      OthersLeaveProc(cfg, Snapshot(), actions, id);
      ExecConcat(cfg, InitialWorld(), history, actions);
      var w := Exec(cfg, Snapshot(), actions);
      acts.repo.payments, acts.repo.auditLog := w.db.payments, w.db.audit;
      acts.redisClient.keys := w.redis;
      acts.gateway := w.ach;
      clock, procs, queues, delivered := w.clock, w.procs, w.queues, w.delivered;
      history := history + actions;
    }

    /** Enters a step of the workflow itself into the history. */
    ghost method Record(id: PaymentID, e: Choice)
      requires Reach(cfg, history + [Run(id, e)]) == Snapshot()
      modifies this`history
      ensures Valid() && history == old(history) + [Run(id, e)]
    {
      history := history + [Run(id, e)];
    }

    /** Lets time pass. */
    method Tick(seconds: nat)
      requires Valid()
      modifies this`clock, this`history
      ensures Valid() && old(history) <= history && clock == old(clock) + seconds
    {
      hide Reach;
      ReachThen(cfg, history, Action.Tick(seconds));
      clock := clock + seconds;
      history := history + [Action.Tick(seconds)];
    }

    // ---- persistTransition ---------------------------------------------------

    /** One attempt of PersistStateTransition, after whatever others did. */
    method TransitionAttempt(id: PaymentID, from: PaymentState, to: PaymentState) returns (ok: bool)
      requires Valid() && Active(id) && Transition(procs[id].point) == Some((from, to))
      modifies this, acts, acts.repo, acts.redisClient
      ensures Valid() && Active(id) && old(history) <= history
      ensures procs[id] == if ok then AfterTransition(cfg, old(procs[id]), clock) else Retry(cfg, old(procs[id]))
    {
      hide Reach, PersistAttempt, AfterTransition, Retry, Do;
      Environment(id);
      var e: Choice := *;
      ghost var w := Snapshot();
      ok := acts.PersistStateTransition(id, from, to, "", clock, e.attempt);
      procs := procs[id := if ok then AfterTransition(cfg, procs[id], clock) else Retry(cfg, procs[id])];
      assert Snapshot() == StepTransition(cfg, w, id, e);
      RunIs(cfg, w, id, e);
      ReachThen(cfg, history, Run(id, e));
      Record(id, e);
    }

    /** persistTransition: the activity under its retry policy. */
    method PersistTransition(id: PaymentID, from: PaymentState, to: PaymentState) returns (ok: bool)
      requires Valid() && Active(id) && Transition(procs[id].point) == Some((from, to)) && procs[id].attempt == 0
      modifies this, acts, acts.repo, acts.redisClient
      ensures Valid() && Active(id) && old(history) <= history
      ensures ok ==> procs[id] == AfterTransition(cfg, old(procs[id]), clock)
      ensures ok && old(procs[id].point).Requeueing? ==>
                procs[id].point == Sleeping(clock + (if old(procs[id].sig.rCode) == "R09" then 172_800 else 86_400))
      ensures !ok ==> procs[id].point == Errored
    {
      hide AfterTransition, Retry, Valid, Transition;
      var attempt := 0;
      ghost var start := procs[id];
      SameButAttempt(cfg, start, 0, clock);
      ok := TransitionAttempt(id, from, to);
      while !ok && attempt + 1 < cfg.maxAttempts
        invariant Valid() && Active(id) && old(history) <= history
        invariant ok ==> procs[id] == AfterTransition(cfg, start, clock)
        invariant !ok ==> procs[id] == Retry(cfg, start.(attempt := attempt))
        decreases cfg.maxAttempts - attempt
      {
        SameButAttempt(cfg, start, attempt, clock);
        attempt := attempt + 1;
        ok := TransitionAttempt(id, from, to);
        SameButAttempt(cfg, start, attempt, clock);
      }
      SameButAttempt(cfg, start, attempt, clock);
      SleepAfter(cfg, start, clock);
    }

    // ---- checkIdempotency ----------------------------------------------------

    method CheckAttempt(id: PaymentID, traceNumber: string) returns (r: Option<bool>)
      requires Valid() && Active(id) && procs[id].point == Checking && procs[id].trace == traceNumber
      modifies this, acts, acts.repo, acts.redisClient
      ensures Valid() && Active(id) && old(history) <= history
      ensures procs[id] == if r.Some? then Checked(old(procs[id]), r.value) else Retry(cfg, old(procs[id]))
    {
      hide Reach, Retry, R.Exists, R.TraceKey, Do;
      Environment(id);
      var e: Choice := *;
      ghost var w := Snapshot();
      r := acts.CheckIdempotency(traceNumber, clock, e.attempt);
      procs := procs[id := if r.Some? then Checked(procs[id], r.value) else Retry(cfg, procs[id])];
      assert Snapshot() == StepCheck(cfg, w, id, e);
      RunIs(cfg, w, id, e);
      ReachThen(cfg, history, Run(id, e));
      Record(id, e);
    }

    /** None: every attempt failed. Otherwise AlreadySubmitted. */
    method CheckIdempotency(id: PaymentID, traceNumber: string) returns (r: Option<bool>)
      requires Valid() && Active(id) && procs[id].point == Checking && procs[id].attempt == 0 && procs[id].trace == traceNumber
      modifies this, acts, acts.repo, acts.redisClient
      ensures Valid() && Active(id) && old(history) <= history
      ensures r.Some? ==> procs[id] == Checked(old(procs[id]), r.value)
      ensures r.None? ==> procs[id].point == Errored
    {
      hide Retry, Valid;
      var attempt := 0;
      ghost var start := procs[id];
      SameButAttempt(cfg, start, 0, clock);
      r := CheckAttempt(id, traceNumber);
      while r.None? && attempt + 1 < cfg.maxAttempts
        invariant Valid() && Active(id) && old(history) <= history
        invariant procs[id] == if r.Some? then Checked(start, r.value) else Retry(cfg, start.(attempt := attempt))
        decreases cfg.maxAttempts - attempt
      {
        SameButAttempt(cfg, start, attempt, clock);
        attempt := attempt + 1;
        r := CheckAttempt(id, traceNumber);
      }
      SameButAttempt(cfg, start, attempt, clock);
    }

    // ---- storeTraceNumber ----------------------------------------------------

    method StoreAttempt(id: PaymentID, traceNumber: string) returns (ok: bool)
      requires Valid() && Active(id) && procs[id].point == Storing && procs[id].trace == traceNumber
      modifies this, acts, acts.repo, acts.redisClient
      ensures Valid() && Active(id) && old(history) <= history
      ensures procs[id] == if ok then Goto(old(procs[id]), Submitting) else Retry(cfg, old(procs[id]))
    {
      hide Reach, Retry, R.StoreTraceNumber, R.Exists, R.TraceKey, Do;
      Environment(id);
      var e: Choice := *;
      ghost var w := Snapshot();
      ok := acts.StoreTraceNumber(traceNumber, clock, e.attempt);
      procs := procs[id := if ok then Goto(procs[id], Submitting) else Retry(cfg, procs[id])];
      assert Snapshot() == StepStore(cfg, w, id, e);
      RunIs(cfg, w, id, e);
      ReachThen(cfg, history, Run(id, e));
      Record(id, e);
    }

    method StoreTraceNumber(id: PaymentID, traceNumber: string) returns (ok: bool)
      requires Valid() && Active(id) && procs[id].point == Storing && procs[id].attempt == 0 && procs[id].trace == traceNumber
      modifies this, acts, acts.repo, acts.redisClient
      ensures Valid() && Active(id) && old(history) <= history
      ensures ok ==> procs[id] == Goto(old(procs[id]), Submitting)
      ensures !ok ==> procs[id].point == Errored
    {
      hide Retry, Valid;
      var attempt := 0;
      ghost var start := procs[id];
      SameButAttempt(cfg, start, 0, clock);
      ok := StoreAttempt(id, traceNumber);
      while !ok && attempt + 1 < cfg.maxAttempts
        invariant Valid() && Active(id) && old(history) <= history
        invariant procs[id] == if ok then Goto(start, Submitting) else Retry(cfg, start.(attempt := attempt))
        decreases cfg.maxAttempts - attempt
      {
        SameButAttempt(cfg, start, attempt, clock);
        attempt := attempt + 1;
        ok := StoreAttempt(id, traceNumber);
      }
      SameButAttempt(cfg, start, attempt, clock);
    }

    // ---- submitToACH ---------------------------------------------------------

    method SubmitAttempt(id: PaymentID, representment: nat, traceNumber: string) returns (ok: bool)
      requires Valid() && Active(id) && procs[id].point == Sending
      requires procs[id].count == representment && procs[id].trace == traceNumber
      modifies this, acts, acts.repo, acts.redisClient
      ensures Valid() && Active(id) && old(history) <= history
      ensures procs[id] == if ok then Goto(old(procs[id]), OpeningWindow) else Retry(cfg, old(procs[id]))
    {
      hide Reach, Retry, Do;
      Environment(id);
      var e: Choice := *;
      ghost var w := Snapshot();
      ok := acts.SubmitToACH(id, representment, traceNumber, e.attempt);
      procs := procs[id := if ok then Goto(procs[id], OpeningWindow) else Retry(cfg, procs[id])];
      assert Snapshot() == StepSend(cfg, w, id, e);
      RunIs(cfg, w, id, e);
      ReachThen(cfg, history, Run(id, e));
      Record(id, e);
    }

    method SubmitToACH(id: PaymentID, representment: nat, traceNumber: string) returns (ok: bool)
      requires Valid() && Active(id) && procs[id].point == Sending && procs[id].attempt == 0
      requires procs[id].count == representment && procs[id].trace == traceNumber
      modifies this, acts, acts.repo, acts.redisClient
      ensures Valid() && Active(id) && old(history) <= history
      ensures ok ==> procs[id] == Goto(old(procs[id]), OpeningWindow)
      ensures !ok ==> procs[id].point == Errored
    {
      hide Retry, Valid;
      var attempt := 0;
      ghost var start := procs[id];
      SameButAttempt(cfg, start, 0, clock);
      ok := SubmitAttempt(id, representment, traceNumber);
      while !ok && attempt + 1 < cfg.maxAttempts
        invariant Valid() && Active(id) && old(history) <= history
        invariant procs[id] == if ok then Goto(start, OpeningWindow) else Retry(cfg, start.(attempt := attempt))
        decreases cfg.maxAttempts - attempt
      {
        SameButAttempt(cfg, start, attempt, clock);
        attempt := attempt + 1;
        ok := SubmitAttempt(id, representment, traceNumber);
      }
      SameButAttempt(cfg, start, attempt, clock);
    }

    // ---- Trace number, select and sleep --------------------------------------

    method GenerateTrace(id: PaymentID, representmentCount: nat) returns (traceNumber: string)
      requires Valid() && Active(id) && procs[id].point == LoopTop && procs[id].count == representmentCount
      modifies this, acts, acts.repo, acts.redisClient
      ensures Valid() && Active(id) && old(history) <= history
      ensures traceNumber == GenerateTraceNumber(representmentCount, id, clock)
      ensures procs[id] == Goto(old(procs[id]), Checking).(trace := traceNumber, stamps := old(procs[id].stamps) + [clock])
    {
      hide Reach, GenerateTraceNumber, Do;
      Environment(id);
      var e: Choice := *;
      ghost var w := Snapshot();
      traceNumber := GenerateTraceNumber(representmentCount, id, clock);
      procs := procs[id := Goto(procs[id], Checking).(trace := traceNumber, stamps := procs[id].stamps + [clock])];
      assert Snapshot() == StepLoopTop(w, id);
      RunIs(cfg, w, id, e);
      ReachThen(cfg, history, Run(id, e));
      Record(id, e);
    }

    /** One look at the two cases of the selector. The first result says whether one was
        ready, the second what was received. */
    method SelectOnce(id: PaymentID, deadline: nat, e: Choice) returns (ready: bool, received: Option<ReturnSignal>)
      requires Active(id)
      modifies this`procs, this`queues
      ensures Snapshot() == Select(old(Snapshot()), id, old(procs[id]), deadline, e)
      ensures Active(id) && ready == (old(queues[id]) != [] || clock >= deadline)
      ensures procs[id] == if ready then Closed(old(procs[id]), received) else old(procs[id]).(point := Waiting(deadline))
    {
      received := None;
      ready := true;
      if queues[id] != [] && !(clock >= deadline && e.timerFirst) {
        received := Some(queues[id][0]);
        queues := queues[id := queues[id][1..]];
      } else if clock < deadline {
        ready := false;
      }
      procs := procs[id := if ready then Closed(procs[id], received) else procs[id].(point := Waiting(deadline))];
    }

    /** Starts the timer and looks at both cases for the first time. */
    method OpenWindow(id: PaymentID) returns (ready: bool, received: Option<ReturnSignal>, deadline: nat)
      requires Valid() && Active(id) && procs[id].point == OpeningWindow
      modifies this, acts, acts.repo, acts.redisClient
      ensures Valid() && Active(id) && old(history) <= history
      ensures deadline == clock + 259_200
      ensures var p := old(procs[id]).(timerHours := old(procs[id].timerHours) + 72, seenAtOpen := procs[id].seenAtOpen);
              procs[id] == if ready then Closed(p, received) else p.(point := Waiting(deadline))
    {
      hide Reach, Select, Do;
      Environment(id);
      var e: Choice := *;
      ghost var w := Snapshot();
      deadline := clock + SETTLEMENT_HOURS * SECONDS_PER_HOUR;
      procs := procs[id := procs[id].(timerHours := procs[id].timerHours + SETTLEMENT_HOURS, seenAtOpen := |delivered[id]|)];
      ghost var w', p := Snapshot(), procs[id];
      ready, received := SelectOnce(id, deadline, e);
      SelectForgets(w, w', id, p, deadline, e);
      assert Snapshot() == StepOpenWindow(w, id, e);
      RunIs(cfg, w, id, e);
      ReachThen(cfg, history, Run(id, e));
      Record(id, e);
    }

    /** Blocked until a signal arrives, the timer fires or the workflow is cancelled. A
        cancelled select also returns, but then the next activity call is refused. */
    method Block(id: PaymentID, deadline: nat) returns (ok: bool, received: Option<ReturnSignal>)
      requires Valid() && Active(id) && procs[id].point == Waiting(deadline)
      modifies this, acts, acts.repo, acts.redisClient
      ensures Valid() && Active(id) && old(history) <= history
      ensures ok ==> procs[id] == Closed(old(procs[id]), received)
      ensures !ok ==> procs[id].point == Errored
    {
      hide Reach, Select, Do;
      Environment(id);
      var e: Choice := *;
      if !e.cancel && queues[id] == [] && clock < deadline {
        Tick(deadline - clock);
      }
      ghost var w := Snapshot();
      received, ok := None, !e.cancel;
      if e.cancel {
        procs := procs[id := procs[id].(point := Errored)];
      } else {
        var ready;
        ready, received := SelectOnce(id, deadline, e);
      }
      assert Snapshot() == StepWait(w, id, e);
      RunIs(cfg, w, id, e);
      ReachThen(cfg, history, Run(id, e));
      Record(id, e);
    }

    /** The settlement window: 72 hours against the signal channel. */
    method AwaitReturn(id: PaymentID) returns (ok: bool, received: Option<ReturnSignal>)
      requires Valid() && Active(id) && procs[id].point == OpeningWindow
      modifies this, acts, acts.repo, acts.redisClient
      ensures Valid() && Active(id) && old(history) <= history
      ensures ok ==> procs[id] == Closed(old(procs[id]).(timerHours := old(procs[id].timerHours) + 72, seenAtOpen := procs[id].seenAtOpen), received)
      ensures !ok ==> procs[id].point == Errored
    {
      hide Valid;
      var ready, deadline;
      ready, received, deadline := OpenWindow(id);
      ok := true;
      if !ready {
        ok, received := Block(id, deadline);
      }
    }

    /** The retry sleep. It fails only if the workflow is cancelled meanwhile. */
    method Sleep(id: PaymentID, until: nat) returns (ok: bool)
      requires Valid() && Active(id) && procs[id].point == Sleeping(until)
      modifies this, acts, acts.repo, acts.redisClient
      ensures Valid() && Active(id) && old(history) <= history
      ensures ok ==> clock >= until && procs[id] == Goto(old(procs[id]), LoopTop).(count := old(procs[id].count) + 1)
      ensures !ok ==> procs[id].point == Errored
    {
      hide Reach, Do;
      Environment(id);
      var e: Choice := *;
      if !e.cancel && clock < until {
        Tick(until - clock);
      }
      ghost var w := Snapshot();
      ok := !e.cancel;
      procs := procs[id := if ok then Goto(procs[id], LoopTop).(count := procs[id].count + 1) else procs[id].(point := Errored)];
      assert Snapshot() == StepSleep(w, id, e);
      RunIs(cfg, w, id, e);
      ReachThen(cfg, history, Run(id, e));
      Record(id, e);
    }

    // ---- PaymentWorkflow -----------------------------------------------------

    /** One submission: trace number, idempotency check, and unless it hits, the store, the
        SUBMITTED row and the gateway, in this order. */
    method Submit(id: PaymentID, representmentCount: nat) returns (ok: bool)
      requires Valid() && Active(id) && procs[id].point == LoopTop && procs[id].attempt == 0 && procs[id].count == representmentCount
      modifies this, acts, acts.repo, acts.redisClient
      ensures Valid() && Active(id) && old(history) <= history
      ensures ok ==> procs[id].point == OpeningWindow && procs[id].attempt == 0 && procs[id].count == representmentCount
      ensures !ok ==> procs[id].point == Errored
    {
      hide Valid, Retry, GenerateTraceNumber, RetryDelayFor, Category;
      var traceNumber := GenerateTrace(id, representmentCount);
      var alreadySubmitted := CheckIdempotency(id, traceNumber);
      if alreadySubmitted.None? {
        return false;
      }
      ok := true;
      if !alreadySubmitted.value {
        ok := StoreTraceNumber(id, traceNumber);
        if !ok {
          return;
        }
        ok := PersistTransition(id, Pending, Submitted);
        if !ok {
          return;
        }
        ok := SubmitToACH(id, representmentCount, traceNumber);
      }
    }

    /** What a return leads to, after the RETURNED row. */
    method HandleReturn(id: PaymentID, returnSig: ReturnSignal, representmentCount: nat) returns (ok: bool, again: bool)
      requires Valid() && Active(id) && procs[id].point == Returning && procs[id].attempt == 0
      requires procs[id].sig == returnSig && procs[id].count == representmentCount
      modifies this, acts, acts.repo, acts.redisClient
      ensures Valid() && Active(id) && old(history) <= history
      ensures !ok ==> procs[id].point == Errored
      ensures ok && !again ==> procs[id].point == Completed
      ensures ok && again ==> Category(returnSig.rCode) == Retryable && representmentCount < cfg.maxRepresentments
      ensures ok && again ==> procs[id].point == LoopTop && procs[id].attempt == 0 && procs[id].count == representmentCount + 1
    {
      hide Valid, Retry, RetryDelayFor, Category;
      again := false;
      var category := Category(returnSig.rCode);
      ok := PersistTransition(id, Submitted, Returned);
      if !ok {
        return;
      }
      match category
      {
        case NonRetryable =>
          ok := PersistTransition(id, Returned, FailedNonRetryable);
        case ComplianceReview =>
          ok := PersistTransition(id, Returned, ComplianceEscalation);
        case Retryable =>
          if representmentCount >= cfg.maxRepresentments {
            ok := PersistTransition(id, Returned, FailedRetryableExhausted);
            return;
          }
          ok := PersistTransition(id, Returned, Pending);
          if !ok {
            return;
          }
          ok := Sleep(id, procs[id].point.until);
          again := true;
      }
    }

    /** One turn of the loop: submit, wait, and settle or deal with the return. */
    method Present(id: PaymentID, representmentCount: nat) returns (ok: bool, again: bool)
      requires Valid() && Active(id) && procs[id].point == LoopTop && procs[id].attempt == 0 && procs[id].count == representmentCount
      modifies this, acts, acts.repo, acts.redisClient
      ensures Valid() && Active(id) && old(history) <= history
      ensures !ok ==> procs[id].point == Errored
      ensures ok && !again ==> procs[id].point == Completed
      ensures ok && again ==> representmentCount < cfg.maxRepresentments
      ensures ok && again ==> procs[id].point == LoopTop && procs[id].attempt == 0 && procs[id].count == representmentCount + 1
    {
      hide Valid, Retry, Category, Snapshot;
      again := false;
      ok := Submit(id, representmentCount);
      if !ok {
        return;
      }
      var returnSig;
      ok, returnSig := AwaitReturn(id);
      if !ok {
        return;
      }
      if returnSig.None? {
        ok := PersistTransition(id, Submitted, Settled);
      } else {
        ok, again := HandleReturn(id, returnSig.value, representmentCount);
      }
    }

    /** The workflow of a started payment, to its end. It returns nil exactly when its control
        state is Completed, and then the payment is in the terminal state its windows decide. */
    method PaymentWorkflow(id: PaymentID) returns (ok: bool)
      requires Valid() && Active(id) && procs[id] == InitialProc()
      modifies this, acts, acts.repo, acts.redisClient
      ensures Valid() && Active(id) && old(history) <= history
      ensures procs[id].point == if ok then Completed else Errored
      ensures ok ==> id in acts.repo.payments && IsTerminalState(acts.repo.payments[id].state)
      ensures ok ==> Verdict(cfg.maxRepresentments, procs[id].windows) == Some(acts.repo.payments[id].state)
    {
      hide Valid, Retry, Category, Verdict, IsTerminalState, Snapshot;
      ok := PersistTransition(id, Initiated, Pending);
      if !ok {
        return;
      }
      var representmentCount, again := 0, true;
      while again
        invariant Valid() && Active(id) && old(history) <= history
        invariant again ==> procs[id].point == LoopTop && procs[id].attempt == 0 && procs[id].count == representmentCount
        invariant !again ==> procs[id].point == Completed
        invariant representmentCount <= cfg.maxRepresentments
        decreases again, cfg.maxRepresentments - representmentCount
      {
        ok, again := Present(id, representmentCount);
        if !ok {
          return;
        }
        if again {
          representmentCount := representmentCount + 1;
        }
      }
      Finished(id);
    }

    lemma Finished(id: PaymentID)
      requires Valid() && Active(id) && procs[id].point.Completed?
      ensures id in acts.repo.payments && IsTerminalState(acts.repo.payments[id].state)
      ensures Verdict(cfg.maxRepresentments, procs[id].windows) == Some(acts.repo.payments[id].state)
    {
      hide Reach, Verdict, IsTerminalState;
      CompletedMeansDecided(cfg, history, id);
    }
  }

  /** The selector overwrites the control state it is given, wherever the world stands. */
  lemma SelectForgets(w: World, w': World, id: PaymentID, p: Proc, deadline: nat, e: Choice)
    requires id in w.queues && id in w.procs && w' == SetProc(w, id, p)
    ensures Select(w', id, p, deadline, e) == Select(w, id, p, deadline, e)
  {
  }
}
