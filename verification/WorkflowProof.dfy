/** The invariant is kept by every action. */
module WorkflowProof {
  import opened Wrappers
  import opened Rules
  import opened RCodes
  import opened TraceNumbers
  import opened Store
  import opened Redis
  import opened Workflow
  import opened WorkflowInvariant

  // ---- What one workflow's step leaves alone ---------------------------------

  predicate ProcGrows(p: Proc, p': Proc) {
    && p.stamps <= p'.stamps
    && p.count <= p'.count
    && Stores(p) <= Stores(p')
    && Sends(p) <= Sends(p')
  }

  ghost predicate Frame(w: World, w': World, id: PaymentID)
    requires id in w.procs
  {
    && w'.clock == w.clock
    && w'.procs.Keys == w.procs.Keys && w'.queues.Keys == w.queues.Keys && w'.delivered.Keys == w.delivered.Keys
    && w'.db.payments.Keys == w.db.payments.Keys
    && (forall other :: other in w.procs && other != id ==> w'.procs[other] == w.procs[other])
    && (forall other :: other in w.queues && other != id ==> w'.queues[other] == w.queues[other])
    && (forall other :: other in w.delivered && other != id ==> w'.delivered[other] == w.delivered[other])
    && (forall other :: other in w.db.payments && other != id ==> w'.db.payments[other] == w.db.payments[other])
    && (forall other :: other != id ==> Trail(w'.db.audit, other) == Trail(w.db.audit, other))
    && |Trail(w.db.audit, id)| <= |Trail(w'.db.audit, id)|
    && (forall key :: key in w.redis ==> key in w'.redis)
    && ProcGrows(w.procs[id], w'.procs[id])
  }

  lemma CollidesKept(w: World, w': World, id: PaymentID, a: PaymentID, k: nat, b: PaymentID)
    requires id in w.procs && Frame(w, w', id) && Collides(w.procs, a, k, b)
    ensures Collides(w'.procs, a, k, b)
  {
  }

  lemma MoreKeys(cfg: Config, id: PaymentID, p: Proc, v: View, redis: Keys)
    requires LocalOk(cfg, id, p, v) && forall key :: key in v.redis ==> key in redis
    ensures LocalOk(cfg, id, p, v.(redis := redis))
  {
    hide WindowsOk, StampsOk, TimeOk, TimersOk, TrailOk, QueueOk;
  }

  lemma OtherKept(cfg: Config, w: World, w': World, id: PaymentID, other: PaymentID)
    requires Inv(cfg, w) && Domains(w') && id in w.procs && Frame(w, w', id)
    requires other in w.procs && other != id
    ensures ProcOk(cfg, w', other)
  {
    hide LocalOk, KeyOk, SubmissionOk, Consistent, Trail, ProcGrows, Collides;
    assert ProcOk(cfg, w, other);
    MoreKeys(cfg, other, w.procs[other], ViewOf(w, other), w'.redis);
    if w.procs[other].hit {
      var x :| Collides(w.procs, other, w.procs[other].count, x);
      CollidesKept(w, w', id, other, w.procs[other].count, x);
    }
  }

  lemma ProcsKept(cfg: Config, w: World, w': World, id: PaymentID)
    requires Inv(cfg, w) && Domains(w') && id in w.procs && Frame(w, w', id) && ProcOk(cfg, w', id)
    ensures forall other :: other in w'.procs ==> ProcOk(cfg, w', other)
  {
    forall other | other in w'.procs ensures ProcOk(cfg, w', other) {
      if other != id {
        OtherKept(cfg, w, w', id, other);
      }
    }
  }

  lemma KeysKept(w: World, w': World, id: PaymentID)
    requires id in w.procs && Frame(w, w', id)
    requires forall key :: key in w.redis ==> KeyOk(w.procs, key)
    requires forall key :: key in w'.redis && key !in w.redis ==> KeyOk(w'.procs, key)
    ensures forall key :: key in w'.redis ==> KeyOk(w'.procs, key)
  {
    forall key | key in w'.redis ensures KeyOk(w'.procs, key) {
      if key in w.redis {
        var a, j :| StoredBy(w.procs, key, a, j);
        assert StoredBy(w'.procs, key, a, j);
      }
    }
  }

  lemma SubmissionsKept(w: World, w': World, id: PaymentID)
    requires id in w.procs && Frame(w, w', id)
    requires forall s :: s in w.ach ==> SubmissionOk(w.procs, w.redis, w.db.audit, s)
    requires forall s :: s in w'.ach && s !in w.ach ==> SubmissionOk(w'.procs, w'.redis, w'.db.audit, s)
    ensures forall s :: s in w'.ach ==> SubmissionOk(w'.procs, w'.redis, w'.db.audit, s)
  {
    forall s | s in w'.ach ensures SubmissionOk(w'.procs, w'.redis, w'.db.audit, s) {
      if s in w.ach {
        assert SubmissionOk(w.procs, w.redis, w.db.audit, s);
      }
    }
  }

  lemma UnstartedKept(w: World, w': World, id: PaymentID)
    requires id in w.procs && Frame(w, w', id) && Domains(w')
    requires forall other :: other in w.db.payments && other !in w.procs ==> Trail(w.db.audit, other) == []
    ensures forall other :: other in w'.db.payments && other !in w'.procs ==> Trail(w'.db.audit, other) == []
  {
    hide Trail;
  }

  /** Enough for a step of `id` to keep the invariant. */
  lemma InvFromFrame(cfg: Config, w: World, w': World, id: PaymentID)
    requires Inv(cfg, w) && id in w.procs && Frame(w, w', id)
    requires Consistent(w'.db)
    requires Domains(w') && ProcOk(cfg, w', id)
    requires forall key :: key in w'.redis && key !in w.redis ==> KeyOk(w'.procs, key)
    requires forall s :: s in w'.ach && s !in w.ach ==> SubmissionOk(w'.procs, w'.redis, w'.db.audit, s)
    ensures Inv(cfg, w')
  {
    hide ProcOk, KeyOk, SubmissionOk, Consistent, Trail, Frame;
    ProcsKept(cfg, w, w', id);
    UnstartedKept(w, w', id);
    KeysKept(w, w', id);
    SubmissionsKept(w, w', id);
  }

  // ---- Steps of one workflow -------------------------------------------------

  /** The stored state and stamp agree with the trail. */
  predicate RowAgrees(state: PaymentState, v: View) {
    state == Replay(v.trail) && (v.settledAt.Some? <==> state == Settled)
  }

  lemma RowAgreesWithLog(db: Database, id: PaymentID)
    requires Consistent(db) && id in db.payments
    ensures db.payments[id].state == Replay(Trail(db.audit, id))
    ensures db.payments[id].settledAt.Some? <==> db.payments[id].state == Settled
  {
    assert RowOk(db.payments[id], RowsOf(db.audit, id));
  }

  function AtCheck(p: Proc, id: PaymentID, clock: nat): Proc {
    Goto(p, Checking).(trace := GenerateTraceNumber(p.count, id, clock), stamps := p.stamps + [clock])
  }

  lemma LoopTopSchedule(cfg: Config, id: PaymentID, p: Proc, v: View)
    requires ScheduleOk(cfg, p, v) && p.point.LoopTop? && v.settledAt.None?
    ensures ScheduleOk(cfg, AtCheck(p, id, v.clock), v)
  {
  }

  lemma LoopTopRecords(cfg: Config, id: PaymentID, p: Proc, v: View)
    requires RecordsOk(cfg, id, p, v) && p.point.LoopTop? && |p.stamps| == p.count
    ensures RecordsOk(cfg, id, AtCheck(p, id, v.clock), v)
  {
  }

  lemma LoopTopLocal(cfg: Config, id: PaymentID, p: Proc, v: View, state: PaymentState)
    requires ScheduleOk(cfg, p, v) && RecordsOk(cfg, id, p, v) && p.point.LoopTop? && RowAgrees(state, v)
    ensures ScheduleOk(cfg, AtCheck(p, id, v.clock), v) && RecordsOk(cfg, id, AtCheck(p, id, v.clock), v)
    ensures ProcGrows(p, AtCheck(p, id, v.clock)) && !p.hit
  {
    hide TimeOk, TimersOk, QueueOk, TraceOk;
    LoopTopSchedule(cfg, id, p, v);
    LoopTopRecords(cfg, id, p, v);
  }

  lemma GiveUpSchedule(cfg: Config, p: Proc, v: View)
    requires ScheduleOk(cfg, p, v)
    ensures ScheduleOk(cfg, p.(point := Errored), v)
  {
  }

  lemma GiveUpRecords(cfg: Config, id: PaymentID, p: Proc, v: View)
    requires WindowsOk(cfg, p) && RecordsOk(cfg, id, p, v) && !p.point.Completed?
    requires p.point.LoopTop? || p.point.Queueing? ==> |p.stamps| == p.count
    ensures RecordsOk(cfg, id, p.(point := Errored), v)
  {
    if !p.point.Errored? {
      BoundWhileRunning(cfg, p, v.trail);
    }
  }

  lemma TryAgainSchedule(cfg: Config, p: Proc, v: View)
    requires ScheduleOk(cfg, p, v)
    ensures ScheduleOk(cfg, p.(attempt := p.attempt + 1), v)
  {
  }

  lemma TryAgainRecords(cfg: Config, id: PaymentID, p: Proc, v: View)
    requires RecordsOk(cfg, id, p, v)
    ensures RecordsOk(cfg, id, p.(attempt := p.attempt + 1), v)
  {
  }

  /** A failed attempt: the only news may be that the workflow gives up. */
  lemma RetrySchedule(cfg: Config, p: Proc, v: View)
    requires ScheduleOk(cfg, p, v)
    ensures ScheduleOk(cfg, Retry(cfg, p), v)
  {
    GiveUpSchedule(cfg, p, v);
    TryAgainSchedule(cfg, p, v);
  }

  lemma RetryRecords(cfg: Config, id: PaymentID, p: Proc, v: View)
    requires WindowsOk(cfg, p) && RecordsOk(cfg, id, p, v) && !p.point.Completed?
    requires p.point.LoopTop? || p.point.Queueing? ==> |p.stamps| == p.count
    ensures RecordsOk(cfg, id, Retry(cfg, p), v)
  {
    GiveUpRecords(cfg, id, p, v);
    TryAgainRecords(cfg, id, p, v);
  }

  lemma BoundWhileRunning(cfg: Config, p: Proc, trail: seq<PaymentState>)
    requires WindowsOk(cfg, p) && TrailOk(cfg, p, trail) && !p.point.Errored? && !p.point.Completed?
    ensures BoundedTrail(cfg.maxRepresentments, trail)
    ensures p.hit ==> trail == Cycle(3 * p.count + 1)
  {
    var n := RowsBefore(p);
    if trail != Cycle(n) {
      var to := Transition(p.point).value.1;
      assert trail == Cycle(n) + [to];
      if p.point.Settling? || p.point.Failing? {
        TerminalStates(to);
      } else {
        CycleStep(n);
      }
    }
  }

  lemma RetryLocal(cfg: Config, id: PaymentID, p: Proc, v: View)
    requires ScheduleOk(cfg, p, v) && RecordsOk(cfg, id, p, v) && !p.point.Completed?
    ensures ScheduleOk(cfg, Retry(cfg, p), v) && RecordsOk(cfg, id, Retry(cfg, p), v)
    ensures ProcGrows(p, Retry(cfg, p))
  {
    hide TimeOk, TimersOk, RecordsOk;
    RetrySchedule(cfg, p, v);
    RetryRecords(cfg, id, p, v);
  }

  lemma GiveUpLocal(cfg: Config, id: PaymentID, p: Proc, v: View)
    requires ScheduleOk(cfg, p, v) && RecordsOk(cfg, id, p, v) && !p.point.Completed?
    ensures ScheduleOk(cfg, p.(point := Errored), v) && RecordsOk(cfg, id, p.(point := Errored), v)
    ensures ProcGrows(p, p.(point := Errored))
  {
    hide TimeOk, TimersOk, RecordsOk;
    GiveUpSchedule(cfg, p, v);
    GiveUpRecords(cfg, id, p, v);
  }

  function Checked(p: Proc, hit: bool): Proc {
    Goto(p, if hit then OpeningWindow else Storing).(hit := hit)
  }

  lemma CheckSchedule(cfg: Config, p: Proc, v: View, hit: bool)
    requires ScheduleOk(cfg, p, v) && p.point.Checking?
    ensures ScheduleOk(cfg, Checked(p, hit), v) && ProcGrows(p, Checked(p, hit))
  {
  }

  lemma CheckRecords(cfg: Config, id: PaymentID, p: Proc, v: View, hit: bool)
    requires RecordsOk(cfg, id, p, v) && p.point.Checking?
    ensures RecordsOk(cfg, id, Checked(p, hit), v)
  {
  }

  lemma StoreLocal(cfg: Config, id: PaymentID, p: Proc, v: View)
    requires ScheduleOk(cfg, p, v) && RecordsOk(cfg, id, p, v) && p.point.Storing? && TraceKey(p.trace) in v.redis
    ensures ScheduleOk(cfg, Goto(p, Submitting), v) && RecordsOk(cfg, id, Goto(p, Submitting), v)
    ensures ProcGrows(p, Goto(p, Submitting))
  {
  }

  lemma SendLocal(cfg: Config, id: PaymentID, p: Proc, v: View)
    requires ScheduleOk(cfg, p, v) && RecordsOk(cfg, id, p, v) && p.point.Sending?
    ensures ScheduleOk(cfg, Goto(p, OpeningWindow), v) && RecordsOk(cfg, id, Goto(p, OpeningWindow), v)
    ensures ProcGrows(p, Goto(p, OpeningWindow))
  {
  }

  lemma RedisGrowsLocal(cfg: Config, id: PaymentID, p: Proc, v: View, redis: Keys)
    requires ScheduleOk(cfg, p, v) && RecordsOk(cfg, id, p, v)
    requires forall key :: key in v.redis ==> key in redis
    ensures ScheduleOk(cfg, p, v.(redis := redis)) && RecordsOk(cfg, id, p, v.(redis := redis))
  {
    hide WindowsOk, StampsOk, TimeOk, TimersOk, TrailOk, QueueOk;
  }

  // ---- Select ----------------------------------------------------------------

  /** A workflow about to select, seen as already blocked on its deadline. */
  function Blocked(p: Proc, deadline: nat): Proc {
    p.(point := Waiting(deadline))
  }

  function Opened(p: Proc, v: View): Proc {
    p.(timerHours := p.timerHours + SETTLEMENT_HOURS, seenAtOpen := |v.delivered|)
  }

  function Received(p: Proc, sig: ReturnSignal): Proc {
    Goto(p, Returning).(sig := sig, windows := p.windows + [Got(sig)])
  }

  function TimedOut(p: Proc): Proc {
    Goto(p, Settling).(windows := p.windows + [Quiet])
  }

  lemma OpenSchedule(cfg: Config, p: Proc, v: View)
    requires ScheduleOk(cfg, p, v) && p.point.OpeningWindow?
    ensures ScheduleOk(cfg, Blocked(Opened(p, v), v.clock + WINDOW_SECONDS), v)
  {
  }

  lemma OpenRecords(cfg: Config, id: PaymentID, p: Proc, v: View)
    requires RecordsOk(cfg, id, p, v) && p.point.OpeningWindow?
    ensures TrailOk(cfg, Blocked(Opened(p, v), v.clock + WINDOW_SECONDS), v.trail)
    ensures TraceOk(Blocked(Opened(p, v), v.clock + WINDOW_SECONDS), id, v.redis)
  {
  }

  lemma ReceiveSchedule(cfg: Config, p: Proc, v: View, sig: ReturnSignal)
    requires ScheduleOk(cfg, p, v) && p.point.Waiting? && v.settledAt.None?
    ensures ScheduleOk(cfg, Received(p, sig), v)
  {
  }

  lemma ReceiveRecords(cfg: Config, id: PaymentID, p: Proc, v: View)
    requires WindowsOk(cfg, p) && TrailOk(cfg, p, v.trail) && TraceOk(p, id, v.redis) && p.point.Waiting?
    requires v.queue != [] && v.delivered == Consumed(p.windows) + v.queue
    ensures RecordsOk(cfg, id, Received(p, v.queue[0]), v.(queue := v.queue[1..]))
  {
    ConsumedAppend(p.windows, Got(v.queue[0]));
  }

  lemma TimeOutSchedule(cfg: Config, p: Proc, v: View)
    requires ScheduleOk(cfg, p, v) && p.point.Waiting? && v.clock >= p.point.deadline && v.settledAt.None?
    ensures ScheduleOk(cfg, TimedOut(p), v)
  {
  }

  lemma TimeOutRecords(cfg: Config, id: PaymentID, p: Proc, v: View)
    requires WindowsOk(cfg, p) && RecordsOk(cfg, id, p, v) && p.point.Waiting?
    ensures RecordsOk(cfg, id, TimedOut(p), v)
  {
    ConsumedAppend(p.windows, Quiet);
  }

  /** A window that opens on an empty queue has seen exactly the signals used up so far. */
  lemma OpenOnEmptyQueue(cfg: Config, p: Proc, v: View)
    requires WindowsOk(cfg, p) && p.point.OpeningWindow?
    requires v.queue == [] && v.delivered == Consumed(p.windows) + v.queue
    ensures |v.delivered| == p.count
  {
    ConsumedAllGot(p.windows);
  }

  /** The proc a select leaves behind. */
  function Selected(p: Proc, v: View, deadline: nat, e: Choice): Proc {
    if v.queue != [] && !(v.clock >= deadline && e.timerFirst) then Received(p, v.queue[0])
    else if v.clock >= deadline then TimedOut(p)
    else Blocked(p, deadline)
  }

  function QueueAfter(v: View, deadline: nat, e: Choice): seq<ReturnSignal> {
    if v.queue != [] && !(v.clock >= deadline && e.timerFirst) then v.queue[1..] else v.queue
  }

  lemma SelectGrows(p: Proc, v: View, deadline: nat, e: Choice)
    requires p.point.OpeningWindow? || p.point.Waiting?
    ensures ProcGrows(p, Selected(p, v, deadline, e))
  {
  }

  lemma WaitLocal(cfg: Config, id: PaymentID, p: Proc, v: View, e: Choice)
    requires ScheduleOk(cfg, p, v) && RecordsOk(cfg, id, p, v) && p.point.Waiting? && v.settledAt.None?
    ensures ScheduleOk(cfg, Selected(p, v, p.point.deadline, e), v.(queue := QueueAfter(v, p.point.deadline, e)))
    ensures RecordsOk(cfg, id, Selected(p, v, p.point.deadline, e), v.(queue := QueueAfter(v, p.point.deadline, e)))
  {
    hide TimeOk, TimersOk, StampsOk, TrailOk, TraceOk;
    var deadline := p.point.deadline;
    if v.queue != [] && !(v.clock >= deadline && e.timerFirst) {
      ReceiveSchedule(cfg, p, v, v.queue[0]);
      ReceiveRecords(cfg, id, p, v);
    } else if v.clock >= deadline {
      TimeOutSchedule(cfg, p, v);
      TimeOutRecords(cfg, id, p, v);
    } else {
      BlockedAgain(cfg, id, p, v);
    }
  }

  lemma BlockedAgain(cfg: Config, id: PaymentID, p: Proc, v: View)
    requires ScheduleOk(cfg, p, v) && RecordsOk(cfg, id, p, v) && p.point.Waiting?
    ensures ScheduleOk(cfg, Blocked(p, p.point.deadline), v) && RecordsOk(cfg, id, Blocked(p, p.point.deadline), v)
  {
  }

  lemma OpenLocal(cfg: Config, id: PaymentID, p: Proc, v: View, e: Choice)
    requires ScheduleOk(cfg, p, v) && RecordsOk(cfg, id, p, v) && p.point.OpeningWindow? && v.settledAt.None?
    ensures ScheduleOk(cfg, Selected(Opened(p, v), v, v.clock + WINDOW_SECONDS, e), v.(queue := QueueAfter(v, v.clock + WINDOW_SECONDS, e)))
    ensures RecordsOk(cfg, id, Selected(Opened(p, v), v, v.clock + WINDOW_SECONDS, e), v.(queue := QueueAfter(v, v.clock + WINDOW_SECONDS, e)))
  {
    var q := Blocked(Opened(p, v), v.clock + WINDOW_SECONDS);
    OpenSchedule(cfg, p, v);
    OpenRecords(cfg, id, p, v);
    hide TimeOk, TimersOk, StampsOk, TrailOk, TraceOk;
    if v.queue != [] {
      ReceiveSchedule(cfg, q, v, v.queue[0]);
      ReceiveRecords(cfg, id, q, v);
    } else {
      OpenOnEmptyQueue(cfg, p, v);
    }
  }

  // ---- Sleeping and waking ---------------------------------------------------

  lemma WakeSchedule(cfg: Config, p: Proc, v: View)
    requires ScheduleOk(cfg, p, v) && p.point.Sleeping? && v.clock >= p.point.until && v.settledAt.None?
    ensures ScheduleOk(cfg, Goto(p, LoopTop).(count := p.count + 1), v)
  {
  }

  lemma WakeRecords(cfg: Config, id: PaymentID, p: Proc, v: View)
    requires ScheduleOk(cfg, p, v) && RecordsOk(cfg, id, p, v) && p.point.Sleeping?
    ensures RecordsOk(cfg, id, Goto(p, LoopTop).(count := p.count + 1), v)
  {
  }

  // ---- Persisting a transition -----------------------------------------------

  function From(p: Proc): PaymentState
    requires Transition(p.point).Some?
  {
    Transition(p.point).value.0
  }

  function To(p: Proc): PaymentState
    requires Transition(p.point).Some?
  {
    Transition(p.point).value.1
  }

  /** The transitions a workflow asks for are edges of the state machine. */
  lemma RequestsAreEdges(cfg: Config, p: Proc)
    requires WindowsOk(cfg, p) && Transition(p.point).Some?
    ensures IsTransitionAllowed(From(p), To(p)) && From(p) != To(p)
  {
  }

  /** Without an idempotency hit the stored state is the one the workflow passes as the
      source, or, when an earlier attempt's acknowledgement was lost, the target. After a
      hit it is PENDING, which neither request of the window accepts. */
  lemma StateAtRequest(cfg: Config, p: Proc, v: View, state: PaymentState)
    requires WindowsOk(cfg, p) && TrailOk(cfg, p, v.trail) && RowAgrees(state, v) && Transition(p.point).Some?
    ensures !p.hit ==> (state == From(p) && v.trail == Cycle(RowsBefore(p)))
                       || (state == To(p) && v.trail == Cycle(RowsBefore(p)) + [To(p)] && p.attempt > 0)
    ensures p.hit ==> state == Pending && !IsTransitionAllowed(state, To(p)) && state != To(p)
  {
    RequestsAreEdges(cfg, p);
  }

  lemma RouteSchedule(cfg: Config, p: Proc, v: View)
    requires ScheduleOk(cfg, p, v) && p.point.Returning? && v.settledAt.None? && !p.hit
    ensures ScheduleOk(cfg, Goto(p, Route(cfg, p)), v)
  {
  }

  lemma RouteRecords(cfg: Config, id: PaymentID, p: Proc, v: View)
    requires WindowsOk(cfg, p) && QueueOk(p, v.queue, v.delivered) && TraceOk(p, id, v.redis)
    requires p.point.Returning? && v.trail == Cycle(3 * p.count + 3)
    ensures RecordsOk(cfg, id, Goto(p, Route(cfg, p)), v)
  {
  }

  /** The trail after the pending request was carried out. */
  predicate CarriedOut(p: Proc, v: View, state: PaymentState) {
    Transition(p.point).Some? && !p.hit && v.trail == Cycle(RowsBefore(p)) + [To(p)] && RowAgrees(state, v)
  }

  lemma AdvanceSchedule(cfg: Config, p: Proc, v: View, state: PaymentState)
    requires ScheduleOk(cfg, p, v) && CarriedOut(p, v, state)
    ensures ScheduleOk(cfg, AfterTransition(cfg, p, v.clock), v)
  {
    if p.point.Returning? {
      RouteSchedule(cfg, p, v);
    } else if p.point.Requeueing? {
      SleepSchedule(cfg, p, v);
    } else {
      StraightSchedule(cfg, p, v, state);
    }
  }

  lemma SleepSchedule(cfg: Config, p: Proc, v: View)
    requires ScheduleOk(cfg, p, v) && p.point.Requeueing? && v.settledAt.None?
    ensures ScheduleOk(cfg, AfterTransition(cfg, p, v.clock), v)
  {
  }

  lemma StraightSchedule(cfg: Config, p: Proc, v: View, state: PaymentState)
    requires ScheduleOk(cfg, p, v) && CarriedOut(p, v, state)
    requires p.point.Queueing? || p.point.Submitting? || p.point.Settling? || p.point.Failing?
    ensures ScheduleOk(cfg, AfterTransition(cfg, p, v.clock), v)
  {
  }

  lemma NextInCycleRecords(cfg: Config, id: PaymentID, p: Proc, v: View)
    requires WindowsOk(cfg, p) && QueueOk(p, v.queue, v.delivered) && TraceOk(p, id, v.redis)
    requires p.point.Queueing? || p.point.Submitting? || p.point.Requeueing?
    requires v.trail == Cycle(RowsBefore(p) + 1) && (p.point.Queueing? ==> |p.stamps| == p.count)
    ensures RecordsOk(cfg, id, AfterTransition(cfg, p, v.clock), v)
  {
  }

  lemma AdvanceRecords(cfg: Config, id: PaymentID, p: Proc, v: View, state: PaymentState)
    requires WindowsOk(cfg, p) && QueueOk(p, v.queue, v.delivered) && TraceOk(p, id, v.redis)
    requires CarriedOut(p, v, state) && (p.point.Queueing? ==> |p.stamps| == p.count)
    ensures RecordsOk(cfg, id, AfterTransition(cfg, p, v.clock), v)
  {
    hide WindowsOk, QueueOk, TraceOk, Route, RetryDelayFor;
    if p.point.Settling? || p.point.Failing? {
      CompletedRecords(cfg, p, v);
      LastRecords(p, v, id);
    } else {
      CycleStep(RowsBefore(p));
      if p.point.Returning? {
        RouteRecords(cfg, id, p, v);
      } else {
        NextInCycleRecords(cfg, id, p, v);
      }
    }
  }

  lemma LastRecords(p: Proc, v: View, id: PaymentID)
    requires QueueOk(p, v.queue, v.delivered) && TraceOk(p, id, v.redis)
    requires !p.point.Queueing?
    ensures QueueOk(Goto(p, Completed), v.queue, v.delivered) && TraceOk(Goto(p, Completed), id, v.redis)
  {
  }

  lemma CompletedRecords(cfg: Config, p: Proc, v: View)
    requires WindowsOk(cfg, p) && (p.point.Settling? || p.point.Failing?) && !p.hit
    requires v.trail == Cycle(RowsBefore(p)) + [To(p)]
    ensures TrailOk(cfg, Goto(p, Completed), v.trail)
  {
    hide RetryableReturn, IsTerminalState;
    TerminalStates(To(p));
    VerdictAfterRetries(cfg.maxRepresentments, p.windows, p.count);
    assert p.windows[p.count..] == [p.windows[p.count]];
  }

  /** A commit whose report may be lost: the workflow may have to ask again. */
  lemma CarriedOutRecords(cfg: Config, id: PaymentID, p: Proc, v: View, state: PaymentState)
    requires QueueOk(p, v.queue, v.delivered) && TraceOk(p, id, v.redis)
    requires CarriedOut(p, v, state)
    ensures RecordsOk(cfg, id, p.(attempt := p.attempt + 1), v)
  {
  }

  lemma CarriedOutSchedule(cfg: Config, p: Proc, v: View, v': View)
    requires ScheduleOk(cfg, p, v)
    requires v' == v.(trail := v'.trail, settledAt := v'.settledAt)
    requires v'.settledAt == v.settledAt || (p.point.Settling? && v'.settledAt == Some(v.clock))
    ensures ScheduleOk(cfg, p, v')
  {
  }

  // ---- Steps of the world ----------------------------------------------------

  /** A step that leaves the database alone keeps the invariant if it keeps the local one. */
  lemma InvFromLocal(cfg: Config, w: World, w': World, id: PaymentID)
    requires Inv(cfg, w) && id in w.procs && id in w'.procs
    requires w'.clock == w.clock && w'.db == w.db && w'.delivered == w.delivered
    requires w'.procs == w.procs[id := w'.procs[id]] && id in w'.queues && w'.queues == w.queues[id := w'.queues[id]]
    requires forall key :: key in w.redis ==> key in w'.redis
    requires ProcGrows(w.procs[id], w'.procs[id])
    requires LocalOk(cfg, id, w'.procs[id], ViewOf(w', id)) && HitExplained(w'.procs, id)
    requires forall key :: key in w'.redis && key !in w.redis ==> KeyOk(w'.procs, key)
    requires forall s :: s in w'.ach && s !in w.ach ==> SubmissionOk(w'.procs, w'.redis, w'.db.audit, s)
    ensures Inv(cfg, w')
  {
    hide LocalOk, HitExplained, KeyOk, SubmissionOk, Consistent, Trail;
    InvFromFrame(cfg, w, w', id);
  }

  /** What the invariant says of one workflow. */
  lemma LocalFacts(cfg: Config, w: World, id: PaymentID)
    requires Inv(cfg, w) && id in w.procs
    ensures Known(w, id)
    ensures ScheduleOk(cfg, w.procs[id], ViewOf(w, id))
    ensures RecordsOk(cfg, id, w.procs[id], ViewOf(w, id))
    ensures HitExplained(w.procs, id)
    ensures RowAgrees(w.db.payments[id].state, ViewOf(w, id))
  {
    hide ScheduleOk, RecordsOk, KeyOk, SubmissionOk, RowOk, Trail;
    assert ProcOk(cfg, w, id);
    RowAgreesWithLog(w.db, id);
  }

  lemma HitStaysExplained(procs: map<PaymentID, Proc>, id: PaymentID, p': Proc)
    requires id in procs && procs[id].stamps <= p'.stamps
    requires p'.hit ==> exists other :: Collides(procs, id, p'.count, other)
    ensures HitExplained(procs[id := p'], id)
  {
    if p'.hit {
      var other :| Collides(procs, id, p'.count, other);
      assert Collides(procs[id := p'], id, p'.count, other);
    }
  }

  /** A step that only changes the control state of `id`. */
  lemma SetProcKeeps(cfg: Config, w: World, id: PaymentID, p': Proc)
    requires Inv(cfg, w) && id in w.procs && Known(w, id)
    requires ProcGrows(w.procs[id], p')
    requires ScheduleOk(cfg, p', ViewOf(w, id)) && RecordsOk(cfg, id, p', ViewOf(w, id))
    requires p'.hit ==> exists other :: Collides(w.procs, id, p'.count, other)
    ensures Inv(cfg, SetProc(w, id, p'))
  {
    hide ScheduleOk, RecordsOk, KeyOk, SubmissionOk, Consistent, Trail, ProcGrows;
    HitStaysExplained(w.procs, id, p') by { assert w.procs[id].stamps <= p'.stamps by { GrowsStamps(w.procs[id], p'); } }
    InvFromLocal(cfg, w, SetProc(w, id, p'), id);
  }

  lemma GrowsStamps(p: Proc, p': Proc)
    requires ProcGrows(p, p')
    ensures p.stamps <= p'.stamps
  {
  }

  lemma LoopTopKeeps(cfg: Config, w: World, id: PaymentID)
    requires Inv(cfg, w) && id in w.procs && w.procs[id].point.LoopTop?
    ensures Inv(cfg, StepLoopTop(w, id))
  {
    hide ScheduleOk, RecordsOk, Inv, ProcGrows, HitExplained, RowAgrees;
    LocalFacts(cfg, w, id);
    var p, v := w.procs[id], ViewOf(w, id);
    LoopTopLocal(cfg, id, p, v, w.db.payments[id].state);
    SetProcKeeps(cfg, w, id, AtCheck(p, id, w.clock));
  }

  lemma RetryKeeps(cfg: Config, w: World, id: PaymentID)
    requires Inv(cfg, w) && Running(w, id)
    ensures Inv(cfg, SetProc(w, id, Retry(cfg, w.procs[id])))
    ensures Inv(cfg, SetProc(w, id, w.procs[id].(point := Errored)))
  {
    hide ScheduleOk, RecordsOk, Inv, ProcGrows, RowAgrees;
    LocalFacts(cfg, w, id);
    var p, v := w.procs[id], ViewOf(w, id);
    RetryLocal(cfg, id, p, v);
    GiveUpLocal(cfg, id, p, v);
    SetProcKeeps(cfg, w, id, Retry(cfg, p));
    SetProcKeeps(cfg, w, id, p.(point := Errored));
  }

  /** A key that is already there when it is checked was put there by another payment with
      the same prefix, at the same attempt number, in the same second. */
  lemma HitMeansCollision(cfg: Config, w: World, id: PaymentID)
    requires Inv(cfg, w) && id in w.procs && w.procs[id].point.Checking?
    requires TraceKey(w.procs[id].trace) in w.redis
    ensures exists other :: Collides(w.procs, id, w.procs[id].count, other)
  {
    hide *;
    var p := w.procs[id];
    CheckedTrace(cfg, w, id);
    var other: PaymentID, j: nat :| StoredBy(w.procs, TraceKey(p.trace), other, j);
    StoredTrace(w.procs, p.trace, other, j);
    TraceInjective(p.count, id, p.stamps[p.count], j, other, w.procs[other].stamps[j]);
    StoresAtCheck(w.procs, id, p.trace, other, j);
  }

  lemma CheckedTrace(cfg: Config, w: World, id: PaymentID)
    requires Inv(cfg, w) && id in w.procs && w.procs[id].point.Checking?
    requires TraceKey(w.procs[id].trace) in w.redis
    ensures var p := w.procs[id];
            && |p.stamps| == p.count + 1 && !p.hit
            && p.trace == GenerateTraceNumber(p.count, id, p.stamps[p.count])
    ensures exists other, j :: StoredBy(w.procs, TraceKey(w.procs[id].trace), other, j)
  {
    hide TrailOk, TimeOk, TimersOk, QueueOk, Consistent, SubmissionOk, GenerateTraceNumber, TraceKey, Collides;
    LocalFacts(cfg, w, id);
    assert KeyOk(w.procs, TraceKey(w.procs[id].trace));
  }

  lemma StoredTrace(procs: map<PaymentID, Proc>, trace: string, other: PaymentID, j: nat)
    requires StoredBy(procs, TraceKey(trace), other, j)
    ensures other in procs && j < |procs[other].stamps| && j < Stores(procs[other])
    ensures trace == GenerateTraceNumber(j, other, procs[other].stamps[j])
  {
    TraceKeyInjective(trace, GenerateTraceNumber(j, other, procs[other].stamps[j]));
  }

  lemma StoresAtCheck(procs: map<PaymentID, Proc>, id: PaymentID, trace: string, other: PaymentID, j: nat)
    requires id in procs && procs[id].point.Checking? && procs[id].count < |procs[id].stamps|
    requires other in procs && j < |procs[other].stamps| && j < Stores(procs[other])
    requires Prefix(id) == Prefix(other) && j == procs[id].count && procs[other].stamps[j] == procs[id].stamps[j]
    ensures Collides(procs, id, procs[id].count, other)
  {
  }

  lemma CheckKeeps(cfg: Config, w: World, id: PaymentID, e: Choice)
    requires Inv(cfg, w) && id in w.procs && w.procs[id].point.Checking?
    ensures Inv(cfg, StepCheck(cfg, w, id, e))
  {
    hide ScheduleOk, RecordsOk, Inv, ProcGrows, RowAgrees, TraceKey;
    LocalFacts(cfg, w, id);
    var p, v := w.procs[id], ViewOf(w, id);
    if e.attempt != Report {
      RetryKeeps(cfg, w, id);
    } else {
      var hit := Exists(w.redis, TraceKey(p.trace), w.clock);
      if hit {
        HitMeansCollision(cfg, w, id);
      }
      CheckSchedule(cfg, p, v, hit);
      CheckRecords(cfg, id, p, v, hit);
      SetProcKeeps(cfg, w, id, Checked(p, hit));
    }
  }

  lemma StoreEffectKeeps(cfg: Config, w: World, id: PaymentID, e: Choice)
    requires Inv(cfg, w) && id in w.procs && w.procs[id].point.Storing?
    requires e.attempt != FailBefore
    ensures Inv(cfg, StepStore(cfg, w, id, e))
  {
    hide ScheduleOk, RecordsOk, ProcGrows, RowAgrees, TraceKey, Trail, KeyOk, SubmissionOk, Consistent, StoreTraceNumber;
    LocalFacts(cfg, w, id);
    var p, v, redis' := w.procs[id], ViewOf(w, id), StoreTraceNumber(w.redis, w.procs[id].trace, w.clock);
    var p' := if e.attempt == Report then Goto(p, Submitting) else Retry(cfg, p);
    StoredKeys(w.redis, p.trace, w.clock);
    RedisGrowsLocal(cfg, id, p, v, redis');
    if e.attempt == Report {
      StoreLocal(cfg, id, p, v.(redis := redis'));
    } else {
      RetryLocal(cfg, id, p, v.(redis := redis'));
    }
    StoredByMe(cfg, w.procs, id, p', v);
    NotHit(cfg, w.procs, id, p', v);
    InvFromLocal(cfg, w, StepStore(cfg, w, id, e), id);
  }

  lemma StoreKeeps(cfg: Config, w: World, id: PaymentID, e: Choice)
    requires Inv(cfg, w) && id in w.procs && w.procs[id].point.Storing?
    ensures Inv(cfg, StepStore(cfg, w, id, e))
  {
    hide Inv;
    if e.attempt == FailBefore {
      RetryKeeps(cfg, w, id);
    } else {
      StoreEffectKeeps(cfg, w, id, e);
    }
  }

  lemma StoredKeys(redis: Keys, trace: string, now: nat)
    ensures forall key :: key in redis ==> key in StoreTraceNumber(redis, trace, now)
    ensures forall key :: key in StoreTraceNumber(redis, trace, now) ==> key in redis || key == TraceKey(trace)
    ensures TraceKey(trace) in StoreTraceNumber(redis, trace, now)
  {
  }

  lemma StoredByMe(cfg: Config, procs: map<PaymentID, Proc>, id: PaymentID, p': Proc, v: View)
    requires id in procs && procs[id].point.Storing?
    requires ScheduleOk(cfg, procs[id], v) && RecordsOk(cfg, id, procs[id], v)
    requires p' == Goto(procs[id], Submitting) || p' == Retry(cfg, procs[id])
    ensures KeyOk(procs[id := p'], TraceKey(procs[id].trace))
  {
    assert StoredBy(procs[id := p'], TraceKey(procs[id].trace), id, procs[id].count);
  }

  lemma NotHit(cfg: Config, procs: map<PaymentID, Proc>, id: PaymentID, p': Proc, v: View)
    requires id in procs && (procs[id].point.Storing? || procs[id].point.Sending?)
    requires ScheduleOk(cfg, procs[id], v)
    requires p'.hit == procs[id].hit
    ensures !p'.hit && HitExplained(procs[id := p'], id)
  {
  }

  lemma SendEffectKeeps(cfg: Config, w: World, id: PaymentID, e: Choice)
    requires Inv(cfg, w) && id in w.procs && w.procs[id].point.Sending?
    requires e.attempt != FailBefore
    ensures Inv(cfg, StepSend(cfg, w, id, e))
  {
    hide ScheduleOk, RecordsOk, ProcGrows, RowAgrees, TraceKey, Trail, KeyOk, SubmissionOk, Consistent;
    LocalFacts(cfg, w, id);
    var p, v := w.procs[id], ViewOf(w, id);
    var p' := if e.attempt == Report then Goto(p, OpeningWindow) else Retry(cfg, p);
    if e.attempt == Report {
      SendLocal(cfg, id, p, v);
    } else {
      RetryLocal(cfg, id, p, v);
    }
    SentByMe(cfg, w, id, p');
    NotHit(cfg, w.procs, id, p', v);
    InvFromLocal(cfg, w, StepSend(cfg, w, id, e), id);
  }

  lemma SendKeeps(cfg: Config, w: World, id: PaymentID, e: Choice)
    requires Inv(cfg, w) && id in w.procs && w.procs[id].point.Sending?
    ensures Inv(cfg, StepSend(cfg, w, id, e))
  {
    hide Inv;
    if e.attempt == FailBefore {
      RetryKeeps(cfg, w, id);
    } else {
      SendEffectKeeps(cfg, w, id, e);
    }
  }

  lemma SentByMe(cfg: Config, w: World, id: PaymentID, p': Proc)
    requires Known(w, id) && w.procs[id].point.Sending?
    requires ScheduleOk(cfg, w.procs[id], ViewOf(w, id)) && RecordsOk(cfg, id, w.procs[id], ViewOf(w, id))
    requires p' == Goto(w.procs[id], OpeningWindow) || p' == Retry(cfg, w.procs[id])
    ensures SubmissionOk(w.procs[id := p'], w.redis, w.db.audit, Submission(id, w.procs[id].count, w.procs[id].trace))
  {
    hide TimeOk, TimersOk, QueueOk;
  }

  lemma NotSettledBefore(cfg: Config, p: Proc, v: View, state: PaymentState)
    requires RowAgrees(state, v) && TrailOk(cfg, p, v.trail)
    requires Transition(p.point).None? && !p.point.Completed? && !p.point.Errored?
    ensures v.settledAt.None?
  {
  }

  lemma OpenWindowKeeps(cfg: Config, w: World, id: PaymentID, e: Choice)
    requires Inv(cfg, w) && id in w.procs && w.procs[id].point.OpeningWindow?
    ensures Inv(cfg, StepOpenWindow(w, id, e))
  {
    hide Inv, ScheduleOk, ProcGrows, RowAgrees, Trail, KeyOk, SubmissionOk, Consistent, TrailOk, QueueOk, TraceOk;
    LocalFacts(cfg, w, id);
    var p, v := w.procs[id], ViewOf(w, id);
    NotSettledBefore(cfg, p, v, w.db.payments[id].state);
    OpenLocal(cfg, id, p, v, e);
    SelectGrows(p, v, v.clock + WINDOW_SECONDS, e);
    SelectGrows(Opened(p, v), v, v.clock + WINDOW_SECONDS, e);
    SelectHit(w, id, p, Selected(Opened(p, v), v, v.clock + WINDOW_SECONDS, e));
    OpenedGrows(p, Opened(p, v), Selected(Opened(p, v), v, v.clock + WINDOW_SECONDS, e));
    InvFromLocal(cfg, w, StepOpenWindow(w, id, e), id);
  }

  lemma OpenedGrows(p: Proc, q: Proc, p': Proc)
    requires ProcGrows(q, p')
    requires q.stamps == p.stamps && q.count == p.count && q.hit == p.hit && q.point == p.point
    ensures ProcGrows(p, p')
  {
  }

  lemma SelectHit(w: World, id: PaymentID, p: Proc, p': Proc)
    requires id in w.procs && w.procs[id] == p && HitExplained(w.procs, id)
    requires p'.hit == p.hit && p'.count == p.count && p.stamps <= p'.stamps
    ensures HitExplained(w.procs[id := p'], id)
  {
    HitStaysExplained(w.procs, id, p');
  }

  lemma SelectKeeps(cfg: Config, w: World, id: PaymentID, e: Choice)
    requires Inv(cfg, w) && id in w.procs && w.procs[id].point.Waiting?
    requires !e.cancel
    ensures Inv(cfg, StepWait(w, id, e))
  {
    hide Inv, ScheduleOk, ProcGrows, RowAgrees, Trail, KeyOk, SubmissionOk, Consistent, TrailOk, QueueOk, TraceOk;
    LocalFacts(cfg, w, id);
    var p, v := w.procs[id], ViewOf(w, id);
    NotSettledBefore(cfg, p, v, w.db.payments[id].state);
    WaitLocal(cfg, id, p, v, e);
    SelectGrows(p, v, p.point.deadline, e);
    SelectHit(w, id, p, Selected(p, v, p.point.deadline, e));
    InvFromLocal(cfg, w, StepWait(w, id, e), id);
  }

  lemma WaitKeeps(cfg: Config, w: World, id: PaymentID, e: Choice)
    requires Inv(cfg, w) && id in w.procs && w.procs[id].point.Waiting?
    ensures Inv(cfg, StepWait(w, id, e))
  {
    hide Inv;
    if e.cancel {
      RetryKeeps(cfg, w, id);
    } else {
      SelectKeeps(cfg, w, id, e);
    }
  }

  lemma WakeGrows(cfg: Config, p: Proc, v: View)
    requires ScheduleOk(cfg, p, v) && p.point.Sleeping?
    ensures ProcGrows(p, Goto(p, LoopTop).(count := p.count + 1)) && !p.hit
  {
  }

  lemma WakeKeeps(cfg: Config, w: World, id: PaymentID, e: Choice)
    requires Inv(cfg, w) && id in w.procs && w.procs[id].point.Sleeping?
    requires !e.cancel && w.clock >= w.procs[id].point.until
    ensures Inv(cfg, StepSleep(w, id, e))
  {
    hide ScheduleOk, Inv, ProcGrows, RowAgrees, TrailOk, QueueOk, TraceOk;
    LocalFacts(cfg, w, id);
    var p, v := w.procs[id], ViewOf(w, id);
    NotSettledBefore(cfg, p, v, w.db.payments[id].state);
    WakeSchedule(cfg, p, v);
    WakeRecords(cfg, id, p, v);
    WakeGrows(cfg, p, v);
    SetProcKeeps(cfg, w, id, Goto(p, LoopTop).(count := p.count + 1));
  }

  lemma SleepKeeps(cfg: Config, w: World, id: PaymentID, e: Choice)
    requires Inv(cfg, w) && id in w.procs && w.procs[id].point.Sleeping?
    ensures Inv(cfg, StepSleep(w, id, e))
  {
    hide Inv;
    if e.cancel {
      RetryKeeps(cfg, w, id);
    } else if w.clock >= w.procs[id].point.until {
      WakeKeeps(cfg, w, id, e);
    }
  }

  /** The view after a commit of the pending request. */
  lemma CommitView(w: World, db': Database, id: PaymentID, to: PaymentState)
    requires Known(w, id) && Consistent(w.db)
    requires IsTransitionAllowed(w.db.payments[id].state, to)
    requires db' == Commit(w.db, id, w.db.payments[id].state, to, "", w.clock)
    ensures Consistent(db') && Known(w.(db := db'), id)
    ensures var v, v' := ViewOf(w, id), ViewOf(w.(db := db'), id);
            && v' == v.(trail := v.trail + [to], settledAt := v'.settledAt)
            && v'.settledAt == (if to == Settled then Some(w.clock) else v.settledAt)
            && RowAgrees(db'.payments[id].state, v') && db'.payments[id].state == to
  {
    UpdateKeepsConsistent(w.db, id, to, "", w.clock, Report);
    RowsOfAppend(w.db.audit, AuditEntry(id, w.db.payments[id].state, to, "", w.clock), id);
    RowAgreesWithLog(db', id);
  }

  /** A step that changes the database only by a commit for `id`. */
  lemma CommitFrame(w: World, db': Database, id: PaymentID, to: PaymentState, p': Proc)
    requires Known(w, id) && Domains(w)
    requires db' == Commit(w.db, id, w.db.payments[id].state, to, "", w.clock)
    requires ProcGrows(w.procs[id], p')
    ensures Frame(w, SetProc(w.(db := db'), id, p'), id) && Domains(SetProc(w.(db := db'), id, p'))
  {
    hide ProcGrows, IsTransitionAllowed, Consistent;
    var from := w.db.payments[id].state;
    forall other | other != id ensures Trail(db'.audit, other) == Trail(w.db.audit, other) {
      CommitKeepsOthers(w.db, id, from, to, "", w.clock, other);
    }
    RowsOfAppend(w.db.audit, AuditEntry(id, from, to, "", w.clock), id);
  }

  lemma CommitKeeps(cfg: Config, w: World, id: PaymentID, db': Database, to: PaymentState, p': Proc)
    requires Inv(cfg, w) && Known(w, id)
    requires IsTransitionAllowed(w.db.payments[id].state, to)
    requires db' == Commit(w.db, id, w.db.payments[id].state, to, "", w.clock)
    requires ProcGrows(w.procs[id], p') && !p'.hit
    requires Known(w.(db := db'), id)
    requires ScheduleOk(cfg, p', ViewOf(w.(db := db'), id)) && RecordsOk(cfg, id, p', ViewOf(w.(db := db'), id))
    ensures Inv(cfg, SetProc(w.(db := db'), id, p'))
  {
    hide Inv, Consistent, ScheduleOk, RecordsOk, ProcGrows, IsTransitionAllowed, Frame, KeyOk, SubmissionOk, Trail, Commit;
    InvConsistent(cfg, w);
    InvDomains(cfg, w);
    CommitFrame(w, db', id, to, p');
    CommitView(w, db', id, to);
    InvFromFrame(cfg, w, SetProc(w.(db := db'), id, p'), id);
  }

  /** The three ways an attempt at a transition can go. */
  lemma PersistOutcome(cfg: Config, w: World, id: PaymentID, e: Choice)
    requires Inv(cfg, w) && id in w.procs && Transition(w.procs[id].point).Some?
    ensures Known(w, id)
    ensures var p, v, state := w.procs[id], ViewOf(w, id), w.db.payments[id].state;
            var (db', ok) := PersistAttempt(w.db, id, To(p), "", w.clock, e.attempt);
            || (db' == w.db && !ok)
            || (db' == w.db && ok && CarriedOut(p, v, state))
            || (!p.hit && state == From(p) && v.trail == Cycle(RowsBefore(p)) && IsTransitionAllowed(state, To(p))
                && db' == Commit(w.db, id, state, To(p), "", w.clock) && ok == (e.attempt == Report))
  {
    hide Inv, Commit, RowAgrees, TimeOk, TimersOk, StampsOk, QueueOk, TraceOk, IsTransitionAllowed, HitExplained;
    LocalFacts(cfg, w, id);
    var p := w.procs[id];
    hide WindowsOk, TrailOk;
    StateAtRequest(cfg, p, ViewOf(w, id), w.db.payments[id].state);
    RequestsAreEdges(cfg, p);
  }

  lemma AdvanceGrows(cfg: Config, p: Proc, v: View)
    requires WindowsOk(cfg, p) && Transition(p.point).Some?
    ensures ProcGrows(p, AfterTransition(cfg, p, v.clock)) && AfterTransition(cfg, p, v.clock).hit == p.hit
    ensures AfterTransition(cfg, p, v.clock).count == p.count
  {
  }

  lemma ScheduleParts(cfg: Config, p: Proc, v: View)
    requires ScheduleOk(cfg, p, v)
    ensures WindowsOk(cfg, p) && (p.point.Queueing? ==> |p.stamps| == p.count)
  {
  }

  lemma RecordsParts(cfg: Config, id: PaymentID, p: Proc, v: View)
    requires RecordsOk(cfg, id, p, v)
    ensures TrailOk(cfg, p, v.trail) && QueueOk(p, v.queue, v.delivered) && TraceOk(p, id, v.redis)
  {
  }

  /** The report of an attempt that found the work already done. */
  lemma AlreadyThereKeeps(cfg: Config, w: World, id: PaymentID)
    requires Inv(cfg, w) && Known(w, id)
    requires CarriedOut(w.procs[id], ViewOf(w, id), w.db.payments[id].state)
    ensures Inv(cfg, SetProc(w, id, AfterTransition(cfg, w.procs[id], w.clock)))
  {
    hide Inv, ScheduleOk, RecordsOk, ProcGrows, TrailOk, QueueOk, TraceOk, WindowsOk, HitExplained, AfterTransition;
    LocalFacts(cfg, w, id);
    var p, v := w.procs[id], ViewOf(w, id);
    ScheduleParts(cfg, p, v);
    RecordsParts(cfg, id, p, v);
    AdvanceSchedule(cfg, p, v, w.db.payments[id].state);
    AdvanceRecords(cfg, id, p, v, w.db.payments[id].state);
    AdvanceGrows(cfg, p, v);
    SetProcKeeps(cfg, w, id, AfterTransition(cfg, p, w.clock));
  }

  /** An attempt that commits, whether or not its report arrives. */
  lemma InvDomains(cfg: Config, w: World)
    requires Inv(cfg, w)
    ensures Domains(w)
  {
    hide Consistent, Domains;
  }

  lemma InvConsistent(cfg: Config, w: World)
    requires Inv(cfg, w)
    ensures Consistent(w.db)
  {
    hide Consistent;
  }

  lemma OnlySettlingSettles(cfg: Config, p: Proc, v: View)
    requires ScheduleOk(cfg, p, v) && Transition(p.point).Some?
    ensures To(p) == Settled <==> p.point.Settling?
  {
    hide StampsOk, TimeOk, TimersOk, Verdict;
  }

  lemma CommittedKeeps(cfg: Config, w: World, id: PaymentID, db': Database, ok: bool)
    requires Inv(cfg, w) && Known(w, id) && Transition(w.procs[id].point).Some?
    requires !w.procs[id].hit && w.db.payments[id].state == From(w.procs[id])
    requires ViewOf(w, id).trail == Cycle(RowsBefore(w.procs[id]))
    requires IsTransitionAllowed(From(w.procs[id]), To(w.procs[id]))
    requires db' == Commit(w.db, id, From(w.procs[id]), To(w.procs[id]), "", w.clock)
    ensures Inv(cfg, SetProc(w.(db := db'), id, if ok then AfterTransition(cfg, w.procs[id], w.clock) else Retry(cfg, w.procs[id])))
  {
    hide Inv, ScheduleOk, RecordsOk, ProcGrows, TrailOk, QueueOk, TraceOk, WindowsOk, HitExplained, AfterTransition,
         Commit, IsTransitionAllowed, KeyOk, SubmissionOk, Consistent;
    LocalFacts(cfg, w, id);
    InvConsistent(cfg, w);
    var p, v := w.procs[id], ViewOf(w, id);
    ScheduleParts(cfg, p, v);
    RecordsParts(cfg, id, p, v);
    OnlySettlingSettles(cfg, p, v);
    CommitView(w, db', id, To(p));
    var v', state' := ViewOf(w.(db := db'), id), db'.payments[id].state;
    CarriedOutSchedule(cfg, p, v, v');
    CarriedOutRecords(cfg, id, p, v', state');
    AdvanceSchedule(cfg, p, v', state');
    AdvanceRecords(cfg, id, p, v', state');
    AdvanceGrows(cfg, p, v);
    RetryAfterCommit(cfg, id, p, v');
    CommitKeeps(cfg, w, id, db', To(p), if ok then AfterTransition(cfg, p, w.clock) else Retry(cfg, p));
  }

  lemma RetryAfterCommit(cfg: Config, id: PaymentID, p: Proc, v: View)
    requires Transition(p.point).Some? && ScheduleOk(cfg, p, v) && RecordsOk(cfg, id, p.(attempt := p.attempt + 1), v)
    ensures ScheduleOk(cfg, Retry(cfg, p), v) && RecordsOk(cfg, id, Retry(cfg, p), v)
    ensures ProcGrows(p, Retry(cfg, p)) && Retry(cfg, p).hit == p.hit
  {
    hide TimeOk, TimersOk, TrailOk, QueueOk, TraceOk;
    var q := p.(attempt := p.attempt + 1);
    RetrySchedule(cfg, p, v);
    GiveUpRecords(cfg, id, q, v);
    ForgetAttempt(cfg, id, q, p, v);
  }

  lemma ForgetAttempt(cfg: Config, id: PaymentID, q: Proc, p: Proc, v: View)
    requires RecordsOk(cfg, id, q.(point := Errored), v) && q == p.(attempt := q.attempt)
    ensures RecordsOk(cfg, id, p.(point := Errored), v)
  {
  }

  lemma TransitionKeeps(cfg: Config, w: World, id: PaymentID, e: Choice)
    requires Inv(cfg, w) && id in w.procs && Transition(w.procs[id].point).Some?
    ensures Inv(cfg, StepTransition(cfg, w, id, e))
  {
    hide Inv, CarriedOut, Commit, IsTransitionAllowed, AfterTransition, Retry, PersistAttempt;
    PersistOutcome(cfg, w, id, e);
    var p, v := w.procs[id], ViewOf(w, id);
    var (db', ok) := PersistAttempt(w.db, id, To(p), "", w.clock, e.attempt);
    if db' == w.db && !ok {
      RetryKeeps(cfg, w, id);
    } else if db' == w.db && CarriedOut(p, v, w.db.payments[id].state) {
      AlreadyThereKeeps(cfg, w, id);
    } else {
      CommittedKeeps(cfg, w, id, db', ok);
    }
  }
}
