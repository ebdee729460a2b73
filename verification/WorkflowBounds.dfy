/** The fate of a payment from its windows, and bounds on rows, traces, timers and steps. */
module WorkflowBounds {
  import opened Wrappers
  import opened Rules
  import opened RCodes
  import opened TraceNumbers
  import opened Store
  import opened Redis
  import opened Workflow
  import opened WorkflowInvariant
  import opened WorkflowProof
  import opened WorkflowRuns
  import opened WorkflowTheorems
  import opened WorkflowSteps

  // ---- Verdicts --------------------------------------------------------------

  /** The first k windows all brought retryable returns. */
  predicate Retried(windows: seq<Window>, k: nat) {
    k <= |windows| && forall i :: 0 <= i < k ==> RetryableReturn(windows[i])
  }

  /** The state a window leads to when it ends the run: None if it is retried. */
  function Closing(w: Window): Option<PaymentState> {
    match w
    case Quiet => Some(Settled)
    case Got(sig) =>
      match Category(sig.rCode)
      case NonRetryable => Some(FailedNonRetryable)
      case ComplianceReview => Some(ComplianceEscalation)
      case Retryable => None
  }

  /** Every outcome, from the windows alone: a settlement, a plain failure or an escalation
      needs at most `limit` retried returns before the deciding window, and exhaustion is
      exactly one retryable return more than the limit. */
  lemma {:induction false} VerdictCharacterized(limit: nat, windows: seq<Window>, state: PaymentState)
    ensures Verdict(limit, windows) == Some(FailedRetryableExhausted) <==> Retried(windows, limit + 1)
    ensures state != FailedRetryableExhausted ==>
              (Verdict(limit, windows) == Some(state) <==>
               exists k :: 0 <= k <= limit && k < |windows| && Retried(windows, k) && Closing(windows[k]) == Some(state))
  {
    ExhaustedIff(limit, windows);
    if Verdict(limit, windows) == Some(state) && state != FailedRetryableExhausted {
      var k := DecidingWindow(limit, windows);
      assert Retried(windows, k) && Closing(windows[k]) == Some(state);
    }
    if k :| 0 <= k <= limit && k < |windows| && Retried(windows, k) && Closing(windows[k]) == Some(state) {
      VerdictAfterRetries(limit, windows, k);
      assert windows[k..][0] == windows[k];
    }
  }

  lemma {:induction false} ExhaustedIff(limit: nat, windows: seq<Window>)
    ensures Verdict(limit, windows) == Some(FailedRetryableExhausted) <==> Retried(windows, limit + 1)
  {
    if Retried(windows, limit + 1) {
      VerdictAfterRetries(limit, windows, limit);
      assert windows[limit..][0] == windows[limit];
    } else if Verdict(limit, windows).Some? {
      var k := DecidingWindow(limit, windows);
    }
  }

  /** The position of the window that decides. */
  lemma {:induction false} DecidingWindow(limit: nat, windows: seq<Window>) returns (k: nat)
    requires Verdict(limit, windows).Some?
    ensures k <= limit && k < |windows| && Retried(windows, k)
    ensures Verdict(limit, windows) == (if Closing(windows[k]).Some? then Closing(windows[k]) else Some(FailedRetryableExhausted))
    ensures Closing(windows[k]).None? ==> k == limit
  {
    if RetryableReturn(windows[0]) && limit > 0 {
      var j := DecidingWindow(limit - 1, windows[1..]);
      k := j + 1;
      assert forall i :: 0 < i < k ==> windows[i] == windows[1..][i - 1];
    } else {
      k := 0;
    }
  }

  lemma FinalWindow(cfg: Config, p: Proc, state: PaymentState)
    requires WindowsOk(cfg, p) && p.point.Completed?
    requires Verdict(cfg.maxRepresentments, p.windows) == Some(state)
    ensures Retried(p.windows, p.count)
    ensures state == FailedRetryableExhausted <==> p.count == cfg.maxRepresentments && RetryableReturn(p.windows[p.count])
    ensures state != FailedRetryableExhausted ==> Closing(p.windows[p.count]) == Some(state)
  {
    VerdictAfterRetries(cfg.maxRepresentments, p.windows, p.count);
    assert p.windows[p.count..] == [p.windows[p.count]];
    assert [p.windows[p.count]][1..] == [];
  }

  lemma FinalStateIn(cfg: Config, w: World, id: PaymentID, state: PaymentState)
    requires Inv(cfg, w) && id in w.procs && w.procs[id].point.Completed?
    requires Verdict(cfg.maxRepresentments, w.procs[id].windows) == Some(state)
    ensures var windows, n := w.procs[id].windows, |w.procs[id].windows| - 1;
            && 0 <= n <= cfg.maxRepresentments
            && Retried(windows, n)
            && (state == FailedRetryableExhausted <==> n == cfg.maxRepresentments && RetryableReturn(windows[n]))
            && (state != FailedRetryableExhausted ==> Closing(windows[n]) == Some(state))
  {
    hide Inv, RecordsOk, StampsOk, TimeOk, TimersOk, HitExplained, RowAgrees, Closing, Retried, Verdict;
    LocalFacts(cfg, w, id);
    FinalWindow(cfg, w.procs[id], state);
  }

  /** The same, for a finished workflow: how many windows it had and how they ended. */
  lemma FinalState(cfg: Config, actions: seq<Action>, id: PaymentID)
    requires id in Reach(cfg, actions).procs && Reach(cfg, actions).procs[id].point.Completed?
    ensures var w := Reach(cfg, actions);
            var windows, n := w.procs[id].windows, |w.procs[id].windows| - 1;
            && id in w.db.payments && 0 <= n <= cfg.maxRepresentments
            && Retried(windows, n)
            && (w.db.payments[id].state == FailedRetryableExhausted <==> n == cfg.maxRepresentments && RetryableReturn(windows[n]))
            && (w.db.payments[id].state != FailedRetryableExhausted ==> Closing(windows[n]) == Some(w.db.payments[id].state))
  {
    hide Inv, Reach, Verdict, Retried, Closing, RetryableReturn;
    var w := Reach(cfg, actions);
    ReachInv(cfg, actions);
    CompletedMeansDecided(cfg, actions, id);
    FinalStateIn(cfg, w, id, w.db.payments[id].state);
  }

  // ---- Bounds ----------------------------------------------------------------

  /** Times the trail goes from RETURNED back to PENDING. */
  function Requeues(trail: seq<PaymentState>): nat {
    if |trail| < 2 then 0
    else Requeues(trail[..|trail| - 1]) + if trail[|trail| - 2] == Returned && trail[|trail| - 1] == Pending then 1 else 0
  }

  lemma {:induction false} RequeuesOfCycle(n: nat)
    ensures Requeues(Cycle(n)) == if n == 0 then 0 else (n - 1) / 3
  {
    if n >= 2 {
      RequeuesOfCycle(n - 1);
      assert Cycle(n)[..n - 1] == Cycle(n - 1);
    }
  }

  lemma ClosedRequeues(n: nat, last: PaymentState)
    requires last != Pending
    ensures Requeues(Cycle(n) + [last]) == Requeues(Cycle(n))
  {
    assert (Cycle(n) + [last])[..n] == Cycle(n);
  }

  lemma BoundedRequeues(limit: nat, trail: seq<PaymentState>)
    requires BoundedTrail(limit, trail)
    ensures Requeues(trail) <= limit && |trail| <= 3 * limit + 4
  {
    hide Cycle, Requeues;
    RequeuesOfCycle(|trail|);
    if 0 < |trail| {
      var n := |trail| - 1;
      RequeuesOfCycle(n);
      TerminalStates(trail[n]);
      if IsTerminalState(trail[n]) {
        ClosedRequeues(n, trail[n]);
      }
    }
  }

  /** The distinct trace numbers submitted for a payment. */
  function TracesOf(ach: seq<Submission>, id: PaymentID): set<string> {
    set s | s in ach && s.id == id :: s.trace
  }

  /** The trace numbers of the first n attempts. */
  function Generated(id: PaymentID, stamps: seq<nat>, n: nat): (traces: set<string>)
    requires n <= |stamps|
    ensures |traces| <= n
    ensures forall j :: 0 <= j < n ==> GenerateTraceNumber(j, id, stamps[j]) in traces
  {
    if n == 0 then {} else Generated(id, stamps, n - 1) + {GenerateTraceNumber(n - 1, id, stamps[n - 1])}
  }

  lemma SubsetSize(a: set<string>, b: set<string>)
    requires a <= b
    ensures |a| <= |b|
  {
    assert b == a + (b - a);
  }

  lemma TraceCount(cfg: Config, w: World, id: PaymentID)
    requires Inv(cfg, w) && id in w.procs
    ensures |TracesOf(w.ach, id)| <= cfg.maxRepresentments + 1
  {
    hide Inv, RecordsOk, RowAgrees, HitExplained, TimeOk, TimersOk, GenerateTraceNumber;
    LocalFacts(cfg, w, id);
    var p := w.procs[id];
    var all := Generated(id, p.stamps, |p.stamps|);
    forall s | s in w.ach && s.id == id ensures s.trace in all {
      SubmissionFacts(cfg, w, s);
    }
    SubsetSize(TracesOf(w.ach, id), all);
  }

  lemma TimerBound(cfg: Config, w: World, id: PaymentID)
    requires Inv(cfg, w) && id in w.procs
    ensures w.procs[id].timerHours <= 72 * (cfg.maxRepresentments + 1) + 48 * cfg.maxRepresentments
    ensures w.procs[id].count <= cfg.maxRepresentments
  {
    hide Inv, RecordsOk, RowAgrees, HitExplained, TimeOk, StampsOk;
    LocalFacts(cfg, w, id);
  }

  lemma TimersInRun(cfg: Config, actions: seq<Action>, id: PaymentID)
    requires id in Reach(cfg, actions).procs
    ensures TimersStarted(cfg, InitialWorld(), actions, id) == 3600 * Reach(cfg, actions).procs[id].timerHours
  {
    hide Exec, TimersStarted;
    CounterIsTimers(cfg, InitialWorld(), actions, id);
  }

  /** At every moment of every run: at most N requeues, N+1 distinct trace numbers at the
      gateway, 3N+4 audit rows and 72(N+1)+48N hours of timers, both in the history counter
      and added up over the timers the run starts. */
  lemma RunBounds(cfg: Config, actions: seq<Action>, id: PaymentID)
    requires id in Reach(cfg, actions).procs
    ensures var w, n := Reach(cfg, actions), cfg.maxRepresentments;
            && Requeues(Trail(w.db.audit, id)) <= n
            && |TracesOf(w.ach, id)| <= n + 1
            && |Trail(w.db.audit, id)| <= 3 * n + 4
            && w.procs[id].timerHours <= 72 * (n + 1) + 48 * n
            && TimersStarted(cfg, InitialWorld(), actions, id) <= 3600 * (72 * (n + 1) + 48 * n)
  {
    hide Inv, Reach, Trail, TracesOf, BoundedTrail, TimersStarted, Exec;
    TimersInRun(cfg, actions, id);
    var w := Reach(cfg, actions);
    ReachInv(cfg, actions);
    TrailShape(cfg, w, id);
    BoundedRequeues(cfg.maxRepresentments, Trail(w.db.audit, id));
    TraceCount(cfg, w, id);
    TimerBound(cfg, w, id);
  }

  /** The bounds with the limit of the code. */
  lemma CodeBounds(cfg: Config, actions: seq<Action>, id: PaymentID)
    requires cfg.maxRepresentments == MAX_REPRESENTMENTS && id in Reach(cfg, actions).procs
    ensures var w := Reach(cfg, actions);
            && |TracesOf(w.ach, id)| <= 3 && |Trail(w.db.audit, id)| <= 10
            && w.procs[id].timerHours <= 312 && TimersStarted(cfg, InitialWorld(), actions, id) <= 1_123_200
  {
    hide Reach, Trail, TracesOf, TimersStarted;
    RunBounds(cfg, actions, id);
  }

  // ---- Pacing ----------------------------------------------------------------

  lemma {:induction false} StampsApart(p: Proc, clock: nat, a: nat, b: nat)
    requires StampsOk(p, clock) && a <= b < |p.stamps|
    requires forall i :: a <= i < b ==> RetryableReturn(p.windows[i])
    ensures p.stamps[b] >= p.stamps[a] + 24 * SECONDS_PER_HOUR * (b - a)
  {
    if a < b {
      StampsApart(p, clock, a, b - 1);
      DelayAtLeastADay(p.windows[b - 1].sig.rCode);
    }
  }

  lemma DelayAtLeastADay(code: string)
    ensures RetryDelayFor(code) >= 24
  {
  }

  /** Attempts are at least the delay of the return between them apart: never less than a
      day, two days after an R09. A settlement comes 72 hours or more after the last attempt. */
  lemma AttemptsArePaced(cfg: Config, actions: seq<Action>, id: PaymentID)
    requires id in Reach(cfg, actions).procs
    ensures var w := Reach(cfg, actions);
            var p := w.procs[id];
            && (forall a, b :: 0 <= a < b < |p.stamps| ==> p.stamps[b] >= p.stamps[a] + 24 * SECONDS_PER_HOUR * (b - a))
            && |p.stamps| <= |p.windows| + 1
            && (forall j :: 0 <= j < |p.stamps| - 1 ==>
                  (p.windows[j].Got? && p.stamps[j + 1] >= p.stamps[j] + RetryDelayFor(p.windows[j].sig.rCode) * SECONDS_PER_HOUR))
            && id in w.db.payments
            && (w.db.payments[id].settledAt.Some? ==>
                  p.stamps != [] && w.db.payments[id].settledAt.value >= p.stamps[|p.stamps| - 1] + 72 * SECONDS_PER_HOUR)
  {
    var w := Reach(cfg, actions);
    ReachInv(cfg, actions);
    hide Inv, Reach, RecordsOk, RowAgrees, HitExplained, TimersOk;
    LocalFacts(cfg, w, id);
    var p := w.procs[id];
    forall a, b | 0 <= a < b < |p.stamps|
      ensures p.stamps[b] >= p.stamps[a] + 24 * SECONDS_PER_HOUR * (b - a)
    {
      StampsApart(p, w.clock, a, b);
    }
  }

  // ---- Signals ---------------------------------------------------------------

  lemma {:induction false} ConsumedAt(windows: seq<Window>, i: nat)
    requires i < |windows| && forall j :: 0 <= j <= i ==> windows[j].Got?
    ensures i < |Consumed(windows)| && Consumed(windows)[i] == windows[i].sig
  {
    var init := windows[..|windows| - 1];
    if i == |windows| - 1 {
      ConsumedAllGot(windows);
    } else {
      ConsumedAt(init, i);
    }
  }

  /** Signals are used in the order they were delivered and none is dropped: the i-th window
      that receives one receives the i-th, the rest are still queued, and a payment settles
      only if nothing was waiting when its last window opened. */
  lemma SignalsAreFifo(cfg: Config, actions: seq<Action>, id: PaymentID)
    requires id in Reach(cfg, actions).procs
    ensures var w := Reach(cfg, actions);
            && id in w.delivered && id in w.queues
            && w.delivered[id] == Consumed(w.procs[id].windows) + w.queues[id]
            && (forall i :: 0 <= i < |w.procs[id].windows| && w.procs[id].windows[i].Got? ==>
                  i < |w.delivered[id]| && w.procs[id].windows[i].sig == w.delivered[id][i])
            && (forall i :: 0 <= i < |w.procs[id].windows| && w.procs[id].windows[i].Quiet? ==>
                  i == |w.procs[id].windows| - 1 && w.procs[id].seenAtOpen == i)
  {
    var w := Reach(cfg, actions);
    ReachInv(cfg, actions);
    hide Inv, Reach, TrailOk, TraceOk, RowAgrees, HitExplained, TimersOk, TimeOk, StampsOk;
    LocalFacts(cfg, w, id);
    var p := w.procs[id];
    forall i | 0 <= i < |p.windows| && p.windows[i].Got?
      ensures i < |w.delivered[id]| && p.windows[i].sig == w.delivered[id][i]
    {
      ConsumedAt(p.windows, i);
    }
  }

  // ---- Requests are never refused, faults aside ------------------------------

  /** Without a hit every transition the workflow asks for is carried out or already there,
      although the source state it passes is never compared. */
  lemma RequestsAreGranted(cfg: Config, actions: seq<Action>, id: PaymentID)
    requires id in Reach(cfg, actions).procs && Transition(Reach(cfg, actions).procs[id].point).Some?
    ensures var w := Reach(cfg, actions);
            var p := w.procs[id];
            && id in w.db.payments
            && (!p.hit ==> (w.db.payments[id].state == From(p) && IsTransitionAllowed(From(p), To(p)))
                           || (w.db.payments[id].state == To(p) && p.attempt > 0))
            && (p.hit ==> w.db.payments[id].state == Pending && !IsTransitionAllowed(Pending, To(p)) && To(p) != Pending)
  {
    var w := Reach(cfg, actions);
    ReachInv(cfg, actions);
    hide Inv, Reach, QueueOk, TraceOk, HitExplained, TimersOk, TimeOk, StampsOk, IsTransitionAllowed;
    LocalFacts(cfg, w, id);
    RequestsAreEdges(cfg, w.procs[id]);
    StateAtRequest(cfg, w.procs[id], ViewOf(w, id), w.db.payments[id].state);
  }
}
