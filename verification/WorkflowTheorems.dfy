/** What the invariant means: safety of every interleaving, the fate of a payment, bounds. */
module WorkflowTheorems {
  import opened Wrappers
  import opened Rules
  import opened RCodes
  import opened TraceNumbers
  import opened Store
  import opened Redis
  import opened Workflow
  import opened WorkflowInvariant
  import opened WorkflowProof
  import opened WorkflowRuns

  // ---- Trace numbers and the idempotency check -------------------------------

  /** No two started payments share their first eight characters. */
  predicate DistinctPrefixes(ids: set<PaymentID>) {
    forall a, b :: a in ids && b in ids && a != b ==> Prefix(a) != Prefix(b)
  }

  lemma {:induction false} ProcsOnlyGrow(cfg: Config, w: World, actions: seq<Action>)
    ensures w.procs.Keys <= Exec(cfg, w, actions).procs.Keys
  {
    if actions != [] {
      var w1 := Exec(cfg, w, actions[..|actions| - 1]);
      ProcsOnlyGrow(cfg, w, actions[..|actions| - 1]);
      hide StepLoopTop, StepCheck, StepStore, StepSend, StepOpenWindow, StepWait, StepSleep, StepTransition;
      DoGrowsProcs(cfg, w1, actions[|actions| - 1]);
    }
  }

  lemma DoGrowsProcs(cfg: Config, w: World, a: Action)
    ensures w.procs.Keys <= Do(cfg, w, a).procs.Keys
  {
    if a.Run? && a.id in w.procs && a.id in w.queues && a.id in w.delivered {
      assert StepProc(cfg, w, a.id, a.choice).procs.Keys == w.procs.Keys;
    }
  }

  lemma NoHitIn(cfg: Config, w: World, id: PaymentID)
    requires Inv(cfg, w) && id in w.procs && DistinctPrefixes(w.procs.Keys)
    ensures !w.procs[id].hit
    ensures w.procs[id].point.Checking? ==> TraceKey(w.procs[id].trace) !in w.redis
  {
    hide Inv, Prefix, TraceKey, ScheduleOk, RecordsOk, RowAgrees, Trail;
    LocalFacts(cfg, w, id);
    if w.procs[id].point.Checking? && TraceKey(w.procs[id].trace) in w.redis {
      HitMeansCollision(cfg, w, id);
    }
  }

  lemma PrefixesDistinctBefore(cfg: Config, actions: seq<Action>, k: nat)
    requires k <= |actions| && DistinctPrefixes(Reach(cfg, actions).procs.Keys)
    ensures DistinctPrefixes(Reach(cfg, actions[..k]).procs.Keys)
  {
    hide Do, Prefix;
    assert actions == actions[..k] + actions[k..];
    ExecConcat(cfg, InitialWorld(), actions[..k], actions[k..]);
    ProcsOnlyGrow(cfg, Reach(cfg, actions[..k]), actions[k..]);
  }

  /** With distinct prefixes the check never reports a hit, at any moment of any run: the
      key it looks for cannot be there, although check and store are separate steps. */
  lemma NoHit(cfg: Config, actions: seq<Action>, k: nat, id: PaymentID)
    requires k <= |actions| && DistinctPrefixes(Reach(cfg, actions).procs.Keys)
    requires id in Reach(cfg, actions[..k]).procs
    ensures var w := Reach(cfg, actions[..k]);
            && !w.procs[id].hit
            && (w.procs[id].point.Checking? ==> TraceKey(w.procs[id].trace) !in w.redis)
  {
    hide Inv, Reach, DistinctPrefixes, TraceKey;
    ReachInv(cfg, actions[..k]);
    PrefixesDistinctBefore(cfg, actions, k);
    NoHitIn(cfg, Reach(cfg, actions[..k]), id);
  }

  /** What it takes to find a key that is already there: another payment with the same
      prefix, at the same attempt number, in the same second. Never one's own. */
  lemma KeyMeansCollision(cfg: Config, actions: seq<Action>, id: PaymentID)
    requires id in Reach(cfg, actions).procs && Reach(cfg, actions).procs[id].point.Checking?
    requires TraceKey(Reach(cfg, actions).procs[id].trace) in Reach(cfg, actions).redis
    ensures var w := Reach(cfg, actions);
            exists other :: Collides(w.procs, id, w.procs[id].count, other)
  {
    hide Inv, Reach, Collides, TraceKey;
    ReachInv(cfg, actions);
    HitMeansCollision(cfg, Reach(cfg, actions), id);
  }

  /** What is known of a line at the gateway: it carries the trace number of one attempt,
      that number was stored in Redis, and the payment was marked SUBMITTED for it. */
  ghost predicate ProperSubmission(w: World, s: Submission) {
    && s.id in w.procs && s.attempt <= w.procs[s.id].count && s.attempt < |w.procs[s.id].stamps|
    && s.trace == GenerateTraceNumber(s.attempt, s.id, w.procs[s.id].stamps[s.attempt])
    && TraceKey(s.trace) in w.redis
    && |Trail(w.db.audit, s.id)| > 3 * s.attempt + 1
    && Trail(w.db.audit, s.id)[3 * s.attempt + 1] == Submitted
  }

  lemma SubmissionFacts(cfg: Config, w: World, s: Submission)
    requires Inv(cfg, w) && s in w.ach
    ensures SubmissionOk(w.procs, w.redis, w.db.audit, s)
  {
    hide ProcOk, Consistent, KeyOk, SubmissionOk;
  }

  lemma ProperIn(cfg: Config, w: World, s: Submission)
    requires Inv(cfg, w) && s in w.ach
    ensures ProperSubmission(w, s)
  {
    hide Inv, GenerateTraceNumber, TraceKey, Trail, BoundedTrail;
    SubmissionFacts(cfg, w, s);
    TrailShape(cfg, w, s.id);
  }

  /** In every run, every submission was preceded by its store and its SUBMITTED row. */
  lemma SubmittedAfterStored(cfg: Config, actions: seq<Action>, s: Submission)
    requires s in Reach(cfg, actions).ach
    ensures ProperSubmission(Reach(cfg, actions), s)
  {
    hide Inv, Reach, ProperSubmission;
    ReachInv(cfg, actions);
    ProperIn(cfg, Reach(cfg, actions), s);
  }

  /** The log is the cycle, up to its last row. */
  lemma TrailShape(cfg: Config, w: World, id: PaymentID)
    requires Inv(cfg, w) && id in w.procs
    ensures Known(w, id) && BoundedTrail(cfg.maxRepresentments, Trail(w.db.audit, id))
    ensures var trail := Trail(w.db.audit, id);
            forall i :: 0 <= i < |trail| - 1 || (0 <= i < |trail| && (!IsTerminalState(trail[i]) || CycleAt(i) == Submitted)) ==> trail[i] == CycleAt(i)
  {
    hide Inv, Trail, StampsOk, TimeOk, TimersOk, QueueOk, TraceOk, HitExplained, Verdict, RowAgrees;
    LocalFacts(cfg, w, id);
    var p := w.procs[id];
    if !p.point.Errored? && !p.point.Completed? {
      BoundWhileRunning(cfg, p, Trail(w.db.audit, id));
    }
  }

  /** The log of a started payment in any run: PENDING, SUBMITTED, RETURNED over and over,
      ending in at most one terminal row. */
  lemma LogIsCycle(cfg: Config, actions: seq<Action>, id: PaymentID)
    requires id in Reach(cfg, actions).procs
    ensures var trail := Trail(Reach(cfg, actions).db.audit, id);
            && (forall i :: 0 <= i < |trail| - 1 ==> trail[i] == CycleAt(i))
            && (trail != [] ==> trail[|trail| - 1] == CycleAt(|trail| - 1) || IsTerminalState(trail[|trail| - 1]))
  {
    hide Inv, Reach, Trail, BoundedTrail, IsTerminalState;
    ReachInv(cfg, actions);
    TrailShape(cfg, Reach(cfg, actions), id);
  }

  /** With distinct prefixes a trace number identifies payment and attempt: the same number
      reaches the gateway twice only when the submission of one attempt is retried. */
  lemma TraceIdentifiesAttempt(cfg: Config, actions: seq<Action>, s: Submission, t: Submission)
    requires DistinctPrefixes(Reach(cfg, actions).procs.Keys)
    requires s in Reach(cfg, actions).ach && t in Reach(cfg, actions).ach && s.trace == t.trace
    ensures s == t
  {
    hide Reach, Prefix, Trail, TraceKey, GenerateTraceNumber;
    var w := Reach(cfg, actions);
    SubmittedAfterStored(cfg, actions, s);
    SubmittedAfterStored(cfg, actions, t);
    TraceInjective(s.attempt, s.id, w.procs[s.id].stamps[s.attempt], t.attempt, t.id, w.procs[t.id].stamps[t.attempt]);
  }

  // ---- The fate of a payment -------------------------------------------------

  /** A workflow that returns nil leaves the payment in the terminal state its windows
      decide, was never stopped by a hit, and its log tells the same story. */
  lemma CompletedMeansDecided(cfg: Config, actions: seq<Action>, id: PaymentID)
    requires id in Reach(cfg, actions).procs && Reach(cfg, actions).procs[id].point.Completed?
    ensures var w := Reach(cfg, actions);
            && id in w.db.payments && IsTerminalState(w.db.payments[id].state)
            && Verdict(cfg.maxRepresentments, w.procs[id].windows) == Some(w.db.payments[id].state)
            && !w.procs[id].hit
  {
    ReachInv(cfg, actions);
    hide Inv, Exec, Reach, Trail, Verdict, StampsOk, TimeOk, TimersOk, QueueOk, TraceOk, HitExplained;
    LocalFacts(cfg, Reach(cfg, actions), id);
  }

  lemma HitTrail(cfg: Config, id: PaymentID, p: Proc, v: View, state: PaymentState)
    requires ScheduleOk(cfg, p, v) && RecordsOk(cfg, id, p, v) && RowAgrees(state, v) && p.hit
    ensures state == Pending && !p.point.Completed? && v.trail == Cycle(3 * p.count + 1)
  {
    hide StampsOk, TimeOk, TimersOk, QueueOk, TraceOk, Verdict, BoundedTrail;
  }

  /** An idempotency hit means that another payment shares prefix, attempt and second, and
      it leaves the payment PENDING with nothing submitted for this attempt. */
  lemma HitState(cfg: Config, w: World, id: PaymentID)
    requires Inv(cfg, w) && id in w.procs && w.procs[id].hit
    ensures id in w.db.payments && w.db.payments[id].state == Pending
    ensures !w.procs[id].point.Completed?
    ensures Trail(w.db.audit, id) == Cycle(3 * w.procs[id].count + 1)
    ensures forall s :: s in w.ach && s.id == id ==> s.attempt < w.procs[id].count
    ensures exists other :: Collides(w.procs, id, w.procs[id].count, other)
  {
    hide Inv, Trail, ScheduleOk, RecordsOk, RowAgrees, Collides;
    HitSubmissions(cfg, w, id);
    LocalFacts(cfg, w, id);
    HitTrail(cfg, id, w.procs[id], ViewOf(w, id), w.db.payments[id].state);
  }

  /** The same for any run: what a hit leaves behind. */
  lemma AfterHit(cfg: Config, actions: seq<Action>, id: PaymentID)
    requires id in Reach(cfg, actions).procs && Reach(cfg, actions).procs[id].hit
    ensures var w := Reach(cfg, actions);
            && id in w.db.payments && w.db.payments[id].state == Pending
            && Trail(w.db.audit, id) == Cycle(3 * w.procs[id].count + 1)
            && (forall s :: s in w.ach && s.id == id ==> s.attempt < w.procs[id].count)
            && exists other :: Collides(w.procs, id, w.procs[id].count, other)
  {
    hide Inv, Reach, Trail, Collides;
    ReachInv(cfg, actions);
    HitState(cfg, Reach(cfg, actions), id);
  }

  lemma HitSubmissions(cfg: Config, w: World, id: PaymentID)
    requires Inv(cfg, w) && id in w.procs && w.procs[id].hit
    ensures forall s :: s in w.ach && s.id == id ==> s.attempt < w.procs[id].count
  {
    hide ProcOk, Consistent, KeyOk, Trail, GenerateTraceNumber, TraceKey;
    forall s | s in w.ach && s.id == id ensures s.attempt < w.procs[id].count {
      assert SubmissionOk(w.procs, w.redis, w.db.audit, s);
    }
  }

  function SubmissionsOf(ach: seq<Submission>, id: PaymentID): seq<Submission> {
    if ach == [] then []
    else
      var last := ach[|ach| - 1];
      SubmissionsOf(ach[..|ach| - 1], id) + if last.id == id then [last] else []
  }

  lemma SubmissionsAppend(ach: seq<Submission>, s: Submission, id: PaymentID)
    ensures SubmissionsOf(ach + [s], id) == SubmissionsOf(ach, id) + if s.id == id then [s] else []
  {
    assert (ach + [s])[..|ach|] == ach;
  }

  /** Points from which a workflow can still submit. */
  predicate MaySubmit(p: Proc) {
    !p.hit && !p.point.Completed? && !p.point.Errored? && !p.point.Settling? && !p.point.Failing?
    && (p.point.Returning? ==> Category(p.sig.rCode) == Retryable)
  }

  lemma HitPoints(cfg: Config, w: World, id: PaymentID)
    requires Inv(cfg, w) && id in w.procs && w.procs[id].hit
    ensures var point := w.procs[id].point;
            point.OpeningWindow? || point.Waiting? || point.Settling? || point.Returning? || point.Errored?
  {
    hide Inv, RecordsOk, RowAgrees, HitExplained, Verdict, StampsOk, TimeOk, TimersOk;
    LocalFacts(cfg, w, id);
  }

  lemma ClosedSelect(w: World, id: PaymentID, p: Proc, deadline: nat, e: Choice)
    requires id in w.queues && p.hit
    ensures var w' := Select(w, id, p, deadline, e);
            id in w'.procs && w'.procs[id].hit && !MaySubmit(w'.procs[id]) && w'.ach == w.ach
  {
  }

  lemma ClosedTransition(cfg: Config, w: World, id: PaymentID, e: Choice)
    requires id in w.procs && Transition(w.procs[id].point).Some? && !MaySubmit(w.procs[id])
    ensures var w' := StepTransition(cfg, w, id, e);
            id in w'.procs && !MaySubmit(w'.procs[id]) && w'.ach == w.ach && w'.procs[id].hit == w.procs[id].hit
  {
    hide PersistAttempt, Category, RetryDelayFor;
  }

  lemma ClosedWindow(w: World, id: PaymentID, e: Choice)
    requires id in w.procs && id in w.queues && id in w.delivered && w.procs[id].hit
    ensures var w' := StepOpenWindow(w, id, e);
            id in w'.procs && w'.procs[id].hit && !MaySubmit(w'.procs[id]) && w'.ach == w.ach
    ensures w.procs[id].point.Waiting? ==>
              var w' := StepWait(w, id, e);
              id in w'.procs && w'.procs[id].hit && !MaySubmit(w'.procs[id]) && w'.ach == w.ach
  {
    hide Select;
    var p, deadline := w.procs[id], w.clock + SETTLEMENT_HOURS * SECONDS_PER_HOUR;
    ClosedSelect(w, id, p.(timerHours := p.timerHours + SETTLEMENT_HOURS, seenAtOpen := |w.delivered[id]|), deadline, e);
    if p.point.Waiting? {
      ClosedSelect(w, id, p, p.point.deadline, e);
    }
  }

  /** Once closed, a workflow stays closed and its steps send nothing. */
  lemma ClosedStep(cfg: Config, w: World, id: PaymentID, e: Choice)
    requires Inv(cfg, w) && id in w.procs && !MaySubmit(w.procs[id])
    requires id in w.queues && id in w.delivered
    ensures id in StepProc(cfg, w, id, e).procs && !MaySubmit(StepProc(cfg, w, id, e).procs[id])
    ensures StepProc(cfg, w, id, e).ach == w.ach
    ensures w.procs[id].hit ==> StepProc(cfg, w, id, e).procs[id].hit
  {
    hide Inv, StepTransition, StepOpenWindow, StepWait, StepLoopTop, StepCheck, StepStore, StepSend, StepSleep;
    if w.procs[id].hit {
      HitPoints(cfg, w, id);
      ClosedWindow(w, id, e);
    }
    if Transition(w.procs[id].point).Some? {
      ClosedTransition(cfg, w, id, e);
    }
  }

  lemma OwnSubmissionsOnly(cfg: Config, w: World, other: PaymentID, e: Choice, id: PaymentID)
    requires other in w.procs && other in w.queues && other in w.delivered && other != id
    ensures SubmissionsOf(StepProc(cfg, w, other, e).ach, id) == SubmissionsOf(w.ach, id)
    ensures id in w.procs ==> id in StepProc(cfg, w, other, e).procs && StepProc(cfg, w, other, e).procs[id] == w.procs[id]
  {
    hide StepProc;
    var w', p := StepProc(cfg, w, other, e), w.procs[other];
    assert OnlyOwn(w, w', other);
    SubmissionsAppend(w.ach, Submission(other, p.count, p.trace), id);
  }

  lemma ClosedAction(cfg: Config, w: World, a: Action, id: PaymentID)
    requires Inv(cfg, w) && id in w.procs && !MaySubmit(w.procs[id])
    ensures var w' := Do(cfg, w, a);
            && id in w'.procs && !MaySubmit(w'.procs[id])
            && SubmissionsOf(w'.ach, id) == SubmissionsOf(w.ach, id)
            && (w.procs[id].hit ==> w'.procs[id].hit)
  {
    hide Inv, StepProc, MaySubmit, CreatePayment;
    if a.Run? && a.id in w.procs && a.id in w.queues && a.id in w.delivered {
      if a.id == id {
        ClosedStep(cfg, w, id, a.choice);
      } else {
        OwnSubmissionsOnly(cfg, w, a.id, a.choice, id);
      }
    }
  }

  /** After a hit, after a code that is not retried, and after the end, a payment is never
      submitted again, whatever the environment does; and a hit is never forgotten. */
  lemma {:induction false} NeverSubmittedAgain(cfg: Config, w: World, after: seq<Action>, id: PaymentID)
    requires Inv(cfg, w) && id in w.procs && !MaySubmit(w.procs[id])
    ensures var w' := Exec(cfg, w, after);
            && id in w'.procs && !MaySubmit(w'.procs[id])
            && SubmissionsOf(w'.ach, id) == SubmissionsOf(w.ach, id)
            && (w.procs[id].hit ==> w'.procs[id].hit)
  {
    hide Inv, Do, MaySubmit;
    if after != [] {
      var init := after[..|after| - 1];
      NeverSubmittedAgain(cfg, w, init, id);
      ExecKeeps(cfg, w, init);
      ClosedAction(cfg, Exec(cfg, w, init), after[|after| - 1], id);
    }
  }

  /** The same for any run and any continuation of it. */
  lemma ClosedForGood(cfg: Config, before: seq<Action>, after: seq<Action>, id: PaymentID)
    requires id in Reach(cfg, before).procs && !MaySubmit(Reach(cfg, before).procs[id])
    ensures SubmissionsOf(Reach(cfg, before + after).ach, id) == SubmissionsOf(Reach(cfg, before).ach, id)
    ensures id in Reach(cfg, before + after).procs && !MaySubmit(Reach(cfg, before + after).procs[id])
  {
    hide Inv, Do, MaySubmit, SubmissionsOf;
    ReachInv(cfg, before);
    NeverSubmittedAgain(cfg, Reach(cfg, before), after, id);
    ExecConcat(cfg, InitialWorld(), before, after);
  }

  lemma RefusedWindow(cfg: Config, p: Proc, i: nat)
    requires WindowsOk(cfg, p)
    requires i < |p.windows| && !RetryableReturn(p.windows[i])
    ensures i == |p.windows| - 1 && !MaySubmit(p)
  {
  }

  /** In particular: a return whose code is not retryable is never followed by a submission. */
  lemma RefusedReturnIsFinal(cfg: Config, before: seq<Action>, after: seq<Action>, id: PaymentID, i: nat)
    requires id in Reach(cfg, before).procs && i < |Reach(cfg, before).procs[id].windows|
    requires !RetryableReturn(Reach(cfg, before).procs[id].windows[i])
    ensures SubmissionsOf(Reach(cfg, before + after).ach, id) == SubmissionsOf(Reach(cfg, before).ach, id)
  {
    hide Inv, Do, MaySubmit, RetryableReturn, RecordsOk, RowAgrees, HitExplained, StampsOk, TimeOk, TimersOk;
    var w := Reach(cfg, before);
    ReachInv(cfg, before);
    LocalFacts(cfg, w, id);
    RefusedWindow(cfg, w.procs[id], i);
    NeverSubmittedAgain(cfg, w, after, id);
    ExecConcat(cfg, InitialWorld(), before, after);
  }

  /** After a hit every further world of the run still has the payment PENDING, with the
      same submissions, and the workflow can only end in an error. */
  lemma HitIsFinal(cfg: Config, before: seq<Action>, after: seq<Action>, id: PaymentID)
    requires id in Reach(cfg, before).procs && Reach(cfg, before).procs[id].hit
    ensures var w, w' := Reach(cfg, before), Reach(cfg, before + after);
            && id in w'.procs && w'.procs[id].hit && !w'.procs[id].point.Completed?
            && id in w'.db.payments && w'.db.payments[id].state == Pending
            && SubmissionsOf(w'.ach, id) == SubmissionsOf(w.ach, id)
  {
    hide Inv, Do, RetryableReturn;
    var w := Reach(cfg, before);
    ReachInv(cfg, before);
    NeverSubmittedAgain(cfg, w, after, id);
    ExecConcat(cfg, InitialWorld(), before, after);
    ReachInv(cfg, before + after);
    HitState(cfg, Reach(cfg, before + after), id);
  }
}
