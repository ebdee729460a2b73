/** Termination, absence of errors without faults, and the possibility to finish. */
module WorkflowProgress {
  import opened Wrappers
  import opened Rules
  import opened RCodes
  import opened TraceNumbers
  import opened Store
  import opened Redis
  import opened Workflow
  import opened WorkflowInvariant
  import opened WorkflowProof
  import opened WorkflowRuns
  import opened WorkflowTheorems

  // ---- A measure that every move of a workflow lowers ------------------------

  function PointRank(point: Point): (r: nat)
    ensures r <= 12
  {
    match point
    case Queueing => 12
    case LoopTop => 11
    case Checking => 10
    case Storing => 9
    case Submitting => 8
    case Sending => 7
    case OpeningWindow => 6
    case Waiting(_) => 5
    case Settling => 4
    case Returning => 4
    case Failing(_) => 3
    case Requeueing => 3
    case Sleeping(_) => 2
    case Completed => 0
    case Errored => 0
  }

  function AttemptsLeft(cfg: Config, p: Proc): nat {
    if p.attempt <= cfg.maxAttempts then cfg.maxAttempts - p.attempt else 0
  }

  function Phase(cfg: Config, p: Proc): nat
    requires p.count <= cfg.maxRepresentments
  {
    (cfg.maxRepresentments - p.count) * 13 + PointRank(p.point)
  }

  /** Representments left, then the point in the loop, then attempts left. */
  function Rank(cfg: Config, p: Proc): nat
    requires p.count <= cfg.maxRepresentments
  {
    Phase(cfg, p) * (cfg.maxAttempts + 1) + AttemptsLeft(cfg, p)
  }

  lemma Lexicographic(a': nat, r': nat, a: nat, r: nat, m: nat)
    requires a' < a && r' <= m
    ensures a' * (m + 1) + r' < a * (m + 1) + r
  {
    assert (a' + 1) * (m + 1) <= a * (m + 1);
  }

  lemma RankDrops(cfg: Config, p: Proc, p': Proc)
    requires p.count <= cfg.maxRepresentments && p'.count <= cfg.maxRepresentments
    requires Phase(cfg, p') < Phase(cfg, p) || (Phase(cfg, p') == Phase(cfg, p) && AttemptsLeft(cfg, p') < AttemptsLeft(cfg, p))
    ensures Rank(cfg, p') < Rank(cfg, p)
  {
    if Phase(cfg, p') < Phase(cfg, p) {
      Lexicographic(Phase(cfg, p'), AttemptsLeft(cfg, p'), Phase(cfg, p), AttemptsLeft(cfg, p), cfg.maxAttempts);
    }
  }

  /** Later in the loop, or another attempt used up. */
  predicate Later(cfg: Config, p: Proc, p': Proc) {
    || (p'.count == p.count && PointRank(p'.point) < PointRank(p.point))
    || (p'.count == p.count && p'.point == p.point && AttemptsLeft(cfg, p') < AttemptsLeft(cfg, p))
    || (p'.count == p.count + 1 && p.point.Sleeping?)
  }

  lemma RetryIsLater(cfg: Config, p: Proc)
    requires !p.point.Completed? && !p.point.Errored?
    ensures Later(cfg, p, Retry(cfg, p))
  {
  }

  lemma SelectIsLater(cfg: Config, w: World, id: PaymentID, p: Proc, deadline: nat, e: Choice)
    requires id in w.queues && (p.point.OpeningWindow? || p.point == Waiting(deadline))
    ensures var p' := Select(w, id, p, deadline, e).procs[id];
            Later(cfg, p, p') || (p' == p && p.point.Waiting?)
  {
  }

  lemma TransitionIsLater(cfg: Config, w: World, id: PaymentID, e: Choice)
    requires id in w.procs && Transition(w.procs[id].point).Some?
    ensures Later(cfg, w.procs[id], StepTransition(cfg, w, id, e).procs[id])
  {
    hide PersistAttempt, Category, RetryDelayFor;
  }

  /** A step moves the workflow on, or finds it blocked or finished and changes nothing of it. */
  lemma StepIsLater(cfg: Config, w: World, id: PaymentID, e: Choice)
    requires id in w.procs && id in w.queues && id in w.delivered
    ensures var p, p' := w.procs[id], StepProc(cfg, w, id, e).procs[id];
            p' == p || Later(cfg, p, p')
  {
    hide StepTransition, Select, Exists, StoreTraceNumber, GenerateTraceNumber;
    var p := w.procs[id];
    if Transition(p.point).Some? {
      TransitionIsLater(cfg, w, id, e);
    } else if p.point.OpeningWindow? {
      var q := p.(timerHours := p.timerHours + SETTLEMENT_HOURS, seenAtOpen := |w.delivered[id]|);
      SelectIsLater(cfg, w, id, q, w.clock + SETTLEMENT_HOURS * SECONDS_PER_HOUR, e);
    } else if p.point.Waiting? {
      SelectIsLater(cfg, w, id, p, p.point.deadline, e);
    } else if !p.point.Completed? && !p.point.Errored? {
      RetryIsLater(cfg, p);
    }
  }

  lemma StepRank(cfg: Config, w: World, id: PaymentID, e: Choice)
    requires Inv(cfg, w) && id in w.procs && id in w.queues && id in w.delivered
    ensures w.procs[id].count <= cfg.maxRepresentments
    ensures var p, p' := w.procs[id], StepProc(cfg, w, id, e).procs[id];
            p'.count <= cfg.maxRepresentments && (p' == p || Rank(cfg, p') < Rank(cfg, p))
  {
    hide Inv, StepProc, Rank, Phase;
    var w' := StepProc(cfg, w, id, e);
    TimerCount(cfg, w, id);
    RunKeeps(cfg, w, id, e);
    TimerCount(cfg, w', id);
    StepIsLater(cfg, w, id, e);
    if w'.procs[id] != w.procs[id] {
      LaterPhase(cfg, w.procs[id], w'.procs[id]);
      RankDrops(cfg, w.procs[id], w'.procs[id]);
    }
  }

  lemma LaterPhase(cfg: Config, p: Proc, p': Proc)
    requires p.count <= cfg.maxRepresentments && p'.count <= cfg.maxRepresentments && Later(cfg, p, p')
    ensures Phase(cfg, p') < Phase(cfg, p) || (Phase(cfg, p') == Phase(cfg, p) && AttemptsLeft(cfg, p') < AttemptsLeft(cfg, p))
  {
  }

  lemma TimerCount(cfg: Config, w: World, id: PaymentID)
    requires Inv(cfg, w) && id in w.procs
    ensures w.procs[id].count <= cfg.maxRepresentments
  {
    hide Inv, RecordsOk, RowAgrees, HitExplained, TimeOk, StampsOk, TimersOk;
    LocalFacts(cfg, w, id);
  }

  /** How often the workflow of `id` moves in a run. */
  function Moves(cfg: Config, w: World, actions: seq<Action>, id: PaymentID): nat
    requires id in w.procs
    decreases |actions|
  {
    if actions == [] then 0
    else
      var init, last := actions[..|actions| - 1], actions[|actions| - 1];
      var w1, w2 := Exec(cfg, w, init), Do(cfg, Exec(cfg, w, init), last);
      Moves(cfg, w, init, id) + if id in w1.procs && id in w2.procs && w1.procs[id] == w2.procs[id] then 0 else 1
  }

  lemma ActionRank(cfg: Config, w: World, a: Action, id: PaymentID)
    requires Inv(cfg, w) && id in w.procs
    ensures var w' := Do(cfg, w, a);
            && id in w'.procs && w.procs[id].count <= cfg.maxRepresentments && w'.procs[id].count <= cfg.maxRepresentments
            && (w'.procs[id] == w.procs[id] || Rank(cfg, w'.procs[id]) < Rank(cfg, w.procs[id]))
  {
    hide Inv, StepProc, Rank, CreatePayment;
    TimerCount(cfg, w, id);
    if a.Run? && a.id in w.procs && a.id in w.queues && a.id in w.delivered {
      assert OnlyOwn(w, StepProc(cfg, w, a.id, a.choice), a.id);
      if a.id == id {
        StepRank(cfg, w, id, a.choice);
      }
    }
  }

  /** Termination: in any run, of any length and under any faults, a workflow moves no more
      often than its rank at the start of the run. */
  lemma {:induction false} MovesAreBounded(cfg: Config, w: World, actions: seq<Action>, id: PaymentID)
    requires Inv(cfg, w) && id in w.procs
    ensures id in Exec(cfg, w, actions).procs
    ensures w.procs[id].count <= cfg.maxRepresentments && Exec(cfg, w, actions).procs[id].count <= cfg.maxRepresentments
    ensures Moves(cfg, w, actions, id) + Rank(cfg, Exec(cfg, w, actions).procs[id]) <= Rank(cfg, w.procs[id])
  {
    hide Inv, Do, Rank;
    TimerCount(cfg, w, id);
    if actions != [] {
      var init, last := actions[..|actions| - 1], actions[|actions| - 1];
      MovesAreBounded(cfg, w, init, id);
      ExecKeeps(cfg, w, init);
      ActionRank(cfg, Exec(cfg, w, init), last, id);
    }
  }

  lemma RankLimit(cfg: Config, p: Proc)
    requires p.count <= cfg.maxRepresentments
    ensures Rank(cfg, p) <= (13 * cfg.maxRepresentments + 12) * (cfg.maxAttempts + 1) + cfg.maxAttempts
  {
    assert Phase(cfg, p) <= 13 * cfg.maxRepresentments + 12;
    assert Phase(cfg, p) * (cfg.maxAttempts + 1) <= (13 * cfg.maxRepresentments + 12) * (cfg.maxAttempts + 1);
  }

  /** In numbers: from any reachable world on, a workflow moves at most 13N + 12 times per
      attempt allowed to it, plus its attempts; for N = 2 and three attempts, 155 times. */
  lemma RunsEnd(cfg: Config, before: seq<Action>, after: seq<Action>, id: PaymentID)
    requires id in Reach(cfg, before).procs
    ensures Moves(cfg, Reach(cfg, before), after, id) <= (13 * cfg.maxRepresentments + 12) * (cfg.maxAttempts + 1) + cfg.maxAttempts
  {
    hide Inv, Do, Rank, Reach, Exec, Moves;
    ReachInv(cfg, before);
    MovesAreBounded(cfg, Reach(cfg, before), after, id);
    RankLimit(cfg, Reach(cfg, before).procs[id]);
  }

  // ---- Errors come from the environment --------------------------------------

  predicate FaultFree(e: Choice) {
    e.attempt == Report && !e.cancel
  }

  lemma GrantedTransition(cfg: Config, w: World, id: PaymentID, e: Choice)
    requires Inv(cfg, w) && id in w.procs && Transition(w.procs[id].point).Some?
    requires !w.procs[id].hit && e.attempt == Report
    ensures !StepTransition(cfg, w, id, e).procs[id].point.Errored?
  {
    hide Inv, StampsOk, TimeOk, TimersOk, QueueOk, TraceOk, HitExplained, IsTransitionAllowed, TrailOk, RowAgrees,
         Commit, Category, RetryDelayFor;
    LocalFacts(cfg, w, id);
    RequestsAreEdges(cfg, w.procs[id]);
    StateAtRequest(cfg, w.procs[id], ViewOf(w, id), w.db.payments[id].state);
  }

  /** A step without a fault, a cancellation or a hit never fails the workflow. */
  lemma FaultFreeStep(cfg: Config, w: World, id: PaymentID, e: Choice)
    requires Inv(cfg, w) && id in w.procs && id in w.queues && id in w.delivered
    requires !w.procs[id].hit && FaultFree(e) && !w.procs[id].point.Errored?
    ensures !StepProc(cfg, w, id, e).procs[id].point.Errored?
  {
    hide Inv, StepTransition, Exists, StoreTraceNumber, GenerateTraceNumber;
    if Transition(w.procs[id].point).Some? {
      GrantedTransition(cfg, w, id, e);
    }
  }

  /** Without faults or cancellations, payments with distinct prefixes never fail by error. */
  lemma {:induction false} FaultFreeRun(cfg: Config, actions: seq<Action>, id: PaymentID)
    requires DistinctPrefixes(Reach(cfg, actions).procs.Keys)
    requires forall a :: a in actions && a.Run? && a.id == id ==> FaultFree(a.choice)
    requires id in Reach(cfg, actions).procs
    ensures !Reach(cfg, actions).procs[id].point.Errored?
  {
    hide Inv, Do, DistinctPrefixes, FaultFree, TraceKey;
    if actions != [] {
      var init, last := actions[..|actions| - 1], actions[|actions| - 1];
      var w := Reach(cfg, init);
      ReachInv(cfg, init);
      PrefixesDistinctBefore(cfg, actions, |init|);
      if id in w.procs {
        NoHit(cfg, actions, |init|, id);
        FaultFreeRun(cfg, init, id);
      }
      FaultFreeAction(cfg, w, last, id);
    }
  }

  lemma FaultFreeAction(cfg: Config, w: World, a: Action, id: PaymentID)
    requires Inv(cfg, w) && id in Do(cfg, w, a).procs
    requires id in w.procs ==> !w.procs[id].hit && !w.procs[id].point.Errored?
    requires a.Run? && a.id == id ==> FaultFree(a.choice)
    ensures !Do(cfg, w, a).procs[id].point.Errored?
  {
    hide Inv, StepProc, CreatePayment, FaultFree;
    if a.Run? && a.id in w.procs && a.id in w.queues && a.id in w.delivered {
      assert OnlyOwn(w, StepProc(cfg, w, a.id, a.choice), a.id);
      if a.id == id {
        FaultFreeStep(cfg, w, id, a.choice);
      }
    }
  }

  // ---- A run can always be finished ------------------------------------------

  const GO: Choice := Choice(Report, false, false)

  /** Long enough for a blocked workflow to wake up. */
  function Patience(p: Proc): nat {
    match p.point
    case Waiting(deadline) => deadline
    case Sleeping(until) => until
    case _ => 0
  }

  lemma WakesUp(cfg: Config, w: World, id: PaymentID)
    requires id in w.procs && id in w.queues && id in w.delivered && Running(w, id)
    requires w.clock >= Patience(w.procs[id])
    requires Transition(w.procs[id].point).None?
    ensures StepProc(cfg, w, id, GO).procs[id].point != w.procs[id].point
  {
    hide Exists, StoreTraceNumber, GenerateTraceNumber;
  }

  lemma TransitionMoves(cfg: Config, w: World, id: PaymentID)
    requires Inv(cfg, w) && id in w.procs && !w.procs[id].hit && Transition(w.procs[id].point).Some?
    ensures StepTransition(cfg, w, id, GO).procs[id].point != w.procs[id].point
  {
    hide Inv, StampsOk, TimeOk, TimersOk, QueueOk, TraceOk, HitExplained, IsTransitionAllowed, TrailOk, RowAgrees,
         Commit, Category, RetryDelayFor;
    LocalFacts(cfg, w, id);
    RequestsAreEdges(cfg, w.procs[id]);
    StateAtRequest(cfg, w.procs[id], ViewOf(w, id), w.db.payments[id].state);
  }

  lemma FaultFreeMove(cfg: Config, w: World, id: PaymentID)
    requires Inv(cfg, w) && DistinctPrefixes(w.procs.Keys) && Running(w, id)
    requires w.clock >= Patience(w.procs[id])
    ensures id in w.queues && id in w.delivered && w.procs[id].count <= cfg.maxRepresentments
    ensures var w' := StepProc(cfg, w, id, GO);
            && Inv(cfg, w') && DistinctPrefixes(w'.procs.Keys)
            && !w'.procs[id].point.Errored? && w'.procs[id].count <= cfg.maxRepresentments
            && Rank(cfg, w'.procs[id]) < Rank(cfg, w.procs[id])
  {
    assert id in w.queues && id in w.delivered;
    hide Inv, StepProc, StepTransition, Rank, Prefix, Patience, TraceKey;
    NoHitIn(cfg, w, id);
    RunKeeps(cfg, w, id, GO);
    StepRank(cfg, w, id, GO);
    FaultFreeStep(cfg, w, id, GO);
    Unblocked(cfg, w, id);
  }

  lemma Unblocked(cfg: Config, w: World, id: PaymentID)
    requires Inv(cfg, w) && Running(w, id) && id in w.queues && id in w.delivered && !w.procs[id].hit
    requires w.clock >= Patience(w.procs[id])
    ensures StepProc(cfg, w, id, GO).procs[id] != w.procs[id]
  {
    hide Inv, Patience, StepLoopTop, StepCheck, StepStore, StepSend, StepOpenWindow, StepWait, StepSleep, StepTransition;
    if Transition(w.procs[id].point).Some? {
      TransitionMoves(cfg, w, id);
    } else {
      WakesUp(cfg, w, id);
    }
  }

  lemma OneStep(cfg: Config, w: World, a: Action)
    ensures Exec(cfg, w, [a]) == Do(cfg, w, a)
  {
    hide Do;
    assert [a][..0] == [];
    assert Exec(cfg, w, []) == w;
  }

  /** Let enough time pass and take one step. */
  lemma WaitAndMove(cfg: Config, w: World, id: PaymentID) returns (actions: seq<Action>)
    requires Inv(cfg, w) && DistinctPrefixes(w.procs.Keys) && Running(w, id)
    ensures var w' := Exec(cfg, w, actions);
            && Inv(cfg, w') && DistinctPrefixes(w'.procs.Keys) && id in w'.procs
            && !w'.procs[id].point.Errored?
            && w.procs[id].count <= cfg.maxRepresentments && w'.procs[id].count <= cfg.maxRepresentments
            && Rank(cfg, w'.procs[id]) < Rank(cfg, w.procs[id])
  {
    hide Inv, StepProc, Rank, Exec, DistinctPrefixes, Patience;
    var tick, run := Tick(Patience(w.procs[id])), Run(id, GO);
    var w1 := Do(cfg, w, tick);
    DoKeeps(cfg, w, tick);
    FaultFreeMove(cfg, w1, id);
    OneStep(cfg, w, tick);
    OneStep(cfg, w1, run);
    ExecConcat(cfg, w, [tick], [run]);
    actions := [tick] + [run];
  }

  lemma {:induction false} CompleteFrom(cfg: Config, w: World, id: PaymentID) returns (actions: seq<Action>)
    requires Inv(cfg, w) && DistinctPrefixes(w.procs.Keys)
    requires id in w.procs && !w.procs[id].point.Errored?
    requires w.procs[id].count <= cfg.maxRepresentments
    ensures id in Exec(cfg, w, actions).procs && Exec(cfg, w, actions).procs[id].point.Completed?
    decreases Rank(cfg, w.procs[id])
  {
    hide Inv, Rank, DistinctPrefixes, Do;
    if w.procs[id].point.Completed? {
      actions := [];
    } else {
      var first := WaitAndMove(cfg, w, id);
      var rest := CompleteFrom(cfg, Exec(cfg, w, first), id);
      ExecConcat(cfg, w, first, rest);
      actions := first + rest;
    }
  }

  /** No reachable world is stuck: with distinct prefixes, any workflow that has not failed
      can still return nil, whatever faults and interleavings came before. */
  lemma CanComplete(cfg: Config, before: seq<Action>, id: PaymentID) returns (after: seq<Action>)
    requires DistinctPrefixes(Reach(cfg, before).procs.Keys)
    requires id in Reach(cfg, before).procs && !Reach(cfg, before).procs[id].point.Errored?
    ensures id in Reach(cfg, before + after).procs && Reach(cfg, before + after).procs[id].point.Completed?
  {
    hide Inv, DistinctPrefixes, Do;
    ReachInv(cfg, before);
    TimerCount(cfg, Reach(cfg, before), id);
    after := CompleteFrom(cfg, Reach(cfg, before), id);
    ExecConcat(cfg, InitialWorld(), before, after);
  }
}
