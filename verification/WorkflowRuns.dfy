/** The invariant holds in every world any run can reach. */
module WorkflowRuns {
  import opened Wrappers
  import opened Rules
  import opened TraceNumbers
  import opened Store
  import opened Redis
  import opened Workflow
  import opened WorkflowInvariant
  import opened WorkflowProof

  lemma RunKeeps(cfg: Config, w: World, id: PaymentID, e: Choice)
    requires Inv(cfg, w) && id in w.procs && id in w.queues && id in w.delivered
    ensures Inv(cfg, StepProc(cfg, w, id, e))
  {
    hide Inv, StepLoopTop, StepCheck, StepStore, StepSend, StepOpenWindow, StepWait, StepSleep, StepTransition;
    match w.procs[id].point
    case LoopTop => LoopTopKeeps(cfg, w, id);
    case Checking => CheckKeeps(cfg, w, id, e);
    case Storing => StoreKeeps(cfg, w, id, e);
    case Sending => SendKeeps(cfg, w, id, e);
    case OpeningWindow => OpenWindowKeeps(cfg, w, id, e);
    case Waiting(_) => WaitKeeps(cfg, w, id, e);
    case Sleeping(_) => SleepKeeps(cfg, w, id, e);
    case Completed =>
    case Errored =>
    case _ => TransitionKeeps(cfg, w, id, e);
  }

  lemma TickLocal(cfg: Config, id: PaymentID, p: Proc, v: View, clock: nat)
    requires LocalOk(cfg, id, p, v) && clock >= v.clock
    ensures LocalOk(cfg, id, p, v.(clock := clock))
  {
    hide TrailOk, QueueOk, TraceOk, WindowsOk, TimersOk;
  }

  lemma TickKeeps(cfg: Config, w: World, seconds: nat)
    requires Inv(cfg, w)
    ensures Inv(cfg, w.(clock := w.clock + seconds))
  {
    hide LocalOk, Consistent, KeyOk, SubmissionOk, Trail, HitExplained;
    var w' := w.(clock := w.clock + seconds);
    forall id | id in w'.procs ensures ProcOk(cfg, w', id) {
      assert ProcOk(cfg, w, id);
      TickLocal(cfg, id, w.procs[id], ViewOf(w, id), w'.clock);
    }
  }

  lemma CreateKeeps(cfg: Config, w: World, id: PaymentID, attempt: Attempt)
    requires Inv(cfg, w)
    ensures Inv(cfg, Do(cfg, w, Create(id, attempt)))
  {
    hide LocalOk, KeyOk, SubmissionOk, HitExplained, RowOk;
    var w' := Do(cfg, w, Create(id, attempt));
    CreateKeepsConsistent(w.db, id, w.clock, attempt);
    if w' != w {
      NoRows(w.db.audit, id);
      forall other | other in w'.procs ensures ProcOk(cfg, w', other) {
        assert ProcOk(cfg, w, other);
        assert ViewOf(w', other) == ViewOf(w, other);
      }
    }
  }

  lemma InitialLocal(cfg: Config, id: PaymentID, v: View)
    requires v.trail == [] && v.settledAt.None? && v.queue == [] && v.delivered == []
    ensures LocalOk(cfg, id, InitialProc(), v)
  {
  }

  lemma FreshNotSettled(db: Database, id: PaymentID)
    requires Consistent(db) && id in db.payments && Trail(db.audit, id) == []
    ensures db.payments[id].settledAt.None?
  {
    assert RowOk(db.payments[id], RowsOf(db.audit, id));
  }

  lemma StartExplains(procs: map<PaymentID, Proc>, id: PaymentID, other: PaymentID)
    requires id !in procs && other in procs && HitExplained(procs, other)
    ensures HitExplained(procs[id := InitialProc()], other)
  {
    if procs[other].hit {
      var x :| Collides(procs, other, procs[other].count, x);
      assert Collides(procs[id := InitialProc()], other, procs[other].count, x);
    }
  }

  lemma FreshExplained(procs: map<PaymentID, Proc>, id: PaymentID)
    requires id in procs && procs[id] == InitialProc()
    ensures HitExplained(procs, id)
  {
  }

  lemma StartProcs(cfg: Config, w: World, w': World, id: PaymentID)
    requires Inv(cfg, w) && id in w.db.payments && id !in w.procs && w' == Do(cfg, w, Start(id))
    ensures forall other :: other in w'.procs ==> Known(w', other) && ProcOk(cfg, w', other)
  {
    hide LocalOk, KeyOk, SubmissionOk, Consistent, Trail, HitExplained;
    FreshNotSettled(w.db, id);
    forall other | other in w'.procs ensures Known(w', other) && ProcOk(cfg, w', other) {
      if other == id {
        InitialLocal(cfg, id, ViewOf(w', id));
        FreshExplained(w'.procs, id);
      } else {
        assert ProcOk(cfg, w, other);
        assert ViewOf(w', other) == ViewOf(w, other);
        StartExplains(w.procs, id, other);
      }
    }
  }

  lemma StartKeys(procs: map<PaymentID, Proc>, id: PaymentID, redis: Keys)
    requires id !in procs && forall key :: key in redis ==> KeyOk(procs, key)
    ensures forall key :: key in redis ==> KeyOk(procs[id := InitialProc()], key)
  {
    forall key | key in redis ensures KeyOk(procs[id := InitialProc()], key) {
      var a, j :| StoredBy(procs, key, a, j);
      assert StoredBy(procs[id := InitialProc()], key, a, j);
    }
  }

  lemma StartSubmissions(w: World, id: PaymentID)
    requires id !in w.procs && forall s :: s in w.ach ==> SubmissionOk(w.procs, w.redis, w.db.audit, s)
    ensures forall s :: s in w.ach ==> SubmissionOk(w.procs[id := InitialProc()], w.redis, w.db.audit, s)
  {
    forall s | s in w.ach ensures SubmissionOk(w.procs[id := InitialProc()], w.redis, w.db.audit, s) {
      assert SubmissionOk(w.procs, w.redis, w.db.audit, s);
    }
  }

  lemma StartKeeps(cfg: Config, w: World, id: PaymentID)
    requires Inv(cfg, w)
    ensures Inv(cfg, Do(cfg, w, Start(id)))
  {
    hide ProcOk, Consistent, Trail, KeyOk, SubmissionOk;
    var w' := Do(cfg, w, Start(id));
    if id in w.db.payments && id !in w.procs {
      StartProcs(cfg, w, w', id);
      StartKeys(w.procs, id, w.redis);
      StartSubmissions(w, id);
    }
  }

  lemma DeliverLocal(cfg: Config, id: PaymentID, p: Proc, v: View, sig: ReturnSignal)
    requires LocalOk(cfg, id, p, v)
    ensures LocalOk(cfg, id, p, v.(queue := v.queue + [sig], delivered := v.delivered + [sig]))
  {
    hide WindowsOk, StampsOk, TimeOk, TimersOk, TrailOk, TraceOk;
    assert v.delivered + [sig] == Consumed(p.windows) + (v.queue + [sig]);
  }

  lemma DeliverKeeps(cfg: Config, w: World, id: PaymentID, sig: ReturnSignal)
    requires Inv(cfg, w)
    ensures Inv(cfg, Do(cfg, w, Deliver(id, sig)))
  {
    hide LocalOk, KeyOk, SubmissionOk, HitExplained, Consistent, Trail;
    var w' := Do(cfg, w, Deliver(id, sig));
    forall other | other in w'.procs ensures Known(w', other) && ProcOk(cfg, w', other) {
      assert ProcOk(cfg, w, other);
      if other == id {
        DeliverLocal(cfg, id, w.procs[id], ViewOf(w, id), sig);
      } else {
        assert ViewOf(w', other) == ViewOf(w, other);
      }
    }
  }

  lemma DoKeeps(cfg: Config, w: World, a: Action)
    requires Inv(cfg, w)
    ensures Inv(cfg, Do(cfg, w, a))
  {
    hide Inv;
    match a
    case Tick(seconds) => TickKeeps(cfg, w, seconds);
    case Create(id, attempt) => CreateKeeps(cfg, w, id, attempt);
    case Start(id) => StartKeeps(cfg, w, id);
    case Deliver(id, sig) => DeliverKeeps(cfg, w, id, sig);
    case Run(id, e) =>
      if id in w.procs && id in w.queues && id in w.delivered {
        RunKeeps(cfg, w, id, e);
      }
  }

  lemma {:induction false} ExecKeeps(cfg: Config, w: World, actions: seq<Action>)
    requires Inv(cfg, w)
    ensures Inv(cfg, Exec(cfg, w, actions))
  {
    hide Inv, Do;
    if actions != [] {
      ExecKeeps(cfg, w, actions[..|actions| - 1]);
      DoKeeps(cfg, Exec(cfg, w, actions[..|actions| - 1]), actions[|actions| - 1]);
    }
  }

  /** The world after any list of actions from the empty world. */
  function Reach(cfg: Config, actions: seq<Action>): World {
    Exec(cfg, InitialWorld(), actions)
  }

  /** Every reachable world satisfies the invariant. */
  lemma ReachInv(cfg: Config, actions: seq<Action>)
    ensures Inv(cfg, Reach(cfg, actions))
  {
    ExecKeeps(cfg, InitialWorld(), actions);
  }
}
