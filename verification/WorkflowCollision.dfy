/** What the idempotency check is worth without distinct prefixes: two runs that show it. */
module WorkflowCollision {
  import opened Wrappers
  import opened Rules
  import opened TraceNumbers
  import opened Store
  import opened Redis
  import opened Workflow
  import opened WorkflowInvariant
  import opened WorkflowProof
  import opened WorkflowRuns
  import opened WorkflowTheorems
  import opened WorkflowProgress

  lemma Extend(cfg: Config, actions: seq<Action>, a: Action)
    ensures Reach(cfg, actions + [a]) == Do(cfg, Reach(cfg, actions), a)
  {
    hide Do;
    assert (actions + [a])[..|actions|] == actions;
  }

  /** Payment `id` stands at this point with this stored state, on its first attempt. */
  predicate At(w: World, id: PaymentID, point: Point, state: PaymentState) {
    && id in w.procs && id in w.queues && id in w.delivered && id in w.db.payments
    && w.procs[id].point == point && w.procs[id].count == 0 && w.procs[id].attempt == 0
    && w.db.payments[id].state == state
    && (!point.Queueing? && !point.LoopTop? ==> w.procs[id].trace == GenerateTraceNumber(0, id, 0))
  }

  /** A fault-free step of `id` that leaves `other`, the clock and the stores alone. */
  ghost predicate Moved(w: World, w': World, id: PaymentID, other: PaymentID, point: Point, state: PaymentState) {
    && w'.clock == w.clock && At(w', id, point, state)
    && (forall p, s :: At(w, other, p, s) ==> At(w', other, p, s))
  }

  lemma MoveKeepsOther(w: World, w': World, id: PaymentID, other: PaymentID)
    requires OnlyOwn(w, w', id) && other != id
    ensures forall p, s :: At(w, other, p, s) ==> At(w', other, p, s)
  {
  }

  lemma QueueStep(cfg: Config, w: World, id: PaymentID, other: PaymentID)
    requires At(w, id, Queueing, Initiated) && other != id
    ensures var w' := Do(cfg, w, Run(id, GO));
            Moved(w, w', id, other, LoopTop, Pending) && w'.redis == w.redis && w'.ach == w.ach
  {
    MoveKeepsOther(w, Do(cfg, w, Run(id, GO)), id, other);
  }

  lemma TopStep(cfg: Config, w: World, id: PaymentID, other: PaymentID)
    requires At(w, id, LoopTop, Pending) && other != id && w.clock == 0
    ensures var w' := Do(cfg, w, Run(id, GO));
            Moved(w, w', id, other, Checking, Pending) && w'.redis == w.redis && w'.ach == w.ach
  {
    hide GenerateTraceNumber;
    MoveKeepsOther(w, Do(cfg, w, Run(id, GO)), id, other);
  }

  lemma CheckStep(cfg: Config, w: World, id: PaymentID, other: PaymentID)
    requires At(w, id, Checking, Pending) && other != id
    ensures var w' := Do(cfg, w, Run(id, GO));
            && w'.redis == w.redis && w'.ach == w.ach
            && (if Exists(w.redis, TraceKey(w.procs[id].trace), w.clock) then id in w'.procs && w'.procs[id].hit
                else Moved(w, w', id, other, Storing, Pending))
  {
    hide GenerateTraceNumber, Exists, TraceKey;
    MoveKeepsOther(w, Do(cfg, w, Run(id, GO)), id, other);
  }

  lemma StoreStep(cfg: Config, w: World, id: PaymentID, other: PaymentID)
    requires At(w, id, Storing, Pending) && other != id
    ensures var w' := Do(cfg, w, Run(id, GO));
            Moved(w, w', id, other, Submitting, Pending) && w'.redis == StoreTraceNumber(w.redis, w.procs[id].trace, w.clock) && w'.ach == w.ach
  {
    hide GenerateTraceNumber, StoreTraceNumber;
    MoveKeepsOther(w, Do(cfg, w, Run(id, GO)), id, other);
  }

  lemma SubmitStep(cfg: Config, w: World, id: PaymentID, other: PaymentID)
    requires At(w, id, Submitting, Pending) && other != id
    ensures var w' := Do(cfg, w, Run(id, GO));
            Moved(w, w', id, other, Sending, Submitted) && w'.ach == w.ach
  {
    hide GenerateTraceNumber;
    MoveKeepsOther(w, Do(cfg, w, Run(id, GO)), id, other);
  }

  lemma SendStep(cfg: Config, w: World, id: PaymentID, other: PaymentID)
    requires At(w, id, Sending, Submitted) && other != id
    ensures var w' := Do(cfg, w, Run(id, GO));
            Moved(w, w', id, other, OpeningWindow, Submitted) && w'.ach == w.ach + [Submission(id, 0, GenerateTraceNumber(0, id, 0))]
  {
    hide GenerateTraceNumber;
    MoveKeepsOther(w, Do(cfg, w, Run(id, GO)), id, other);
  }

  /** Both payments exist, are started and have generated a trace number in second 0. */
  lemma BothChecking(cfg: Config, a: PaymentID, b: PaymentID) returns (actions: seq<Action>)
    requires a != b
    ensures var w := Reach(cfg, actions);
            At(w, a, Checking, Pending) && At(w, b, Checking, Pending) && w.clock == 0 && w.redis == map[] && w.ach == []
            && w.procs.Keys == {a, b}
  {
    actions := BothStarted(cfg, a, b);
    hide At, Do, Reach, Moved;
    actions := BothOnce(cfg, actions, a, b, Queueing, Initiated, LoopTop, Pending);
    actions := BothOnce(cfg, actions, a, b, LoopTop, Pending, Checking, Pending);
  }

  lemma BothStarted(cfg: Config, a: PaymentID, b: PaymentID) returns (actions: seq<Action>)
    requires a != b
    ensures var w := Reach(cfg, actions);
            At(w, a, Queueing, Initiated) && At(w, b, Queueing, Initiated) && w.clock == 0 && w.redis == map[] && w.ach == []
            && w.procs.Keys == {a, b}
  {
    var s := [Create(a, Report)];
    Extend(cfg, [], s[0]);
    assert [] + s == s;
    hide Reach;
    Extend(cfg, s, Create(b, Report));
    Extend(cfg, s + [Create(b, Report)], Start(a));
    Extend(cfg, s + [Create(b, Report)] + [Start(a)], Start(b));
    actions := s + [Create(b, Report)] + [Start(a)] + [Start(b)];
  }

  lemma BothOnce(cfg: Config, before: seq<Action>, a: PaymentID, b: PaymentID, p: Point, s: PaymentState, p': Point,
                 s': PaymentState) returns (actions: seq<Action>)
    requires var w := Reach(cfg, before);
             At(w, a, p, s) && At(w, b, p, s) && w.clock == 0 && w.procs.Keys == {a, b} && a != b
    requires (p == Queueing && s == Initiated && p' == LoopTop && s' == Pending) || (p == LoopTop && s == Pending && p' == Checking && s' == Pending)
    ensures var w, w' := Reach(cfg, before), Reach(cfg, actions);
            At(w', a, p', s') && At(w', b, p', s') && w'.clock == 0 && w'.redis == w.redis && w'.ach == w.ach
            && w'.procs.Keys == {a, b}
  {
    hide At, Do, Reach;
    var w := Reach(cfg, before);
    var w1 := Do(cfg, w, Run(a, GO));
    if p == Queueing {
      QueueStep(cfg, w, a, b);
      QueueStep(cfg, w1, b, a);
    } else {
      TopStep(cfg, w, a, b);
      TopStep(cfg, w1, b, a);
    }
    SameProcs(cfg, w, a);
    SameProcs(cfg, w1, b);
    Extend(cfg, before, Run(a, GO));
    Extend(cfg, before + [Run(a, GO)], Run(b, GO));
    actions := before + [Run(a, GO)] + [Run(b, GO)];
  }

  lemma SameProcs(cfg: Config, w: World, id: PaymentID)
    ensures Do(cfg, w, Run(id, GO)).procs.Keys == w.procs.Keys
  {
    hide StepProc;
    if id in w.procs && id in w.queues && id in w.delivered {
      assert OnlyOwn(w, StepProc(cfg, w, id, GO), id);
    }
  }

  /** Same prefix, same second: the later check reports a hit, and that payment is stuck. */
  lemma HitWithoutDistinctPrefixes(cfg: Config, a: PaymentID, b: PaymentID) returns (actions: seq<Action>)
    requires a != b && Prefix(a) == Prefix(b)
    ensures var w := Reach(cfg, actions);
            w.procs.Keys == {a, b} && w.procs[b].hit
  {
    var s := BothChecking(cfg, a, b);
    assert GenerateTraceNumber(0, a, 0) == GenerateTraceNumber(0, b, 0);
    hide GenerateTraceNumber, Do, Reach, TraceKey;
    var w0 := Reach(cfg, s);
    var w1 := Do(cfg, w0, Run(a, GO));
    CheckStep(cfg, w0, a, b);
    var w2 := Do(cfg, w1, Run(a, GO));
    StoreStep(cfg, w1, a, b);
    assert At(w2, b, Checking, Pending);
    CheckStep(cfg, w2, b, a);
    Extend(cfg, s, Run(a, GO));
    Extend(cfg, s + [Run(a, GO)], Run(a, GO));
    Extend(cfg, s + [Run(a, GO)] + [Run(a, GO)], Run(b, GO));
    SameProcs(cfg, w0, a);
    SameProcs(cfg, w1, a);
    SameProcs(cfg, w2, b);
    actions := s + [Run(a, GO)] + [Run(a, GO)] + [Run(b, GO)];
  }

  /** Both check before either stores: the check passes twice, SET NX reports nothing, and
      one trace number is submitted for two payments. */
  lemma DoubleSubmissionWithoutDistinctPrefixes(cfg: Config, a: PaymentID, b: PaymentID) returns (actions: seq<Action>)
    requires a != b && Prefix(a) == Prefix(b)
    ensures var ach := Reach(cfg, actions).ach;
            |ach| == 2 && ach[0].id == a && ach[1].id == b && ach[0].trace == ach[1].trace
  {
    var s0 := BothChecking(cfg, a, b);
    assert GenerateTraceNumber(0, a, 0) == GenerateTraceNumber(0, b, 0);
    hide GenerateTraceNumber, Do, Reach, TraceKey, At;
    var s1 := BothPast(cfg, s0, a, b);
    var s2 := SendAfterCheck(cfg, s1, a, b);
    actions := SendAfterCheck(cfg, s2, b, a);
  }

  lemma BothPast(cfg: Config, before: seq<Action>, a: PaymentID, b: PaymentID) returns (actions: seq<Action>)
    requires var w := Reach(cfg, before);
             At(w, a, Checking, Pending) && At(w, b, Checking, Pending) && w.redis == map[] && w.ach == [] && a != b
    ensures var w := Reach(cfg, actions);
            At(w, a, Storing, Pending) && At(w, b, Storing, Pending) && w.ach == []
  {
    hide GenerateTraceNumber, Do, Reach, TraceKey;
    var w := Reach(cfg, before);
    CheckStep(cfg, w, a, b);
    var w1 := Do(cfg, w, Run(a, GO));
    assert At(w1, b, Checking, Pending);
    CheckStep(cfg, w1, b, a);
    assert At(Do(cfg, w1, Run(b, GO)), a, Storing, Pending);
    Extend(cfg, before, Run(a, GO));
    Extend(cfg, before + [Run(a, GO)], Run(b, GO));
    actions := before + [Run(a, GO)] + [Run(b, GO)];
  }

  lemma SendAfterCheck(cfg: Config, before: seq<Action>, id: PaymentID, other: PaymentID) returns (actions: seq<Action>)
    requires At(Reach(cfg, before), id, Storing, Pending) && id != other
    ensures Reach(cfg, actions).ach == Reach(cfg, before).ach + [Submission(id, 0, GenerateTraceNumber(0, id, 0))]
    ensures At(Reach(cfg, before), other, Storing, Pending) ==> At(Reach(cfg, actions), other, Storing, Pending)
  {
    hide At, Do, Reach, GenerateTraceNumber;
    var run := Run(id, GO);
    var w0 := Reach(cfg, before);
    StoreStep(cfg, w0, id, other);
    var w1 := Do(cfg, w0, run);
    SubmitStep(cfg, w1, id, other);
    var w2 := Do(cfg, w1, run);
    SendStep(cfg, w2, id, other);
    Extend(cfg, before, run);
    Extend(cfg, before + [run], run);
    Extend(cfg, before + [run] + [run], run);
    actions := before + [run] + [run] + [run];
  }

  /** Exactly when the check is idle: for a set of payments, no run of them ever meets a
      hit if and only if their prefixes are pairwise distinct. */
  lemma NoHitIffDistinctPrefixes(cfg: Config, ids: set<PaymentID>)
    ensures DistinctPrefixes(ids) <==>
            forall actions, id :: Reach(cfg, actions).procs.Keys <= ids && id in Reach(cfg, actions).procs
              ==> !Reach(cfg, actions).procs[id].hit
  {
    hide Reach, Prefix;
    if DistinctPrefixes(ids) {
      forall actions, id | Reach(cfg, actions).procs.Keys <= ids && id in Reach(cfg, actions).procs
        ensures !Reach(cfg, actions).procs[id].hit
      {
        assert actions[..|actions|] == actions;
        NoHit(cfg, actions, |actions|, id);
      }
    } else {
      var a, b :| a in ids && b in ids && a != b && Prefix(a) == Prefix(b);
      var actions := HitWithoutDistinctPrefixes(cfg, a, b);
      assert b in Reach(cfg, actions).procs;
    }
  }
}
