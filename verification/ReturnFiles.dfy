/** Where the two halves meet: the entries of a return file become workflow signals. */
module ReturnFiles {
  import opened Wrappers
  import opened TraceNumbers
  import opened RCodes
  import opened Parser
  import opened ParserLaws
  import opened Generator
  import opened RoundTrip
  import opened Simulator
  import opened Workflow

  function Deliveries(sent: seq<SentSignal>): seq<Action> {
    seq(|sent|, i requires 0 <= i < |sent| => Deliver(sent[i].workflowID, sent[i].sig))
  }

  /** The signals addressed to one workflow, in order. */
  function SignalsTo(sent: seq<SentSignal>, id: PaymentID): seq<ReturnSignal> {
    if sent == [] then []
    else
      var last := sent[|sent| - 1];
      SignalsTo(sent[..|sent| - 1], id) + if last.workflowID == id then [last.sig] else []
  }

  lemma DeliverOne(cfg: Config, w: World, s: SentSignal, id: PaymentID)
    requires Running(w, id) && id in w.queues && id in w.delivered
    ensures var w' := Do(cfg, w, Deliver(s.workflowID, s.sig));
            && w'.procs == w.procs && id in w'.queues && id in w'.delivered
            && w'.queues[id] == w.queues[id] + (if s.workflowID == id then [s.sig] else [])
  {
  }

  /** Signals arrive in the order they were sent, each in the queue it is addressed to. */
  lemma {:induction false} DeliveriesArrive(cfg: Config, w: World, sent: seq<SentSignal>, id: PaymentID)
    requires Running(w, id) && id in w.queues && id in w.delivered
    ensures var w' := Exec(cfg, w, Deliveries(sent));
            && w'.procs == w.procs && id in w'.queues && id in w'.delivered
            && w'.queues[id] == w.queues[id] + SignalsTo(sent, id)
  {
    hide Do;
    if sent == [] {
      assert Deliveries(sent) == [];
    } else {
      var n := |sent| - 1;
      var acts := Deliveries(sent);
      assert acts[..n] == Deliveries(sent[..n]);
      DeliveriesArrive(cfg, w, sent[..n], id);
      var w1 := Exec(cfg, w, acts[..n]);
      assert Running(w1, id);
      DeliverOne(cfg, w1, sent[n], id);
      assert acts[n] == Deliver(sent[n].workflowID, sent[n].sig);
    }
  }

  /** The returns of a batch that belong to one payment, as signals in batch order. */
  function ReturnsFor(batch: seq<(Return, Stamp)>, ids: map<string, PaymentID>, id: PaymentID): seq<ReturnSignal> {
    if batch == [] then []
    else
      var r := batch[|batch| - 1].0;
      ReturnsFor(batch[..|batch| - 1], ids, id) + if r.trace in ids && ids[r.trace] == id then [ReturnSignal(r.rCode, r.trace)] else []
  }

  lemma {:induction false} RequestsOfBatch(batch: seq<(Return, Stamp)>, ids: map<string, PaymentID>, id: PaymentID)
    requires ValidBatch(batch)
    ensures SignalsTo(Requests(ExpectedBatch(batch), ids), id) == ReturnsFor(batch, ids, id)
  {
    hide ValidReturn, ValidStamp;
    if batch != [] {
      var n := |batch| - 1;
      RequestsOfBatch(batch[..n], ids, id);
      var entries := ExpectedBatch(batch);
      assert entries[..n] == ExpectedBatch(batch[..n]);
      ValidHasAmount(batch[n].0);
      LastRequest(entries, ids, id);
    }
  }

  lemma LastRequest(entries: seq<ReturnEntry>, ids: map<string, PaymentID>, id: PaymentID)
    requires entries != []
    ensures var e := entries[|entries| - 1];
            SignalsTo(Requests(entries, ids), id) == SignalsTo(Requests(entries[..|entries| - 1], ids), id)
              + if e.traceNumber in ids && ids[e.traceNumber] == id then [ReturnSignal(e.rCode, e.traceNumber)] else []
  {
    var before := Requests(entries[..|entries| - 1], ids);
    var all := Requests(entries, ids);
    if all != before {
      assert all[..|before|] == before;
    }
  }

  /** End to end: parse the concatenated files of a batch, request the signals, deliver
      them. Each running workflow then has, behind what it had, exactly the returns of the
      batch that carry one of its trace numbers, codes included and in batch order. */
  lemma BatchReachesQueues(cfg: Config, w: World, batch: seq<(Return, Stamp)>, ids: map<string, PaymentID>, id: PaymentID)
    requires ValidBatch(batch) && Running(w, id) && id in w.queues && id in w.delivered
    ensures var parsed := Parse(BatchText(batch));
            && parsed.Parsed?
            && var w' := Exec(cfg, w, Deliveries(Requests(parsed.entries, ids)));
               id in w'.queues && w'.queues[id] == w.queues[id] + ReturnsFor(batch, ids, id)
  {
    hide Parse, BatchText, Do, Exec, ExpectedBatch, Requests, SignalsTo, ReturnsFor, Deliveries;
    BatchParses(batch);
    RequestsOfBatch(batch, ids, id);
    DeliveriesArrive(cfg, w, Requests(ExpectedBatch(batch), ids), id);
  }

  /** An entry that no addenda follows carries no code, and is not retried. */
  lemma NoAddendaIsNotRetried(records: seq<Record>, i: nat)
    requires i < |records| && IsEntry(records[i])
    requires i + 1 == |records| || !IsAddenda(records[i + 1])
    ensures Paired(records, i).rCode == "" && Category(Paired(records, i).rCode) == NonRetryable
  {
    RoutingMatchesTable("");
  }
}
