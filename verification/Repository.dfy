/** The persistence layer (internal/db/repository.go) over a mutable database. */
module Repository {
  import opened Wrappers
  import opened Decimal
  import opened Rules
  import opened TraceNumbers
  import S = Store
  import opened Store

  const NIL_ID: PaymentID := "00000000-0000-0000-0000-000000000000"

  /** A payment in memory: what the caller last read, or is about to create. */
  class Payment {
    var id: PaymentID
    var state: PaymentState
    var createdAt: int
    var updatedAt: int
    var settledAt: Option<int>
    var failedAt: Option<int>

    constructor (id: PaymentID, row: PaymentRow)
      ensures this.id == id && Row() == row
    {
      this.id := id;
      state, createdAt, updatedAt, settledAt, failedAt := row.state, row.createdAt, row.updatedAt, row.settledAt, row.failedAt;
    }

    function Row(): PaymentRow
      reads this
    {
      PaymentRow(state, createdAt, updatedAt, settledAt, failedAt)
    }
  }

  /** An error, or a payment, or a nil payment when there is no such row. */
  datatype ReadResult = ReadFailed | Read(payment: Payment?)

  class Repository {
    var payments: map<PaymentID, PaymentRow>
    var auditLog: seq<AuditEntry>

    constructor ()
      ensures Contents() == Database(map[], [])
    {
      payments, auditLog := map[], [];
    }

    function Contents(): Database
      reads this
    {
      Database(payments, auditLog)
    }

    /** `generated` is the UUID made up when the caller passes none. The insert fails if the
        id is taken; the two creation times are set on the struct either way. */
    method CreatePayment(p: Payment, generated: PaymentID, now: int, attempt: Attempt) returns (ok: bool)
      modifies this, p
      ensures p.id == (if old(p.id) == NIL_ID then generated else old(p.id))
      ensures p.Row() == old(p.Row()).(createdAt := now, updatedAt := now)
      ensures (Contents(), ok) == S.CreatePayment(old(Contents()), p.id, p.Row(), attempt)
      ensures auditLog == old(auditLog)
      ensures payments == if attempt != FailBefore && p.id !in old(payments) then old(payments)[p.id := p.Row()] else old(payments)
      ensures ok <==> attempt == Report && p.id !in old(payments)
    {
      if p.id == NIL_ID {
        p.id := generated;
      }
      p.createdAt, p.updatedAt := now, now;
      if attempt == FailBefore || p.id in payments {
        return false;
      }
      payments := payments[p.id := p.Row()];
      ok := attempt == Report;
    }

    /** Both writes or neither; the struct follows only if the commit is reported. */
    method UpdatePaymentState(p: Payment, toState: PaymentState, reason: string, now: int, attempt: Attempt) returns (ok: bool)
      modifies this, p
      ensures (Contents(), ok) == S.UpdatePaymentState(old(Contents()), old(p.id), old(p.state), toState, reason, now, attempt)
      ensures var id := old(p.id);
              if IsTransitionAllowed(old(p.state), toState) && attempt != FailBefore && id in old(payments) then
                && auditLog == old(auditLog) + [AuditEntry(id, old(p.state), toState, reason, now)]
                && id in payments && payments == old(payments)[id := payments[id]]
                && payments[id].state == toState && payments[id].updatedAt == now
                && payments[id].createdAt == old(payments)[id].createdAt
                && payments[id].settledAt == (if toState == Settled then Some(now) else old(payments)[id].settledAt)
                && payments[id].failedAt == (if IsFailureState(toState) then Some(now) else old(payments)[id].failedAt)
              else
                Contents() == old(Contents())
      ensures p.id == old(p.id) && p.createdAt == old(p.createdAt)
      ensures !ok ==> p.Row() == old(p.Row())
      ensures ok ==> p.state == toState && p.updatedAt == now
      ensures ok ==> p.settledAt == (if toState == Settled then Some(now) else old(p.settledAt))
      ensures ok ==> p.failedAt == (if IsFailureState(toState) then Some(now) else old(p.failedAt))
      ensures Consistent(old(Contents())) && old(p.id) in old(payments) && old(p.state) == old(payments)[old(p.id)].state ==> Consistent(Contents())
    {
      FreshUpdate(Contents(), p.id, p.state, toState, reason, now, attempt);
      if !IsTransitionAllowed(p.state, toState) {
        return false;
      }
      var settledAt: Option<int>, failedAt: Option<int> := None, None;
      match toState
      {
        case Settled => settledAt := Some(now);
        case FailedNonRetryable => failedAt := Some(now);
        case FailedRetryableExhausted => failedAt := Some(now);
        case ComplianceEscalation => failedAt := Some(now);
        case _ =>
      }
      if attempt == FailBefore || p.id !in payments {
        return false;
      }
      var row := payments[p.id];
      payments := payments[p.id := row.(state := toState, updatedAt := now,
                                        settledAt := Coalesce(settledAt, row.settledAt),
                                        failedAt := Coalesce(failedAt, row.failedAt))];
      auditLog := auditLog + [AuditEntry(p.id, p.state, toState, reason, now)];
      if attempt == LoseAck {
        return false;
      }
      p.state := toState;
      p.updatedAt := now;
      if settledAt.Some? {
        p.settledAt := settledAt;
      }
      if failedAt.Some? {
        p.failedAt := failedAt;
      }
      ok := true;
    }

    method GetPaymentByID(id: PaymentID, attempt: Attempt) returns (r: ReadResult)
      ensures attempt != Report ==> r.ReadFailed?
      ensures attempt == Report ==> r.Read? && (r.payment == null <==> id !in payments)
      ensures r.Read? && r.payment != null ==> fresh(r.payment) && r.payment.id == id && r.payment.Row() == payments[id]
    {
      if attempt != Report {
        return ReadFailed;
      }
      if id !in payments {
        return Read(null);
      }
      var p := new Payment(id, payments[id]);
      r := Read(p);
    }
  }

  lemma FreshUpdate(db: Database, id: PaymentID, from: PaymentState, to: PaymentState, reason: string, now: int, attempt: Attempt)
    ensures Consistent(db) && id in db.payments && from == db.payments[id].state ==>
              Consistent(S.UpdatePaymentState(db, id, from, to, reason, now, attempt).0)
  {
    if Consistent(db) && id in db.payments && from == db.payments[id].state {
      UpdateKeepsConsistent(db, id, to, reason, now, attempt);
    }
  }
}
