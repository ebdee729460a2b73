/** The contents of the payment database as a value: the payments table and the
    append-only audit log, with the transaction of internal/db/repository.go. */
module Store {
  import opened Wrappers
  import opened Rules
  import opened TraceNumbers

  datatype PaymentRow = PaymentRow(
    state: PaymentState,
    createdAt: int,
    updatedAt: int,
    settledAt: Option<int>,
    failedAt: Option<int>)

  datatype AuditEntry = AuditEntry(
    paymentID: PaymentID,
    fromState: PaymentState,
    toState: PaymentState,
    reason: string,
    createdAt: int)

  datatype Database = Database(payments: map<PaymentID, PaymentRow>, audit: seq<AuditEntry>)

  /** How one attempt of a remote operation ends: it fails before its effect, it takes
      effect and reports so, or it takes effect and its acknowledgement is lost. */
  datatype Attempt = FailBefore | Report | LoseAck

  // ---- Operations ------------------------------------------------------------

  function Coalesce(a: Option<int>, b: Option<int>): Option<int> {
    if a.Some? then a else b
  }

  /** The transaction: the row and its audit entry, both or neither. `from` is the state
      the caller last read, which the UPDATE statement does not compare. */
  function Commit(db: Database, id: PaymentID, from: PaymentState, to: PaymentState, reason: string, now: int): Database
    requires id in db.payments
  {
    var settledAt := if to == Settled then Some(now) else None;
    var failedAt := if IsFailureState(to) then Some(now) else None;
    var row := db.payments[id];
    var row' := row.(state := to, updatedAt := now,
                     settledAt := Coalesce(settledAt, row.settledAt),
                     failedAt := Coalesce(failedAt, row.failedAt));
    Database(db.payments[id := row'], db.audit + [AuditEntry(id, from, to, reason, now)])
  }

  function UpdatePaymentState(db: Database, id: PaymentID, from: PaymentState, to: PaymentState,
                              reason: string, now: int, attempt: Attempt): (Database, bool)
  {
    if !IsTransitionAllowed(from, to) then (db, false)
    else if attempt == FailBefore then (db, false)
    else if id !in db.payments then (db, false)
    else (Commit(db, id, from, to, reason, now), attempt == Report)
  }

  function CreatePayment(db: Database, id: PaymentID, row: PaymentRow, attempt: Attempt): (Database, bool) {
    if attempt == FailBefore || id in db.payments then (db, false)
    else (db.(payments := db.payments[id := row]), attempt == Report)
  }

  // ---- The audit log of one payment ------------------------------------------

  function RowsOf(audit: seq<AuditEntry>, id: PaymentID): seq<AuditEntry> {
    if audit == [] then []
    else
      var last := audit[|audit| - 1];
      RowsOf(audit[..|audit| - 1], id) + if last.paymentID == id then [last] else []
  }

  function ToStates(rows: seq<AuditEntry>): (trail: seq<PaymentState>)
    ensures |trail| == |rows|
  {
    seq(|rows|, i requires 0 <= i < |rows| => rows[i].toState)
  }

  function Trail(audit: seq<AuditEntry>, id: PaymentID): seq<PaymentState> {
    ToStates(RowsOf(audit, id))
  }

  lemma RowsOfAppend(audit: seq<AuditEntry>, e: AuditEntry, id: PaymentID)
    ensures RowsOf(audit + [e], id) == RowsOf(audit, id) + if e.paymentID == id then [e] else []
    ensures Trail(audit + [e], id) == Trail(audit, id) + if e.paymentID == id then [e.toState] else []
  {
    assert (audit + [e])[..|audit|] == audit;
  }

  /** Each row starts where the previous one ended, and follows an allowed edge. */
  predicate IsChain(rows: seq<AuditEntry>) {
    && IsPath(ToStates(rows))
    && forall i :: 0 <= i < |rows| ==> rows[i].fromState == Replay(ToStates(rows)[..i])
  }

  /** When the last row was written. */
  function LastWrite(rows: seq<AuditEntry>, created: int): int {
    if rows == [] then created else rows[|rows| - 1].createdAt
  }

  /** The database invariant for one payment: creation aside, the log alone determines the
      stored row, its three other times included. */
  predicate RowOk(row: PaymentRow, rows: seq<AuditEntry>) {
    && IsChain(rows)
    && row.state == Replay(ToStates(rows))
    && row.updatedAt == LastWrite(rows, row.createdAt)
    && row.settledAt == (if row.state == Settled then Some(row.updatedAt) else None)
    && row.failedAt == (if IsFailureState(row.state) then Some(row.updatedAt) else None)
  }

  ghost predicate Consistent(db: Database) {
    && (forall e :: e in db.audit ==> e.paymentID in db.payments)
    && (forall id :: id in db.payments ==> RowOk(db.payments[id], RowsOf(db.audit, id)))
  }

  function NewRow(now: int): PaymentRow {
    PaymentRow(Initiated, now, now, None, None)
  }

  lemma {:induction false} NoRows(audit: seq<AuditEntry>, id: PaymentID)
    requires forall e :: e in audit ==> e.paymentID != id
    ensures RowsOf(audit, id) == []
  {
    if audit != [] {
      assert audit[|audit| - 1] in audit;
      NoRows(audit[..|audit| - 1], id);
    }
  }

  lemma {:induction false} RowsBelong(audit: seq<AuditEntry>, id: PaymentID)
    ensures forall r :: r in RowsOf(audit, id) ==> r.paymentID == id && r in audit
  {
    if audit != [] {
      RowsBelong(audit[..|audit| - 1], id);
    }
  }

  lemma CreateKeepsConsistent(db: Database, id: PaymentID, now: int, attempt: Attempt)
    requires Consistent(db)
    ensures Consistent(CreatePayment(db, id, NewRow(now), attempt).0)
  {
    if id !in db.payments {
      NoRows(db.audit, id);
    }
  }

  /** A row stays well formed when its chain grows by the edge the row's own state allows. */
  lemma ChainExtends(row: PaymentRow, rows: seq<AuditEntry>, e: AuditEntry, row': PaymentRow)
    requires RowOk(row, rows)
    requires e.fromState == row.state && IsTransitionAllowed(row.state, e.toState)
    requires row'.state == e.toState && row'.updatedAt == e.createdAt
    requires row'.settledAt == (if e.toState == Settled then Some(e.createdAt) else row.settledAt)
    requires row'.failedAt == (if IsFailureState(e.toState) then Some(e.createdAt) else row.failedAt)
    ensures RowOk(row', rows + [e])
  {
    var trail, trail' := ToStates(rows), ToStates(rows + [e]);
    assert trail' == trail + [e.toState];
    assert forall i :: 0 <= i <= |trail| ==> trail'[..i] == trail[..i];
    assert trail[..|trail|] == trail;
    TerminalStates(row.state);
  }

  lemma CommitKeepsRow(db: Database, id: PaymentID, to: PaymentState, reason: string, now: int)
    requires id in db.payments && RowOk(db.payments[id], RowsOf(db.audit, id))
    requires IsTransitionAllowed(db.payments[id].state, to)
    ensures var db' := Commit(db, id, db.payments[id].state, to, reason, now);
            RowOk(db'.payments[id], RowsOf(db'.audit, id))
  {
    var row := db.payments[id];
    var e := AuditEntry(id, row.state, to, reason, now);
    var row' := Commit(db, id, row.state, to, reason, now).payments[id];
    RowsOfAppend(db.audit, e, id);
    ChainExtends(row, RowsOf(db.audit, id), e, row');
  }

  lemma CommitKeepsOthers(db: Database, id: PaymentID, from: PaymentState, to: PaymentState, reason: string, now: int, other: PaymentID)
    requires id in db.payments && other != id
    ensures var db' := Commit(db, id, from, to, reason, now);
            && RowsOf(db'.audit, other) == RowsOf(db.audit, other)
            && Trail(db'.audit, other) == Trail(db.audit, other)
            && (other in db'.payments <==> other in db.payments)
            && (other in db.payments ==> db'.payments[other] == db.payments[other])
  {
    RowsOfAppend(db.audit, AuditEntry(id, from, to, reason, now), other);
  }

  lemma CommitKeepsConsistent(db: Database, id: PaymentID, to: PaymentState, reason: string, now: int)
    requires Consistent(db) && id in db.payments && IsTransitionAllowed(db.payments[id].state, to)
    ensures Consistent(Commit(db, id, db.payments[id].state, to, reason, now))
  {
    hide RowOk, RowsOf, IsTransitionAllowed;
    var from := db.payments[id].state;
    var db' := Commit(db, id, from, to, reason, now);
    forall other | other in db'.payments
      ensures RowOk(db'.payments[other], RowsOf(db'.audit, other))
    {
      if other == id {
        CommitKeepsRow(db, id, to, reason, now);
      } else {
        CommitKeepsOthers(db, id, from, to, reason, now, other);
      }
    }
  }

  /** An update from a freshly read payment keeps the invariant, whatever the fault, and no
      update changes which payments there are or when any of them was created. */
  lemma UpdateKeepsConsistent(db: Database, id: PaymentID, to: PaymentState, reason: string, now: int, attempt: Attempt)
    requires Consistent(db) && id in db.payments
    ensures var db' := UpdatePaymentState(db, id, db.payments[id].state, to, reason, now, attempt).0;
            && Consistent(db') && db'.payments.Keys == db.payments.Keys
            && forall other :: other in db.payments ==> db'.payments[other].createdAt == db.payments[other].createdAt
  {
    hide Consistent, IsTransitionAllowed;
    if IsTransitionAllowed(db.payments[id].state, to) {
      CommitKeepsConsistent(db, id, to, reason, now);
    }
  }

  /** The gate checks the caller's copy of the state, not the stored one. A commit keeps
      the invariant if and only if that copy was current. */
  lemma CommitConsistentIffFresh(db: Database, id: PaymentID, from: PaymentState, to: PaymentState, reason: string, now: int)
    requires Consistent(db) && id in db.payments
    requires IsTransitionAllowed(from, to)
    ensures Consistent(UpdatePaymentState(db, id, from, to, reason, now, Report).0) <==> from == db.payments[id].state
  {
    var db' := UpdatePaymentState(db, id, from, to, reason, now, Report).0;
    if from == db.payments[id].state {
      UpdateKeepsConsistent(db, id, to, reason, now, Report);
    } else {
      var rows := RowsOf(db.audit, id);
      var e := AuditEntry(id, from, to, reason, now);
      RowsOfAppend(db.audit, e, id);
      assert ToStates(rows + [e])[..|rows|] == ToStates(rows);
      assert (rows + [e])[|rows|].fromState != Replay(ToStates(rows + [e])[..|rows|]);
      assert !IsChain(RowsOf(db'.audit, id));
    }
  }

  /** The log alone determines the state, and a settled or failed payment never moves again. */
  lemma LogExplainsState(db: Database, id: PaymentID)
    requires Consistent(db) && id in db.payments
    ensures db.payments[id].state == Replay(Trail(db.audit, id))
    ensures var row, rows := db.payments[id], RowsOf(db.audit, id);
            && row.updatedAt == (if rows == [] then row.createdAt else rows[|rows| - 1].createdAt)
            && (row.settledAt.Some? ==> rows != [] && row.settledAt.value == rows[|rows| - 1].createdAt)
            && (row.failedAt.Some? ==> rows != [] && row.failedAt.value == rows[|rows| - 1].createdAt)
    ensures db.payments[id].settledAt.Some? ==> forall to :: !IsTransitionAllowed(db.payments[id].state, to)
    ensures db.payments[id].failedAt.Some? ==> forall to :: !IsTransitionAllowed(db.payments[id].state, to)
    ensures !(db.payments[id].settledAt.Some? && db.payments[id].failedAt.Some?)
  {
    TerminalStates(db.payments[id].state);
  }

  // ---- PersistStateTransition ------------------------------------------------

  /** One attempt of the activity: read the row, do nothing if it is already in the target
      state, otherwise update from the state just read. A missing payment is dereferenced
      as nil, and the panic fails the attempt. */
  function PersistAttempt(db: Database, id: PaymentID, to: PaymentState, reason: string, now: int, attempt: Attempt): (Database, bool) {
    if attempt == FailBefore || id !in db.payments then (db, false)
    else if db.payments[id].state == to then (db, attempt == Report)
    else UpdatePaymentState(db, id, db.payments[id].state, to, reason, now, attempt)
  }

  /** The attempts of one call, in order, until one reports success. */
  function PersistCall(db: Database, id: PaymentID, to: PaymentState, reason: string, attempts: seq<(Attempt, int)>): (Database, bool)
    decreases |attempts|
  {
    if attempts == [] then (db, false)
    else
      var (db', ok) := PersistAttempt(db, id, to, reason, attempts[0].1, attempts[0].0);
      if ok then (db', true) else PersistCall(db', id, to, reason, attempts[1..])
  }

  lemma PersistAttemptKeepsConsistent(db: Database, id: PaymentID, to: PaymentState, reason: string, now: int, attempt: Attempt)
    requires Consistent(db)
    ensures Consistent(PersistAttempt(db, id, to, reason, now, attempt).0)
  {
    if id in db.payments {
      UpdateKeepsConsistent(db, id, to, reason, now, attempt);
    }
  }

  /** The number of attempts that fail before their effect, at the start of the list. */
  function FirstEffect(attempts: seq<(Attempt, int)>): (k: nat)
    ensures k <= |attempts| && forall i :: 0 <= i < k ==> attempts[i].0 == FailBefore
    ensures k < |attempts| ==> attempts[k].0 != FailBefore
  {
    if attempts == [] || attempts[0].0 != FailBefore then 0
    else
      var k := FirstEffect(attempts[1..]);
      assert forall i :: 0 < i < |attempts| ==> attempts[i] == attempts[1..][i - 1];
      1 + k
  }

  /** Exactly once in effect, for any number of attempts and any faults. The database after
      the call is the one before, or one commit later: once, at the time of the first attempt
      that takes effect, if there is one, the payment is in another state and the edge is
      allowed. Success is reported exactly if some attempt reports and the request was not
      refused. */
  lemma {:induction false} PersistExactlyOnce(db: Database, id: PaymentID, to: PaymentState, reason: string, attempts: seq<(Attempt, int)>)
    requires Consistent(db) && id in db.payments
    ensures var (db', ok) := PersistCall(db, id, to, reason, attempts);
            var from, k := db.payments[id].state, FirstEffect(attempts);
            && Consistent(db')
            && db' == (if from != to && IsTransitionAllowed(from, to) && k < |attempts| then Commit(db, id, from, to, reason, attempts[k].1) else db)
            && (ok <==> (from == to || IsTransitionAllowed(from, to)) && exists i :: 0 <= i < |attempts| && attempts[i].0 == Report)
            && (ok ==> id in db'.payments && db'.payments[id].state == to)
    decreases |attempts|
  {
    hide Consistent, IsTransitionAllowed;
    if attempts != [] {
      var (db1, ok1) := PersistAttempt(db, id, to, reason, attempts[0].1, attempts[0].0);
      PersistAttemptKeepsConsistent(db, id, to, reason, attempts[0].1, attempts[0].0);
      if !ok1 {
        PersistExactlyOnce(db1, id, to, reason, attempts[1..]);
        if attempts[0].0 != Report {
          LaterReports(attempts);
        }
      }
    }
  }

  lemma LaterReports(attempts: seq<(Attempt, int)>)
    requires attempts != [] && attempts[0].0 != Report
    ensures (exists i :: 0 <= i < |attempts| && attempts[i].0 == Report)
            <==> exists i :: 0 <= i < |attempts[1..]| && attempts[1..][i].0 == Report
  {
    if i :| 0 <= i < |attempts| && attempts[i].0 == Report {
      assert attempts[1..][i - 1].0 == Report;
    }
  }
}
