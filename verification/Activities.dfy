/** The activities (internal/activities/activities.go): one attempt each. The attempt
    parameter is the environment's choice of fault. */
module Activities {
  import opened Wrappers
  import opened Rules
  import opened TraceNumbers
  import opened Store
  import opened Repository
  import RC = RedisClient
  import R = Redis
  import opened Workflow

  class Activities {
    const repo: Repository
    const redisClient: RC.Client
    /** The lines the gateway has seen. */
    var gateway: seq<Submission>

    constructor (repo: Repository, redisClient: RC.Client)
      ensures this.repo == repo && this.redisClient == redisClient && gateway == []
    {
      this.repo, this.redisClient := repo, redisClient;
      gateway := [];
    }

    /** Writes the transition unless it is already there. The source state the workflow
        passes is only logged. */
    method PersistStateTransition(paymentID: PaymentID, fromState: PaymentState, toState: PaymentState,
                                  reason: string, now: int, attempt: Attempt) returns (ok: bool)
      modifies repo
      ensures (repo.Contents(), ok) == PersistAttempt(old(repo.Contents()), paymentID, toState, reason, now, attempt)
      ensures ok ==> attempt == Report && paymentID in repo.payments && repo.payments[paymentID].state == toState
      ensures paymentID !in old(repo.payments) ==> !ok && repo.Contents() == old(repo.Contents())
      ensures Consistent(old(repo.Contents())) ==> Consistent(repo.Contents())
    {
      Keeps(repo.Contents(), paymentID, toState, reason, now, attempt);
      var got := repo.GetPaymentByID(paymentID, if attempt == FailBefore then FailBefore else Report);
      if got.ReadFailed? {
        return false;
      }
      var payment := got.payment;
      if payment == null {
        return false;  // the nil dereference panics; the attempt fails
      }
      if payment.state == toState {
        return attempt == Report;
      }
      ok := repo.UpdatePaymentState(payment, toState, reason, now, attempt);
    }

    /** None if the attempt failed, otherwise AlreadySubmitted. */
    method CheckIdempotency(traceNumber: string, now: nat, attempt: Attempt) returns (r: Option<bool>)
      ensures r == if attempt == Report then Some(R.Exists(redisClient.keys, R.TraceKey(traceNumber), now)) else None
    {
      var err := redisClient.CheckIdempotency(traceNumber, now, attempt);
      if err == RC.TraceExists {
        return Some(true);
      }
      if err != RC.NotSeen {
        return None;
      }
      r := Some(false);
    }

    method StoreTraceNumber(traceNumber: string, now: nat, attempt: Attempt) returns (ok: bool)
      modifies redisClient
      ensures redisClient.keys == if attempt == FailBefore then old(redisClient.keys) else R.StoreTraceNumber(old(redisClient.keys), traceNumber, now)
      ensures ok == (attempt == Report)
    {
      ok := redisClient.StoreTraceNumber(traceNumber, now, attempt);
    }

    /** `representment` tells the attempts of one payment apart in the record kept here. */
    method SubmitToACH(paymentID: PaymentID, representment: nat, traceNumber: string, attempt: Attempt) returns (ok: bool)
      modifies this
      ensures gateway == if attempt == FailBefore then old(gateway) else old(gateway) + [Submission(paymentID, representment, traceNumber)]
      ensures ok == (attempt == Report)
    {
      if attempt != FailBefore {
        gateway := gateway + [Submission(paymentID, representment, traceNumber)];
      }
      ok := attempt == Report;
    }
  }

  lemma Keeps(db: Database, id: PaymentID, to: PaymentState, reason: string, now: int, attempt: Attempt)
    ensures Consistent(db) ==> Consistent(PersistAttempt(db, id, to, reason, now, attempt).0)
  {
    if Consistent(db) {
      PersistAttemptKeepsConsistent(db, id, to, reason, now, attempt);
    }
  }
}
