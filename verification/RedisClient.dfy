/** The idempotency store as an object shared by all activities (internal/redis/client.go). */
module RedisClient {
  import opened Rules
  import opened Store
  import R = Redis
  import opened Redis

  /** nil, ErrTraceExists, or a transient error. */
  datatype CheckResult = NotSeen | TraceExists | CheckFailed

  class Client {
    var keys: Keys

    constructor ()
      ensures keys == map[]
    {
      keys := map[];
    }

    method CheckIdempotency(traceNumber: string, now: nat, attempt: Attempt) returns (r: CheckResult)
      ensures r.CheckFailed? <==> attempt != Report
      ensures var key := "ach:trace:" + traceNumber;
              r.TraceExists? <==> attempt == Report && key in keys && now < keys[key]
    {
      if attempt != Report {
        return CheckFailed;
      }
      r := if Exists(keys, TraceKey(traceNumber), now) then TraceExists else NotSeen;
    }

    /** An existing live key is left alone, and that is not an error. */
    method StoreTraceNumber(traceNumber: string, now: nat, attempt: Attempt) returns (ok: bool)
      modifies this
      ensures keys == if attempt == FailBefore then old(keys) else R.StoreTraceNumber(old(keys), traceNumber, now)
      ensures ok == (attempt == Report)
      ensures var key := "ach:trace:" + traceNumber;
              attempt != FailBefore ==>
                keys == if key in old(keys) && now < old(keys)[key] then old(keys) else old(keys)[key := now + 604_800]
    {
      if attempt == FailBefore {
        return false;
      }
      var key := TraceKey(traceNumber);
      if !Exists(keys, key, now) {
        keys := keys[key := now + TRACE_TTL];
      }
      ok := attempt == Report;
    }
  }
}
