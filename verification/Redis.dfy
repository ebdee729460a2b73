/** The idempotency store as a value: keys with their expiry (internal/redis/client.go). */
module Redis {
  import opened Rules

  const TRACE_KEY_PREFIX := "ach:trace:"

  /** Seven days, in seconds. */
  const TRACE_TTL: nat := 7 * 24 * SECONDS_PER_HOUR

  /** A key stays in the map after its expiry; whether it is visible depends on the time. */
  type Keys = map<string, nat>

  function TraceKey(traceNumber: string): string {
    TRACE_KEY_PREFIX + traceNumber
  }

  lemma TraceKeyInjective(a: string, b: string)
    requires TraceKey(a) == TraceKey(b)
    ensures a == b
  {
    assert a == TraceKey(a)[|TRACE_KEY_PREFIX|..];
    assert b == TraceKey(b)[|TRACE_KEY_PREFIX|..];
  }

  predicate Exists(keys: Keys, key: string, now: nat) {
    key in keys && now < keys[key]
  }

  /** SET NX: an existing live key keeps its expiry. */
  function SetNX(keys: Keys, key: string, ttl: nat, now: nat): Keys {
    if Exists(keys, key, now) then keys else keys[key := now + ttl]
  }

  function StoreTraceNumber(keys: Keys, traceNumber: string, now: nat): Keys {
    SetNX(keys, TraceKey(traceNumber), TRACE_TTL, now)
  }
}
