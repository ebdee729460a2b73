/** The payment state machine and the retry policy (internal/domain/rules.go, payment.go). */
module Rules {

  /** A lifecycle state. The source type is a string, so a stored value that is none
      of the eight named constants is representable. */
  datatype PaymentState =
    | Initiated
    | Pending
    | Submitted
    | Settled
    | FailedNonRetryable
    | FailedRetryableExhausted
    | ComplianceEscalation
    | Returned
    | Unrecognized(name: string)

  const MAX_REPRESENTMENTS: nat := 2

  const SECONDS_PER_HOUR: nat := 3600

  const AllowedTransitions: map<PaymentState, set<PaymentState>> := map[
    Initiated := {Pending},
    Pending := {Submitted, FailedNonRetryable},
    Submitted := {Settled, Returned, FailedNonRetryable, ComplianceEscalation},
    Returned := {Pending, FailedNonRetryable, FailedRetryableExhausted, ComplianceEscalation},
    Settled := {},
    FailedNonRetryable := {},
    FailedRetryableExhausted := {},
    ComplianceEscalation := {}
  ]

  predicate IsTransitionAllowed(from: PaymentState, to: PaymentState) {
    from in AllowedTransitions && to in AllowedTransitions[from]
  }

  predicate IsTerminalState(state: PaymentState) {
    state in AllowedTransitions && |AllowedTransitions[state]| == 0
  }

  /** The terminal states that stamp failed_at. */
  predicate IsFailureState(state: PaymentState) {
    state in {FailedNonRetryable, FailedRetryableExhausted, ComplianceEscalation}
  }

  /** Hours to wait before a return with this code is presented again. */
  function RetryDelayFor(rCode: string): (hours: nat)
    ensures hours == if rCode == "R09" then 48 else 24
  {
    match rCode
    case "R01" => 24
    case "R08" => 24
    case "R09" => 48
    case _ => 24
  }

  /** The state machine, edge by edge. */
  lemma EdgesByName(from: PaymentState, to: PaymentState)
    ensures IsTransitionAllowed(from, to) <==>
            || (from == Initiated && to == Pending)
            || (from == Pending && (to == Submitted || to == FailedNonRetryable))
            || (from == Submitted && (to == Settled || to == Returned || to == FailedNonRetryable || to == ComplianceEscalation))
            || (from == Returned && (to == Pending || to == FailedNonRetryable || to == FailedRetryableExhausted || to == ComplianceEscalation))
  {
  }

  lemma TerminalStates(s: PaymentState)
    ensures IsTerminalState(s) <==> s == Settled || IsFailureState(s)
    ensures IsTerminalState(s) ==> forall t :: !IsTransitionAllowed(s, t)
  {
    if s in AllowedTransitions && s !in {Settled, FailedNonRetryable, FailedRetryableExhausted, ComplianceEscalation} {
      assert Pending in AllowedTransitions[s] || Submitted in AllowedTransitions[s] || Settled in AllowedTransitions[s];
    }
  }

  // ---- Paths of the state machine -------------------------------------------

  /** The state after entering the states of `trail` one after another. */
  function Replay(trail: seq<PaymentState>): PaymentState {
    if trail == [] then Initiated else trail[|trail| - 1]
  }

  /** `trail` lists the states entered after Initiated, each along an allowed edge. */
  predicate IsPath(trail: seq<PaymentState>) {
    forall i :: 0 <= i < |trail| ==> IsTransitionAllowed(Replay(trail[..i]), trail[i])
  }

  function Entries(trail: seq<PaymentState>, s: PaymentState): nat {
    if trail == [] then 0
    else Entries(trail[..|trail| - 1], s) + if trail[|trail| - 1] == s then 1 else 0
  }

  /** What an allowed edge does to the three states of the cycle. */
  lemma Edge(from: PaymentState, to: PaymentState)
    requires IsTransitionAllowed(from, to)
    ensures !IsTerminalState(from) && to in AllowedTransitions
    ensures to == Pending ==> from == Initiated || from == Returned
    ensures to == Submitted ==> from == Pending
    ensures to == Returned ==> from == Submitted
    ensures from == Pending && !IsTerminalState(to) ==> to == Submitted
    ensures from == Submitted && !IsTerminalState(to) ==> to == Returned
  {
    TerminalStates(from);
    TerminalStates(to);
  }

  /** Conservation: a payment is queued at most once more than it was submitted, and
      submitted at most once more than it came back. A state that can still move has
      the exact difference. */
  lemma {:induction false} PathConservation(trail: seq<PaymentState>)
    requires IsPath(trail)
    ensures 0 <= Entries(trail, Pending) - Entries(trail, Submitted) <= 1
    ensures 0 <= Entries(trail, Submitted) - Entries(trail, Returned) <= 1
    ensures !IsTerminalState(Replay(trail)) ==>
              && Entries(trail, Pending) - Entries(trail, Submitted) == (if Replay(trail) == Pending then 1 else 0)
              && Entries(trail, Submitted) - Entries(trail, Returned) == (if Replay(trail) == Submitted then 1 else 0)
    ensures Replay(trail) in AllowedTransitions
  {
    hide IsTransitionAllowed, IsTerminalState;
    if trail != [] {
      var init := trail[..|trail| - 1];
      assert forall i :: 0 <= i < |init| ==> init[..i] == trail[..i];
      PathConservation(init);
      Edge(Replay(init), Replay(trail));
    }
  }

  /** A terminal state can only be the last state of a path. */
  lemma TerminalIsLast(trail: seq<PaymentState>)
    requires IsPath(trail)
    ensures forall i :: 0 <= i < |trail| - 1 ==> !IsTerminalState(trail[i])
  {
    forall i | 0 <= i < |trail| - 1 ensures !IsTerminalState(trail[i]) {
      TerminalStates(trail[i]);
      assert Replay(trail[..i + 1]) == trail[i];
      assert IsTransitionAllowed(Replay(trail[..i + 1]), trail[i + 1]);
    }
  }
}
