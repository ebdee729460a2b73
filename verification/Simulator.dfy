/** The return simulator (internal/simulator/return_simulator.go): trace numbers, the
    print-and-parse check, and signals for the entries of a file. */
module Simulator {
  import opened Wrappers
  import opened Decimal
  import opened Text
  import opened TraceNumbers
  import opened Parser
  import opened ParserLaws
  import opened Generator
  import opened RoundTrip
  import opened RCodes
  import opened Workflow

  // ---- Trace numbers ---------------------------------------------------------

  function Odfi(routing: string): (odfi: string)
    ensures |odfi| == 8
  {
    if |routing| > 8 then routing[..8] else Repeat('0', 8 - |routing|) + routing
  }

  /** Seven digits from the payment's id, or from the clock if the id has fewer. */
  function Sequence(paymentID: string, nanos: nat): string
    requires nanos >= 1_000_000
  {
    var digits, ts := OnlyDigits(paymentID), Itoa(nanos);
    SevenDigits(nanos);
    if |digits| >= 7 then digits[..7] else ts[|ts| - 7..]
  }

  /** The routing part: the first eight characters, or all of a shorter one behind zeros. */
  predicate RoutingPart(routing: string, odfi: string) {
    && |odfi| == 8
    && (|routing| >= 8 ==> odfi == routing[..8])
    && (|routing| < 8 ==> odfi[8 - |routing|..] == routing && forall k :: 0 <= k < 8 - |routing| ==> odfi[k] == '0')
  }

  /** Increasing positions of digits, with no other digit before the last of them. */
  predicate DigitsAt(s: string, at: seq<nat>) {
    && (forall k :: 0 <= k < |at| ==> at[k] < |s| && IsDigit(s[at[k]]))
    && (forall k :: 0 < k < |at| ==> at[k - 1] < at[k])
    && (forall i :: 0 <= i < |s| && IsDigit(s[i]) && at != [] && i <= at[|at| - 1] ==> i in at)
  }

  /** The sequence part: the first seven digits of the id if it has seven, otherwise the last
      seven of the clock. */
  ghost predicate SequencePart(id: string, nanos: nat, digits: string) {
    && |digits| == 7
    && ((exists at: seq<nat> :: |at| == 7 && DigitsAt(id, at) && Picks(id, at, digits))
        || ((forall at: seq<nat> :: |at| == 7 ==> !DigitsAt(id, at)) && AllDigits(digits) && Val(digits) == nanos % 10_000_000))
  }

  predicate Picks(s: string, at: seq<nat>, t: string) {
    |t| == |at| && forall k :: 0 <= k < |at| ==> at[k] < |s| && t[k] == s[at[k]]
  }

  function DigitPositions(s: string): (at: seq<nat>)
    ensures forall k :: 0 <= k < |at| ==> at[k] < |s|
  {
    if s == [] then []
    else DigitPositions(s[..|s| - 1]) + if IsDigit(s[|s| - 1]) then [|s| - 1] else []
  }

  lemma {:induction false} PositionIsDigit(s: string, k: nat)
    requires k < |DigitPositions(s)|
    ensures IsDigit(s[DigitPositions(s)[k]])
    ensures k > 0 ==> DigitPositions(s)[k - 1] < DigitPositions(s)[k]
  {
    var n := |s| - 1;
    var before := DigitPositions(s[..n]);
    if k < |before| {
      PositionIsDigit(s[..n], k);
      assert s[..n][before[k]] == s[before[k]];
    }
  }

  lemma {:induction false} EveryDigitHasPosition(s: string, i: nat) returns (k: nat)
    requires i < |s| && IsDigit(s[i])
    ensures k < |DigitPositions(s)| && DigitPositions(s)[k] == i
  {
    var n := |s| - 1;
    if i < n {
      k := EveryDigitHasPosition(s[..n], i);
    } else {
      k := |DigitPositions(s)| - 1;
    }
  }

  /** OnlyDigits keeps exactly the digits, in order. */
  lemma {:induction false} OnlyDigitsByPosition(s: string)
    ensures Picks(s, DigitPositions(s), OnlyDigits(s))
  {
    hide IsDigit;
    if s != [] {
      OnlyDigitsByPosition(s[..|s| - 1]);
    }
  }

  lemma {:induction false} IncreasingPositions(at: seq<nat>, k: nat, m: nat)
    requires (forall k :: 0 < k < |at| ==> at[k - 1] < at[k]) && k < m < |at|
    ensures at[k] < at[m]
  {
    if k < m - 1 {
      IncreasingPositions(at, k, m - 1);
    }
  }

  lemma FirstDigits(s: string, n: nat)
    requires 0 < n <= |OnlyDigits(s)|
    ensures |DigitPositions(s)| == |OnlyDigits(s)|
    ensures DigitsAt(s, DigitPositions(s)[..n]) && Picks(s, DigitPositions(s)[..n], OnlyDigits(s)[..n])
  {
    hide OnlyDigits, DigitPositions, IsDigit;
    OnlyDigitsByPosition(s);
    var all := DigitPositions(s);
    forall k | 0 <= k < |all| ensures IsDigit(s[all[k]]) && (k > 0 ==> all[k - 1] < all[k]) {
      PositionIsDigit(s, k);
    }
    var at := all[..n];
    forall i | 0 <= i < |s| && IsDigit(s[i]) && i <= at[n - 1] ensures i in at {
      var k := EveryDigitHasPosition(s, i);
      if k >= n {
        IncreasingPositions(all, n - 1, k);
      }
      assert at[k] == i;
    }
  }

  lemma {:induction false} EnoughDigits(s: string, at: seq<nat>)
    requires (forall k :: 0 <= k < |at| ==> at[k] < |s| && IsDigit(s[at[k]])) && (forall k :: 0 < k < |at| ==> at[k - 1] < at[k])
    ensures |OnlyDigits(s)| >= |at|
  {
    if at != [] {
      var n, m := |s| - 1, |at| - 1;
      forall k | 0 <= k < m ensures at[k] < n && IsDigit(s[..n][at[k]]) {
        IncreasingPositions(at, k, m);
      }
      EnoughDigits(s[..n], if at[m] == n then at[..m] else at);
    }
  }

  lemma SequenceReads(id: string, nanos: nat)
    requires nanos >= 1_000_000
    ensures SequencePart(id, nanos, Sequence(id, nanos))
  {
    hide OnlyDigits, DigitPositions, IsDigit, Itoa, DigitsAt, Picks, Pow10, Val;
    SevenDigits(nanos);
    if |OnlyDigits(id)| >= 7 {
      FirstDigits(id, 7);
    } else {
      forall at: seq<nat> | |at| == 7 ensures !DigitsAt(id, at) {
        if DigitsAt(id, at) {
          TooFewDigits(id, at);
        }
      }
      ClockDigits(nanos);
    }
  }

  lemma TooFewDigits(id: string, at: seq<nat>)
    requires DigitsAt(id, at)
    ensures |OnlyDigits(id)| >= |at|
  {
    hide OnlyDigits;
    EnoughDigits(id, at);
  }

  lemma ClockDigits(nanos: nat)
    requires |Itoa(nanos)| >= 7
    ensures var digits := Itoa(nanos)[|Itoa(nanos)| - 7..];
            AllDigits(digits) && Val(digits) == nanos % 10_000_000
  {
    hide Itoa, Val;
    ValOfItoa(nanos);
    ValOfSuffix(Itoa(nanos), 7);
    assert Pow10(3) == 1000;
    assert Pow10(7) == 10 * Pow10(6) == 10 * (1000 * Pow10(3));
  }

  lemma SevenDigits(nanos: nat)
    requires nanos >= 1_000_000
    ensures |Itoa(nanos)| >= 7
  {
    ItoaLength(nanos, 6);
    assert Pow10(3) == 1000;
    assert Pow10(6) == 1000 * Pow10(3);
  }

  lemma {:induction false} OnlyDigitsPrefix(s: string, i: nat)
    requires i <= |s|
    ensures OnlyDigits(s[..i]) <= OnlyDigits(s)
  {
    if i < |s| {
      OnlyDigitsPrefix(s[..|s| - 1], i);
      assert s[..|s| - 1][..i] == s[..i];
    } else {
      assert s[..i] == s;
    }
  }

  lemma DigitsStep(s: string, i: nat)
    requires i < |s|
    ensures OnlyDigits(s[..i + 1]) == OnlyDigits(s[..i]) + if IsDigit(s[i]) then [s[i]] else []
  {
    assert s[..i + 1][..i] == s[..i];
  }

  /** The seven digits after the routing part. `nanos` is the wall clock, which has had
      seven digits since the first thousandth of a second of 1970. */
  method SequenceDigits(paymentID: PaymentID, nanos: nat) returns (digits: string)
    requires nanos >= 1_000_000
    ensures digits == Sequence(paymentID, nanos) && |digits| == 7 && AllDigits(digits)
    ensures SequencePart(paymentID, nanos, digits)
  {
    hide OnlyDigits, Itoa, SequencePart;
    SequenceReads(paymentID, nanos);
    SevenDigits(nanos);
    digits := "";
    var i := 0;
    assert paymentID[..0] == "" && OnlyDigits("") == "" by { NoDigits(); }
    while i < |paymentID|
      invariant 0 <= i <= |paymentID| && digits == OnlyDigits(paymentID[..i]) && |digits| < 7
    {
      var c := paymentID[i];
      DigitsStep(paymentID, i);
      i := i + 1;
      if IsDigit(c) {
        digits := digits + [c];
        if |digits| == 7 {
          break;
        }
      }
    }
    OnlyDigitsPrefix(paymentID, i);
    assert paymentID[..|paymentID|] == paymentID;
    while |digits| < 7
      invariant |digits| <= 7 && AllDigits(digits)
      invariant if |digits| == 7 then digits == Sequence(paymentID, nanos) else digits == OnlyDigits(paymentID)
      decreases 7 - |digits|
    {
      var ts := Itoa(nanos);
      digits := ts[|ts| - 7..];
    }
  }

  lemma NoDigits()
    ensures OnlyDigits("") == ""
  {
  }

  /** The first eight characters of the routing number, filled up with zeros on the left. */
  method OdfiDigits(routingNumber: string) returns (odfi: string)
    ensures odfi == Odfi(routingNumber) && RoutingPart(routingNumber, odfi)
  {
    odfi := routingNumber;
    if |odfi| > 8 {
      odfi := odfi[..8];
    }
    while |odfi| < 8
      invariant |odfi| <= 8
      invariant |routingNumber| > 8 ==> odfi == routingNumber[..8]
      invariant |routingNumber| <= 8 ==> |odfi| >= |routingNumber| && odfi == Repeat('0', |odfi| - |routingNumber|) + routingNumber
      decreases 8 - |odfi|
    {
      assert "0" + Repeat('0', |odfi| - |routingNumber|) == Repeat('0', |odfi| + 1 - |routingNumber|);
      odfi := "0" + odfi;
    }
  }

  /** Fifteen characters for every routing number and every id, digits if the routing is. */
  method BuildTraceNumber(routingNumber: string, paymentID: PaymentID, nanos: nat) returns (trace: string)
    requires nanos >= 1_000_000
    ensures trace == TraceFor(routingNumber, paymentID, nanos)
    ensures |trace| == 15 && (AllDigits(routingNumber) ==> AllDigits(trace))
    ensures TraceReads(trace, routingNumber, paymentID, nanos)
  {
    hide SequencePart, Sequence, RoutingPart;
    var digits := SequenceDigits(paymentID, nanos);
    var odfi := OdfiDigits(routingNumber);
    trace := odfi + digits;
  }

  ghost predicate TraceReads(trace: string, routing: string, id: PaymentID, nanos: nat) {
    |trace| == 15 && RoutingPart(routing, trace[..8]) && SequencePart(id, nanos, trace[8..])
  }

  function TraceFor(routingNumber: string, paymentID: PaymentID, nanos: nat): string
    requires nanos >= 1_000_000
  {
    Odfi(routingNumber) + Sequence(paymentID, nanos)
  }

  // ---- The check before signalling -------------------------------------------

  /** What postReturn accepts before it calls the simulator. */
  predicate ValidRequest(routing: string, account: string, amount: int, rCode: string) {
    && |routing| == 9 && AllDigits(routing)
    && 4 <= |account| <= 17 && AllDigits(account)
    && |rCode| == 3 && rCode[0] == 'R' && IsDigit(rCode[1]) && IsDigit(rCode[2])
    && amount > 0
  }

  datatype Outcome = Signalled | DoesNotParse | NoEntries | CodeMismatch | AmountMismatch | SignalFailed

  /** The verdict on a parsed file: None lets the signal go out. */
  function Check(parsed: ParseResult, rCode: string, amount: int): Option<Outcome> {
    if parsed.Rejected? then Some(DoesNotParse)
    else if parsed.entries == [] then Some(NoEntries)
    else if parsed.entries[0].rCode != rCode then Some(CodeMismatch)
    else if parsed.entries[0].amount != amount then Some(AmountMismatch)
    else None
  }

  /** What each failure says about the file that was printed and read back. */
  predicate Explains(outcome: Outcome, parsed: ParseResult, rCode: string, amount: int) {
    && (outcome == DoesNotParse <==> parsed.Rejected?)
    && (outcome == NoEntries <==> parsed == Parsed([]))
    && (outcome == CodeMismatch <==> parsed.Parsed? && parsed.entries != [] && parsed.entries[0].rCode != rCode)
    && (outcome == AmountMismatch <==>
        parsed.Parsed? && parsed.entries != [] && parsed.entries[0].rCode == rCode && parsed.entries[0].amount != amount)
  }

  /** For every accepted request the check passes if and only if the amount is below ten to
      the tenth; the only other verdict is an amount mismatch. When it passes, the parsed
      entry is the request, all five fields of it. */
  lemma CheckPassesIffAmountFits(r: Return, t: Stamp)
    requires ValidReturn(r) && ValidStamp(t)
    ensures Check(Parse(FileText(r, t)), r.rCode, r.amount) == (if r.amount < AMOUNT_LIMIT then None else Some(AmountMismatch))
    ensures r.amount < AMOUNT_LIMIT <==> Parse(FileText(r, t)) == Parsed([AsEntry(r)])
  {
    hide Parse, FileText;
    GeneratedFileParses(r, t);
    if r.amount >= AMOUNT_LIMIT {
      assert Expected(r) != AsEntry(r);
      assert [Expected(r)][0] != [AsEntry(r)][0];
    }
  }

  lemma RequestCheck(routing: string, account: string, amount: int, trace: string, rCode: string, t: Stamp)
    requires |routing| >= 9 && |trace| == 15 && (AllDigits(routing) ==> AllDigits(trace))
    ensures ValidRequest(routing, account, amount, rCode) && ValidStamp(t) ==>
              Check(Parse(FileText(Return(routing, account, amount, trace, rCode), t)), rCode, amount)
              == (if amount < AMOUNT_LIMIT then None else Some(AmountMismatch))
  {
    hide Parse, FileText, ValidStamp, Check;
    if ValidRequest(routing, account, amount, rCode) && ValidStamp(t) {
      CheckPassesIffAmountFits(Return(routing, account, amount, trace, rCode), t);
    }
  }

  // ---- Signals ---------------------------------------------------------------

  /** One accepted signal request: the workflow's id is the payment's. */
  datatype SentSignal = SentSignal(workflowID: PaymentID, sig: ReturnSignal)

  /** The client's connection. `accepts` says which of its calls the server takes. */
  class SignalClient {
    const accepts: nat -> bool
    var calls: nat
    var sent: seq<SentSignal>

    constructor (accepts: nat -> bool)
      ensures this.accepts == accepts && calls == 0 && sent == []
    {
      this.accepts := accepts;
      calls, sent := 0, [];
    }

    method SignalWorkflow(id: PaymentID, sig: ReturnSignal) returns (ok: bool)
      modifies this
      ensures ok == accepts(old(calls)) && calls == old(calls) + 1
      ensures sent == if ok then old(sent) + [SentSignal(id, sig)] else old(sent)
    {
      ok := accepts(calls);
      calls := calls + 1;
      if ok {
        sent := sent + [SentSignal(id, sig)];
      }
    }
  }

  /** The entries of a file that belong to known payments, as signal requests in file order. */
  function Requests(entries: seq<ReturnEntry>, paymentIDByTrace: map<string, PaymentID>): seq<SentSignal> {
    if entries == [] then []
    else
      var last := entries[|entries| - 1];
      Requests(entries[..|entries| - 1], paymentIDByTrace)
      + if last.traceNumber in paymentIDByTrace
        then [SentSignal(paymentIDByTrace[last.traceNumber], ReturnSignal(last.rCode, last.traceNumber))] else []
  }

  function KnownPositions(entries: seq<ReturnEntry>, ids: map<string, PaymentID>): (at: seq<nat>)
    ensures forall k :: 0 <= k < |at| ==> at[k] < |entries|
  {
    if entries == [] then []
    else
      var n := |entries| - 1;
      KnownPositions(entries[..n], ids) + if entries[n].traceNumber in ids then [n] else []
  }

  lemma {:induction false} RequestAt(entries: seq<ReturnEntry>, ids: map<string, PaymentID>, k: nat)
    requires k < |KnownPositions(entries, ids)|
    ensures |Requests(entries, ids)| == |KnownPositions(entries, ids)|
    ensures RequestFor(entries[KnownPositions(entries, ids)[k]], ids, Requests(entries, ids)[k])
    ensures k > 0 ==> KnownPositions(entries, ids)[k - 1] < KnownPositions(entries, ids)[k]
  {
    var n := |entries| - 1;
    var before := KnownPositions(entries[..n], ids);
    if k < |before| {
      RequestAt(entries[..n], ids, k);
      assert entries[..n][before[k]] == entries[before[k]];
    } else {
      RequestCount(entries[..n], ids);
    }
  }

  lemma {:induction false} RequestCount(entries: seq<ReturnEntry>, ids: map<string, PaymentID>)
    ensures |Requests(entries, ids)| == |KnownPositions(entries, ids)|
  {
    if entries != [] {
      RequestCount(entries[..|entries| - 1], ids);
    }
  }

  lemma {:induction false} KnownHasPosition(entries: seq<ReturnEntry>, ids: map<string, PaymentID>, i: nat) returns (k: nat)
    requires i < |entries| && entries[i].traceNumber in ids
    ensures k < |KnownPositions(entries, ids)| && KnownPositions(entries, ids)[k] == i
  {
    var n := |entries| - 1;
    if i < n {
      k := KnownHasPosition(entries[..n], ids, i);
    } else {
      k := |KnownPositions(entries, ids)| - 1;
    }
  }

  /** The signal an entry asks for. */
  predicate RequestFor(e: ReturnEntry, ids: map<string, PaymentID>, s: SentSignal) {
    && e.traceNumber in ids && s.workflowID == ids[e.traceNumber]
    && s.sig.rCode == e.rCode && s.sig.traceNumber == e.traceNumber
  }

  /** The requests are exactly the entries of known traces, each once and in file order, with
      the code the file gives it, the empty one included. */
  lemma RequestsByPosition(entries: seq<ReturnEntry>, ids: map<string, PaymentID>) returns (at: seq<nat>)
    ensures |at| == |Requests(entries, ids)| && forall k :: 0 < k < |at| ==> at[k - 1] < at[k]
    ensures forall i :: i in at <==> 0 <= i < |entries| && entries[i].traceNumber in ids
    ensures forall k :: 0 <= k < |at| ==> at[k] < |entries| && RequestFor(entries[at[k]], ids, Requests(entries, ids)[k])
  {
    hide Requests, KnownPositions;
    at := KnownPositions(entries, ids);
    RequestCount(entries, ids);
    forall k | 0 <= k < |at| ensures RequestFor(entries[at[k]], ids, Requests(entries, ids)[k]) && (k > 0 ==> at[k - 1] < at[k]) {
      RequestAt(entries, ids, k);
    }
    forall i | 0 <= i < |entries| && entries[i].traceNumber in ids ensures i in at {
      var k := KnownHasPosition(entries, ids, i);
      assert at[k] == i;
    }
  }

  /** How many of the next n calls succeed before one fails. */
  function Accepted(accepts: nat -> bool, calls: nat, n: nat): (k: nat)
    ensures k <= n && (forall i :: calls <= i < calls + k ==> accepts(i)) && (k < n ==> !accepts(calls + k))
  {
    if n == 0 then 0
    else
      var k := Accepted(accepts, calls, n - 1);
      if k == n - 1 && accepts(calls + k) then n else k
  }

  class ReturnSimulator {
    const client: SignalClient

    constructor (client: SignalClient)
      ensures this.client == client
    {
      this.client := client;
    }

    /** `t` and `nanos` are the wall clock. Shorter routing numbers make the source panic. */
    method SimulateReturn(paymentID: PaymentID, routing: string, account: string, amount: int, rCode: string,
                          t: Stamp, nanos: nat) returns (outcome: Outcome)
      requires |routing| >= 9 && nanos >= 1_000_000
      modifies client
      ensures var r := Return(routing, account, amount, TraceFor(routing, paymentID, nanos), rCode);
              var failed := Check(Parse(FileText(r, t)), rCode, amount);
              if failed.Some? then outcome == failed.value && client.sent == old(client.sent) && client.calls == old(client.calls)
              else if client.accepts(old(client.calls)) then
                outcome == Signalled && client.sent == old(client.sent) + [SentSignal(paymentID, ReturnSignal(rCode, r.trace))]
              else outcome == SignalFailed && client.sent == old(client.sent)
      ensures TraceReads(TraceFor(routing, paymentID, nanos), routing, paymentID, nanos)
      ensures Explains(outcome, Parse(FileText(Return(routing, account, amount, TraceFor(routing, paymentID, nanos), rCode), t)), rCode, amount)
      ensures ValidRequest(routing, account, amount, rCode) && ValidStamp(t) ==>
                (outcome == AmountMismatch <==> amount >= AMOUNT_LIMIT)
                && (amount < AMOUNT_LIMIT ==> outcome == Signalled || outcome == SignalFailed)
    {
      hide TraceFor, TraceReads, ValidStamp, ValidRequest, FileText, Parse, InColumns, RunLines, Lines, Finish, Means, AllDigits;
      var traceNumber := BuildTraceNumber(routing, paymentID, nanos);
      RequestCheck(routing, account, amount, traceNumber, rCode, t);
      var fileContent := GenerateReturnFile(Return(routing, account, amount, traceNumber, rCode), t);
      var parsed := ParseFile(fileContent);
      assert parsed == Parse(fileContent) by { ParseIs(fileContent); }
      if parsed.Rejected? {
        return DoesNotParse;
      }
      var entries := parsed.entries;
      if |entries| == 0 {
        return NoEntries;
      }
      if entries[0].rCode != rCode {
        return CodeMismatch;
      }
      if entries[0].amount != amount {
        return AmountMismatch;
      }
      var ok := client.SignalWorkflow(paymentID, ReturnSignal(rCode, traceNumber));
      outcome := if ok then Signalled else SignalFailed;
    }

    /** Signals go out in file order for the known traces, up to the first that fails. */
    method SimulateReturnFromFile(fileContent: string, paymentIDByTrace: map<string, PaymentID>) returns (outcome: Outcome)
      modifies client
      ensures Parse(fileContent).Rejected? ==>
                outcome == DoesNotParse && client.sent == old(client.sent) && client.calls == old(client.calls)
      ensures Parse(fileContent).Parsed? ==>
                var all := Requests(Parse(fileContent).entries, paymentIDByTrace);
                var k := Accepted(client.accepts, old(client.calls), |all|);
                client.sent == old(client.sent) + all[..k] && outcome == if k == |all| then Signalled else SignalFailed
    {
      hide Parse, Requests, Accepted, Means, RunLines, Finish, Lines;
      var parsed := ParseFile(fileContent);
      ParseIs(fileContent);
      if parsed.Rejected? {
        return DoesNotParse;
      }
      var entries := parsed.entries;
      ghost var all, start := Requests(entries, paymentIDByTrace), client.calls;
      ghost var done: seq<SentSignal> := [];
      RequestsOfNone(entries, paymentIDByTrace);
      for i := 0 to |entries|
        invariant done == Requests(entries[..i], paymentIDByTrace)
        invariant client.calls == start + |done| && client.sent == old(client.sent) + done
        invariant forall j :: start <= j < start + |done| ==> client.accepts(j)
      {
        var entry := entries[i];
        RequestsStep(entries, paymentIDByTrace, i);
        if entry.traceNumber !in paymentIDByTrace {
          continue;
        }
        var ok := client.SignalWorkflow(paymentIDByTrace[entry.traceNumber], ReturnSignal(entry.rCode, entry.traceNumber));
        if !ok {
          AcceptedIs(client.accepts, start, |all|, |done|);
          assert done == all[..|done|];
          return SignalFailed;
        }
        done := done + [SentSignal(paymentIDByTrace[entry.traceNumber], ReturnSignal(entry.rCode, entry.traceNumber))];
      }
      assert entries[..|entries|] == entries;
      AcceptedIs(client.accepts, start, |all|, |all|);
      assert done == all[..|all|];
      outcome := Signalled;
    }
  }

  lemma RequestsOfNone(entries: seq<ReturnEntry>, ids: map<string, PaymentID>)
    ensures Requests(entries[..0], ids) == []
  {
  }

  lemma ParseIs(content: string)
    ensures Parse(content) == Finish(RunLines(Lines(content)))
  {
  }

  lemma AcceptedIs(accepts: nat -> bool, calls: nat, n: nat, k: nat)
    requires k <= n && (forall i :: calls <= i < calls + k ==> accepts(i)) && (k < n ==> !accepts(calls + k))
    ensures Accepted(accepts, calls, n) == k
  {
  }

  lemma {:induction false} RequestsPrefix(entries: seq<ReturnEntry>, ids: map<string, PaymentID>, i: nat)
    requires i <= |entries|
    ensures Requests(entries[..i], ids) <= Requests(entries, ids)
  {
    if i < |entries| {
      RequestsPrefix(entries[..|entries| - 1], ids, i);
      assert entries[..|entries| - 1][..i] == entries[..i];
    } else {
      assert entries[..i] == entries;
    }
  }

  lemma RequestsStep(entries: seq<ReturnEntry>, ids: map<string, PaymentID>, i: nat)
    requires i < |entries|
    ensures var e := entries[i];
            Requests(entries[..i + 1], ids) == Requests(entries[..i], ids)
              + if e.traceNumber in ids then [SentSignal(ids[e.traceNumber], ReturnSignal(e.rCode, e.traceNumber))] else []
    ensures Requests(entries[..i], ids) <= Requests(entries, ids)
    ensures Requests(entries[..i + 1], ids) <= Requests(entries, ids)
  {
    assert entries[..i + 1][..i] == entries[..i];
    RequestsPrefix(entries, ids, i);
    RequestsPrefix(entries, ids, i + 1);
  }
}
