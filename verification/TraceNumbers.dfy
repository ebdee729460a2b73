/** The trace number the workflow generates for one submission attempt
    (internal/workflow/payment_workflow.go). */
module TraceNumbers {
  import opened Decimal

  /** The 36-character text of a UUID; which characters it holds does not matter here. */
  type PaymentID = s: string | |s| == 36 witness Repeat('0', 36)

  function Prefix(id: PaymentID): (p: string)
    ensures |p| == 8
  {
    id[..8]
  }

  function GenerateTraceNumber(representmentCount: nat, paymentID: PaymentID, unixTime: nat): string {
    "ACH-" + Prefix(paymentID) + "-r" + Itoa(representmentCount) + "-" + Itoa(unixTime)
  }

  /** A number's decimal text: digits only, with that value, no zero in front. */
  predicate IsDecimalOf(s: string, n: nat) {
    s != [] && AllDigits(s) && Val(s) == n && (|s| > 1 ==> s[0] != '0')
  }

  lemma {:induction false} ItoaIsDecimal(n: nat)
    ensures IsDecimalOf(Itoa(n), n)
  {
    ValOfItoa(n);
    if n >= 10 {
      ItoaIsDecimal(n / 10);
      if |Itoa(n / 10)| == 1 {
        assert Itoa(n / 10)[..0] == [];
      }
    }
  }

  /** The text in its parts: representment first, then the second. */
  lemma TraceByPosition(n: nat, id: PaymentID, t: nat)
    ensures var s := GenerateTraceNumber(n, id, t);
            && |s| > 14 && s[..4] == "ACH-" && s[4..12] == id[..8] && s[12..14] == "-r"
            && exists k :: 14 < k < |s| && s[k] == '-' && IsDecimalOf(s[14..k], n) && IsDecimalOf(s[k + 1..], t)
  {
    hide Itoa, IsDecimalOf;
    var s, k := GenerateTraceNumber(n, id, t), 14 + |Itoa(n)|;
    ItoaIsDecimal(n);
    ItoaIsDecimal(t);
    assert s[14..k] == Itoa(n) && s[k + 1..] == Itoa(t);
  }

  lemma DashSplits(a: string, b: string, a': string, b': string)
    requires AllDigits(a) && AllDigits(a')
    requires a + "-" + b == a' + "-" + b'
    ensures a == a' && b == b'
  {
    var s, s' := a + "-" + b, a' + "-" + b';
    assert s == a + ("-" + b) && s' == a' + ("-" + b');
    LeadingDigitsOf(a, "-" + b);
    LeadingDigitsOf(a', "-" + b');
    assert a == s[..|a|] && a' == s'[..|a'|];
    assert b == s[|a| + 1..] && b' == s'[|a'| + 1..];
  }

  /** Two trace numbers agree only if prefix, attempt and second all agree, although the
      two decimals have no fixed width. */
  lemma TraceInjective(n: nat, id: PaymentID, t: nat, n': nat, id': PaymentID, t': nat)
    requires GenerateTraceNumber(n, id, t) == GenerateTraceNumber(n', id', t')
    ensures Prefix(id) == Prefix(id') && n == n' && t == t'
  {
    var s, s' := GenerateTraceNumber(n, id, t), GenerateTraceNumber(n', id', t');
    assert Prefix(id) == s[4..12] && Prefix(id') == s'[4..12];
    assert s[14..] == Itoa(n) + "-" + Itoa(t) && s'[14..] == Itoa(n') + "-" + Itoa(t');
    DashSplits(Itoa(n), Itoa(t), Itoa(n'), Itoa(t'));
    ItoaInjective(n, n');
    ItoaInjective(t, t');
  }
}
