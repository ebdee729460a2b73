/** Decimal text: what fmt's %d prints and what fmt.Sscanf's %d reads back. */
module Decimal {
  import opened Wrappers

  predicate IsDigit(c: char) { '0' <= c <= '9' }

  predicate AllDigits(s: string) { forall i :: 0 <= i < |s| ==> IsDigit(s[i]) }

  function DigitChar(d: nat): (c: char)
    requires d < 10
    ensures IsDigit(c) && c as int == '0' as int + d
  {
    ('0' as int + d) as char
  }

  function DigitVal(c: char): (d: nat)
    requires IsDigit(c)
    ensures d < 10 && DigitChar(d) == c
  {
    c as int - '0' as int
  }

  function Pow10(k: nat): (p: nat)
    ensures p > 0
  {
    if k == 0 then 1 else 10 * Pow10(k - 1)
  }

  /** The digits of n, without leading zeros. */
  function Itoa(n: nat): (s: string)
    ensures |s| > 0 && AllDigits(s)
  {
    if n < 10 then [DigitChar(n)] else Itoa(n / 10) + [DigitChar(n % 10)]
  }

  function FormatInt(n: int): string {
    if n < 0 then "-" + Itoa(-n) else Itoa(n)
  }

  /** The number a digit string denotes; leading zeros are allowed. */
  function Val(s: string): nat
    requires AllDigits(s)
  {
    if s == [] then 0 else 10 * Val(s[..|s| - 1]) + DigitVal(s[|s| - 1])
  }

  function Repeat(c: char, n: nat): (s: string)
    ensures |s| == n && forall i :: 0 <= i < n ==> s[i] == c
  {
    seq(n, i => c)
  }

  lemma {:induction false} ValOfItoa(n: nat)
    ensures Val(Itoa(n)) == n
  {
    if n < 10 {
      assert Itoa(n)[..0] == [];
    } else {
      ValOfItoa(n / 10);
      assert Itoa(n)[..|Itoa(n)| - 1] == Itoa(n / 10);
    }
  }

  lemma ItoaInjective(m: nat, n: nat)
    requires Itoa(m) == Itoa(n)
    ensures m == n
  {
    ValOfItoa(m);
    ValOfItoa(n);
  }

  lemma {:induction false} ItoaLength(n: nat, k: nat)
    requires k > 0
    ensures |Itoa(n)| <= k <==> n < Pow10(k)
  {
    if n >= 10 && k > 1 {
      ItoaLength(n / 10, k - 1);
    } else {
      assert Pow10(k) == 10 * Pow10(k - 1);
    }
  }

  lemma {:induction false} ValOfZeros(k: nat, s: string)
    requires AllDigits(s)
    ensures AllDigits(Repeat('0', k) + s) && Val(Repeat('0', k) + s) == Val(s)
  {
    var t := Repeat('0', k) + s;
    if s != [] {
      ValOfZeros(k, s[..|s| - 1]);
      assert t[..|t| - 1] == Repeat('0', k) + s[..|s| - 1];
    } else if k > 0 {
      ValOfZeros(k - 1, s);
      assert t[..|t| - 1] == Repeat('0', k - 1) + s;
    }
  }

  /** Keeping the last w digits is reduction modulo 10^w. */
  lemma {:induction false} ValOfSuffix(s: string, w: nat)
    requires AllDigits(s) && w <= |s|
    ensures Val(s[|s| - w..]) == Val(s) % Pow10(w)
  {
    if w == 0 {
    } else {
      var init := s[..|s| - 1];
      ValOfSuffix(init, w - 1);
      var suffix := s[|s| - w..];
      assert suffix[..w - 1] == init[|init| - (w - 1)..];
      ModTimesTen(Val(init), DigitVal(s[|s| - 1]), Pow10(w - 1));
    }
  }

  lemma ModTimesTen(a: nat, d: nat, m: nat)
    requires m > 0 && d < 10
    ensures (10 * a + d) % (10 * m) == 10 * (a % m) + d
  {
    var q, r := a / m, a % m;
    assert 10 * a + d == q * (10 * m) + (10 * r + d);
    ModUnique(10 * a + d, 10 * m, q, 10 * r + d);
  }

  lemma ModUnique(x: nat, m: nat, q: nat, r: nat)
    requires m > 0 && r < m && x == q * m + r
    ensures x % m == r
  {
    var q', r' := x / m, x % m;
    assert x == q' * m + r';
    assert q' < q ==> q * m >= (q' + 1) * m;
    assert q < q' ==> q' * m >= (q + 1) * m;
  }

  lemma {:induction false} ValBound(s: string)
    requires AllDigits(s)
    ensures Val(s) < Pow10(|s|)
  {
    if s != [] {
      ValBound(s[..|s| - 1]);
    }
  }

  // ---- Reading an integer ----------------------------------------------------

  function LeadingDigits(s: string): (n: nat)
    ensures n <= |s| && AllDigits(s[..n])
    ensures n < |s| ==> !IsDigit(s[n])
  {
    if s == [] || !IsDigit(s[0]) then 0
    else
      var n := LeadingDigits(s[1..]);
      assert s[..1 + n] == [s[0]] + s[1..][..n];
      1 + n
  }

  lemma LeadingDigitsOf(a: string, rest: string)
    requires AllDigits(a)
    requires rest == [] || !IsDigit(rest[0])
    ensures LeadingDigits(a + rest) == |a|
  {
    var s := a + rest;
    var n := LeadingDigits(s);
    assert forall i :: 0 <= i < n ==> s[..n][i] == s[i];
    assert |a| < |s| ==> s[|a|] == rest[0];
  }

  /** An optional sign, then at least one digit; whatever follows the digits is ignored. */
  function ScanInt(s: string): Option<int> {
    var signed := s != [] && (s[0] == '+' || s[0] == '-');
    var rest := if signed then s[1..] else s;
    var n := LeadingDigits(rest);
    if n == 0 then None
    else if signed && s[0] == '-' then Some(-(Val(rest[..n]) as int))
    else Some(Val(rest[..n]))
  }

  lemma ScanDigits(s: string)
    requires s != [] && AllDigits(s)
    ensures ScanInt(s) == Some(Val(s))
  {
    var n := LeadingDigits(s);
    assert s[..|s|] == s;
  }

  /** An optional sign, a longest run of digits that is not empty, and anything after it. */
  predicate Denotes(s: string, n: int) {
    var start := if s != [] && (s[0] == '+' || s[0] == '-') then 1 else 0;
    exists k :: 0 <= k <= |s| && DigitRun(s, start, k) && n == if s[0] == '-' then -(Val(s[start..k]) as int) else Val(s[start..k])
  }

  predicate DigitRun(s: string, i: nat, j: nat) {
    i < j <= |s| && AllDigits(s[i..j]) && (j < |s| ==> !IsDigit(s[j]))
  }

  lemma DigitRunIs(s: string, i: nat, j: nat)
    requires DigitRun(s, i, j)
    ensures LeadingDigits(s[i..]) == j - i
  {
    assert s[i..] == s[i..j] + s[j..];
    LeadingDigitsOf(s[i..j], s[j..]);
  }

  lemma DenotesOnce(s: string, n: int)
    requires Denotes(s, n)
    ensures ScanInt(s) == Some(n)
  {
    hide Val, LeadingDigits;
    var start := if s != [] && (s[0] == '+' || s[0] == '-') then 1 else 0;
    var k :| 0 <= k <= |s| && DigitRun(s, start, k) && n == if s[0] == '-' then -(Val(s[start..k]) as int) else Val(s[start..k]);
    DigitRunIs(s, start, k);
    assert s[0..] == s;
    assert s[start..][..k - start] == s[start..k];
  }

  lemma ScannedDenotes(s: string, n: int)
    requires ScanInt(s) == Some(n)
    ensures Denotes(s, n)
  {
    hide Val, LeadingDigits;
    var start := if s != [] && (s[0] == '+' || s[0] == '-') then 1 else 0;
    assert s[0..] == s;
    var k := start + LeadingDigits(s[start..]);
    assert s[start..][..k - start] == s[start..k];
    assert DigitRun(s, start, k);
  }

  /** Reading succeeds exactly on texts that denote a number, and yields that number. */
  lemma ScanIff(s: string, n: int)
    ensures ScanInt(s) == Some(n) <==> Denotes(s, n)
  {
    hide ScanInt, Denotes;
    if Denotes(s, n) {
      DenotesOnce(s, n);
    }
    if ScanInt(s) == Some(n) {
      ScannedDenotes(s, n);
    }
  }

  /** Printing is undone by reading, for every integer. */
  lemma ScanOfFormat(n: int)
    ensures ScanInt(FormatInt(n)) == Some(n)
  {
    if n < 0 {
      ValOfItoa(-n);
      assert FormatInt(n)[1..] == Itoa(-n);
      LeadingDigitsOf(Itoa(-n), "");
      assert Itoa(-n) + "" == Itoa(-n);
      assert Itoa(-n)[..|Itoa(-n)|] == Itoa(-n);
    } else {
      ValOfItoa(n);
      ScanDigits(Itoa(n));
    }
  }
}
