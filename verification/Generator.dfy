/** The return-file generator (internal/nacha/generator.go): six fixed-width records. */
module Generator {
  import opened Decimal
  import opened Text
  import opened Parser

  function PadRight(s: string, width: nat): (r: string)
    ensures |r| == width
    ensures |s| <= width ==> r[..|s|] == s && forall i :: |s| <= i < width ==> r[i] == ' '
    ensures |s| >= width ==> r == s[..width]
  {
    if |s| >= width then s[..width] else s + Repeat(' ', width - |s|)
  }

  function PadLeft(s: string, width: nat, pad: char := ' '): (r: string)
    ensures |r| == width
    ensures |s| >= width ==> r == s[|s| - width..]
    ensures |s| <= width ==> r == Repeat(pad, width - |s|) + s
  {
    if |s| >= width then s[|s| - width..] else Repeat(pad, width - |s|) + s
  }

  function OnlyDigits(s: string): (d: string)
    ensures AllDigits(d) && |d| <= |s|
    ensures AllDigits(s) ==> d == s
  {
    if s == [] then [] else OnlyDigits(s[..|s| - 1]) + if IsDigit(s[|s| - 1]) then [s[|s| - 1]] else []
  }

  /** What hashRouting computes: its digits as a number, modulo ten to the tenth. */
  function RoutingHash(routing8: string): (h: nat)
    ensures h < Pow10(10)
  {
    Val(OnlyDigits(routing8)) % Pow10(10)
  }

  /** Up to 18 digits the running value stays within 64 bits; the generator passes eight. */
  method HashRouting(routing8: string) returns (h: nat)
    requires |routing8| <= 18
    ensures h == RoutingHash(routing8)
  {
    var n: nat := 0;
    for i := 0 to |routing8|
      invariant n == Val(OnlyDigits(routing8[..i]))
      invariant n < Pow10(i)
    {
      var c := routing8[i];
      ghost var d := OnlyDigits(routing8[..i]);
      assert routing8[..i + 1][..i] == routing8[..i];
      if IsDigit(c) {
        assert OnlyDigits(routing8[..i + 1]) == d + [c];
        assert (d + [c])[..|d|] == d;
        n := n * 10 + DigitVal(c);
      } else {
        assert OnlyDigits(routing8[..i + 1]) == d;
      }
    }
    assert routing8[..|routing8|] == routing8;
    Pow10Ten();
    h := n % 10_000_000_000;
  }

  lemma Pow10Ten()
    ensures Pow10(10) == 10_000_000_000
    ensures Pow10(12) == 1_000_000_000_000
  {
    assert Pow10(3) == 1000;
    assert Pow10(6) == 1000 * Pow10(3);
    assert Pow10(9) == 1000 * Pow10(6);
    assert Pow10(12) == 1000 * Pow10(9);
  }

  // ---- Records ---------------------------------------------------------------

  /** The wall clock as the generator formats it. */
  datatype Stamp = Stamp(date: string, time: string)

  predicate ValidStamp(t: Stamp) {
    AllDigits(t.date) && |t.date| == 6 && AllDigits(t.time) && |t.time| == 4
  }

  /** The arguments of one return; shorter routing numbers make the source panic. */
  datatype Return = Return(routing: string, account: string, amount: int, trace: string, rCode: string)

  predicate Sliceable(r: Return) {
    |r.routing| >= 9
  }

  function FileHeader(r: Return, t: Stamp): string {
    "1" + "01"
    + (PadLeft(" " + r.routing, 10) + PadLeft(" " + r.routing, 10) + t.date + t.time + "A" + "094" + "10" + "1")
    + (PadRight("ACH RETURN RDFI", 23) + PadRight("ACH RETURN ODFI", 23) + PadRight("", 8))
  }

  function BatchHeader(r: Return, t: Stamp): string
    requires Sliceable(r)
  {
    "5" + "225"
    + (PadRight("ACH RETURN SIM", 16) + PadRight("", 20) + PadRight("ACHRETURN", 10) + "PPD" + PadRight("RETURN", 10))
    + (t.date + t.date + "   " + "1" + r.routing[..8] + PadLeft("1", 7, '0'))
  }

  function EntryDetail(r: Return): string
    requires Sliceable(r)
  {
    "6" + "21" + r.routing[..8] + [r.routing[8]] + PadRight(r.account, 17) + PadLeft(FormatInt(r.amount), 10, '0')
    + PadRight(r.trace, 15) + PadRight("RETURN PAYMENT", 22) + "  " + "1" + PadLeft(r.trace, 15, '0')
  }

  function Addenda(r: Return): string
    requires Sliceable(r)
  {
    "7" + "99" + PadRight(r.rCode, 3) + PadRight(r.trace, 15) + "      " + r.routing[..8] + PadRight("", 44) + PadLeft("1", 7, '0')
  }

  /** Zero-padded to ten digits; a longer number would not be cut. */
  function EntryHash(hash: nat): string {
    if |Itoa(hash)| >= 10 then Itoa(hash) else PadLeft(Itoa(hash), 10, '0')
  }

  function BatchControl(r: Return, hash: nat): string
    requires Sliceable(r)
  {
    "8" + "225" + PadLeft("2", 6, '0') + EntryHash(hash) + PadLeft(FormatInt(r.amount), 12, '0')
    + PadLeft("0", 12, '0') + PadRight("ACHRETURN", 10) + PadRight("", 19) + "   " + r.routing[..8] + PadLeft("1", 7, '0')
  }

  function FileControl(r: Return, hash: nat): string
    requires Sliceable(r)
  {
    "9" + PadLeft("1", 6, '0') + PadLeft("1", 6, '0') + PadLeft("2", 8, '0') + EntryHash(hash)
    + PadLeft(FormatInt(r.amount), 12, '0') + PadLeft("0", 12, '0') + PadRight("", 39)
  }

  /** The six records, as the file holds them. */
  function Records(r: Return, t: Stamp): seq<string>
    requires Sliceable(r)
  {
    var hash := RoutingHash(r.routing[..8]);
    [PadRight(FileHeader(r, t), 94), PadRight(BatchHeader(r, t), 94), PadRight(EntryDetail(r), 94),
     PadRight(Addenda(r), 94), PadRight(BatchControl(r, hash), 94), PadRight(FileControl(r, hash), 94)]
  }

  /** Each line followed by a line feed. */
  function Terminated(lines: seq<string>): string {
    if lines == [] then "" else Terminated(lines[..|lines| - 1]) + lines[|lines| - 1] + "\n"
  }

  function FileText(r: Return, t: Stamp): string
    requires Sliceable(r)
  {
    Terminated(Records(r, t))
  }

  method GenerateReturnFile(r: Return, t: Stamp) returns (text: string)
    requires Sliceable(r)
    ensures text == FileText(r, t)
    ensures |t.date| == 6 && |t.time| == 4 ==> InColumns(text, r, t)
  {
    hide InColumns, RoutingHash, PadRight, FileHeader, BatchHeader, EntryDetail, Addenda, BatchControl, FileControl;
    ghost var records := Records(r, t);
    var sb := "";
    sb := sb + PadRight(FileHeader(r, t), 94) + "\n";
    TerminatedPrefix(records, 0);
    sb := sb + PadRight(BatchHeader(r, t), 94) + "\n";
    TerminatedPrefix(records, 1);
    sb := sb + PadRight(EntryDetail(r), 94) + "\n";
    TerminatedPrefix(records, 2);
    sb := sb + PadRight(Addenda(r), 94) + "\n";
    TerminatedPrefix(records, 3);
    var hash := HashRouting(r.routing[..8]);
    sb := sb + PadRight(BatchControl(r, hash), 94) + "\n";
    TerminatedPrefix(records, 4);
    sb := sb + PadRight(FileControl(r, hash), 94) + "\n";
    TerminatedPrefix(records, 5);
    assert records[..6] == records;
    text := sb;
    if |t.date| == 6 && |t.time| == 4 {
      FileInColumns(r, t);
    }
  }

  lemma TerminatedPrefix(lines: seq<string>, i: nat)
    requires i < |lines|
    ensures Terminated(lines[..i + 1]) == Terminated(lines[..i]) + lines[i] + "\n"
    ensures Terminated(lines[..0]) == ""
  {
    assert lines[..i + 1][..i] == lines[..i];
  }

  // ---- Where the fields are --------------------------------------------------

  /** No record body is longer than 94, so the final padding never truncates. */
  lemma BodiesFit(r: Return, t: Stamp)
    requires Sliceable(r) && |t.date| == 6 && |t.time| == 4
    ensures |FileHeader(r, t)| == 94 && |BatchHeader(r, t)| == 94 && |EntryDetail(r)| == 94 && |Addenda(r)| == 86
    ensures var hash := RoutingHash(r.routing[..8]);
            |BatchControl(r, hash)| == 91 && |FileControl(r, hash)| == 94
  {
    hide PadRight, PadLeft, Repeat, FormatInt, Itoa, RoutingHash, EntryHash, Pow10;
    HashIsTenDigits(RoutingHash(r.routing[..8]));
  }

  lemma HashIsTenDigits(hash: nat)
    requires hash < Pow10(10)
    ensures |EntryHash(hash)| == 10 && AllDigits(EntryHash(hash)) && Val(EntryHash(hash)) == hash
  {
    hide Pow10, Itoa, Val, Repeat;
    ItoaLength(hash, 10);
    ValOfItoa(hash);
    if |Itoa(hash)| < 10 {
      ValOfZeros(10 - |Itoa(hash)|, Itoa(hash));
    }
  }

  lemma TruncatedAmount(amount: nat, w: nat)
    requires 0 < w <= |Itoa(amount)|
    ensures var field := PadLeft(Itoa(amount), w, '0');
            |field| == w && AllDigits(field) && Val(field) == amount % Pow10(w)
  {
    hide Pow10, Itoa, Val, Repeat, PadLeft;
    var s := Itoa(amount);
    assert PadLeft(s, w, '0') == s[|s| - w..];
    ValOfItoa(amount);
    ValOfSuffix(s, w);
  }

  lemma PaddedAmount(amount: nat, w: nat)
    requires |Itoa(amount)| <= w
    ensures var field := PadLeft(Itoa(amount), w, '0');
            |field| == w && AllDigits(field) && Val(field) == amount && amount < Pow10(w)
  {
    hide Pow10, Itoa, Val, Repeat, PadLeft;
    var s := Itoa(amount);
    assert PadLeft(s, w, '0') == Repeat('0', w - |s|) + s;
    ItoaLength(amount, w);
    ValOfItoa(amount);
    ValOfZeros(w - |s|, s);
  }

  /** A non-negative amount in a field of w columns is the amount modulo ten to the w. */
  lemma AmountField(amount: nat, w: nat)
    requires w > 0
    ensures var field := PadLeft(FormatInt(amount), w, '0');
            |field| == w && AllDigits(field) && Val(field) == amount % Pow10(w)
  {
    hide Pow10, Itoa, Val, Repeat, PadLeft;
    if |Itoa(amount)| >= w {
      TruncatedAmount(amount, w);
    } else {
      PaddedAmount(amount, w);
      ModUnique(amount, Pow10(w), 0, amount);
    }
  }

  // Where each field of interest lies in its record.

  lemma FiveFields(head: string, a: string, b: string, c: string, d: string)
    requires |head| == 12 && |a| == 17 && |b| == 10 && |c| == 40 && |d| == 15
    ensures var s := head + a + b + c + d;
            && |s| == 94 && s[0] == head[0] && s[3..12] == head[3..12] && s[12..29] == a && s[29..39] == b
            && s[78] == c[39] && s[79..94] == d
  {
    var s := head + a + b + c + d;
    assert s[3..12] == head[3..12];
    assert s[12..29] == a;
    assert s[29..39] == b;
    assert s[79..94] == d;
  }

  lemma EntryLayout(r: Return)
    requires Sliceable(r)
    ensures var line := PadRight(EntryDetail(r), 94);
            && line[0] == '6' && line[3..12] == r.routing[..9]
            && line[12..29] == PadRight(r.account, 17)
            && line[29..39] == PadLeft(FormatInt(r.amount), 10, '0')
            && line[78] == '1' && line[79..94] == PadLeft(r.trace, 15, '0')
  {
    hide PadLeft, PadRight, Repeat, FormatInt;
    var head := "6" + "21" + r.routing[..8] + [r.routing[8]];
    var filler := PadRight(r.trace, 15) + PadRight("RETURN PAYMENT", 22) + "  " + "1";
    assert head[3..12] == r.routing[..9];
    EntryGroups(r);
    hide EntryDetail;
    FiveFields(head, PadRight(r.account, 17), PadLeft(FormatInt(r.amount), 10, '0'), filler, PadLeft(r.trace, 15, '0'));
    assert PadRight(EntryDetail(r), 94) == EntryDetail(r)[..94] == EntryDetail(r);
  }

  lemma EntryGroups(r: Return)
    requires Sliceable(r)
    ensures EntryDetail(r) ==
            ("6" + "21" + r.routing[..8] + [r.routing[8]]) + PadRight(r.account, 17) + PadLeft(FormatInt(r.amount), 10, '0')
            + (PadRight(r.trace, 15) + PadRight("RETURN PAYMENT", 22) + "  " + "1") + PadLeft(r.trace, 15, '0')
  {
    hide PadLeft, PadRight, Repeat, FormatInt;
  }

  lemma AddendaLayout(r: Return)
    requires Sliceable(r)
    ensures var line := PadRight(Addenda(r), 94);
            && line[0] == '7' && line[1..3] == "99"
            && line[3..6] == PadRight(r.rCode, 3)
            && line[6..21] == PadRight(r.trace, 15) && line[27..35] == r.routing[..8]
  {
    hide PadLeft, Repeat;
    var head, rest := "7" + "99" + PadRight(r.rCode, 3) + PadRight(r.trace, 15) + "      " + r.routing[..8], PadRight("", 44) + PadLeft("1", 7, '0');
    assert Addenda(r) == head + rest;
    var line := PadRight(Addenda(r), 94);
    hide PadRight;
    assert line[..35] == head[..35];
    assert head[1..3] == "99" && head[3..6] == PadRight(r.rCode, 3) && head[6..21] == PadRight(r.trace, 15) && head[27..35] == r.routing[..8];
    assert line[1..3] == line[..35][1..3] && line[3..6] == line[..35][3..6] && line[6..21] == line[..35][6..21] && line[27..35] == line[..35][27..35];
  }

  lemma StartsWith(head: string, a: string, b: string)
    requires |head| >= 3
    ensures PadRight(head + a + b, 94)[..3] == head[..3]
  {
    assert (head + a + b)[..3] == head[..3];
  }

  lemma HeaderLayout(r: Return, t: Stamp)
    requires Sliceable(r)
    ensures PadRight(FileHeader(r, t), 94)[0] == '1' && PadRight(FileHeader(r, t), 94)[1..3] == "01"
    ensures PadRight(BatchHeader(r, t), 94)[0] == '5'
  {
    hide PadLeft, PadRight;
    StartsWith("1" + "01", PadLeft(" " + r.routing, 10) + PadLeft(" " + r.routing, 10) + t.date + t.time + "A" + "094" + "10" + "1",
               PadRight("ACH RETURN RDFI", 23) + PadRight("ACH RETURN ODFI", 23) + PadRight("", 8));
    StartsWith("5" + "225", PadRight("ACH RETURN SIM", 16) + PadRight("", 20) + PadRight("ACHRETURN", 10) + "PPD" + PadRight("RETURN", 10),
               t.date + t.date + "   " + "1" + r.routing[..8] + PadLeft("1", 7, '0'));
    var line := PadRight(FileHeader(r, t), 94);
    assert line[..3] == "101" && line[1..3] == line[..3][1..3];
    assert PadRight(BatchHeader(r, t), 94)[0] == PadRight(BatchHeader(r, t), 94)[..3][0];
  }

  lemma SixFields(head: string, count: string, hash: string, debit: string, credit: string, rest: string)
    requires head != [] && |hash| == 10 && |debit| == 12 && |credit| == 12
    ensures var s, n := head + count + hash + debit + credit + rest, |head| + |count|;
            && |s| == n + 34 + |rest| && s[0] == head[0] && s[|head|..n] == count
            && s[n..n + 10] == hash && s[n + 10..n + 22] == debit && s[n + 22..n + 34] == credit
  {
    var s, n := head + count + hash + debit + credit + rest, |head| + |count|;
    assert s[|head|..n] == count;
    assert s[n..n + 10] == hash;
    assert s[n + 10..n + 22] == debit;
    assert s[n + 22..n + 34] == credit;
  }

  lemma PadRightKeeps(s: string, i: nat, j: nat)
    requires i <= j <= |s| <= 94
    ensures PadRight(s, 94)[i..j] == s[i..j]
  {
    var line := PadRight(s, 94);
    assert forall k :: 0 <= k < |s| ==> line[k] == line[..|s|][k];
  }

  lemma BatchControlLayout(r: Return, hash: nat)
    requires Sliceable(r) && hash < Pow10(10)
    ensures var line := PadRight(BatchControl(r, hash), 94);
            && line[0] == '8' && line[4..10] == "000002" && line[10..20] == EntryHash(hash)
            && line[20..32] == PadLeft(FormatInt(r.amount), 12, '0') && line[32..44] == Repeat('0', 12)
  {
    HashIsTenDigits(hash);
    CountFields();
    hide FormatInt, EntryHash, Pow10, PadLeft, PadRight, Repeat;
    var rest := PadRight("ACHRETURN", 10) + PadRight("", 19) + "   " + r.routing[..8] + PadLeft("1", 7, '0');
    assert BatchControl(r, hash) == ("8" + "225") + PadLeft("2", 6, '0') + EntryHash(hash) + PadLeft(FormatInt(r.amount), 12, '0') + PadLeft("0", 12, '0') + rest;
    hide BatchControl;
    SixFields("8" + "225", PadLeft("2", 6, '0'), EntryHash(hash), PadLeft(FormatInt(r.amount), 12, '0'), PadLeft("0", 12, '0'), rest);
    var s := BatchControl(r, hash);
    PadRightKeeps(s, 4, 10);
    PadRightKeeps(s, 10, 20);
    PadRightKeeps(s, 20, 32);
    PadRightKeeps(s, 32, 44);
  }

  lemma FileControlLayout(r: Return, hash: nat)
    requires Sliceable(r) && hash < Pow10(10)
    ensures var line := PadRight(FileControl(r, hash), 94);
            && line[0] == '9' && line[13..21] == "00000002" && line[21..31] == EntryHash(hash)
            && line[31..43] == PadLeft(FormatInt(r.amount), 12, '0') && line[43..55] == Repeat('0', 12)
  {
    HashIsTenDigits(hash);
    CountFields();
    hide FormatInt, EntryHash, Pow10, PadLeft, PadRight, Repeat;
    var head, rest := "9" + PadLeft("1", 6, '0') + PadLeft("1", 6, '0'), PadRight("", 39);
    assert FileControl(r, hash) == head + PadLeft("2", 8, '0') + EntryHash(hash) + PadLeft(FormatInt(r.amount), 12, '0') + PadLeft("0", 12, '0') + rest;
    hide FileControl;
    SixFields(head, PadLeft("2", 8, '0'), EntryHash(hash), PadLeft(FormatInt(r.amount), 12, '0'), PadLeft("0", 12, '0'), rest);
    var s := FileControl(r, hash);
    PadRightKeeps(s, 13, 21);
    PadRightKeeps(s, 21, 31);
    PadRightKeeps(s, 31, 43);
    PadRightKeeps(s, 43, 55);
  }

  lemma CountFields()
    ensures PadLeft("2", 6, '0') == "000002" && PadLeft("2", 8, '0') == "00000002"
    ensures PadLeft("0", 12, '0') == Repeat('0', 12)
  {
  }

  /** The control fields of one record line. */
  predicate ControlFields(hash: string, debit: string, r: Return)
    requires Sliceable(r) && AllDigits(r.routing) && r.amount >= 0
  {
    && AllDigits(hash) && |hash| == 10 && Val(hash) == Val(r.routing[..8])
    && AllDigits(debit) && |debit| == 12 && Val(debit) == r.amount % 1_000_000_000_000
  }

  lemma EntryAmountField(r: Return)
    requires Sliceable(r) && r.amount >= 0
    ensures var amount := PadRight(EntryDetail(r), 94)[29..39];
            AllDigits(amount) && Val(amount) == r.amount % 10_000_000_000
  {
    hide EntryDetail, FormatInt, Pow10, PadLeft, Val;
    EntryLayout(r);
    AmountField(r.amount, 10);
    Pow10Ten();
  }

  lemma ControlsHold(r: Return)
    requires Sliceable(r) && AllDigits(r.routing) && r.amount >= 0
    ensures ControlFields(EntryHash(RoutingHash(r.routing[..8])), PadLeft(FormatInt(r.amount), 12, '0'), r)
  {
    HashOfDigits(r.routing[..8]);
    hide RoutingHash, FormatInt, EntryHash, Pow10, PadLeft, Val;
    HashIsTenDigits(RoutingHash(r.routing[..8]));
    AmountField(r.amount, 12);
    Pow10Ten();
  }

  lemma BatchTotals(r: Return)
    requires Sliceable(r) && AllDigits(r.routing) && r.amount >= 0
    ensures var line := PadRight(BatchControl(r, RoutingHash(r.routing[..8])), 94);
            ControlFields(line[10..20], line[20..32], r)
  {
    ControlsHold(r);
    hide ControlFields, RoutingHash, FormatInt, EntryHash, PadLeft, PadRight, BatchControl, Repeat, Pow10;
    BatchControlLayout(r, RoutingHash(r.routing[..8]));
  }

  lemma FileTotals(r: Return)
    requires Sliceable(r) && AllDigits(r.routing) && r.amount >= 0
    ensures var line := PadRight(FileControl(r, RoutingHash(r.routing[..8])), 94);
            ControlFields(line[21..31], line[31..43], r)
  {
    ControlsHold(r);
    hide ControlFields, RoutingHash, FormatInt, EntryHash, PadLeft, PadRight, FileControl, Repeat, Pow10;
    FileControlLayout(r, RoutingHash(r.routing[..8]));
  }

  /** The controls of a file for any amount: both debit totals are the amount modulo 10^12
      and both hashes are the first eight routing digits, in ten columns. */
  lemma ControlTotals(r: Return, t: Stamp)
    requires Sliceable(r) && AllDigits(r.routing) && r.amount >= 0
    ensures var file := Records(r, t);
            && |file| == 6 && |file[4]| == 94 && |file[5]| == 94
            && ControlFields(file[4][10..20], file[4][20..32], r)
            && ControlFields(file[5][21..31], file[5][31..43], r)
  {
    hide RoutingHash, PadRight, ControlFields, FileHeader, BatchHeader, EntryDetail, Addenda, BatchControl, FileControl;
    BatchTotals(r);
    FileTotals(r);
  }

  /** The totals agree with the amount of the entry exactly when the amount modulo 10^12
      has no more than ten digits: for every smaller amount, and not for 10^10 cents. */
  lemma ControlsBalance(r: Return, t: Stamp)
    requires Sliceable(r) && AllDigits(r.routing) && r.amount >= 0
    ensures var file := Records(r, t);
            && |file| == 6 && |file[2]| == 94 && |file[4]| == 94
            && AllDigits(file[2][29..39]) && AllDigits(file[4][20..32])
            && (Val(file[4][20..32]) == Val(file[2][29..39]) <==> r.amount % 1_000_000_000_000 < 10_000_000_000)
  {
    hide RoutingHash, FormatInt, EntryHash, PadRight, PadLeft, Val, FileHeader, BatchHeader, EntryDetail, Addenda,
         BatchControl, FileControl;
    ControlTotals(r, t);
    EntryAmountField(r);
    TwoModuli(r.amount);
  }

  lemma TwoModuli(a: nat)
    ensures a % 1_000_000_000_000 == a % 10_000_000_000 <==> a % 1_000_000_000_000 < 10_000_000_000
  {
  }

  lemma HashOfDigits(routing8: string)
    requires AllDigits(routing8) && |routing8| == 8
    ensures RoutingHash(routing8) == Val(routing8)
  {
    hide Pow10, Val;
    ValBound(routing8);
    EightBelowTen();
    ModUnique(Val(routing8), Pow10(10), 0, Val(routing8));
  }

  lemma EightBelowTen()
    ensures Pow10(8) < Pow10(10)
  {
    assert Pow10(10) == 10 * Pow10(9);
    assert Pow10(9) == 10 * Pow10(8);
  }

  // ---- The text by columns ---------------------------------------------------

  /** The field holds s from the left, blank to the right; a longer s is cut there. */
  predicate LeftField(field: string, s: string) {
    && (|s| <= |field| ==> field[..|s|] == s && forall k :: |s| <= k < |field| ==> field[k] == ' ')
    && (|s| > |field| ==> field == s[..|field|])
  }

  /** The field holds s from the right, filled to the left; a longer s loses its beginning. */
  predicate RightField(field: string, s: string, fill: char) {
    && (|s| <= |field| ==> field[|field| - |s|..] == s && forall k :: 0 <= k < |field| - |s| ==> field[k] == fill)
    && (|s| > |field| ==> field == s[|s| - |field|..])
  }

  predicate Filled(field: string, c: char) {
    forall k :: 0 <= k < |field| ==> field[k] == c
  }

  predicate FileHeaderColumns(line: string, r: Return, t: Stamp) {
    && |line| == 94 && line[..3] == "101"
    && RightField(line[3..13], " " + r.routing, ' ') && RightField(line[13..23], " " + r.routing, ' ')
    && line[23..29] == t.date && line[29..33] == t.time && line[33..40] == "A094101"
    && LeftField(line[40..63], "ACH RETURN RDFI") && LeftField(line[63..86], "ACH RETURN ODFI") && Filled(line[86..94], ' ')
  }

  predicate BatchHeaderColumns(line: string, r: Return, t: Stamp)
    requires Sliceable(r)
  {
    && |line| == 94 && line[..4] == "5225"
    && LeftField(line[4..20], "ACH RETURN SIM") && Filled(line[20..40], ' ') && LeftField(line[40..50], "ACHRETURN")
    && line[50..53] == "PPD" && LeftField(line[53..63], "RETURN")
    && line[63..69] == t.date && line[69..75] == t.date && line[75..79] == "   1"
    && line[79..87] == r.routing[..8] && line[87..94] == "0000001"
  }

  predicate EntryDetailColumns(line: string, r: Return)
    requires Sliceable(r)
  {
    && |line| == 94 && line[..3] == "621" && line[3..12] == r.routing[..9]
    && LeftField(line[12..29], r.account) && RightField(line[29..39], FormatInt(r.amount), '0')
    && LeftField(line[39..54], r.trace) && LeftField(line[54..76], "RETURN PAYMENT") && line[76..79] == "  1"
    && RightField(line[79..94], r.trace, '0')
  }

  predicate AddendaColumns(line: string, r: Return)
    requires Sliceable(r)
  {
    && |line| == 94 && line[..3] == "799"
    && LeftField(line[3..6], r.rCode) && LeftField(line[6..21], r.trace) && Filled(line[21..27], ' ')
    && line[27..35] == r.routing[..8] && Filled(line[35..79], ' ') && line[79..86] == "0000001" && Filled(line[86..94], ' ')
  }

  /** Ten digits whose value is the hash of the first eight routing characters. */
  predicate HashField(field: string, r: Return)
    requires Sliceable(r)
  {
    |field| == 10 && AllDigits(field) && Val(field) == RoutingHash(r.routing[..8])
  }

  predicate BatchControlColumns(line: string, r: Return)
    requires Sliceable(r)
  {
    && |line| == 94 && line[..4] == "8225" && line[4..10] == "000002" && HashField(line[10..20], r)
    && RightField(line[20..32], FormatInt(r.amount), '0') && Filled(line[32..44], '0')
    && LeftField(line[44..54], "ACHRETURN") && Filled(line[54..76], ' ')
    && line[76..84] == r.routing[..8] && line[84..91] == "0000001" && Filled(line[91..94], ' ')
  }

  predicate FileControlColumns(line: string, r: Return)
    requires Sliceable(r)
  {
    && |line| == 94 && line[..13] == "9000001000001" && line[13..21] == "00000002" && HashField(line[21..31], r)
    && RightField(line[31..43], FormatInt(r.amount), '0') && Filled(line[43..55], '0') && Filled(line[55..94], ' ')
  }

  /** A generated file: six lines of 94 characters and a line feed each. */
  predicate InColumns(text: string, r: Return, t: Stamp)
    requires Sliceable(r)
  {
    && |text| == 570 && (forall k :: 0 <= k < 6 ==> text[95 * k + 94] == '\n')
    && FileHeaderColumns(text[..94], r, t) && BatchHeaderColumns(text[95..189], r, t)
    && EntryDetailColumns(text[190..284], r) && AddendaColumns(text[285..379], r)
    && BatchControlColumns(text[380..474], r) && FileControlColumns(text[475..569], r)
  }

  lemma PadsFill(s: string, width: nat, fill: char)
    ensures LeftField(PadRight(s, width), s) && RightField(PadLeft(s, width, fill), s, fill)
    ensures Filled(PadRight("", width), ' ')
  {
  }

  /** Five pieces joined, each found again at its place. */
  lemma Cut(a: string, b: string, c: string, d: string, e: string)
    ensures var s, i, j, k, l := a + b + c + d + e, |a|, |a| + |b|, |a| + |b| + |c|, |a| + |b| + |c| + |d|;
            && |s| == l + |e| && s[..i] == a && s[i..j] == b && s[j..k] == c && s[k..l] == d && s[l..] == e
  {
    var s, i, j, k, l := a + b + c + d + e, |a|, |a| + |b|, |a| + |b| + |c|, |a| + |b| + |c| + |d|;
    assert s[..i] == a;
    assert s[i..j] == b;
    assert s[j..k] == c;
    assert s[k..l] == d;
    assert s[l..] == e;
  }

  /** A range within a range. */
  lemma Within(s: string, i: nat, j: nat, p: nat, q: nat)
    requires i <= j <= |s| && p <= q <= j - i
    ensures s[i..j][p..q] == s[i + p..i + q]
  {
    var x, y := s[i..j][p..q], s[i + p..i + q];
    assert forall k :: 0 <= k < |x| ==> x[k] == s[i..j][p + k] == s[i + p + k] == y[k];
    assert x == y;
  }

  /** The same at an offset. */
  lemma CutAt(line: string, i: nat, a: string, b: string, c: string, d: string, e: string)
    requires i + |a + b + c + d + e| <= |line| && line[i..i + |a + b + c + d + e|] == a + b + c + d + e
    ensures var j, k, l, m := i + |a|, i + |a| + |b|, i + |a| + |b| + |c|, i + |a| + |b| + |c| + |d|;
            line[i..j] == a && line[j..k] == b && line[k..l] == c && line[l..m] == d && line[m..m + |e|] == e
  {
    var n, j, k, l, m := |a + b + c + d + e|, |a|, |a| + |b|, |a| + |b| + |c|, |a| + |b| + |c| + |d|;
    Cut(a, b, c, d, e);
    Within(line, i, i + n, 0, j);
    Within(line, i, i + n, j, k);
    Within(line, i, i + n, k, l);
    Within(line, i, i + n, l, m);
    Within(line, i, i + n, m, m + |e|);
  }

  lemma FileHeaderLine(line: string, id: string, date: string, time: string, to: string, from: string, rest: string)
    requires |id| == 10 && |date| == 6 && |time| == 4 && |to| == 23 && |from| == 23 && |rest| == 8
    requires line == "101" + (id + id + date + time + "A094101") + (to + from + rest)
    ensures |line| == 94 && line[..3] == "101" && line[3..13] == id && line[13..23] == id
    ensures line[23..29] == date && line[29..33] == time && line[33..40] == "A094101"
    ensures line[40..63] == to && line[63..86] == from && line[86..94] == rest
  {
    assert line == "101" + (id + id + date + time + "A094101") + (to + from + rest) + "" + "";
    Cut("101", id + id + date + time + "A094101", to + from + rest, "", "");
    CutAt(line, 3, id, id, date, time, "A094101");
    assert to + from + rest == to + from + rest + "" + "";
    CutAt(line, 40, to, from, rest, "", "");
  }

  lemma FileHeaderGroups(id: string, date: string, time: string)
    ensures id + id + date + time + "A" + "094" + "10" + "1" == id + id + date + time + "A094101"
  {
    assert "A" + "094" + "10" + "1" == "A094101";
  }

  lemma FileHeaderInGroups(r: Return, t: Stamp)
    ensures var id := PadLeft(" " + r.routing, 10);
            FileHeader(r, t) == "101" + (id + id + t.date + t.time + "A094101")
              + (PadRight("ACH RETURN RDFI", 23) + PadRight("ACH RETURN ODFI", 23) + PadRight("", 8))
  {
    hide PadLeft, PadRight;
    FileHeaderGroups(PadLeft(" " + r.routing, 10), t.date, t.time);
    assert "1" + "01" == "101";
  }

  lemma FileHeaderInColumns(r: Return, t: Stamp)
    requires Sliceable(r) && |t.date| == 6 && |t.time| == 4
    ensures FileHeaderColumns(PadRight(FileHeader(r, t), 94), r, t)
  {
    hide PadLeft, PadRight, LeftField, RightField, Filled;
    PadsFill(" " + r.routing, 10, ' ');
    PadsFill("ACH RETURN RDFI", 23, ' ');
    PadsFill("ACH RETURN ODFI", 23, ' ');
    PadsFill("", 8, ' ');
    var id, line := PadLeft(" " + r.routing, 10), FileHeader(r, t);
    FileHeaderInGroups(r, t);
    hide FileHeader;
    FileHeaderLine(line, id, t.date, t.time, PadRight("ACH RETURN RDFI", 23), PadRight("ACH RETURN ODFI", 23), PadRight("", 8));
    assert PadRight(line, 94) == line[..94] == line;
  }

  lemma BatchHeaderLine(line: string, name: string, data: string, company: string, what: string, date: string, odfi: string)
    requires |name| == 16 && |data| == 20 && |company| == 10 && |what| == 10 && |date| == 6 && |odfi| == 8
    requires line == "5225" + (name + data + company + "PPD" + what) + (date + date + "   1" + odfi + "0000001")
    ensures |line| == 94 && line[..4] == "5225" && line[4..20] == name && line[20..40] == data && line[40..50] == company
    ensures line[50..53] == "PPD" && line[53..63] == what && line[63..69] == date && line[69..75] == date
    ensures line[75..79] == "   1" && line[79..87] == odfi && line[87..94] == "0000001"
  {
    var names, dates := name + data + company + "PPD" + what, date + date + "   1" + odfi + "0000001";
    assert line == "5225" + names + dates + "" + "";
    Cut("5225", names, dates, "", "");
    CutAt(line, 4, name, data, company, "PPD", what);
    CutAt(line, 63, date, date, "   1", odfi, "0000001");
  }

  lemma BatchHeaderGroups(date: string, odfi: string)
    ensures date + date + "   " + "1" + odfi + "0000001" == date + date + "   1" + odfi + "0000001"
  {
    assert "   " + "1" == "   1";
  }

  lemma BatchHeaderInColumns(r: Return, t: Stamp)
    requires Sliceable(r) && |t.date| == 6
    ensures BatchHeaderColumns(PadRight(BatchHeader(r, t), 94), r, t)
  {
    hide PadLeft, PadRight, LeftField, RightField, Filled;
    PadsFill("ACH RETURN SIM", 16, ' ');
    PadsFill("", 20, ' ');
    PadsFill("ACHRETURN", 10, ' ');
    PadsFill("RETURN", 10, ' ');
    Literals();
    BatchHeaderGroups(t.date, r.routing[..8]);
    var line := BatchHeader(r, t);
    BatchHeaderLine(line, PadRight("ACH RETURN SIM", 16), PadRight("", 20), PadRight("ACHRETURN", 10), PadRight("RETURN", 10), t.date, r.routing[..8]);
    assert PadRight(line, 94) == line[..94] == line;
  }

  lemma Literals()
    ensures PadLeft("1", 7, '0') == "0000001" && PadLeft("1", 6, '0') == "000001"
    ensures PadLeft("2", 6, '0') == "000002" && PadLeft("2", 8, '0') == "00000002"
    ensures "   " + "1" == "   1" && "5" + "225" == "5225" && "8" + "225" == "8225" && "7" + "99" == "799" && "6" + "21" == "621"
  {
  }

  lemma EntryDetailLine(line: string, routing: string, account: string, amount: string, trace: string, name: string, trace': string)
    requires |routing| == 9 && |account| == 17 && |amount| == 10 && |trace| == 15 && |name| == 22 && |trace'| == 15
    requires line == ("621" + routing) + account + amount + (trace + name + "  1") + trace'
    ensures |line| == 94 && line[..3] == "621" && line[3..12] == routing && line[12..29] == account && line[29..39] == amount
    ensures line[39..54] == trace && line[54..76] == name && line[76..79] == "  1" && line[79..94] == trace'
  {
    var head, middle := "621" + routing, trace + name + "  1";
    Cut(head, account, amount, middle, trace');
    assert head == "621" + routing + "" + "" + "";
    CutAt(line, 0, "621", routing, "", "", "");
    assert middle == trace + name + "  1" + "" + "";
    CutAt(line, 39, trace, name, "  1", "", "");
  }

  lemma EntryEnds(routing: string, a: string, b: string)
    requires |routing| >= 9
    ensures "6" + "21" + routing[..8] + [routing[8]] == "621" + routing[..9]
    ensures a + b + "  " + "1" == a + b + "  1"
  {
    assert routing[..8] + [routing[8]] == routing[..9];
  }

  lemma EntryDetailInColumns(r: Return)
    requires Sliceable(r)
    ensures EntryDetailColumns(PadRight(EntryDetail(r), 94), r)
  {
    PadsFill(r.account, 17, ' ');
    PadsFill(r.trace, 15, '0');
    PadsFill("RETURN PAYMENT", 22, ' ');
    hide LeftField, RightField, Filled, FormatInt, Repeat;
    PadsFill(FormatInt(r.amount), 10, '0');
    EntryGroups(r);
    var line := EntryDetail(r);
    EntryEnds(r.routing, PadRight(r.trace, 15), PadRight("RETURN PAYMENT", 22));
    hide EntryDetail, PadRight, PadLeft;
    EntryDetailLine(line, r.routing[..9], PadRight(r.account, 17), PadLeft(FormatInt(r.amount), 10, '0'),
                    PadRight(r.trace, 15), PadRight("RETURN PAYMENT", 22), PadLeft(r.trace, 15, '0'));
    assert PadRight(line, 94) == line[..94] == line;
  }

  lemma AddendaLine(line: string, code: string, trace: string, odfi: string, info: string, rest: string)
    requires |code| == 3 && |trace| == 15 && |odfi| == 8 && |info| == 44 && |rest| == 8
    requires line == "799" + code + trace + "      " + (odfi + info + "0000001" + rest)
    ensures |line| == 94 && line[..3] == "799" && line[3..6] == code && line[6..21] == trace && line[21..27] == "      "
    ensures line[27..35] == odfi && line[35..79] == info && line[79..86] == "0000001" && line[86..94] == rest
  {
    var tail := odfi + info + "0000001" + rest;
    Cut("799", code, trace, "      ", tail);
    assert tail == odfi + info + "0000001" + rest + "";
    CutAt(line, 27, odfi, info, "0000001", rest, "");
  }

  lemma PaddedAddenda(r: Return)
    requires Sliceable(r)
    ensures PadRight(Addenda(r), 94)
            == "799" + PadRight(r.rCode, 3) + PadRight(r.trace, 15) + "      " + (r.routing[..8] + PadRight("", 44) + "0000001" + Repeat(' ', 8))
  {
    Literals();
    hide PadLeft, Repeat;
    var body := Addenda(r);
    assert PadRight(body, 94) == body + Repeat(' ', 8);
    hide PadRight;
    Regroup("799" + PadRight(r.rCode, 3) + PadRight(r.trace, 15) + "      ", "", "", r.routing[..8], PadRight("", 44), "0000001", Repeat(' ', 8));
    var x := "799" + PadRight(r.rCode, 3) + PadRight(r.trace, 15) + "      ";
    assert x + "" + "" == x;
    assert "" + "" + r.routing[..8] == r.routing[..8];
  }

  lemma AddendaFills()
    ensures Filled("      ", ' ') && Filled(Repeat(' ', 8), ' ') && Filled(PadRight("", 44), ' ')
  {
  }

  lemma AddendaInColumns(r: Return)
    requires Sliceable(r)
    ensures AddendaColumns(PadRight(Addenda(r), 94), r)
  {
    hide PadLeft, PadRight, Repeat, Addenda, LeftField, RightField, Filled;
    PadsFill(r.rCode, 3, ' ');
    PadsFill(r.trace, 15, ' ');
    AddendaFills();
    PaddedAddenda(r);
    AddendaLine(PadRight(Addenda(r), 94), PadRight(r.rCode, 3), PadRight(r.trace, 15), r.routing[..8], PadRight("", 44), Repeat(' ', 8));
  }

  lemma BatchControlLine(line: string, hash: string, debit: string, credit: string, company: string, mac: string, odfi: string, rest: string)
    requires |hash| == 10 && |debit| == 12 && |credit| == 12 && |company| == 10 && |mac| == 19 && |odfi| == 8 && |rest| == 3
    requires line == ("8225" + "000002") + hash + debit + credit + (company + mac + "   " + odfi + ("0000001" + rest))
    ensures |line| == 94 && line[..4] == "8225" && line[4..10] == "000002" && line[10..20] == hash && line[20..32] == debit
    ensures line[32..44] == credit && line[44..54] == company && line[54..73] == mac && line[73..76] == "   "
    ensures line[76..84] == odfi && line[84..91] == "0000001" && line[91..94] == rest
  {
    Cut("8225" + "000002", hash, debit, credit, company + mac + "   " + odfi + ("0000001" + rest));
    assert "8225" + "000002" == "8225" + "000002" + "" + "" + "";
    CutAt(line, 0, "8225", "000002", "", "", "");
    CutAt(line, 44, company, mac, "   ", odfi, "0000001" + rest);
    assert "0000001" + rest == "0000001" + rest + "" + "" + "";
    CutAt(line, 84, "0000001", rest, "", "", "");
  }

  lemma FilledJoins(line: string, i: nat, j: nat, k: nat, c: char)
    requires i <= j <= k <= |line| && Filled(line[i..j], c) && Filled(line[j..k], c)
    ensures Filled(line[i..k], c)
  {
    forall m | 0 <= m < k - i ensures line[i..k][m] == c {
      assert line[i..k][m] == if m < j - i then line[i..j][m] else line[j..k][m - (j - i)];
    }
  }

  lemma HashInField(r: Return)
    requires Sliceable(r)
    ensures HashField(EntryHash(RoutingHash(r.routing[..8])), r)
  {
    hide RoutingHash, EntryHash, Val;
    HashIsTenDigits(RoutingHash(r.routing[..8]));
  }

  lemma Regroup(x: string, a: string, b: string, c: string, d: string, e: string, pad: string)
    ensures (x + a + b + c + d + e) + pad == x + (a + b + c + d + (e + pad))
  {
    var y := a + b + c + d;
    assert x + a + b + c + d == x + y;
    assert (x + y + e) + pad == x + (y + (e + pad));
  }

  lemma PaddedControl(r: Return, hash: nat)
    requires Sliceable(r) && hash < Pow10(10)
    ensures var rest := PadRight("ACHRETURN", 10) + PadRight("", 19) + "   " + r.routing[..8] + ("0000001" + Repeat(' ', 3));
            PadRight(BatchControl(r, hash), 94)
            == ("8225" + "000002") + EntryHash(hash) + PadLeft(FormatInt(r.amount), 12, '0') + PadLeft("0", 12, '0') + rest
  {
    hide FormatInt, EntryHash, Pow10, PadLeft, Repeat, Val;
    HashIsTenDigits(hash);
    Literals();
    var body := BatchControl(r, hash);
    assert PadRight(body, 94) == body + Repeat(' ', 3);
    hide PadRight;
    var x := ("8225" + "000002") + EntryHash(hash) + PadLeft(FormatInt(r.amount), 12, '0') + PadLeft("0", 12, '0');
    assert "8" + "225" + "000002" == "8225" + "000002";
    Regroup(x, PadRight("ACHRETURN", 10), PadRight("", 19), "   ", r.routing[..8], "0000001", Repeat(' ', 3));
  }

  lemma ControlFills()
    ensures Filled(PadLeft("0", 12, '0'), '0') && Filled("   ", ' ') && Filled(Repeat(' ', 3), ' ')
    ensures LeftField(PadRight("ACHRETURN", 10), "ACHRETURN") && Filled(PadRight("", 19), ' ') && Filled(PadRight("", 39), ' ')
  {
  }

  lemma BatchControlInColumns(r: Return)
    requires Sliceable(r)
    ensures BatchControlColumns(PadRight(BatchControl(r, RoutingHash(r.routing[..8])), 94), r)
  {
    hide LeftField, RightField, Filled, FormatInt, Pow10, HashField, RoutingHash, EntryHash, BatchControl, Repeat, PadRight, PadLeft, Val;
    var hash := RoutingHash(r.routing[..8]);
    HashInField(r);
    HashIsTenDigits(hash);
    ControlFills();
    PadsFill(FormatInt(r.amount), 12, '0');
    PaddedControl(r, hash);
    var line := PadRight(BatchControl(r, hash), 94);
    BatchControlLine(line, EntryHash(hash), PadLeft(FormatInt(r.amount), 12, '0'), PadLeft("0", 12, '0'),
                     PadRight("ACHRETURN", 10), PadRight("", 19), r.routing[..8], Repeat(' ', 3));
    FilledJoins(line, 54, 73, 76, ' ');
  }

  lemma FileControlLine(line: string, hash: string, debit: string, credit: string, rest: string)
    requires |hash| == 10 && |debit| == 12 && |credit| == 12 && |rest| == 39
    requires line == ("9000001000001" + "00000002") + hash + debit + credit + rest
    ensures |line| == 94 && line[..13] == "9000001000001" && line[13..21] == "00000002" && line[21..31] == hash
    ensures line[31..43] == debit && line[43..55] == credit && line[55..94] == rest
  {
    Cut("9000001000001" + "00000002", hash, debit, credit, rest);
    assert "9000001000001" + "00000002" == "9000001000001" + "00000002" + "" + "" + "";
    CutAt(line, 0, "9000001000001", "00000002", "", "", "");
  }

  lemma FileControlInColumns(r: Return)
    requires Sliceable(r)
    ensures FileControlColumns(PadRight(FileControl(r, RoutingHash(r.routing[..8])), 94), r)
  {
    hide LeftField, RightField, Filled, FormatInt, Pow10, HashField, RoutingHash, EntryHash, Repeat, PadLeft, Val, PadRight;
    var hash := RoutingHash(r.routing[..8]);
    HashInField(r);
    HashIsTenDigits(hash);
    ControlFills();
    Literals();
    PadsFill(FormatInt(r.amount), 12, '0');
    var line := FileControl(r, hash);
    assert "9" + "000001" + "000001" + "00000002" == "9000001000001" + "00000002";
    FileControlLine(line, EntryHash(hash), PadLeft(FormatInt(r.amount), 12, '0'), PadLeft("0", 12, '0'), PadRight("", 39));
    assert PadRight(line, 94) == line[..94] == line;
  }

  lemma {:induction false} TerminatedAt(lines: seq<string>, k: nat)
    requires k < |lines| && forall i :: 0 <= i < |lines| ==> |lines[i]| == 94
    ensures |Terminated(lines)| == 95 * |lines|
    ensures Terminated(lines)[95 * k..95 * k + 94] == lines[k] && Terminated(lines)[95 * k + 94] == '\n'
  {
    var n := |lines| - 1;
    var before := Terminated(lines[..n]);
    if n == 0 {
      assert before == "";
    } else {
      TerminatedAt(lines[..n], if k < n then k else 0);
    }
    assert |before| == 95 * n;
    var text := Terminated(lines);
    assert text == before + lines[n] + "\n";
    if k < n {
      assert text[..|before|] == before;
      Within(text, 0, |before|, 95 * k, 95 * k + 94);
      assert text[95 * k + 94] == before[95 * k + 94];
    }
  }

  /** Every column of a generated file, for any arguments the generator does not panic on. */
  lemma FileInColumns(r: Return, t: Stamp)
    requires Sliceable(r) && |t.date| == 6 && |t.time| == 4
    ensures InColumns(FileText(r, t), r, t)
  {
    hide PadRight, FileHeader, BatchHeader, EntryDetail, Addenda, BatchControl, FileControl, RoutingHash, Terminated,
         FileHeaderColumns, BatchHeaderColumns, EntryDetailColumns, AddendaColumns, BatchControlColumns, FileControlColumns;
    var lines := Records(r, t);
    forall k | 0 <= k < 6
      ensures |Terminated(lines)| == 570 && Terminated(lines)[95 * k..95 * k + 94] == lines[k] && Terminated(lines)[95 * k + 94] == '\n'
    {
      TerminatedAt(lines, k);
    }
    TerminatedAt(lines, 0);
    var text := Terminated(lines);
    assert text[..94] == text[95 * 0..95 * 0 + 94] == lines[0];
    assert text[95..189] == text[95 * 1..95 * 1 + 94] == lines[1];
    assert text[190..284] == text[95 * 2..95 * 2 + 94] == lines[2];
    assert text[285..379] == text[95 * 3..95 * 3 + 94] == lines[3];
    assert text[380..474] == text[95 * 4..95 * 4 + 94] == lines[4];
    assert text[475..569] == text[95 * 5..95 * 5 + 94] == lines[5];
    FileHeaderInColumns(r, t);
    BatchHeaderInColumns(r, t);
    EntryDetailInColumns(r);
    AddendaInColumns(r);
    BatchControlInColumns(r);
    FileControlInColumns(r);
  }
}
