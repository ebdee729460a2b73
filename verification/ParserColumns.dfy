/** What ParseFile accepts and returns, by the columns of its lines alone: no field function
    and no part of the line machine appears in these statements. */
module ParserColumns {
  import opened Wrappers
  import opened Decimal
  import opened Text
  import opened Parser
  import opened ParserLaws

  // ---- One line --------------------------------------------------------------

  predicate OfType(line: string, c: char) {
    |line| >= 94 && line[0] == c
  }

  /** Looked past when an addenda is paired with its entry. */
  predicate Skipped(line: string) {
    |line| < 94 || line[0] == '1'
  }

  /** The digits of an amount run from i to k: before them white space and at most one sign,
      right in front; behind them anything but a digit. */
  predicate AmountAt(raw: string, i: nat, k: nat) {
    && DigitRun(raw, i, k)
    && ((forall m :: 0 <= m < i ==> IsSpace(raw[m]))
        || (i > 0 && (raw[i - 1] == '+' || raw[i - 1] == '-') && forall m :: 0 <= m < i - 1 ==> IsSpace(raw[m])))
  }

  function AmountOf(raw: string, i: nat, k: nat): int
    requires AmountAt(raw, i, k)
  {
    if i > 0 && raw[i - 1] == '-' then -(Val(raw[i..k]) as int) else Val(raw[i..k])
  }

  predicate HasAmount(raw: string) {
    exists i, k :: 0 <= i < k <= |raw| && AmountAt(raw, i, k)
  }

  predicate Amount(raw: string, n: int) {
    exists i, k :: 0 <= i < k <= |raw| && AmountAt(raw, i, k) && n == AmountOf(raw, i, k)
  }

  /** A line by itself. */
  predicate LineOk(line: string) {
    |line| >= 94 ==>
      && line[0] in {'1', '5', '6', '7', '8', '9'}
      && (line[0] == '1' ==> line[1..3] == "01")
      && (line[0] == '6' ==> HasAmount(line[29..39]))
      && (line[0] == '7' ==> line[1..3] == "99" && !IsSpace(line[3]) && !IsSpace(line[5]))
  }

  /** The four fields of an entry detail, each stripped of white space. */
  predicate DetailReads(line: string, e: ReturnEntry)
    requires |line| >= 94
  {
    && Stripped(line[3..12], e.routingNumber)
    && Stripped(line[12..29], e.accountNumber)
    && Amount(line[29..39], e.amount)
    && Stripped(line[79..94], e.traceNumber)
  }

  lemma AddendaColumns(line: Record, code: string)
    ensures ParseAddendaRCode(line) == Some(code) <==>
            line[1..3] == "99" && !IsSpace(line[3]) && !IsSpace(line[5]) && code == line[3..6]
  {
    var raw := line[3..6];
    assert raw[0] == line[3] && raw[2] == line[5];
    TrimStrips(raw);
    var i, j :| 0 <= i <= j <= |raw| && StrippedAt(raw, TrimSpace(raw), i, j);
    if !IsSpace(line[3]) && !IsSpace(line[5]) {
      assert StrippedAt(raw, raw, 0, 3);
      TrimIff(raw, raw);
    }
    if |TrimSpace(raw)| == 3 {
      assert i == 0 && j == 3 && raw[0..3] == raw;
    }
  }

  lemma SliceOfSlice(raw: string, a: nat, b: nat, i: nat, j: nat)
    requires a <= b <= |raw| && i <= j <= b - a
    ensures raw[a..b][i..j] == raw[a + i..a + j]
  {
    var x, y := raw[a..b][i..j], raw[a + i..a + j];
    assert forall k :: 0 <= k < |x| ==> x[k] == raw[a..b][i + k] == raw[a + i + k] == y[k];
    assert x == y;
  }

  lemma AmountInText(raw: string, s: string, a: nat, b: nat, start: nat, k: nat)
    requires a <= b <= |raw| && StrippedAt(raw, s, a, b)
    requires start == (if s != [] && (s[0] == '+' || s[0] == '-') then 1 else 0) && DigitRun(s, start, k)
    ensures a + k <= |raw| && AmountAt(raw, a + start, a + k) && AmountOf(raw, a + start, a + k) == if s[0] == '-' then -(Val(s[start..k]) as int) else Val(s[start..k])
  {
    hide Val;
    var digits := s[start..k];
    assert |digits| > 0 && AllDigits(digits);
    SliceOfSlice(raw, a, b, start, k);
    assert raw[a + start..a + k] == digits;
    assert forall m :: 0 <= m < |s| ==> s[m] == raw[a + m];
    assert IsDigit(digits[0]) && digits[0] == s[start];
  }

  lemma TextInAmount(raw: string, s: string, a: nat, b: nat, i: nat, k: nat)
    requires a <= b <= |raw| && StrippedAt(raw, s, a, b)
    requires i < k <= |raw| && AmountAt(raw, i, k)
    ensures Denotes(s, AmountOf(raw, i, k))
  {
    assert IsDigit(raw[i..k][0]) && IsDigit(raw[i..k][k - i - 1]);
    assert IsDigit(raw[i]) && IsDigit(raw[k - 1]);
    assert forall m :: 0 <= m < |s| ==> s[m] == raw[a + m];
    var start := if s != [] && (s[0] == '+' || s[0] == '-') then 1 else 0;
    assert a <= i && k <= b;
    assert i == a + start;
    SliceOfSlice(raw, a, b, start, k - a);
    assert s[start..k - a] == raw[i..k];
    assert DigitRun(s, start, k - a);
  }

  /** The stripped field denotes n exactly when the field, as it stands, does. */
  lemma AmountIff(raw: string, n: int)
    ensures Denotes(TrimSpace(raw), n) <==> Amount(raw, n)
  {
    var s := TrimSpace(raw);
    TrimStrips(raw);
    hide TrimSpace, StrippedAt, AmountAt, AmountOf, DigitRun;
    var a, b :| 0 <= a <= b <= |raw| && StrippedAt(raw, s, a, b);
    if Denotes(s, n) {
      var k := DenotesUpTo(s, n);
      var start := if s != [] && (s[0] == '+' || s[0] == '-') then 1 else 0;
      AmountInText(raw, s, a, b, start, k);
    }
    if Amount(raw, n) {
      var i, k :| 0 <= i < k <= |raw| && AmountAt(raw, i, k) && n == AmountOf(raw, i, k);
      TextInAmount(raw, s, a, b, i, k);
    }
  }

  lemma DenotesUpTo(s: string, n: int) returns (k: nat)
    requires Denotes(s, n)
    ensures var start := if s != [] && (s[0] == '+' || s[0] == '-') then 1 else 0;
            DigitRun(s, start, k) && start < k <= |s| && n == if s[0] == '-' then -(Val(s[start..k]) as int) else Val(s[start..k])
  {
    var start := if s != [] && (s[0] == '+' || s[0] == '-') then 1 else 0;
    k :| 0 <= k <= |s| && DigitRun(s, start, k) && n == if s[0] == '-' then -(Val(s[start..k]) as int) else Val(s[start..k]);
  }

  lemma DetailColumns(line: Record, e: ReturnEntry)
    ensures ParseEntryDetail(line) == Some(e) <==> DetailReads(line, e) && e.rCode == ""
  {
    hide Stripped, TrimSpace, ScanInt, Denotes, Amount;
    AmountIff(line[29..39], e.amount);
    TrimIff(line[3..12], e.routingNumber);
    TrimIff(line[12..29], e.accountNumber);
    TrimIff(line[79..94], e.traceNumber);
    ScanIff(TrimSpace(line[29..39]), e.amount);
  }

  // ---- A whole file ----------------------------------------------------------

  /** Line j is the addenda of the entry in line i: nothing but skipped lines between them. */
  predicate Follows(lines: seq<string>, i: nat, j: nat) {
    && i < j < |lines| && OfType(lines[i], '6') && OfType(lines[j], '7')
    && forall m :: i < m < j ==> Skipped(lines[m])
  }

  predicate FileOk(lines: seq<string>) {
    && (forall i :: 0 <= i < |lines| ==> LineOk(lines[i]))
    && (forall j :: 0 <= j < |lines| && OfType(lines[j], '7') ==> exists i :: 0 <= i < j && Follows(lines, i, j))
  }

  /** The entry that line i describes: its own fields, and columns 4 to 6 of its addenda. */
  predicate EntryReads(e: ReturnEntry, lines: seq<string>, i: nat) {
    && i < |lines| && OfType(lines[i], '6') && DetailReads(lines[i], e)
    && (forall j :: i < j < |lines| && Follows(lines, i, j) ==> e.rCode == lines[j][3..6])
    && ((forall j :: i < j < |lines| ==> !Follows(lines, i, j)) ==> e.rCode == "")
  }

  /** Where the records that matter for pairing are. */
  function RelevantAt(lines: seq<string>): (at: seq<nat>)
    ensures |at| == |Relevant(lines)|
    ensures forall k :: 0 <= k < |at| ==> at[k] < |lines| && lines[at[k]] == Relevant(lines)[k]
  {
    if lines == [] then []
    else
      var n := |lines| - 1;
      RelevantAt(lines[..n]) + if Skipped(lines[n]) then [] else [n]
  }

  lemma {:induction false} AtIncreases(lines: seq<string>, k: nat, m: nat)
    requires k < m < |RelevantAt(lines)|
    ensures RelevantAt(lines)[k] < RelevantAt(lines)[m]
  {
    hide Skipped;
    var before := RelevantAt(lines[..|lines| - 1]);
    if m < |before| {
      AtIncreases(lines[..|lines| - 1], k, m);
    }
  }

  lemma {:induction false} AtComplete(lines: seq<string>, i: nat) returns (p: nat)
    requires i < |lines| && !Skipped(lines[i])
    ensures p < |RelevantAt(lines)| && RelevantAt(lines)[p] == i
  {
    hide Skipped;
    var n := |lines| - 1;
    if i < n {
      p := AtComplete(lines[..n], i);
    } else {
      p := |RelevantAt(lines)| - 1;
    }
  }

  /** Neighbours among the relevant records have only skipped lines between them. */
  lemma GapIsSkipped(lines: seq<string>, k: nat, m: nat)
    requires k + 1 < |RelevantAt(lines)| && RelevantAt(lines)[k] < m < RelevantAt(lines)[k + 1]
    ensures Skipped(lines[m])
  {
    hide Skipped, RelevantAt;
    if !Skipped(lines[m]) {
      var p := AtComplete(lines, m);
      if p < k { AtIncreases(lines, p, k); }
      if p > k + 1 { AtIncreases(lines, k + 1, p); }
    }
  }

  /** The addenda of an entry is the next relevant record. */
  lemma FollowsIsNext(lines: seq<string>, k: nat, j: nat)
    requires k < |RelevantAt(lines)| && Follows(lines, RelevantAt(lines)[k], j)
    ensures k + 1 < |RelevantAt(lines)| && RelevantAt(lines)[k + 1] == j
  {
    hide RelevantAt;
    var at := RelevantAt(lines);
    var p := AtComplete(lines, j);
    if p < k { AtIncreases(lines, p, k); }
    AtIncreases(lines, k, k + 1);
    if p > k + 1 { AtIncreases(lines, k + 1, p); }
  }

  lemma NextFollows(lines: seq<string>, k: nat)
    requires k + 1 < |RelevantAt(lines)|
    requires OfType(lines[RelevantAt(lines)[k]], '6') && OfType(lines[RelevantAt(lines)[k + 1]], '7')
    ensures Follows(lines, RelevantAt(lines)[k], RelevantAt(lines)[k + 1])
  {
    hide RelevantAt, Skipped;
    var at := RelevantAt(lines);
    AtIncreases(lines, k, k + 1);
    forall m | at[k] < m < at[k + 1] ensures Skipped(lines[m]) {
      GapIsSkipped(lines, k, m);
    }
  }

  lemma LineOkIff(line: string)
    ensures WellFormed(line) <==> LineOk(line)
  {
    if |line| >= 94 && line[0] == '6' {
      DetailOkIff(line);
    } else if |line| >= 94 && line[0] == '7' {
      AddendaColumns(line, line[3..6]);
      if ParseAddendaRCode(line).Some? {
        AddendaColumns(line, ParseAddendaRCode(line).value);
      }
    }
  }

  lemma DetailOkIff(line: Record)
    ensures ParseEntryDetail(line).Some? <==> HasAmount(line[29..39])
  {
    hide AmountAt, TrimSpace, ScanInt, Denotes, AmountOf;
    var raw := line[29..39];
    if ParseEntryDetail(line).Some? {
      var n := ScanInt(TrimSpace(raw)).value;
      ScanIff(TrimSpace(raw), n);
      AmountIff(raw, n);
    }
    if HasAmount(raw) {
      var i, k :| 0 <= i < k <= |raw| && AmountAt(raw, i, k);
      AmountIff(raw, AmountOf(raw, i, k));
      ScanIff(TrimSpace(raw), AmountOf(raw, i, k));
    }
  }

  lemma OpenIff(lines: seq<string>, k: nat)
    requires k < |Relevant(lines)| && forall i :: 0 <= i < |lines| ==> LineOk(lines[i])
    ensures Open(Relevant(lines)[..k]) <==> k > 0 && OfType(Relevant(lines)[k - 1], '6')
  {
    hide ParseEntryDetail, Relevant, LineOk;
    var at := RelevantAt(lines);
    if k > 0 {
      LineOkIff(lines[at[k - 1]]);
    }
  }

  /** The declarative reading and the columns accept the same files. */
  lemma FileOkIff(lines: seq<string>)
    ensures Acceptable(lines) <==> FileOk(lines)
  {
    hide LineOk, WellFormed, Open, Relevant, RelevantAt;
    forall i | 0 <= i < |lines| ensures WellFormed(lines[i]) <==> LineOk(lines[i]) {
      LineOkIff(lines[i]);
    }
    if forall i :: 0 <= i < |lines| ==> LineOk(lines[i]) {
      if Acceptable(lines) {
        AcceptableFollows(lines);
      }
      if FileOk(lines) {
        FileOkOpens(lines);
      }
    }
  }

  lemma AcceptableFollows(lines: seq<string>)
    requires Acceptable(lines) && forall i :: 0 <= i < |lines| ==> LineOk(lines[i])
    ensures FileOk(lines)
  {
    hide LineOk, WellFormed, Open, Relevant, RelevantAt, Follows;
    var at := RelevantAt(lines);
    forall j | 0 <= j < |lines| && OfType(lines[j], '7') ensures exists i :: 0 <= i < j && Follows(lines, i, j) {
      var k := AtComplete(lines, j);
      OpenIff(lines, k);
      AtIncreases(lines, k - 1, k);
      NextFollows(lines, k - 1);
    }
  }

  lemma FileOkOpens(lines: seq<string>)
    requires FileOk(lines)
    ensures forall k :: 0 <= k < |Relevant(lines)| && Relevant(lines)[k][0] == '7' ==> Open(Relevant(lines)[..k])
  {
    hide LineOk, WellFormed, Open, Relevant, RelevantAt;
    var at := RelevantAt(lines);
    forall k | 0 <= k < |Relevant(lines)| && Relevant(lines)[k][0] == '7' ensures Open(Relevant(lines)[..k]) {
      assert OfType(lines[at[k]], '7');
      var i :| 0 <= i < at[k] && Follows(lines, i, at[k]);
      var p := AtComplete(lines, i);
      FollowsIsNext(lines, p, at[k]);
      if p + 1 < k { AtIncreases(lines, p + 1, k); }
      if k < p + 1 { AtIncreases(lines, k, p + 1); }
      OpenIff(lines, k);
    }
  }

  // ---- The two laws ----------------------------------------------------------

  /** ParseFile accepts a file exactly if every full line is in order by its own columns and
      every addenda follows an entry detail, looking past short lines and file headers. */
  lemma ParsedIff(content: string)
    ensures Parse(content).Parsed? <==> FileOk(Lines(content))
  {
    hide FileOk, Acceptable, Lines, EntriesOf;
    ParseMeans(Lines(content));
    FileOkIff(Lines(content));
  }

  /** In particular an addenda of another type makes the whole file unacceptable. */
  lemma OtherAddendaRejected(content: string, j: nat)
    requires j < |Lines(content)| && OfType(Lines(content)[j], '7') && Lines(content)[j][1..3] != "99"
    ensures Parse(content).Rejected?
  {
    hide Lines, Parse;
    ParsedIff(content);
  }

  lemma PairedReads(lines: seq<string>, p: nat)
    requires FileOk(lines) && p < |Relevant(lines)| && IsEntry(Relevant(lines)[p])
    ensures EntryReads(Paired(Relevant(lines), p), lines, RelevantAt(lines)[p])
  {
    hide ParseEntryDetail, ParseAddendaRCode, Relevant, RelevantAt, DetailReads;
    var records, at := Relevant(lines), RelevantAt(lines);
    var e, i := Paired(records, p), at[p];
    DetailColumns(lines[i], ParseEntryDetail(records[p]).value);
    SameDetail(lines[i], ParseEntryDetail(records[p]).value, e);
    forall j | i < j < |lines| && Follows(lines, i, j) ensures e.rCode == lines[j][3..6] {
      FollowsIsNext(lines, p, j);
      AddendaColumns(lines[j], lines[j][3..6]);
    }
    if p + 1 < |records| && IsAddenda(records[p + 1]) {
      NextFollows(lines, p);
      AtIncreases(lines, p, p + 1);
    }
  }

  lemma SameDetail(line: Record, e: ReturnEntry, e': ReturnEntry)
    requires DetailReads(line, e) && e' == e.(rCode := e'.rCode)
    ensures DetailReads(line, e')
  {
  }

  /** And then it returns one entry for each entry detail, in file order, each with the four
      fields of its own line and columns 4 to 6 of its addenda, or "" without one. */
  lemma EntriesByColumn(content: string) returns (details: seq<nat>)
    requires Parse(content).Parsed?
    ensures forall k :: 0 < k < |details| ==> details[k - 1] < details[k]
    ensures forall i :: i in details <==> 0 <= i < |Lines(content)| && OfType(Lines(content)[i], '6')
    ensures |details| == |Parse(content).entries|
    ensures forall k :: 0 <= k < |details| ==> EntryReads(Parse(content).entries[k], Lines(content), details[k])
  {
    var lines := Lines(content);
    hide FileOk, Lines, Relevant, RelevantAt, Paired, EntryReads, EntryPositions, IsEntry;
    ParsedIff(content);
    ParseMeans(lines);
    var records, at := Relevant(lines), RelevantAt(lines);
    var positions := EntryPositions(records);
    assert Parse(content).entries == EntriesOf(records);
    details := seq(|positions|, k requires 0 <= k < |positions| => at[positions[k]]);
    PositionsComplete(records);
    forall k | 0 < k < |details| ensures details[k - 1] < details[k] {
      AtIncreases(lines, positions[k - 1], positions[k]);
    }
    forall k | 0 <= k < |details| ensures EntryReads(Parse(content).entries[k], lines, details[k]) {
      PairedReads(lines, positions[k]);
    }
    forall i | 0 <= i < |lines| && OfType(lines[i], '6') ensures i in details {
      var p := AtComplete(lines, i);
      DetailIsEntry(lines, i, p);
      var k :| 0 <= k < |positions| && positions[k] == p;
      assert details[k] == i;
    }
    forall i | i in details ensures 0 <= i < |lines| && OfType(lines[i], '6') {
      var k :| 0 <= k < |details| && details[k] == i;
      ReadsDetail(Parse(content).entries[k], lines, i);
    }
  }

  lemma ReadsDetail(e: ReturnEntry, lines: seq<string>, i: nat)
    requires EntryReads(e, lines, i)
    ensures i < |lines| && OfType(lines[i], '6')
  {
  }

  lemma DetailIsEntry(lines: seq<string>, i: nat, p: nat)
    requires FileOk(lines) && i < |lines| && OfType(lines[i], '6')
    requires p < |RelevantAt(lines)| && RelevantAt(lines)[p] == i
    ensures IsEntry(Relevant(lines)[p])
  {
    hide RelevantAt, Relevant;
    LineOkIff(lines[i]);
  }
}
