/** The return-file parser (internal/nacha/parser.go): fields of one record, and the line
    machine that pairs entry details with their addenda. */
module Parser {
  import opened Wrappers
  import opened Decimal
  import opened Text

  const RECORD_LENGTH: nat := 94

  datatype ReturnEntry = ReturnEntry(
    traceNumber: string,
    rCode: string,
    amount: int,
    accountNumber: string,
    routingNumber: string)

  datatype Problem = BadFileHeader | BadAmount | OrphanAddenda | BadAddenda | UnknownRecordType

  /** Line numbers count from 1. */
  datatype ParseResult = Parsed(entries: seq<ReturnEntry>) | Rejected(line: nat, problem: Problem)

  // ---- Fields of one record --------------------------------------------------

  type Record = line: string | |line| >= RECORD_LENGTH witness Repeat(' ', 94)

  predicate ValidFileHeader(line: Record) {
    line[0] == '1' && line[1..3] == "01"
  }

  /** The fields of an entry detail, without a return code yet; None if the amount is not
      an integer. At most ten characters are read, so the value fits in 64 bits. */
  function ParseEntryDetail(line: Record): Option<ReturnEntry> {
    var amount := ScanInt(TrimSpace(line[29..39]));
    if amount.None? then None
    else Some(ReturnEntry(TrimSpace(line[79..94]), "", amount.value, TrimSpace(line[12..29]), TrimSpace(line[3..12])))
  }

  function ParseAddendaRCode(line: Record): Option<string> {
    var code := TrimSpace(line[3..6]);
    if line[1..3] == "99" && |code| == 3 then Some(code) else None
  }

  // ---- The line machine ------------------------------------------------------

  /** The loop's variables, or where and why it returned early. */
  datatype Machine =
    | Reading(entries: seq<ReturnEntry>, pending: Option<ReturnEntry>)
    | Stopped(line: nat, problem: Problem)

  function Flush(entries: seq<ReturnEntry>, pending: Option<ReturnEntry>): seq<ReturnEntry> {
    if pending.Some? then entries + [pending.value] else entries
  }

  /** One line, with trailing CRs dropped. A file header leaves the pending entry open. */
  function StepLine(m: Machine, number: nat, line: string): Machine {
    if m.Stopped? || |line| < RECORD_LENGTH then m
    else match line[0]
      case '1' => if ValidFileHeader(line) then m else Stopped(number, BadFileHeader)
      case '5' => Reading(Flush(m.entries, m.pending), None)
      case '6' =>
        var entry := ParseEntryDetail(line);
        if entry.None? then Stopped(number, BadAmount) else Reading(Flush(m.entries, m.pending), entry)
      case '7' =>
        if m.pending.None? then Stopped(number, OrphanAddenda)
        else
          var code := ParseAddendaRCode(line);
          if code.None? then Stopped(number, BadAddenda)
          else Reading(m.entries + [m.pending.value.(rCode := code.value)], None)
      case '8' => Reading(Flush(m.entries, m.pending), None)
      case '9' => Reading(Flush(m.entries, m.pending), None)
      case _ => Stopped(number, UnknownRecordType)
  }

  function RunLines(lines: seq<string>): Machine {
    if lines == [] then Reading([], None)
    else StepLine(RunLines(lines[..|lines| - 1]), |lines|, lines[|lines| - 1])
  }

  function Finish(m: Machine): ParseResult {
    match m
    case Reading(entries, pending) => Parsed(Flush(entries, pending))
    case Stopped(line, problem) => Rejected(line, problem)
  }

  lemma {:induction false} StoppedForever(lines: seq<string>, n: nat)
    requires n <= |lines| && RunLines(lines[..n]).Stopped?
    ensures RunLines(lines) == RunLines(lines[..n])
  {
    if n < |lines| {
      assert lines[..|lines| - 1][..n] == lines[..n];
      StoppedForever(lines[..|lines| - 1], n);
    } else {
      assert lines[..n] == lines;
    }
  }

  // ---- What a file means -----------------------------------------------------

  /** The records that can open, close or complete an entry: short lines and file headers
      are looked past. */
  function Relevant(lines: seq<string>): (records: seq<Record>)
    ensures forall i :: 0 <= i < |records| ==> records[i] in lines && records[i][0] != '1'
  {
    if lines == [] then []
    else
      var last := lines[|lines| - 1];
      Relevant(lines[..|lines| - 1]) + if |last| >= RECORD_LENGTH && last[0] != '1' then [last] else []
  }

  predicate WellFormed(line: string) {
    |line| >= RECORD_LENGTH ==>
      match line[0]
      case '1' => ValidFileHeader(line)
      case '6' => ParseEntryDetail(line).Some?
      case '7' => ParseAddendaRCode(line).Some?
      case c => c == '5' || c == '8' || c == '9'
  }

  predicate IsEntry(line: Record) { line[0] == '6' && ParseEntryDetail(line).Some? }

  predicate IsAddenda(line: Record) { line[0] == '7' && ParseAddendaRCode(line).Some? }

  /** The last relevant record is an entry detail, so an addenda may follow. */
  predicate Open(records: seq<Record>) {
    records != [] && IsEntry(records[|records| - 1])
  }

  /** Every record is well formed by itself and every addenda directly follows an entry. */
  predicate Acceptable(lines: seq<string>) {
    && (forall i :: 0 <= i < |lines| ==> WellFormed(lines[i]))
    && (forall i :: 0 <= i < |Relevant(lines)| && Relevant(lines)[i][0] == '7' ==> Open(Relevant(lines)[..i]))
  }

  /** Where the entry details are. */
  function EntryPositions(records: seq<Record>): (positions: seq<nat>)
    ensures forall k :: 0 <= k < |positions| ==> positions[k] < |records| && IsEntry(records[positions[k]])
  {
    if records == [] then []
    else
      var n := |records| - 1;
      EntryPositions(records[..n]) + if IsEntry(records[n]) then [n] else []
  }

  /** They are listed in order, and all of them. */
  lemma {:induction false} PositionsComplete(records: seq<Record>)
    ensures var positions := EntryPositions(records);
            && (forall j, k :: 0 <= j < k < |positions| ==> positions[j] < positions[k])
            && (forall i :: 0 <= i < |records| && IsEntry(records[i]) ==> i in positions)
  {
    hide IsEntry;
    if records != [] {
      var n := |records| - 1;
      var before := EntryPositions(records[..n]);
      PositionsComplete(records[..n]);
      forall i | 0 <= i < |records| && IsEntry(records[i]) ensures i in EntryPositions(records) {
        if i < n {
          assert records[..n][i] == records[i];
          assert i in before;
        }
      }
    }
  }

  /** The entry at position i with the code of the addenda right after it, or "". */
  function Paired(records: seq<Record>, i: nat): ReturnEntry
    requires i < |records| && IsEntry(records[i])
  {
    var code := if i + 1 < |records| && IsAddenda(records[i + 1]) then ParseAddendaRCode(records[i + 1]).value else "";
    ParseEntryDetail(records[i]).value.(rCode := code)
  }

  /** The entries of a list of records: one per entry detail, in order. */
  function EntriesOf(records: seq<Record>): (entries: seq<ReturnEntry>)
    ensures |entries| == |EntryPositions(records)|
  {
    var positions := EntryPositions(records);
    seq(|positions|, k requires 0 <= k < |positions| => Paired(records, positions[k]))
  }

  // ---- The loop refines the meaning ------------------------------------------

  lemma PairedAppend(records: seq<Record>, r: Record, i: nat)
    requires i < |records| && IsEntry(records[i])
    ensures Paired(records + [r], i) ==
            if i + 1 == |records| && IsAddenda(r) then Paired(records, i).(rCode := ParseAddendaRCode(r).value)
            else Paired(records, i)
  {
  }

  lemma PositionsAppend(records: seq<Record>, r: Record)
    ensures EntryPositions(records + [r]) == EntryPositions(records) + if IsEntry(r) then [|records|] else []
  {
    assert (records + [r])[..|records|] == records;
  }

  lemma EntriesAppendEntry(records: seq<Record>, r: Record)
    requires IsEntry(r)
    ensures EntriesOf(records + [r]) == EntriesOf(records) + [ParseEntryDetail(r).value]
  {
    PositionsAppend(records, r);
    var positions := EntryPositions(records);
    forall k | 0 <= k < |positions| ensures EntriesOf(records + [r])[k] == EntriesOf(records)[k] {
      PairedAppend(records, r, positions[k]);
    }
  }

  lemma OpenLast(records: seq<Record>)
    requires Open(records)
    ensures EntriesOf(records) != []
    ensures EntryPositions(records)[|EntryPositions(records)| - 1] == |records| - 1
    ensures EntriesOf(records)[|EntriesOf(records)| - 1] == ParseEntryDetail(records[|records| - 1]).value
  {
    PositionsAppend(records[..|records| - 1], records[|records| - 1]);
    assert records[..|records| - 1] + [records[|records| - 1]] == records;
  }

  lemma EntriesAppendAddenda(records: seq<Record>, r: Record)
    requires IsAddenda(r) && Open(records)
    ensures var entries, n := EntriesOf(records), |EntriesOf(records)| - 1;
            EntriesOf(records + [r]) == entries[..n] + [entries[n].(rCode := ParseAddendaRCode(r).value)]
  {
    PositionsAppend(records, r);
    OpenLast(records);
    var positions := EntryPositions(records);
    forall k | 0 <= k < |positions| ensures EntriesOf(records + [r])[k] == Paired(records + [r], positions[k]) {
    }
    forall k | 0 <= k < |positions| - 1 ensures EntriesOf(records + [r])[k] == EntriesOf(records)[k] {
      PairedAppend(records, r, positions[k]);
    }
    PairedAppend(records, r, positions[|positions| - 1]);
  }

  lemma EntriesAppendOther(records: seq<Record>, r: Record)
    requires !IsEntry(r) && !(IsAddenda(r) && Open(records))
    ensures EntriesOf(records + [r]) == EntriesOf(records)
  {
    PositionsAppend(records, r);
    var positions := EntryPositions(records);
    forall k | 0 <= k < |positions| ensures EntriesOf(records + [r])[k] == EntriesOf(records)[k] {
      PairedAppend(records, r, positions[k]);
    }
  }

  /** The machine mirrors the meaning of the lines read so far. */
  predicate Mirrors(m: Machine, lines: seq<string>) {
    if Acceptable(lines) then
      && m.Reading?
      && Flush(m.entries, m.pending) == EntriesOf(Relevant(lines))
      && (m.pending.Some? <==> Open(Relevant(lines)))
    else m.Stopped?
  }

  lemma AcceptablePrefix(lines: seq<string>)
    requires lines != []
    ensures var init, last := lines[..|lines| - 1], lines[|lines| - 1];
            Acceptable(lines) <==> Acceptable(init) && WellFormed(last)
                                   && (|last| >= RECORD_LENGTH && last[0] == '7' ==> Open(Relevant(init)))
  {
    var init, last := lines[..|lines| - 1], lines[|lines| - 1];
    var r, r' := Relevant(init), Relevant(lines);
    assert forall i :: 0 <= i <= |r| ==> r'[..i] == r[..i];
    assert r[..|r|] == r;
    if Acceptable(lines) {
      assert forall i :: 0 <= i < |init| ==> init[i] == lines[i];
      assert forall i :: 0 <= i < |r| ==> r[i] == r'[i];
      if |last| >= RECORD_LENGTH && last[0] == '7' {
        assert r'[|r|] == last;
      }
    }
  }

  /** One record that is looked at. */
  lemma RecordMirrors(m: Machine, init: seq<string>, last: Record, number: nat)
    requires m.Reading? && last[0] != '1' && WellFormed(last)
    requires last[0] == '7' ==> Open(Relevant(init))
    requires Flush(m.entries, m.pending) == EntriesOf(Relevant(init)) && (m.pending.Some? <==> Open(Relevant(init)))
    ensures var m', r' := StepLine(m, number, last), Relevant(init) + [last];
            m'.Reading? && Flush(m'.entries, m'.pending) == EntriesOf(r') && (m'.pending.Some? <==> Open(r'))
  {
    hide ParseEntryDetail, ParseAddendaRCode, EntriesOf, Relevant, EntryPositions;
    var r := Relevant(init);
    if last[0] == '6' {
      EntriesAppendEntry(r, last);
    } else if last[0] == '7' {
      EntriesAppendAddenda(r, last);
      OpenLast(r);
    } else {
      EntriesAppendOther(r, last);
    }
  }

  lemma BadRecordStops(m: Machine, init: seq<string>, last: string, number: nat)
    requires m.Reading? && |last| >= RECORD_LENGTH
    requires m.pending.Some? <==> Open(Relevant(init))
    requires !WellFormed(last) || (last[0] == '7' && !Open(Relevant(init)))
    ensures StepLine(m, number, last).Stopped?
  {
    hide ParseEntryDetail, ParseAddendaRCode, Relevant, Open;
  }

  lemma {:induction false} LoopMirrors(lines: seq<string>)
    ensures Mirrors(RunLines(lines), lines)
  {
    hide WellFormed, Acceptable, Open, EntriesOf, ParseEntryDetail, ParseAddendaRCode, ValidFileHeader;
    if lines == [] {
      NothingMirrors();
    } else {
      var init, last := lines[..|lines| - 1], lines[|lines| - 1];
      LoopMirrors(init);
      AcceptablePrefix(lines);
      if Acceptable(init) && |last| >= RECORD_LENGTH {
        if !WellFormed(last) || (last[0] == '7' && !Open(Relevant(init))) {
          BadRecordStops(RunLines(init), init, last, |lines|);
        } else if last[0] != '1' {
          RecordMirrors(RunLines(init), init, last, |lines|);
        } else {
          HeaderPasses(RunLines(init), last, |lines|);
          assert Relevant(lines) == Relevant(init);
        }
      } else {
        ShortIsWellFormed(last);
        assert |last| < RECORD_LENGTH ==> Relevant(lines) == Relevant(init);
      }
    }
  }

  lemma NothingMirrors()
    ensures Mirrors(RunLines([]), [])
  {
  }

  lemma HeaderPasses(m: Machine, line: Record, number: nat)
    requires line[0] == '1' && WellFormed(line)
    ensures StepLine(m, number, line) == m
  {
  }

  lemma ShortIsWellFormed(line: string)
    ensures |line| < RECORD_LENGTH ==> WellFormed(line)
  {
  }

  /** A file parses exactly when it is acceptable, and then into the entries it means. */
  ghost predicate Means(r: ParseResult, lines: seq<string>) {
    if Acceptable(lines) then r == Parsed(EntriesOf(Relevant(lines)))
    else r.Rejected? && 0 < r.line <= |lines| && Acceptable(lines[..r.line - 1]) && !Acceptable(lines[..r.line])
  }

  /** A rejection names the first line that makes the file unacceptable. */
  lemma {:induction false} StopsAtFirst(lines: seq<string>)
    requires RunLines(lines).Stopped?
    ensures var n := RunLines(lines).line;
            0 < n <= |lines| && Acceptable(lines[..n - 1]) && !Acceptable(lines[..n])
  {
    hide Acceptable, Relevant, EntriesOf, Open, ParseEntryDetail, ParseAddendaRCode, ValidFileHeader;
    var init := lines[..|lines| - 1];
    LoopMirrors(init);
    LoopMirrors(lines);
    assert lines[..|lines|] == lines;
    if RunLines(init).Stopped? {
      StopsAtFirst(init);
      var n := RunLines(init).line;
      assert init[..n] == lines[..n] && init[..n - 1] == lines[..n - 1];
    }
  }

  lemma ParseMeans(lines: seq<string>)
    ensures Means(Finish(RunLines(lines)), lines)
  {
    LoopMirrors(lines);
    if !Acceptable(lines) {
      StopsAtFirst(lines);
    }
  }

  method ParseFile(content: string) returns (r: ParseResult)
    ensures r == Finish(RunLines(Lines(content)))
    ensures Means(r, Lines(content))
  {
    ParseMeans(Lines(content));
    var lines := Split(UnixLines(content));
    ghost var trimmed := Lines(content);
    var entries: seq<ReturnEntry> := [];
    var pending: Option<ReturnEntry> := None;
    for i := 0 to |lines|
      invariant RunLines(trimmed[..i]) == Reading(entries, pending)
    {
      var line := TrimCR(lines[i]);
      assert trimmed[..i + 1][..i] == trimmed[..i] && trimmed[i] == line;
      ghost var after := RunLines(trimmed[..i + 1]);
      if after.Stopped? { StoppedForever(trimmed, i + 1); }
      if |line| == 0 {
        continue;
      }
      if |line| < RECORD_LENGTH {
        continue;
      }
      match line[0]
      case '1' =>
        if !ValidFileHeader(line) {
          return Rejected(i + 1, BadFileHeader);
        }
      case '5' =>
        if pending.Some? {
          entries := entries + [pending.value];
          pending := None;
        }
      case '6' =>
        if pending.Some? {
          entries := entries + [pending.value];
        }
        var entry := ParseEntryDetail(line);
        if entry.None? {
          return Rejected(i + 1, BadAmount);
        }
        pending := entry;
      case '7' =>
        if pending.None? {
          return Rejected(i + 1, OrphanAddenda);
        }
        var rcode := ParseAddendaRCode(line);
        if rcode.None? {
          return Rejected(i + 1, BadAddenda);
        }
        entries := entries + [pending.value.(rCode := rcode.value)];
        pending := None;
      case '8' =>
        if pending.Some? {
          entries := entries + [pending.value];
          pending := None;
        }
      case '9' =>
        if pending.Some? {
          entries := entries + [pending.value];
          pending := None;
        }
      case _ =>
        return Rejected(i + 1, UnknownRecordType);
    }
    assert trimmed[..|lines|] == trimmed;
    if pending.Some? {
      entries := entries + [pending.value];
    }
    r := Parsed(entries);
  }
}
