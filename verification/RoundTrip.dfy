/** Generated files read back: one return, and any batch of them. */
module RoundTrip {
  import opened Wrappers
  import opened Decimal
  import opened Text
  import opened Parser
  import opened ParserLaws
  import opened Generator

  /** What the return endpoint accepts, with the 15-digit trace the simulator builds. */
  predicate ValidReturn(r: Return) {
    && |r.routing| == 9 && AllDigits(r.routing)
    && 4 <= |r.account| <= 17 && AllDigits(r.account)
    && |r.trace| == 15 && AllDigits(r.trace)
    && |r.rCode| == 3 && r.rCode[0] == 'R' && IsDigit(r.rCode[1]) && IsDigit(r.rCode[2])
    && r.amount > 0
  }

  const AMOUNT_LIMIT: nat := 10_000_000_000

  function Expected(r: Return): ReturnEntry
    requires r.amount >= 0
  {
    ReturnEntry(r.trace, r.rCode, r.amount % AMOUNT_LIMIT, r.account, r.routing)
  }

  // ---- Lines of a generated file ---------------------------------------------

  predicate Clean(s: string) {
    forall i :: 0 <= i < |s| ==> s[i] != '\n' && s[i] != '\r'
  }

  lemma CleanDigits(s: string)
    requires AllDigits(s)
    ensures Clean(s)
  {
  }

  lemma CleanPads(s: string, width: nat)
    requires Clean(s)
    ensures Clean(PadRight(s, width)) && Clean(PadLeft(s, width)) && Clean(PadLeft(s, width, '0'))
  {
  }

  /** The lines with a line feed between them. */
  function Joined(lines: seq<string>): string
    requires lines != []
  {
    if |lines| == 1 then lines[0] else Joined(lines[..|lines| - 1]) + "\n" + lines[|lines| - 1]
  }

  lemma {:induction false} TerminatedIsJoined(lines: seq<string>)
    requires lines != []
    ensures Terminated(lines) == Joined(lines) + "\n"
  {
    var init := lines[..|lines| - 1];
    if |lines| > 1 {
      TerminatedIsJoined(init);
    } else {
      assert Terminated(init) == "";
    }
  }

  lemma {:induction false} LinesOfJoined(lines: seq<string>)
    requires lines != [] && forall line :: line in lines ==> Clean(line)
    ensures Lines(Joined(lines)) == lines
  {
    var last := lines[|lines| - 1];
    LinesOfOne(last);
    if |lines| > 1 {
      var init := lines[..|lines| - 1];
      LinesOfJoined(init);
      LinesAtNewline(Joined(init), last);
    }
  }

  lemma LinesOfOne(line: string)
    requires Clean(line)
    ensures Lines(line) == [line]
  {
    LinesAreTrimmedSplit(line);
    SplitLine(line);
    TrimCRKeeps(line, |line|);
  }

  predicate CleanReturn(r: Return, t: Stamp) {
    Clean(r.routing) && Clean(r.account) && Clean(FormatInt(r.amount)) && Clean(r.trace) && Clean(r.rCode) && Clean(t.date) && Clean(t.time)
  }

  lemma ValidIsClean(r: Return, t: Stamp)
    requires ValidReturn(r) && ValidStamp(t)
    ensures CleanReturn(r, t)
  {
    CleanDigits(Itoa(r.amount));
  }

  lemma CleanLiterals()
    ensures Clean(PadRight("ACH RETURN RDFI", 23)) && Clean(PadRight("ACH RETURN ODFI", 23)) && Clean(PadRight("", 8))
    ensures Clean(PadRight("ACH RETURN SIM", 16)) && Clean(PadRight("", 20)) && Clean(PadRight("ACHRETURN", 10))
    ensures Clean(PadRight("RETURN", 10))
    ensures Clean(PadLeft("1", 7, '0')) && Clean(PadRight("RETURN PAYMENT", 22)) && Clean(PadRight("", 44)) && Clean(PadLeft("2", 6, '0'))
    ensures Clean(PadLeft("0", 12, '0')) && Clean(PadRight("", 19)) && Clean(PadLeft("1", 6, '0'))
    ensures Clean(PadLeft("2", 8, '0')) && Clean(PadRight("", 39))
  {
  }

  lemma CleanShortLiterals()
    ensures Clean("1" + "01") && Clean("5" + "225") && Clean("A") && Clean("094") && Clean("10") && Clean("1")
    ensures Clean("PPD") && Clean("   ")
    ensures Clean("6") && Clean("21") && Clean("  ") && Clean("7") && Clean("99") && Clean("      ") && Clean("8")
    ensures Clean("225") && Clean("9")
  {
  }

  lemma CleanPlus(a: string, b: string)
    requires Clean(a) && Clean(b)
    ensures Clean(a + b)
  {
  }

  lemma Clean3(a: string, b: string, c: string)
    requires Clean(a) && Clean(b) && Clean(c)
    ensures Clean(a + b + c)
  {
    hide Clean;
    CleanPlus(a, b);
    CleanPlus(a + b, c);
  }

  lemma Clean4(a: string, b: string, c: string, d: string)
    requires Clean(a) && Clean(b) && Clean(c) && Clean(d)
    ensures Clean(a + b + c + d)
  {
    hide Clean;
    Clean3(a, b, c);
    CleanPlus(a + b + c, d);
  }

  lemma CleanFields(r: Return, t: Stamp)
    requires CleanReturn(r, t) && Sliceable(r)
    ensures Clean(PadLeft(" " + r.routing, 10)) && Clean(r.routing[..8]) && Clean([r.routing[8]]) && Clean(PadRight(r.account, 17))
    ensures Clean(PadLeft(FormatInt(r.amount), 10, '0')) && Clean(PadLeft(FormatInt(r.amount), 12, '0'))
    ensures Clean(PadRight(r.trace, 15)) && Clean(PadLeft(r.trace, 15, '0')) && Clean(PadRight(r.rCode, 3))
    ensures Clean(EntryHash(RoutingHash(r.routing[..8])))
  {
    CleanRouting(r.routing);
    CleanHash(RoutingHash(r.routing[..8]));
    hide FormatInt, RoutingHash, Pow10, PadLeft, PadRight, Clean, EntryHash;
    CleanPads(" " + r.routing, 10);
    CleanPads(r.account, 17);
    CleanPads(FormatInt(r.amount), 10);
    CleanPads(FormatInt(r.amount), 12);
    CleanPads(r.trace, 15);
    CleanPads(r.rCode, 3);
  }

  lemma CleanRouting(routing: string)
    requires Clean(routing) && |routing| >= 9
    ensures Clean(" " + routing) && Clean(routing[..8]) && Clean([routing[8]])
  {
  }

  lemma CleanHash(hash: nat)
    requires hash < Pow10(10)
    ensures Clean(EntryHash(hash))
  {
    HashIsTenDigits(hash);
    hide EntryHash;
    CleanDigits(EntryHash(hash));
  }

  lemma FileHeaderIsClean(r: Return, t: Stamp)
    requires CleanReturn(r, t) && Sliceable(r)
    ensures Clean(FileHeader(r, t))
  {
    hide Clean, PadLeft, PadRight, FormatInt, EntryHash, RoutingHash;
    CleanLiterals();
    CleanShortLiterals();
    CleanFields(r, t);
    var ids := PadLeft(" " + r.routing, 10) + PadLeft(" " + r.routing, 10) + t.date + t.time;
    Clean4(PadLeft(" " + r.routing, 10), PadLeft(" " + r.routing, 10), t.date, t.time);
    Clean4(ids, "A", "094", "10");
    CleanPlus(ids + "A" + "094" + "10", "1");
    Clean3(PadRight("ACH RETURN RDFI", 23), PadRight("ACH RETURN ODFI", 23), PadRight("", 8));
    Clean3("1" + "01", ids + "A" + "094" + "10" + "1", PadRight("ACH RETURN RDFI", 23) + PadRight("ACH RETURN ODFI", 23) + PadRight("", 8));
  }

  lemma BatchHeaderIsClean(r: Return, t: Stamp)
    requires CleanReturn(r, t) && Sliceable(r)
    ensures Clean(BatchHeader(r, t))
  {
    hide Clean, PadLeft, PadRight, FormatInt, EntryHash, RoutingHash;
    CleanLiterals();
    CleanShortLiterals();
    CleanFields(r, t);
    var names := PadRight("ACH RETURN SIM", 16) + PadRight("", 20) + PadRight("ACHRETURN", 10);
    Clean3(PadRight("ACH RETURN SIM", 16), PadRight("", 20), PadRight("ACHRETURN", 10));
    Clean3(names, "PPD", PadRight("RETURN", 10));
    Clean4(t.date, t.date, "   ", "1");
    Clean3(t.date + t.date + "   " + "1", r.routing[..8], PadLeft("1", 7, '0'));
    Clean3("5" + "225", names + "PPD" + PadRight("RETURN", 10), t.date + t.date + "   " + "1" + r.routing[..8] + PadLeft("1", 7, '0'));
  }

  lemma EntryDetailIsClean(r: Return, t: Stamp)
    requires CleanReturn(r, t) && Sliceable(r)
    ensures Clean(EntryDetail(r))
  {
    hide Clean, PadLeft, PadRight, FormatInt, EntryHash, RoutingHash;
    CleanLiterals();
    CleanShortLiterals();
    CleanFields(r, t);
    var head := "6" + "21" + r.routing[..8] + [r.routing[8]];
    Clean4("6", "21", r.routing[..8], [r.routing[8]]);
    Clean4(head, PadRight(r.account, 17), PadLeft(FormatInt(r.amount), 10, '0'), PadRight(r.trace, 15));
    Clean4(head + PadRight(r.account, 17) + PadLeft(FormatInt(r.amount), 10, '0') + PadRight(r.trace, 15), PadRight("RETURN PAYMENT", 22), "  ", "1");
    CleanPlus(head + PadRight(r.account, 17) + PadLeft(FormatInt(r.amount), 10, '0') + PadRight(r.trace, 15) + PadRight("RETURN PAYMENT", 22) + "  " + "1",
              PadLeft(r.trace, 15, '0'));
  }

  lemma AddendaIsClean(r: Return, t: Stamp)
    requires CleanReturn(r, t) && Sliceable(r)
    ensures Clean(Addenda(r))
  {
    hide Clean, PadLeft, PadRight, FormatInt, EntryHash, RoutingHash;
    CleanLiterals();
    CleanShortLiterals();
    CleanFields(r, t);
    var head := "7" + "99" + PadRight(r.rCode, 3) + PadRight(r.trace, 15);
    Clean4("7", "99", PadRight(r.rCode, 3), PadRight(r.trace, 15));
    Clean4(head, "      ", r.routing[..8], PadRight("", 44));
    CleanPlus(head + "      " + r.routing[..8] + PadRight("", 44), PadLeft("1", 7, '0'));
  }

  lemma BatchControlIsClean(r: Return, t: Stamp)
    requires CleanReturn(r, t) && Sliceable(r)
    ensures Clean(BatchControl(r, RoutingHash(r.routing[..8])))
  {
    hide Clean, PadLeft, PadRight, FormatInt, EntryHash, RoutingHash;
    CleanLiterals();
    CleanShortLiterals();
    CleanFields(r, t);
    var hash := EntryHash(RoutingHash(r.routing[..8]));
    var head := "8" + "225" + PadLeft("2", 6, '0') + hash;
    Clean4("8", "225", PadLeft("2", 6, '0'), hash);
    var totals := head + PadLeft(FormatInt(r.amount), 12, '0') + PadLeft("0", 12, '0') + PadRight("ACHRETURN", 10);
    Clean4(head, PadLeft(FormatInt(r.amount), 12, '0'), PadLeft("0", 12, '0'), PadRight("ACHRETURN", 10));
    Clean4(totals, PadRight("", 19), "   ", r.routing[..8]);
    CleanPlus(totals + PadRight("", 19) + "   " + r.routing[..8], PadLeft("1", 7, '0'));
  }

  lemma FileControlIsClean(r: Return, t: Stamp)
    requires CleanReturn(r, t) && Sliceable(r)
    ensures Clean(FileControl(r, RoutingHash(r.routing[..8])))
  {
    hide Clean, PadLeft, PadRight, FormatInt, EntryHash, RoutingHash;
    CleanLiterals();
    CleanShortLiterals();
    CleanFields(r, t);
    var hash := EntryHash(RoutingHash(r.routing[..8]));
    var head := "9" + PadLeft("1", 6, '0') + PadLeft("1", 6, '0') + PadLeft("2", 8, '0');
    Clean4("9", PadLeft("1", 6, '0'), PadLeft("1", 6, '0'), PadLeft("2", 8, '0'));
    Clean4(head, hash, PadLeft(FormatInt(r.amount), 12, '0'), PadLeft("0", 12, '0'));
    CleanPlus(head + hash + PadLeft(FormatInt(r.amount), 12, '0') + PadLeft("0", 12, '0'), PadRight("", 39));
  }

  lemma RecordsAreClean(r: Return, t: Stamp)
    requires ValidReturn(r) && ValidStamp(t)
    ensures Sliceable(r) && forall line :: line in Records(r, t) ==> Clean(line)
  {
    ValidIsClean(r, t);
    hide FileHeader, BatchHeader, EntryDetail, Addenda, BatchControl, FileControl, PadRight, RoutingHash, Clean, CleanReturn;
    FileHeaderIsClean(r, t);
    BatchHeaderIsClean(r, t);
    EntryDetailIsClean(r, t);
    AddendaIsClean(r, t);
    BatchControlIsClean(r, t);
    FileControlIsClean(r, t);
    var hash := RoutingHash(r.routing[..8]);
    CleanPads(FileHeader(r, t), 94);
    CleanPads(BatchHeader(r, t), 94);
    CleanPads(EntryDetail(r), 94);
    CleanPads(Addenda(r), 94);
    CleanPads(BatchControl(r, hash), 94);
    CleanPads(FileControl(r, hash), 94);
  }

  // ---- One return ------------------------------------------------------------

  lemma DigitsTrim(s: string)
    requires AllDigits(s) && s != []
    ensures TrimSpace(s) == s
  {
    TrimPadded(s, "");
    assert s + "" == s;
  }

  lemma AmountParses(amount: nat)
    ensures ScanInt(TrimSpace(PadLeft(FormatInt(amount), 10, '0'))) == Some(amount % AMOUNT_LIMIT as int)
  {
    hide FormatInt, Pow10, TrimSpace, ScanInt, Val, PadLeft;
    AmountField(amount, 10);
    Pow10Ten();
    var field := PadLeft(FormatInt(amount), 10, '0');
    DigitsTrim(field);
    ScanDigits(field);
  }

  lemma AccountTrims(account: string)
    requires AllDigits(account) && 0 < |account| <= 17
    ensures TrimSpace(PadRight(account, 17)) == account
  {
    hide TrimSpace;
    TrimPadded(account, Repeat(' ', 17 - |account|));
    assert account + Repeat(' ', 0) == account;
  }

  lemma TraceIdentity(trace: string)
    requires |trace| == 15
    ensures PadLeft(trace, 15, '0') == trace
  {
  }

  lemma EntryParses(r: Return)
    requires ValidReturn(r) && Sliceable(r)
    ensures var line := PadRight(EntryDetail(r), 94);
            line[0] == '6' && ParseEntryDetail(line) == Some(Expected(r).(rCode := ""))
  {
    EntryLayout(r);
    hide EntryDetail, FormatInt, TrimSpace, ScanInt, PadLeft, PadRight;
    AmountParses(r.amount);
    assert r.routing[..9] == r.routing;
    DigitsTrim(r.routing);
    AccountTrims(r.account);
    TraceIdentity(r.trace);
    DigitsTrim(r.trace);
  }

  lemma CodeTrims(r: Return)
    requires ValidReturn(r)
    ensures TrimSpace(PadRight(r.rCode, 3)) == r.rCode
  {
    hide PadRight, TrimSpace;
    assert r.rCode + "" == r.rCode && r.rCode[..3] == r.rCode;
    TrimPadded(r.rCode, "");
  }

  lemma AddendaParses(r: Return)
    requires ValidReturn(r) && Sliceable(r)
    ensures var line := PadRight(Addenda(r), 94);
            line[0] == '7' && ParseAddendaRCode(line) == Some(r.rCode)
  {
    AddendaLayout(r);
    CodeTrims(r);
    hide Addenda, TrimSpace, PadRight;
  }

  lemma ControlsParse(r: Return)
    requires Sliceable(r)
    ensures var hash := RoutingHash(r.routing[..8]);
            PadRight(BatchControl(r, hash), 94)[0] == '8' && PadRight(FileControl(r, hash), 94)[0] == '9'
  {
    hide PadRight, BatchControl, FileControl, RoutingHash;
    BatchControlLayout(r, RoutingHash(r.routing[..8]));
    FileControlLayout(r, RoutingHash(r.routing[..8]));
  }

  /** The machine over six records of types 1, 5, 6, 7, 8, 9. */
  lemma SixLines(header: Record, batch: Record, detail: Record, addenda: Record, batchControl: Record,
                 fileControl: Record, entry: ReturnEntry, code: string)
    requires ValidFileHeader(header) && batch[0] == '5' && detail[0] == '6' && addenda[0] == '7' && batchControl[0] == '8' && fileControl[0] == '9'
    requires ParseEntryDetail(detail) == Some(entry) && ParseAddendaRCode(addenda) == Some(code)
    ensures RunLines([header, batch, detail, addenda, batchControl, fileControl]) == Reading([entry.(rCode := code)], None)
  {
    hide ParseEntryDetail, ParseAddendaRCode;
    var l := [header, batch, detail, addenda, batchControl, fileControl];
    assert l[..0] == [] && l[..1][..0] == [] && l[..2][..1] == l[..1] && l[..3][..2] == l[..2] && l[..4][..3] == l[..3] && l[..5][..4] == l[..4];
    assert RunLines(l[..1]) == Reading([], None);
    assert RunLines(l[..2]) == Reading([], None);
    assert RunLines(l[..3]) == Reading([], Some(entry));
    assert RunLines(l[..4]) == Reading([entry.(rCode := code)], None);
    assert RunLines(l[..5]) == Reading([entry.(rCode := code)], None);
  }

  lemma RecordsRun(r: Return, t: Stamp)
    requires ValidReturn(r) && ValidStamp(t)
    ensures RunLines(Records(r, t)) == Reading([Expected(r)], None)
  {
    WithCode(r);
    hide ValidReturn, Expected, RunLines, ParseEntryDetail, ParseAddendaRCode, ValidFileHeader, PadRight, FileHeader,
         BatchHeader, EntryDetail, Addenda, BatchControl, FileControl, RoutingHash, ValidStamp;
    HeaderLayout(r, t);
    HeaderParses(r, t);
    EntryParses(r);
    AddendaParses(r);
    ControlsParse(r);
    var hash := RoutingHash(r.routing[..8]);
    SixLines(PadRight(FileHeader(r, t), 94), PadRight(BatchHeader(r, t), 94), PadRight(EntryDetail(r), 94),
             PadRight(Addenda(r), 94), PadRight(BatchControl(r, hash), 94), PadRight(FileControl(r, hash), 94),
             Expected(r).(rCode := ""), r.rCode);
  }

  lemma WithCode(r: Return)
    requires ValidReturn(r)
    ensures Sliceable(r) && r.amount >= 0
    ensures Expected(r).(rCode := "").(rCode := r.rCode) == Expected(r)
  {
  }

  lemma HeaderParses(r: Return, t: Stamp)
    requires Sliceable(r)
    ensures ValidFileHeader(PadRight(FileHeader(r, t), 94))
  {
    hide PadRight, FileHeader;
    HeaderLayout(r, t);
  }

  /** The text of a file without its last line feed. */
  function Body(r: Return, t: Stamp): string
    requires Sliceable(r)
  {
    Joined(Records(r, t))
  }

  lemma BodyRuns(r: Return, t: Stamp)
    requires ValidReturn(r) && ValidStamp(t)
    ensures FileText(r, t) == Body(r, t) + "\n"
    ensures RunLines(Lines(Body(r, t))) == Reading([Expected(r)], None)
  {
    hide Lines, RunLines, Clean, Joined, Terminated, PadRight, FileHeader, BatchHeader, EntryDetail, Addenda,
         BatchControl, FileControl, RoutingHash;
    RecordsAreClean(r, t);
    RecordsRun(r, t);
    TerminatedIsJoined(Records(r, t));
    LinesOfJoined(Records(r, t));
  }

  lemma EmptyParses()
    ensures Parse("") == Parsed([])
  {
    LinesAreTrimmedSplit("");
    assert TrimEach([""]) == [""];
    assert [""][..0] == [];
  }

  /** A return that fits, any text after it: the entry comes first, the rest follows. */
  lemma FileThenRest(r: Return, t: Stamp, rest: string)
    requires ValidReturn(r) && ValidStamp(t)
    ensures Parse(rest).Parsed? ==> Parse(FileText(r, t) + rest) == Parsed([Expected(r)] + Parse(rest).entries)
  {
    hide Lines, RunLines, FileText, Body;
    BodyRuns(r, t);
    ParseConcat(Body(r, t), rest);
    assert FileText(r, t) + rest == Body(r, t) + "\n" + rest;
  }

  /** Parsing a generated file gives back all five fields, the amount modulo ten to the tenth. */
  lemma GeneratedFileParses(r: Return, t: Stamp)
    requires ValidReturn(r) && ValidStamp(t)
    ensures Parse(FileText(r, t)) == Parsed([Expected(r)])
  {
    hide Parse, FileText, Expected;
    EmptyParses();
    FileThenRest(r, t, "");
    assert FileText(r, t) + "" == FileText(r, t);
    assert [Expected(r)] + [] == [Expected(r)];
  }

  // ---- Batches ---------------------------------------------------------------

  predicate ValidBatch(batch: seq<(Return, Stamp)>) {
    forall i :: 0 <= i < |batch| ==> ValidReturn(batch[i].0) && ValidStamp(batch[i].1)
  }

  function BatchText(batch: seq<(Return, Stamp)>): string
    requires ValidBatch(batch)
  {
    if batch == [] then "" else FileText(batch[0].0, batch[0].1) + BatchText(batch[1..])
  }

  /** What the sender put in: the five fields as given, nothing reduced. */
  function AsEntry(r: Return): ReturnEntry {
    ReturnEntry(r.trace, r.rCode, r.amount, r.account, r.routing)
  }

  function ExpectedBatch(batch: seq<(Return, Stamp)>): seq<ReturnEntry>
    requires ValidBatch(batch)
  {
    seq(|batch|, i requires 0 <= i < |batch| => Expected(batch[i].0))
  }

  lemma ValidHasAmount(r: Return)
    requires ValidReturn(r)
    ensures r.amount >= 0
  {
  }

  lemma {:induction false} BatchParses(batch: seq<(Return, Stamp)>)
    requires ValidBatch(batch)
    ensures Parse(BatchText(batch)) == Parsed(ExpectedBatch(batch))
  {
    hide Parse, FileText, Expected, ValidReturn, ValidStamp;
    if batch == [] {
      EmptyParses();
    } else {
      BatchParses(batch[1..]);
      ValidHasAmount(batch[0].0);
      FileThenRest(batch[0].0, batch[0].1, BatchText(batch[1..]));
      assert ExpectedBatch(batch) == [Expected(batch[0].0)] + ExpectedBatch(batch[1..]);
    }
  }

  function Sent(batch: seq<(Return, Stamp)>): seq<ReturnEntry> {
    seq(|batch|, i requires 0 <= i < |batch| => AsEntry(batch[i].0))
  }

  predicate AmountsFit(batch: seq<(Return, Stamp)>) {
    forall i :: 0 <= i < |batch| ==> batch[i].0.amount < AMOUNT_LIMIT
  }

  lemma ExpectedIsSent(batch: seq<(Return, Stamp)>)
    requires ValidBatch(batch)
    ensures ExpectedBatch(batch) == Sent(batch) <==> AmountsFit(batch)
  {
    if ExpectedBatch(batch) == Sent(batch) {
      forall i | 0 <= i < |batch| ensures batch[i].0.amount < AMOUNT_LIMIT {
        assert ExpectedBatch(batch)[i].amount == Sent(batch)[i].amount;
      }
    }
  }

  /** Round trip over batches: the files of any list of valid returns, one after another,
      parse into exactly that list if and only if every amount fits its field. */
  lemma BatchRoundTrip(batch: seq<(Return, Stamp)>)
    requires ValidBatch(batch)
    ensures Parse(BatchText(batch)) == Parsed(Sent(batch)) <==> AmountsFit(batch)
  {
    hide Parse, BatchText, ExpectedBatch, Sent, AmountsFit;
    BatchParses(batch);
    ExpectedIsSent(batch);
  }
}
