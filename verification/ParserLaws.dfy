/** Laws of ParseFile over whole files: what it ignores, and how files combine. */
module ParserLaws {
  import opened Wrappers
  import opened Decimal
  import opened Text
  import opened Parser

  function Parse(content: string): ParseResult {
    Finish(RunLines(Lines(content)))
  }

  /** Line endings never matter, not even to the line number of an error. */
  lemma LineEndingsDoNotMatter(content: string)
    ensures Parse(DosLines(content)) == Parse(content)
  {
    DosLinesSameLines(content);
  }

  // ---- What is ignored -------------------------------------------------------

  /** Equal up to the line number of an error. */
  predicate Alike(a: ParseResult, b: ParseResult) {
    match (a, b)
    case (Parsed(x), Parsed(y)) => x == y
    case (Rejected(_, p), Rejected(_, q)) => p == q
    case _ => false
  }

  predicate MachinesAlike(m: Machine, m': Machine) {
    m == m' || (m.Stopped? && m'.Stopped? && m.problem == m'.problem)
  }

  function FullLines(lines: seq<string>): seq<string> {
    if lines == [] then []
    else
      var last := lines[|lines| - 1];
      FullLines(lines[..|lines| - 1]) + if |last| >= RECORD_LENGTH then [last] else []
  }

  lemma {:induction false} FullLinesAppend(a: seq<string>, b: seq<string>)
    ensures FullLines(a + b) == FullLines(a) + FullLines(b)
  {
    if b == [] {
      assert a + b == a;
    } else {
      assert (a + b)[..|a + b| - 1] == a + b[..|b| - 1];
      FullLinesAppend(a, b[..|b| - 1]);
    }
  }

  lemma StepAlike(m: Machine, m': Machine, n: nat, n': nat, line: string)
    requires MachinesAlike(m, m')
    ensures MachinesAlike(StepLine(m, n, line), StepLine(m', n', line))
  {
    hide ParseEntryDetail, ParseAddendaRCode, ValidFileHeader;
  }

  lemma {:induction false} OnlyFullLinesCount(lines: seq<string>)
    ensures MachinesAlike(RunLines(lines), RunLines(FullLines(lines)))
  {
    hide StepLine;
    if lines != [] {
      var init, last := lines[..|lines| - 1], lines[|lines| - 1];
      OnlyFullLinesCount(init);
      if |last| >= RECORD_LENGTH {
        var full := FullLines(lines);
        assert full[..|full| - 1] == FullLines(init);
        StepAlike(RunLines(init), RunLines(FullLines(init)), |lines|, |full|, last);
      } else {
        assert FullLines(lines) == FullLines(init);
        ShortLineSkipped(RunLines(init), |lines|, last);
      }
    }
  }

  lemma ShortLineSkipped(m: Machine, n: nat, line: string)
    requires |line| < RECORD_LENGTH
    ensures StepLine(m, n, line) == m
  {
  }

  /** Two contents with the same lines of 94 or more bytes parse alike. */
  lemma OnlyRecordsMatter(a: string, b: string)
    requires FullLines(Lines(a)) == FullLines(Lines(b))
    ensures Alike(Parse(a), Parse(b))
  {
    OnlyFullLinesCount(Lines(a));
    OnlyFullLinesCount(Lines(b));
  }

  /** In particular, any number of short lines may be inserted at any line boundary. */
  lemma ShortLinesInsertable(a: string, short: string, b: string)
    requires forall line :: line in Lines(short) ==> |line| < RECORD_LENGTH
    ensures Alike(Parse(a + "\n" + short + "\n" + b), Parse(a + "\n" + b))
  {
    hide Lines, FullLines, Parse, Alike;
    LinesAtNewline(a, short);
    LinesAtNewline(a + "\n" + short, b);
    LinesAtNewline(a, b);
    NoFullLines(Lines(short));
    FullLinesAppend(Lines(a), Lines(short));
    FullLinesAppend(Lines(a) + Lines(short), Lines(b));
    FullLinesAppend(Lines(a), Lines(b));
    OnlyRecordsMatter(a + "\n" + short + "\n" + b, a + "\n" + b);
  }

  lemma {:induction false} NoFullLines(lines: seq<string>)
    requires forall line :: line in lines ==> |line| < RECORD_LENGTH
    ensures FullLines(lines) == []
  {
    if lines != [] {
      NoFullLines(lines[..|lines| - 1]);
    }
  }

  /** A short line, or a file-control record such as the all-nines block filler. */
  predicate Filler(line: string) {
    |line| < RECORD_LENGTH || line[0] == '9'
  }

  lemma {:induction false} FillerIgnored(lines: seq<string>, filler: seq<string>)
    requires forall line :: line in filler ==> Filler(line)
    ensures Finish(RunLines(lines + filler)) == Finish(RunLines(lines))
  {
    if filler == [] {
      assert lines + filler == lines;
    } else {
      var n := |filler| - 1;
      assert (lines + filler)[..|lines| + n] == lines + filler[..n];
      FillerIgnored(lines, filler[..n]);
      FillerStep(RunLines(lines + filler[..n]), |lines + filler|, filler[n]);
    }
  }

  lemma FillerStep(m: Machine, number: nat, line: string)
    requires Filler(line)
    ensures Finish(StepLine(m, number, line)) == Finish(m)
  {
  }

  /** Filler after the last line never changes the result; the file-control record does
      not end the file either. */
  lemma TrailingFillerIgnored(content: string, filler: string)
    requires forall line :: line in Lines(filler) ==> Filler(line)
    ensures Parse(content + "\n" + filler) == Parse(content)
  {
    LinesAtNewline(content, filler);
    FillerIgnored(Lines(content), Lines(filler));
  }

  // ---- Joining files ---------------------------------------------------------

  function Shift(m: Machine, entries: seq<ReturnEntry>, n: nat): Machine {
    match m
    case Reading(e, p) => Reading(entries + e, p)
    case Stopped(line, problem) => Stopped(n + line, problem)
  }

  lemma StepShift(m: Machine, entries: seq<ReturnEntry>, n: nat, number: nat, line: string)
    ensures StepLine(Shift(m, entries, n), n + number, line) == Shift(StepLine(m, number, line), entries, n)
  {
    hide ParseEntryDetail, ParseAddendaRCode, ValidFileHeader;
    if m.Reading? && m.pending.Some? {
      assert entries + (m.entries + [m.pending.value]) == (entries + m.entries) + [m.pending.value];
      if |line| >= RECORD_LENGTH && ParseAddendaRCode(line).Some? {
        var done := m.pending.value.(rCode := ParseAddendaRCode(line).value);
        assert entries + (m.entries + [done]) == (entries + m.entries) + [done];
      }
    }
  }

  /** After lines that leave no entry open, the rest is read as if it were alone. */
  lemma {:induction false} RunShift(a: seq<string>, b: seq<string>)
    requires RunLines(a).Reading? && RunLines(a).pending.None?
    ensures RunLines(a + b) == Shift(RunLines(b), RunLines(a).entries, |a|)
  {
    hide StepLine;
    if b == [] {
      assert a + b == a;
    } else {
      var n := |b| - 1;
      assert (a + b)[..|a| + n] == a + b[..n];
      RunShift(a, b[..n]);
      StepShift(RunLines(b[..n]), RunLines(a).entries, |a|, |b|, b[n]);
    }
  }

  /** Two files joined at a line feed, the first of which leaves no entry open: errors of
      the first come first, errors of the second keep their place, and otherwise the
      entries are those of the first followed by those of the second. */
  lemma ParseConcat(a: string, b: string)
    requires RunLines(Lines(a)).Reading? ==> RunLines(Lines(a)).pending.None?
    ensures Parse(a + "\n" + b) ==
            match (Parse(a), Parse(b))
            case (Parsed(x), Parsed(y)) => Parsed(x + y)
            case (Rejected(line, problem), _) => Rejected(line, problem)
            case (Parsed(_), Rejected(line, problem)) => Rejected(|Lines(a)| + line, problem)
  {
    hide StepLine, Lines, ParseEntryDetail, ParseAddendaRCode;
    LinesAtNewline(a, b);
    var la, lb := Lines(a), Lines(b);
    if RunLines(la).Reading? {
      RunShift(la, lb);
      var m := RunLines(lb);
      if m.Reading? && m.pending.Some? {
        var e := RunLines(la).entries;
        assert e + m.entries + [m.pending.value] == e + (m.entries + [m.pending.value]);
      }
    } else {
      assert (la + lb)[..|la|] == la;
      StoppedForever(la + lb, |la|);
    }
  }
}
