/** The text operations the parser uses: splitting into lines and trimming. Content is a
    sequence of single-byte characters. */
module Text {

  predicate IsSpace(c: char) {
    c == ' ' || c == '\t' || c == '\n' || c == '\r' || c == 11 as char || c == 12 as char
  }

  /** The ASCII white space, by code. */
  lemma SpaceCodes(c: char)
    ensures IsSpace(c) <==> c as int == 32 || 9 <= c as int <= 13
  {
  }

  function TrimLeft(s: string): string {
    if s != [] && IsSpace(s[0]) then TrimLeft(s[1..]) else s
  }

  function TrimRight(s: string): string {
    if s != [] && IsSpace(s[|s| - 1]) then TrimRight(s[..|s| - 1]) else s
  }

  function TrimSpace(s: string): string {
    TrimRight(TrimLeft(s))
  }

  /** Drops trailing carriage returns only. */
  function TrimCR(s: string): (t: string)
    ensures |t| <= |s|
  {
    if s != [] && s[|s| - 1] == '\r' then TrimCR(s[..|s| - 1]) else s
  }

  /** The pieces between line feeds; always at least one. */
  function Split(s: string): (lines: seq<string>)
    ensures |lines| > 0
  {
    if s == [] then [""]
    else
      var rest := Split(s[1..]);
      if s[0] == '\n' then [""] + rest else [[s[0]] + rest[0]] + rest[1..]
  }

  /** Replaces every CR LF by LF, left to right. */
  function UnixLines(s: string): string {
    if s == [] then []
    else if |s| > 1 && s[0] == '\r' && s[1] == '\n' then ['\n'] + UnixLines(s[2..])
    else [s[0]] + UnixLines(s[1..])
  }

  /** Replaces every LF by CR LF. */
  function DosLines(s: string): string {
    if s == [] then []
    else if s[0] == '\n' then ['\r', '\n'] + DosLines(s[1..])
    else [s[0]] + DosLines(s[1..])
  }

  function TrimEach(lines: seq<string>): (r: seq<string>)
    ensures |r| == |lines| && forall i :: 0 <= i < |lines| ==> r[i] == TrimCR(lines[i])
  {
    seq(|lines|, i requires 0 <= i < |lines| => TrimCR(lines[i]))
  }

  /** The lines of a file: CR LF and LF both end one, and trailing CRs are dropped. */
  function Lines(content: string): (lines: seq<string>)
    ensures |lines| > 0
  {
    TrimEach(Split(UnixLines(content)))
  }

  // ---- Trimming --------------------------------------------------------------

  predicate NoSpaceAtEnds(s: string) {
    s != [] ==> !IsSpace(s[0]) && !IsSpace(s[|s| - 1])
  }

  lemma {:induction false} TrimRightOf(s: string, pad: string)
    requires s != [] ==> !IsSpace(s[|s| - 1])
    requires forall i :: 0 <= i < |pad| ==> IsSpace(pad[i])
    ensures TrimRight(s + pad) == s
  {
    if pad == [] {
      assert s + pad == s;
    } else {
      assert (s + pad)[..|s + pad| - 1] == s + pad[..|pad| - 1];
      TrimRightOf(s, pad[..|pad| - 1]);
    }
  }

  /** Right padding with spaces is undone by trimming. */
  lemma TrimPadded(s: string, pad: string)
    requires NoSpaceAtEnds(s) && s != []
    requires forall i :: 0 <= i < |pad| ==> IsSpace(pad[i])
    ensures TrimSpace(s + pad) == s
  {
    assert TrimLeft(s + pad) == s + pad;
    TrimRightOf(s, pad);
  }

  /** `s` is `raw` without the white space around it. */
  predicate Stripped(raw: string, s: string) {
    exists i, j :: 0 <= i <= j <= |raw| && StrippedAt(raw, s, i, j)
  }

  predicate StrippedAt(raw: string, s: string, i: nat, j: nat)
    requires i <= j <= |raw|
  {
    && s == raw[i..j] && SpaceAround(raw, i, j)
    && (i < j ==> !IsSpace(raw[i]) && !IsSpace(raw[j - 1]))
  }

  predicate SpaceAround(raw: string, i: nat, j: nat) {
    forall k :: 0 <= k < |raw| && !(i <= k < j) ==> IsSpace(raw[k])
  }

  lemma {:induction false} TrimLeftCuts(s: string)
    ensures |TrimLeft(s)| <= |s| && TrimLeft(s) == s[|s| - |TrimLeft(s)|..]
    ensures forall k :: 0 <= k < |s| - |TrimLeft(s)| ==> IsSpace(s[k])
    ensures TrimLeft(s) != [] ==> !IsSpace(TrimLeft(s)[0])
  {
    if s != [] && IsSpace(s[0]) {
      TrimLeftCuts(s[1..]);
      assert forall k :: 0 < k < |s| ==> s[k] == s[1..][k - 1];
    }
  }

  lemma {:induction false} TrimRightCuts(s: string)
    ensures |TrimRight(s)| <= |s| && TrimRight(s) == s[..|TrimRight(s)|]
    ensures forall k :: |TrimRight(s)| <= k < |s| ==> IsSpace(s[k])
    ensures TrimRight(s) != [] ==> !IsSpace(TrimRight(s)[|TrimRight(s)| - 1])
  {
    if s != [] && IsSpace(s[|s| - 1]) {
      TrimRightCuts(s[..|s| - 1]);
    }
  }

  lemma TrimStrips(raw: string)
    ensures Stripped(raw, TrimSpace(raw))
  {
    hide IsSpace, TrimLeft, TrimRight, SpaceAround;
    var left := TrimLeft(raw);
    var s, i := TrimRight(left), |raw| - |left|;
    TrimLeftCuts(raw);
    TrimRightCuts(left);
    assert s != [] ==> s[0] == left[0];
    assert s == raw[i..i + |s|];
    AroundTwice(raw, i, |s|);
    assert s != [] ==> raw[i] == s[0] && raw[i + |s| - 1] == s[|s| - 1];
    assert StrippedAt(raw, s, i, i + |s|);
  }

  lemma AroundTwice(raw: string, i: nat, n: nat)
    requires i + n <= |raw|
    requires forall k :: 0 <= k < i ==> IsSpace(raw[k])
    requires forall k :: n <= k < |raw| - i ==> IsSpace(raw[i..][k])
    ensures SpaceAround(raw, i, i + n)
  {
    hide IsSpace;
    forall k | 0 <= k < |raw| && !(i <= k < i + n) ensures IsSpace(raw[k]) {
      if k >= i {
        assert raw[k] == raw[i..][k - i];
      }
    }
  }

  lemma SameStretch(raw: string, s: string, i: nat, i': nat, t: string, j: nat, j': nat)
    requires i <= i' <= |raw| && j <= j' <= |raw|
    requires StrippedAt(raw, s, i, i') && StrippedAt(raw, t, j, j')
    ensures s == t
  {
    hide IsSpace;
    assert (i == i' && j == j') || (i == j && i' == j');
  }

  lemma StrippedOnce(raw: string, s: string, t: string)
    requires Stripped(raw, s) && Stripped(raw, t)
    ensures s == t
  {
    hide StrippedAt;
    var i, i' :| 0 <= i <= i' <= |raw| && StrippedAt(raw, s, i, i');
    var j, j' :| 0 <= j <= j' <= |raw| && StrippedAt(raw, t, j, j');
    SameStretch(raw, s, i, i', t, j, j');
  }

  /** Trimming is the one way to strip. */
  lemma TrimIff(raw: string, s: string)
    ensures TrimSpace(raw) == s <==> Stripped(raw, s)
  {
    hide Stripped, TrimSpace;
    TrimStrips(raw);
    if Stripped(raw, s) {
      StrippedOnce(raw, s, TrimSpace(raw));
    }
  }

  lemma {:induction false} TrimCRPrepend(c: char, s: string)
    ensures TrimCR([c] + s) == if TrimCR(s) == [] then TrimCR([c]) else [c] + TrimCR(s)
  {
    if s != [] && s[|s| - 1] == '\r' {
      var init := s[..|s| - 1];
      assert ([c] + s)[..|s|] == [c] + init;
      TrimCRPrepend(c, init);
    } else if s == [] {
      assert [c] + s == [c];
    }
  }

  lemma {:induction false} TrimCRKeeps(s: string, n: nat)
    requires n <= |s| && forall i :: n <= i < |s| ==> s[i] == '\r'
    requires n > 0 ==> s[n - 1] != '\r'
    ensures TrimCR(s) == s[..n]
  {
    if n < |s| {
      TrimCRKeeps(s[..|s| - 1], n);
      assert s[..|s| - 1][..n] == s[..n];
    }
  }

  // ---- Splitting -------------------------------------------------------------

  /** Cutting at any line feed splits into the lines of the two sides. */
  lemma {:induction false} SplitAtNewline(a: string, b: string)
    ensures Split(a + "\n" + b) == Split(a) + Split(b)
  {
    var s := a + "\n" + b;
    if a == [] {
      assert s[1..] == b;
    } else {
      assert s[1..] == a[1..] + "\n" + b;
      SplitAtNewline(a[1..], b);
    }
  }

  lemma {:induction false} SplitLine(a: string)
    requires '\n' !in a
    ensures Split(a) == [a]
  {
    if a != [] {
      SplitLine(a[1..]);
      assert [a[0]] + a[1..] == a;
    }
  }

  /** Two lists of lines that agree after dropping trailing CRs. */
  predicate SameTrimmed(a: seq<string>, b: seq<string>) {
    |a| == |b| && forall i :: 0 <= i < |a| ==> TrimCR(a[i]) == TrimCR(b[i])
  }

  lemma SameTrimmedPrepend(c: char, a: seq<string>, b: seq<string>)
    requires |a| > 0 && SameTrimmed(a, b)
    ensures SameTrimmed([[c] + a[0]] + a[1..], [[c] + b[0]] + b[1..])
  {
    TrimCRPrepend(c, a[0]);
    TrimCRPrepend(c, b[0]);
  }

  /** Since trailing CRs are dropped anyway, replacing CR LF first changes nothing. */
  lemma {:induction false} UnixLinesRedundant(s: string)
    ensures SameTrimmed(Split(UnixLines(s)), Split(s))
  {
    if s != [] {
      if |s| > 1 && s[0] == '\r' && s[1] == '\n' {
        UnixLinesRedundant(s[2..]);
        assert s[1..] == ['\n'] + s[2..];
        assert UnixLines(s)[1..] == UnixLines(s[2..]);
        assert s[1..][1..] == s[2..];
        assert Split(s[1..]) == [""] + Split(s[2..]);
        assert Split(s) == [['\r'] + ""] + Split(s[2..]);
        assert TrimCR("\r") == TrimCR("");
      } else {
        UnixLinesRedundant(s[1..]);
        assert UnixLines(s)[1..] == UnixLines(s[1..]);
        if s[0] != '\n' {
          SameTrimmedPrepend(s[0], Split(UnixLines(s[1..])), Split(s[1..]));
        }
      }
    }
  }

  lemma {:induction false} DosLinesSplit(s: string)
    ensures SameTrimmed(Split(DosLines(s)), Split(s))
  {
    if s != [] {
      DosLinesSplit(s[1..]);
      var d := DosLines(s);
      if s[0] == '\n' {
        assert d[1..] == ['\n'] + DosLines(s[1..]);
        assert d[1..][1..] == DosLines(s[1..]);
        assert Split(d[1..]) == [""] + Split(DosLines(s[1..]));
        assert Split(d) == [['\r'] + ""] + Split(DosLines(s[1..]));
        assert TrimCR("\r") == TrimCR("");
      } else {
        assert d[1..] == DosLines(s[1..]);
        SameTrimmedPrepend(s[0], Split(DosLines(s[1..])), Split(s[1..]));
      }
    }
  }

  /** Line endings do not matter, whatever stray carriage returns the content holds. */
  lemma DosLinesSameLines(content: string)
    ensures Lines(DosLines(content)) == Lines(content)
  {
    UnixLinesRedundant(DosLines(content));
    DosLinesSplit(content);
    UnixLinesRedundant(content);
  }

  lemma LinesAreTrimmedSplit(content: string)
    ensures Lines(content) == TrimEach(Split(content))
  {
    UnixLinesRedundant(content);
  }

  lemma {:induction false} TrimCRCuts(s: string)
    ensures var t := TrimCR(s);
            && t == s[..|t|] && (forall k :: |t| <= k < |s| ==> s[k] == '\r') && (t != [] ==> t[|t| - 1] != '\r')
  {
    if s != [] && s[|s| - 1] == '\r' {
      TrimCRCuts(s[..|s| - 1]);
    }
  }

  /** A piece without a line feed is one line, less the carriage returns at its end. */
  lemma LinesOfPiece(s: string)
    requires '\n' !in s
    ensures |Lines(s)| == 1
    ensures var t := Lines(s)[0];
            && |t| <= |s| && t == s[..|t|] && (forall k :: |t| <= k < |s| ==> s[k] == '\r') && (t != [] ==> t[|t| - 1] != '\r')
  {
    LinesAreTrimmedSplit(s);
    SplitLine(s);
    TrimCRCuts(s);
  }

  /** The lines of two pieces joined at a line feed. */
  lemma LinesAtNewline(a: string, b: string)
    ensures Lines(a + "\n" + b) == Lines(a) + Lines(b)
  {
    hide Lines, Split, TrimCR;
    LinesAreTrimmedSplit(a + "\n" + b);
    LinesAreTrimmedSplit(a);
    LinesAreTrimmedSplit(b);
    SplitAtNewline(a, b);
  }
}
