/** Routing of NACHA return codes (internal/domain/rcode.go). */
module RCodes {
  import opened Decimal

  datatype ReturnCategory = Retryable | NonRetryable | ComplianceReview

  /** The description column is left out: it only feeds log and audit text. */
  datatype RCodeDefinition = RCodeDefinition(code: string, category: ReturnCategory)

  const RCodeTable: seq<RCodeDefinition> := [
    RCodeDefinition("R01", Retryable),
    RCodeDefinition("R08", Retryable),
    RCodeDefinition("R09", Retryable),
    RCodeDefinition("R02", NonRetryable),
    RCodeDefinition("R03", NonRetryable),
    RCodeDefinition("R04", NonRetryable),
    RCodeDefinition("R06", NonRetryable),
    RCodeDefinition("R07", NonRetryable),
    RCodeDefinition("R10", NonRetryable),
    RCodeDefinition("R11", NonRetryable),
    RCodeDefinition("R12", NonRetryable),
    RCodeDefinition("R13", NonRetryable),
    RCodeDefinition("R17", NonRetryable),
    RCodeDefinition("R18", NonRetryable),
    RCodeDefinition("R19", NonRetryable),
    RCodeDefinition("R20", NonRetryable),
    RCodeDefinition("R21", NonRetryable),
    RCodeDefinition("R22", NonRetryable),
    RCodeDefinition("R23", NonRetryable),
    RCodeDefinition("R24", NonRetryable),
    RCodeDefinition("R25", NonRetryable),
    RCodeDefinition("R26", NonRetryable),
    RCodeDefinition("R27", NonRetryable),
    RCodeDefinition("R28", NonRetryable),
    RCodeDefinition("R29", NonRetryable),
    RCodeDefinition("R30", NonRetryable),
    RCodeDefinition("R31", NonRetryable),
    RCodeDefinition("R32", NonRetryable),
    RCodeDefinition("R33", NonRetryable),
    RCodeDefinition("R05", ComplianceReview),
    RCodeDefinition("R14", ComplianceReview),
    RCodeDefinition("R15", ComplianceReview),
    RCodeDefinition("R16", ComplianceReview)
  ]

  /** The lookup map after the definitions of `table` were stored in order. */
  function MapOf(table: seq<RCodeDefinition>): map<string, RCodeDefinition> {
    if table == [] then map[]
    else var last := table[|table| - 1]; MapOf(table[..|table| - 1])[last.code := last]
  }

  /** The package initializer: fills the lookup map from the table in a loop. */
  method BuildMap(table: seq<RCodeDefinition>) returns (m: map<string, RCodeDefinition>)
    ensures m == MapOf(table)
    ensures forall c :: c in m <==> exists i :: 0 <= i < |table| && table[i].code == c
  {
    m := map[];
    for i := 0 to |table|
      invariant m == MapOf(table[..i])
    {
      m := m[table[i].code := table[i]];
      assert table[..i + 1][..i] == table[..i];
    }
    assert table[..|table|] == table;
    forall c ensures c in m <==> exists i :: 0 <= i < |table| && table[i].code == c {
      MapOfEntry(table, c);
    }
  }

  /** Lookups return an entry of the table with the wanted code; with several, the last. */
  lemma {:induction false} MapOfEntry(table: seq<RCodeDefinition>, c: string)
    ensures c in MapOf(table) <==> exists i :: 0 <= i < |table| && table[i].code == c
    ensures c in MapOf(table) ==>
              exists i :: 0 <= i < |table| && table[i] == MapOf(table)[c] && table[i].code == c
                          && forall j :: i < j < |table| ==> table[j].code != c
  {
    if table != [] {
      var n := |table| - 1;
      var init := table[..n];
      MapOfEntry(init, c);
      if table[n].code == c {
      } else if c in MapOf(init) {
        var i :| 0 <= i < |init| && init[i] == MapOf(init)[c] && init[i].code == c
                 && forall j :: i < j < |init| ==> init[j].code != c;
        assert table[i] == MapOf(table)[c] && forall j :: i < j < |table| ==> table[j].code != c;
      }
    }
  }

  /** The category and whether the code is known. Unknown codes are not retried. */
  function RouteRCode(code: string): (r: (ReturnCategory, bool))
    ensures !r.1 ==> r.0 == NonRetryable
  {
    var m := MapOf(RCodeTable);
    if code in m then (m[code].category, true) else (NonRetryable, false)
  }

  function Category(code: string): ReturnCategory { RouteRCode(code).0 }

  predicate ListedAs(code: string, category: ReturnCategory) {
    exists i :: 0 <= i < |RCodeTable| && RCodeTable[i] == RCodeDefinition(code, category)
  }

  lemma TableCodesAreDistinct()
    ensures forall i, j :: 0 <= i < j < |RCodeTable| ==> RCodeTable[i].code != RCodeTable[j].code
  {
  }

  lemma TableCodesHaveThreeCharacters()
    ensures forall i :: 0 <= i < |RCodeTable| ==> |RCodeTable[i].code| == 3
  {
  }

  /** Routing agrees with the table read as a relation, whatever order it is listed in:
      a code is retried or escalated exactly when the table lists it so, and every other
      code, the empty one included, ends the payment. */
  lemma RoutingMatchesTable(code: string)
    ensures RouteRCode(code).1 <==> exists cat :: ListedAs(code, cat)
    ensures forall cat :: ListedAs(code, cat) ==> Category(code) == cat
    ensures Category(code) == Retryable <==> ListedAs(code, Retryable)
    ensures Category(code) == ComplianceReview <==> ListedAs(code, ComplianceReview)
    ensures |code| != 3 ==> Category(code) == NonRetryable
  {
    MapOfEntry(RCodeTable, code);
    TableCodesAreDistinct();
    TableCodesHaveThreeCharacters();
    if code in MapOf(RCodeTable) {
      assert ListedAs(code, MapOf(RCodeTable)[code].category);
    } else {
      assert forall cat :: !ListedAs(code, cat);
    }
  }

  // ---- The codes by name -----------------------------------------------------

  /** R01 to R33, by number. */
  predicate Numbered(code: string, n: nat) {
    |code| == 3 && code[0] == 'R' && IsDigit(code[1]) && IsDigit(code[2]) && 10 * DigitVal(code[1]) + DigitVal(code[2]) == n
  }

  /** Where the table lists a number. */
  function RowOf(n: nat): nat
    requires 1 <= n <= 33
  {
    if n == 1 then 0 else if n <= 4 then n + 1 else if n == 5 then 29 else if n <= 7 then n
    else if n <= 9 then n - 7 else if n <= 13 then n - 2 else if n <= 16 then n + 16 else n - 5
  }

  lemma RowOfSmallNumber(n: nat)
    requires 1 <= n <= 9
    ensures RowOf(n) < |RCodeTable| && Numbered(RCodeTable[RowOf(n)].code, n)
  {
  }

  lemma RowOfMiddleNumber(n: nat)
    requires 10 <= n <= 16
    ensures RowOf(n) < |RCodeTable| && Numbered(RCodeTable[RowOf(n)].code, n)
  {
  }

  lemma RowOfLargeNumber(n: nat)
    requires 17 <= n <= 33
    ensures RowOf(n) < |RCodeTable| && Numbered(RCodeTable[RowOf(n)].code, n)
  {
  }

  lemma NumberOfEachRow(i: nat) returns (n: nat)
    requires i < |RCodeTable|
    ensures 1 <= n <= 33 && Numbered(RCodeTable[i].code, n)
  {
    var code := RCodeTable[i].code;
    n := 10 * DigitVal(code[1]) + DigitVal(code[2]);
  }

  lemma SameNumberSameCode(a: string, b: string, n: nat)
    requires Numbered(a, n) && Numbered(b, n)
    ensures a == b
  {
    assert DigitVal(a[1]) == DigitVal(b[1]) && DigitVal(a[2]) == DigitVal(b[2]);
  }

  lemma TableRow(i: nat)
    requires i < |RCodeTable|
    ensures RCodeTable[i].category == (if i < 3 then Retryable else if i < 29 then NonRetryable else ComplianceReview)
    ensures i < 3 ==> RCodeTable[i].code in {"R01", "R08", "R09"}
    ensures i >= 29 ==> RCodeTable[i].code in {"R05", "R14", "R15", "R16"}
  {
  }

  lemma TableRows(code: string, category: ReturnCategory)
    ensures ListedAs(code, category) && category == Retryable ==> code in {"R01", "R08", "R09"}
    ensures ListedAs(code, category) && category == ComplianceReview ==> code in {"R05", "R14", "R15", "R16"}
  {
    if ListedAs(code, category) {
      var i :| 0 <= i < |RCodeTable| && RCodeTable[i] == RCodeDefinition(code, category);
      TableRow(i);
    }
  }

  lemma NamedRows()
    ensures forall code :: code in {"R01", "R08", "R09"} ==> ListedAs(code, Retryable)
    ensures forall code :: code in {"R05", "R14", "R15", "R16"} ==> ListedAs(code, ComplianceReview)
  {
    assert RCodeTable[0] == RCodeDefinition("R01", Retryable);
    assert RCodeTable[1] == RCodeDefinition("R08", Retryable);
    assert RCodeTable[2] == RCodeDefinition("R09", Retryable);
    assert RCodeTable[29] == RCodeDefinition("R05", ComplianceReview);
    assert RCodeTable[30] == RCodeDefinition("R14", ComplianceReview);
    assert RCodeTable[31] == RCodeDefinition("R15", ComplianceReview);
    assert RCodeTable[32] == RCodeDefinition("R16", ComplianceReview);
  }

  lemma KnownByNumber(code: string)
    ensures (exists cat :: ListedAs(code, cat)) <==> exists n :: 1 <= n <= 33 && Numbered(code, n)
  {
    if cat :| ListedAs(code, cat) {
      var i :| 0 <= i < |RCodeTable| && RCodeTable[i] == RCodeDefinition(code, cat);
      var n := NumberOfEachRow(i);
    }
    if n :| 1 <= n <= 33 && Numbered(code, n) {
      if n <= 9 { RowOfSmallNumber(n); } else if n <= 16 { RowOfMiddleNumber(n); } else { RowOfLargeNumber(n); }
      SameNumberSameCode(code, RCodeTable[RowOf(n)].code, n);
      assert ListedAs(code, RCodeTable[RowOf(n)].category);
    }
  }

  /** Routing in full: three codes are retried, four are escalated, all others of R01 to R33
      are known and final, and nothing else is known. */
  lemma RoutedByName(code: string)
    ensures Category(code) == Retryable <==> code in {"R01", "R08", "R09"}
    ensures Category(code) == ComplianceReview <==> code in {"R05", "R14", "R15", "R16"}
    ensures RouteRCode(code).1 <==> exists n :: 1 <= n <= 33 && Numbered(code, n)
  {
    hide ListedAs, Numbered, RouteRCode, Category;
    RoutingMatchesTable(code);
    TableRows(code, Retryable);
    TableRows(code, ComplianceReview);
    NamedRows();
    KnownByNumber(code);
  }
}
