/** Which rows yield a QR code, and what each one carries: the sheet check, the sheet
    column, the first three rows, the trimmed token, the question URL and the display
    name (generate_qr.py:19-23, 42-47, 58). */
module Selection {
  import opened Text
  import opened GroupPattern
  import opened Roster

  const FirstSheet: int := 2
  const LastSheet: int := 8

  /** At most this many rows of the group are turned into codes. */
  const MaxCodes: nat := 3

  const UrlPrefix: string := "https://judge.acps.tuhh.de/questions/"
  const FirstNameColumn: string := "Vorname"
  const LastNameColumn: string := "Nachname"

  /** `2 <= args.sheet <= 8`. */
  predicate ValidSheet(sheet: int) {
    FirstSheet <= sheet <= LastSheet
  }

  /** `f"sheet{args.sheet}"`. */
  function SheetColumn(sheet: nat): string {
    "sheet" + Decimal(sheet)
  }

  /** Different sheets read different columns. */
  lemma SheetColumnsDistinct(s1: nat, s2: nat)
    requires s1 != s2
    ensures SheetColumn(s1) != SheetColumn(s2)
  {
    if SheetColumn(s1) == SheetColumn(s2) {
      assert Decimal(s1) == SheetColumn(s1)[5..] == SheetColumn(s2)[5..] == Decimal(s2);
      DecimalRoundTrip(s1);
      DecimalRoundTrip(s2);
    }
  }

  /** `rows[:3]`. */
  function Candidates(rows: seq<Row>): seq<Row> {
    if |rows| <= MaxCodes then rows else rows[..MaxCodes]
  }

  /** `row.get(sheet_col, "").strip()`. */
  function Token(row: Row, column: string): string {
    Strip(if column in row then row[column] else "")
  }

  /** A row yields no code exactly when its sheet cell is absent or whitespace only. */
  lemma TokenEmptyIff(row: Row, column: string)
    ensures Token(row, column) == [] <==> column !in row || AllSpace(row[column])
  {
    StripEmptyIffAllSpace(if column in row then row[column] else "");
  }

  /** `f"https://judge.acps.tuhh.de/questions/{token}"`. */
  function Url(token: string): string {
    UrlPrefix + token
  }

  /** `f"{row['Vorname']} {row['Nachname']}".strip()`. */
  function DisplayName(row: Row): string
    requires FirstNameColumn in row && LastNameColumn in row
  {
    Strip(row[FirstNameColumn] + " " + row[LastNameColumn])
  }

  /** The rows, in order, whose token is not empty: those that get a code. */
  function Selected(rows: seq<Row>, column: string): (sel: seq<Row>)
    ensures |sel| <= |rows|
  {
    if rows == [] then []
    else (if Token(rows[0], column) != [] then [rows[0]] else []) + Selected(rows[1..], column)
  }

  /** The rows that get a code are exactly the rows with a token. */
  lemma {:induction false} SelectedMembers(rows: seq<Row>, column: string, r: Row)
    ensures r in Selected(rows, column) <==> r in rows && Token(r, column) != []
  {
    if rows != [] {
      SelectedMembers(rows[1..], column, r);
      assert rows == [rows[0]] + rows[1..];
    }
  }

  /** Every row with a token gets a code as often as it occurs; every other row gets none. */
  lemma {:induction false} SelectedCounts(rows: seq<Row>, column: string, r: Row)
    ensures multiset(Selected(rows, column))[r]
            == if Token(r, column) != [] then multiset(rows)[r] else 0
  {
    if rows != [] {
      SelectedCounts(rows[1..], column, r);
      assert rows == [rows[0]] + rows[1..];
    }
  }

  /** Selection splits over concatenation, so the rows that get a code keep their order. */
  lemma {:induction false} SelectedAppend(a: seq<Row>, b: seq<Row>, column: string)
    ensures Selected(a + b, column) == Selected(a, column) + Selected(b, column)
  {
    if a == [] {
      assert a + b == b;
    } else {
      assert (a + b)[0] == a[0] && (a + b)[1..] == a[1..] + b;
      SelectedAppend(a[1..], b, column);
    }
  }

  /** At most three codes are made, one for each row among the first three with a
      token; none exactly when all of those rows have a blank sheet cell. */
  lemma {:induction false} SelectedOfCandidates(rows: seq<Row>, column: string)
    ensures |Selected(Candidates(rows), column)| <= MaxCodes
    ensures Selected(Candidates(rows), column) == []
            <==> forall r :: r in Candidates(rows) ==> column !in r || AllSpace(r[column])
  {
    SelectedEmptyIff(Candidates(rows), column);
  }

  lemma {:induction false} SelectedEmptyIff(rows: seq<Row>, column: string)
    ensures Selected(rows, column) == []
            <==> forall r :: r in rows ==> column !in r || AllSpace(r[column])
  {
    if rows != [] {
      SelectedEmptyIff(rows[1..], column);
      TokenEmptyIff(rows[0], column);
      forall r | r in rows[1..] ensures r in rows { }
      forall r | r in rows && r != rows[0] ensures r in rows[1..] {
        var k :| 0 <= k < |rows| && rows[k] == r;
        assert rows[1..][k - 1] == r;
      }
    }
  }
}
