/** The roster rows and the filter that keeps the rows of one group
    (generate_qr.py:25-36). */
module Roster {
  import opened Wrappers
  import opened Text
  import opened GroupPattern

  /** A roster row as read from the table: column name to cell text. */
  type Row = map<string, string>

  const GroupColumn: string := "Gruppe"

  predicate AllHaveGroup(table: seq<Row>) {
    forall i :: 0 <= i < |table| ==> GroupColumn in table[i]
  }

  /** The group a row names: the pattern applied to its stripped `Gruppe` cell. */
  function RowGroup(row: Row): Option<nat>
    requires GroupColumn in row
  {
    ParseGroup(Strip(row[GroupColumn]))
  }

  /** The row is kept for group `g`: `match and int(match.group(1)) == group_num`. */
  predicate InGroup(row: Row, g: int) {
    GroupColumn in row && RowGroup(row).Some? && RowGroup(row).value == g
  }

  /** The rows of group `g`, in table order. */
  function Filtered(table: seq<Row>, g: int): (rows: seq<Row>)
    ensures |rows| <= |table|
  {
    if table == [] then []
    else
      var last := table[|table| - 1];
      Filtered(table[..|table| - 1], g) + (if InGroup(last, g) then [last] else [])
  }

  /** Every row of the group is kept as often as it occurs; every other row is dropped. */
  lemma {:induction false} FilteredCounts(table: seq<Row>, g: int, r: Row)
    ensures multiset(Filtered(table, g))[r] == if InGroup(r, g) then multiset(table)[r] else 0
  {
    if table != [] {
      var last := table[|table| - 1];
      var front := table[..|table| - 1];
      assert table == front + [last];
      FilteredCounts(front, g, r);
    }
  }

  /** Filtering splits over concatenation, so the kept rows keep their relative order. */
  lemma {:induction false} FilteredAppend(a: seq<Row>, b: seq<Row>, g: int)
    ensures Filtered(a + b, g) == Filtered(a, g) + Filtered(b, g)
  {
    if b == [] {
      assert a + b == a;
    } else {
      var front := b[..|b| - 1];
      assert (a + b)[..|a + b| - 1] == a + front;
      FilteredAppend(a, front, g);
    }
  }

  /** A row of the group is kept; no row outside it is. */
  lemma FilteredMembers(table: seq<Row>, g: int)
    ensures forall r :: r in Filtered(table, g) <==> r in table && InGroup(r, g)
  {
    var rows := Filtered(table, g);
    forall r ensures r in rows <==> r in table && InGroup(r, g) {
      FilteredCounts(table, g, r);
      assert r in rows <==> multiset(rows)[r] > 0;
      assert r in table <==> multiset(table)[r] > 0;
    }
  }

  /** One more row of the table: it is appended exactly when it is in the group. */
  lemma FilteredStep(table: seq<Row>, i: nat, g: int)
    requires i < |table|
    ensures Filtered(table[..i + 1], g)
            == Filtered(table[..i], g) + (if InGroup(table[i], g) then [table[i]] else [])
  {
    assert table[..i + 1][..i] == table[..i];
  }

  /** The CSV loop: each row's `Gruppe` cell is looked up (a missing column raises
      KeyError, here None) and the rows of group `g` are appended in order. */
  method FilterRows(table: seq<Row>, g: int) returns (res: Option<seq<Row>>)
    ensures res.None? <==> !AllHaveGroup(table)
    ensures res.Some? ==> res.value == Filtered(table, g)
  {
    var rows: seq<Row> := [];
    var i := 0;
    while i < |table|
      invariant 0 <= i <= |table|
      invariant AllHaveGroup(table[..i])
      invariant rows == Filtered(table[..i], g)
    {
      var row := table[i];
      if GroupColumn !in row {
        assert !AllHaveGroup(table) by { assert table[i] == row; }
        return None;
      }
      assert AllHaveGroup(table[..i + 1]) by {
        assert forall k :: 0 <= k < i ==> table[..i + 1][k] == table[..i][k];
      }
      FilteredStep(table, i, g);
      if InGroup(row, g) {
        rows := rows + [row];
      }
      i := i + 1;
    }
    assert table[..i] == table;
    return Some(rows);
  }
}
