/**
 * What the commands ask of the table printer: a header row, data rows, and
 * an ordering of the rows by a list of columns (Sort orders by every column
 * in turn, SortByColumn by the columns it is given). Column widths and line
 * separators are not modelled; a table is its header and its rows.
 */
module Tables {
  import opened Text

  type Row = seq<string>

  datatype Table = Table(headers: Row, rows: seq<Row>)

  /** The text in column `c`, or the empty string for a short row. */
  function Cell(r: Row, c: nat): string
  {
    if c < |r| then r[c] else ""
  }

  /** The cells of `r` in the listed columns, in the order listed. */
  function Key(cols: seq<nat>, r: Row): (key: seq<string>)
    ensures |key| == |cols|
    ensures forall i :: 0 <= i < |cols| ==> key[i] == Cell(r, cols[i])
  {
    if cols == [] then [] else [Cell(r, cols[0])] + Key(cols[1..], r)
  }

  /** Lexicographic order of keys: the first differing cell decides. */
  predicate KeyLeq(a: seq<string>, b: seq<string>)
    decreases |a|
  {
    a == [] || (b != [] && ((StrLeq(a[0], b[0]) && a[0] != b[0]) || (a[0] == b[0] && KeyLeq(a[1..], b[1..]))))
  }

  lemma {:induction false} KeyLeqTotal(a: seq<string>, b: seq<string>)
    requires |a| == |b|
    ensures KeyLeq(a, b) || KeyLeq(b, a)
    decreases |a|
  {
    if a != [] {
      if a[0] == b[0] {
        KeyLeqTotal(a[1..], b[1..]);
      } else {
        StrLeqTotal(a[0], b[0]);
      }
    }
  }

  lemma {:induction false} KeyLeqTrans(a: seq<string>, b: seq<string>, c: seq<string>)
    requires KeyLeq(a, b) && KeyLeq(b, c)
    ensures KeyLeq(a, c)
    decreases |a|
  {
    if a != [] {
      if a[0] == b[0] && b[0] == c[0] {
        KeyLeqTrans(a[1..], b[1..], c[1..]);
      } else {
        StrLeqRefl(b[0]);
        StrLeqTrans(a[0], b[0], c[0]);
        if a[0] == c[0] {
          StrLeqAntisym(a[0], b[0]);
        }
      }
    }
  }

  predicate RowLeq(cols: seq<nat>, x: Row, y: Row)
  {
    KeyLeq(Key(cols, x), Key(cols, y))
  }

  /** Each row is at most its successor in the listed columns. */
  predicate RowsSorted(cols: seq<nat>, rows: seq<Row>)
  {
    forall i :: 0 < i < |rows| ==> RowLeq(cols, rows[i - 1], rows[i])
  }

  /** Inserts `x` into the sorted `s` before the first row it does not exceed. */
  function InsertRow(cols: seq<nat>, x: Row, s: seq<Row>): (r: seq<Row>)
    requires RowsSorted(cols, s)
    ensures RowsSorted(cols, r)
    ensures multiset(r) == multiset(s) + multiset{x}
    ensures |r| == |s| + 1 && (r[0] == x || (s != [] && r[0] == s[0]))
  {
    if s == [] then [x]
    else if RowLeq(cols, x, s[0]) then [x] + s
    else
      KeyLeqTotal(Key(cols, x), Key(cols, s[0]));
      assert s == [s[0]] + s[1..];
      [s[0]] + InsertRow(cols, x, s[1..])
  }

  /** The row order the table printer is asked for: a permutation of `rows` ascending in `cols`. */
  function SortRows(cols: seq<nat>, rows: seq<Row>): (r: seq<Row>)
    ensures RowsSorted(cols, r)
    ensures multiset(r) == multiset(rows)
  {
    if rows == [] then []
    else
      assert rows == [rows[0]] + rows[1..];
      InsertRow(cols, rows[0], SortRows(cols, rows[1..]))
  }

  /** Sortedness of neighbours extends to every pair of rows. */
  lemma {:induction false} RowsSortedPairwise(cols: seq<nat>, rows: seq<Row>, i: int, j: int)
    requires RowsSorted(cols, rows) && 0 <= i < j < |rows|
    ensures RowLeq(cols, rows[i], rows[j])
    decreases j - i
  {
    if i + 1 < j {
      RowsSortedPairwise(cols, rows, i, j - 1);
      KeyLeqTrans(Key(cols, rows[i]), Key(cols, rows[j - 1]), Key(cols, rows[j]));
    }
  }

  /**
   * Rows sorted by columns 0 and 1: of any two rows, the earlier one has the
   * smaller or equal first cell, and when the first cells are equal, the
   * smaller or equal second cell.
   */
  lemma OrderedByTwoColumns(rows: seq<Row>, i: int, j: int)
    requires RowsSorted([0, 1], rows) && 0 <= i < j < |rows|
    ensures StrLeq(Cell(rows[i], 0), Cell(rows[j], 0))
    ensures Cell(rows[i], 0) == Cell(rows[j], 0) ==> StrLeq(Cell(rows[i], 1), Cell(rows[j], 1))
  {
    RowsSortedPairwise([0, 1], rows, i, j);
    var a, b := Key([0, 1], rows[i]), Key([0, 1], rows[j]);
    assert a[1..] == [Cell(rows[i], 1)] && b[1..] == [Cell(rows[j], 1)];
    if Cell(rows[i], 0) == Cell(rows[j], 0) {
      StrLeqRefl(a[0]);
      assert KeyLeq(a[1..], b[1..]);
      var x, y := a[1..], b[1..];
      assert (StrLeq(x[0], y[0]) && x[0] != y[0]) || x[0] == y[0];
      StrLeqRefl(x[0]);
    }
  }
}
