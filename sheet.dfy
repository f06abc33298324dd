/**
 * The worksheet the server keeps its licenses in, reduced to what the handlers use:
 * a table of rows with four text cells each (columns A to D), a linear scan of the
 * key column, and a write of one whole row.
 */
module Sheet {
  import opened Wrappers
  import opened PyText

  /**
   * One license row: machine key (A), activated-at (B), expires-at (C) and the run
   * count as text (D). A cell the sheet reports as missing is the empty string.
   */
  datatype Row = Row(key: string, activated: string, expires: string, runCount: string)

  /** A row none of whose four cells holds anything. */
  const BlankRow := Row("", "", "", "")

  /** `n` blank rows. */
  function Blanks(n: nat): (b: seq<Row>)
    ensures |b| == n
    ensures forall j {:trigger b[j]} :: 0 <= j < n ==> b[j] == BlankRow
  {
    if n == 0 then [] else Blanks(n - 1) + [BlankRow]
  }

  /** The scan compares the stripped stored key with the query as it was sent. */
  predicate Matches(row: Row, machineKey: string) {
    Strip(row.key) == machineKey
  }

  /** Column A, one entry per row. */
  function KeyColumn(rows: seq<Row>): (keys: seq<string>)
    ensures |keys| == |rows|
    ensures forall j {:trigger keys[j]} :: 0 <= j < |rows| ==> keys[j] == rows[j].key
  {
    seq(|rows|, j requires 0 <= j < |rows| => rows[j].key)
  }

  /** The 1-based number of the first row whose stripped key equals `machineKey`. */
  function FindRow(rows: seq<Row>, machineKey: string): (r: Option<nat>)
    ensures r.Some? ==> 1 <= r.value <= |rows| && Matches(rows[r.value - 1], machineKey)
    ensures r.Some? ==> forall j {:trigger Matches(rows[j], machineKey)} :: 0 <= j < r.value - 1 ==> !Matches(rows[j], machineKey)
    ensures r.None? ==> forall j {:trigger Matches(rows[j], machineKey)} :: 0 <= j < |rows| ==> !Matches(rows[j], machineKey)
  {
    if rows == [] then None
    else
      match FindRow(rows[..|rows| - 1], machineKey)
      case Some(i) => Some(i)
      case None => if Matches(rows[|rows| - 1], machineKey) then Some(|rows|) else None
  }

  /**
   * The table after cells A..D of row `row` (1-based) are set to the four cells of `r`.
   * A row beyond the end of the table extends it, with blank rows in between.
   */
  function Written(rows: seq<Row>, row: nat, r: Row): (rows': seq<Row>)
    requires row >= 1
    ensures |rows'| == if row <= |rows| then |rows| else row
    ensures rows'[row - 1] == r
    ensures forall j {:trigger rows'[j]} :: 0 <= j < |rows| && j != row - 1 ==> rows'[j] == rows[j]
    ensures forall j {:trigger rows'[j]} :: |rows| <= j < row - 1 ==> rows'[j] == BlankRow
  {
    if row <= |rows| then rows[row - 1 := r]
    else rows + Blanks(row - 1 - |rows|) + [r]
  }

  /** The worksheet, a table the handlers read and overwrite in place. */
  class Worksheet {
    var rows: seq<Row>

    constructor (rows: seq<Row>)
      ensures this.rows == rows
    {
      this.rows := rows;
    }

    /** Scans column A top to bottom and stops at the first stripped match. */
    method FindRowByKey(machineKey: string) returns (r: Option<nat>)
      ensures r == FindRow(rows, machineKey)
    {
      var keys := KeyColumn(rows);
      for idx := 0 to |keys|
        invariant forall j :: 0 <= j < idx ==> !Matches(rows[j], machineKey)
      {
        if Strip(keys[idx]) == machineKey {
          FirstMatchIsFound(rows, machineKey, idx + 1);
          return Some(idx + 1);
        }
      }
      return None;
    }

    /** One batched update of cells A..D of `row`, the run count written as `str(runCount)`. */
    method EnsureRow(row: nat, machineKey: string, activated: string, expires: string, runCount: int)
      requires row >= 1
      modifies this
      ensures rows == Written(old(rows), row, Row(machineKey, activated, expires, FormatInt(runCount)))
    {
      var r := Row(machineKey, activated, expires, FormatInt(runCount));
      if row <= |rows| {
        rows := rows[row - 1 := r];
      } else {
        rows := rows + Blanks(row - 1 - |rows|) + [r];
      }
    }
  }

  /** A matching row with none before it is what FindRow returns. */
  lemma FirstMatchIsFound(rows: seq<Row>, machineKey: string, row: nat)
    requires 1 <= row <= |rows| && Matches(rows[row - 1], machineKey)
    requires forall j {:trigger Matches(rows[j], machineKey)} :: 0 <= j < row - 1 ==> !Matches(rows[j], machineKey)
    ensures FindRow(rows, machineKey) == Some(row)
  {
  }

  /** A query with surrounding whitespace matches no row, since stored keys are compared stripped. */
  lemma PaddedKeyNeverFound(rows: seq<Row>, machineKey: string)
    requires !Unpadded(machineKey)
    ensures FindRow(rows, machineKey) == None
  {
    if FindRow(rows, machineKey).Some? {
      StripUnpadded(rows[FindRow(rows, machineKey).value - 1].key);
    }
  }

  /** A stored key with whitespace around it still matches the bare query. */
  lemma StoredPaddingIgnored(row: Row, a: string, machineKey: string, b: string)
    requires forall k :: 0 <= k < |a| ==> IsSpace(a[k])
    requires forall k :: 0 <= k < |b| ==> IsSpace(b[k])
    requires machineKey != [] && Unpadded(machineKey)
    requires row.key == a + machineKey + b
    ensures Matches(row, machineKey)
  {
    StripSurrounding(a, machineKey, b);
  }

  /**
   * After the row that the scan found, or the row just past the end, is written with a
   * non-empty key that matches, the scan finds that row. The key cell must be non-empty: the
   * sheet's key column omits trailing empty cells.
   */
  lemma {:induction false} FoundAfterWrite(rows: seq<Row>, row: nat, r: Row, machineKey: string)
    requires row >= 1 && Matches(r, machineKey) && r.key != ""
    requires FindRow(rows, machineKey) == Some(row)
          || (FindRow(rows, machineKey) == None && row == |rows| + 1)
    ensures FindRow(Written(rows, row, r), machineKey) == Some(row)
  {
    var rows' := Written(rows, row, r);
    assert Matches(rows'[row - 1], machineKey);
    forall j | 0 <= j < row - 1
      ensures !Matches(rows'[j], machineKey)
    {
      assert rows'[j] == rows[j];
      assert !Matches(rows[j], machineKey);
    }
    FirstMatchIsFound(rows', machineKey, row);
  }
}
