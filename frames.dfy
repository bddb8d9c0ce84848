/** A pandas DataFrame as a column list and a sequence of rows. */
module Frames {
  import opened Sequences

  /** One cell. `Null` stands for NaN / None / NaT; `Date` for a pandas Timestamp (nanoseconds since the epoch). */
  datatype Value = Null | Str(s: string) | Num(x: real) | Bool(b: bool) | Date(ns: int)

  /** A row maps each column label to its cell. */
  type Row = map<string, Value>

  /** Column labels in display order, and the rows in index order. */
  datatype Frame = Frame(columns: seq<string>, rows: seq<Row>)

  predicate HasColumns(row: Row, columns: seq<string>) {
    row.Keys == set c | c in columns
  }

  /** Labels are unique and every row has a cell for exactly the frame's columns. */
  predicate WellFormed(f: Frame) {
    Distinct(f.columns) && forall row :: row in f.rows ==> HasColumns(row, f.columns)
  }

  /** `df[name]` as a list of cells. */
  function Column(f: Frame, name: string): (r: seq<Value>)
    requires WellFormed(f) && name in f.columns
    ensures |r| == |f.rows|
    ensures forall k :: 0 <= k < |f.rows| ==> name in f.rows[k] && r[k] == f.rows[k][name]
  {
    assert forall k :: 0 <= k < |f.rows| ==> name in f.rows[k] by {
      forall k | 0 <= k < |f.rows| ensures name in f.rows[k] {
        assert f.rows[k] in f.rows;
      }
    }
    seq(|f.rows|, k requires 0 <= k < |f.rows| => f.rows[k][name])
  }

  /** `df[name] = vals`: overwrite the column in place, or append it as the last column. */
  function SetColumn(f: Frame, name: string, vals: seq<Value>): (r: Frame)
    requires |vals| == |f.rows|
    ensures WellFormed(f) ==> WellFormed(r)
    ensures r.columns == if name in f.columns then f.columns else f.columns + [name]
    ensures |r.rows| == |f.rows|
    ensures forall k :: 0 <= k < |f.rows| ==> r.rows[k] == f.rows[k][name := vals[k]]
  {
    var columns := if name in f.columns then f.columns else f.columns + [name];
    var rows := seq(|f.rows|, k requires 0 <= k < |f.rows| => f.rows[k][name := vals[k]]);
    assert WellFormed(f) ==> WellFormed(Frame(columns, rows)) by {
      if WellFormed(f) {
        forall row | row in rows ensures HasColumns(row, columns) {
          var k :| 0 <= k < |rows| && rows[k] == row;
          assert f.rows[k] in f.rows;
        }
      }
    }
    Frame(columns, rows)
  }

  /** `df.loc[mask, name] = vals`: only the masked rows change; on a column the frame has, it stays well formed. */
  function AssignWhere(f: Frame, mask: seq<bool>, name: string, vals: seq<Value>): (r: Frame)
    requires |mask| == |vals| == |f.rows|
    ensures WellFormed(f) && name in f.columns ==> WellFormed(r)
    ensures r.columns == f.columns
    ensures |r.rows| == |f.rows|
    ensures forall k :: 0 <= k < |f.rows| ==> r.rows[k] == if mask[k] then f.rows[k][name := vals[k]] else f.rows[k]
  {
    var r := Frame(f.columns, seq(|f.rows|, k requires 0 <= k < |f.rows| => if mask[k] then f.rows[k][name := vals[k]] else f.rows[k]));
    assert WellFormed(f) && name in f.columns ==> WellFormed(r) by {
      if WellFormed(f) && name in f.columns {
        forall row | row in r.rows ensures HasColumns(row, r.columns) {
          var k :| 0 <= k < |r.rows| && r.rows[k] == row;
          assert f.rows[k] in f.rows;
        }
      }
    }
    r
  }

  /** Assigning a column's own values back to it, under any mask, leaves the frame as it was. */
  lemma SelfAssignmentIsNoOp(f: Frame, mask: seq<bool>, name: string)
    requires WellFormed(f) && name in f.columns && |mask| == |f.rows|
    ensures AssignWhere(f, mask, name, Column(f, name)) == f
  {
    var r := AssignWhere(f, mask, name, Column(f, name));
    forall k | 0 <= k < |f.rows| ensures r.rows[k] == f.rows[k] {
      if mask[k] {
        assert f.rows[k][name := f.rows[k][name]] == f.rows[k];
      }
    }
    assert r.rows == f.rows;
  }
}
