/**
 * Null harmonisation (`map_nulls`): a cell holding exactly one of the
 * suppression markers "#", "*" or "**" becomes null, in every column; every
 * other cell is left alone.
 */
module Nulls {
  import opened Tables

  const Sentinels: set<string> := {"#", "*", "**"}

  predicate IsSentinel(c: Cell) {
    c.Str? && c.text in Sentinels
  }

  function Harmonised(c: Cell): Cell {
    if IsSentinel(c) then Null else c
  }

  function HarmonisedRow(row: Row): (r: Row)
    ensures |r| == |row|
    ensures forall k :: 0 <= k < |row| ==> (r[k] == Null <==> row[k] == Null || IsSentinel(row[k]))
    ensures forall k :: 0 <= k < |row| && r[k] != Null ==> r[k] == row[k]
  {
    if row == [] then [] else [Harmonised(row[0])] + HarmonisedRow(row[1..])
  }

  function HarmonisedRows(rows: seq<Row>): (r: seq<Row>)
    ensures |r| == |rows|
    ensures forall i :: 0 <= i < |rows| ==> r[i] == HarmonisedRow(rows[i])
  {
    if rows == [] then [] else [HarmonisedRow(rows[0])] + HarmonisedRows(rows[1..])
  }

  /** `map_nulls`: the labels are kept, the cells harmonised. */
  function MapNulls(t: Table): (r: Table)
    ensures r.columns == t.columns && |r.rows| == |t.rows|
    ensures WellFormed(t) ==> WellFormed(r)
  {
    Table(t.columns, HarmonisedRows(t.rows))
  }

  /** A harmonised cell is never a marker. */
  lemma NoSentinelLeft(t: Table, i: nat, k: nat)
    requires i < |t.rows| && k < |t.rows[i]|
    ensures k < |MapNulls(t).rows[i]| && !IsSentinel(MapNulls(t).rows[i][k])
  {
  }

  lemma {:induction false} HarmonisedRowIdempotent(row: Row)
    ensures HarmonisedRow(HarmonisedRow(row)) == HarmonisedRow(row)
  {
    if row != [] {
      HarmonisedRowIdempotent(row[1..]);
      assert HarmonisedRow(row)[1..] == HarmonisedRow(row[1..]);
    }
  }

  /** Harmonising twice is harmonising once. */
  lemma {:induction false} MapNullsIdempotent(t: Table)
    ensures MapNulls(MapNulls(t)) == MapNulls(t)
  {
    var once := MapNulls(t).rows;
    forall i | 0 <= i < |once|
      ensures HarmonisedRow(once[i]) == once[i]
    {
      HarmonisedRowIdempotent(t.rows[i]);
    }
  }
}
